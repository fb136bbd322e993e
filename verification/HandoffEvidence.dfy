/** What the host must have witnessed, and in which order, before it calls a handoff verified. */
module HandoffEvidence {
  import opened Prelude
  import opened Handoff
  import opened HandoffSafety

  /** One thing that the host can witness. */
  datatype Item =
    | MarkerRead       // a rotation attempt printed its marker
    | RebootNoticed    // an attempt ended after a reboot of the guest was observed
    | BarrierPassed    // the answer to the barrier has come
    | RebootAwaited    // the wait for a reboot was over because one was observed
    | ForcedAwaited    // the same for the reset that the host commanded
    | NewKeyIn         // a probe with the per-launch key authenticated
    | OldKeyRefused    // a probe with the bootstrap key was rejected

  const MARKER := [MarkerRead, BarrierPassed, RebootAwaited]
  const LOST := [RebootNoticed, NewKeyIn, BarrierPassed, ForcedAwaited]

  /** After either path: the first login, the readiness login, and the three probes of the verification. */
  const FINAL := [NewKeyIn, NewKeyIn, NewKeyIn, OldKeyRefused, NewKeyIn]

  /** The state before action `i`. */
  function At(s: State, acts: seq<Action>, i: nat): State
    requires i <= |acts|
  {
    Exec(s, acts[..i])
  }

  /** Action `i` is a probe that gave a result. */
  predicate IsProbe(s: State, acts: seq<Action>, i: nat)
    requires i < |acts|
  {
    acts[i].Login? && Truthful(At(s, acts, i).guest, ProbedKey(At(s, acts, i).host.pc), acts[i].probe)
  }

  /** A probe that offered this key and gave this result. */
  predicate ShowsIn(s: State, a: Action, key: Key, p: Probe) {
    a == Login(p) && ProbedKey(s.host.pc) == key && Truthful(s.guest, key, p)
  }

  /** What the step `a` from `s` would witness. */
  predicate WitnessedIn(s: State, a: Action, item: Item) {
    match item
    case MarkerRead =>
      a.Outcome? && a.marker && s.host.pc.Attempt? && s.host.pc.id.Some? && s.host.pc.id.value in s.guest.markers
    case RebootNoticed => a.Outcome? && s.host.pc.Attempt? && s.host.rebootObserved
    case BarrierPassed => a.Proceed? && s.qmp.barrier.Answered?
    case RebootAwaited => a.Proceed? && s.host.rebootObserved
    case ForcedAwaited => a.Proceed? && s.host.forcedObserved
    case NewKeyIn => ShowsIn(s, a, PerLaunch, Authenticated)
    case OldKeyRefused => ShowsIn(s, a, Bootstrap, Rejected)
  }

  predicate Witnessed(s: State, acts: seq<Action>, item: Item, i: nat)
    requires i < |acts|
  {
    WitnessedIn(At(s, acts, i), acts[i], item)
  }

  /** No probe gave a result between these two actions. */
  predicate NoProbe(s: State, acts: seq<Action>, i: nat, j: nat)
    requires j <= |acts|
  {
    forall m | i < m < j :: !IsProbe(s, acts, m)
  }

  /** The items were witnessed in order at `e`; from item `tight` on no other probe gave a result between them. */
  ghost predicate Evidence(s: State, acts: seq<Action>, items: seq<Item>, e: seq<nat>, tight: nat) {
    && |e| == |items|
    && (forall k | 0 <= k < |e| :: e[k] < |acts| && Witnessed(s, acts, items[k], e[k]))
    && (forall k | 0 <= k < |e| - 1 :: e[k] < e[k + 1])
    && (forall k | tight <= k < |e| - 1 :: NoProbe(s, acts, e[k], e[k + 1]))
  }

  /** How much of FINAL has been witnessed; `None` before the first reset. */
  function Passed(pc: Pc): Option<nat> {
    match pc
    case ProbeAfterReboot => Some(0)
    case ProbeAfterForced => Some(0)
    case Ready => Some(1)
    case Verify1 => Some(2)
    case Verify2 => Some(3)
    case Verify3 => Some(4)
    case Launched => Some(5)
    case _ => None
  }

  /** What the host has witnessed on its way to each state. */
  ghost predicate Needs(pc: Pc, path: seq<Item>, items: seq<Item>) {
    match pc
    case MarkerBarrier => path == items == MARKER[..1]
    case AwaitReboot => path == items == MARKER[..2]
    case ProbeAfterReboot => path == items == MARKER
    case LostProbe => path == items == LOST[..1]
    case LostBarrier => path == items == LOST[..2]
    case ForceReset => path == items == LOST[..3]
    case AwaitForced => path == items == LOST[..3]
    case ProbeAfterForced => path == items == LOST
    case Rotating => path == items == []
    case Attempt(_) => path == items == []
    case Failed => path == items == []
    case _ => (path == MARKER || path == LOST) && items == path + FINAL[..Passed(pc).value]
  }

  ghost predicate Trail(s: State, acts: seq<Action>, path: seq<Item>, items: seq<Item>, e: seq<nat>) {
    && Needs(Exec(s, acts).host.pc, path, items)
    && Evidence(s, acts, items, e, |path| + 1)
    && (Exec(s, acts).host.pc in {Verify1, Verify2, Verify3} ==> e != [] && NoProbe(s, acts, e[|e| - 1], |acts|))
  }

  lemma ProbesSame(s: State, acts: seq<Action>, a: Action)
    ensures forall m | 0 <= m < |acts| :: IsProbe(s, acts + [a], m) == IsProbe(s, acts, m)
  {
    forall m | 0 <= m < |acts|
      ensures IsProbe(s, acts + [a], m) == IsProbe(s, acts, m)
    {
      assert (acts + [a])[..m] == acts[..m];
    }
  }

  /** What was witnessed stays witnessed. */
  lemma EvidenceStays(s: State, acts: seq<Action>, a: Action, items: seq<Item>, e: seq<nat>, tight: nat)
    requires Evidence(s, acts, items, e, tight)
    ensures Evidence(s, acts + [a], items, e, tight)
  {
    forall i | 0 <= i <= |acts|
      ensures At(s, acts + [a], i) == At(s, acts, i)
    {
      assert (acts + [a])[..i] == acts[..i];
    }
    forall k | 0 <= k < |e|
      ensures Witnessed(s, acts + [a], items[k], e[k])
    {
      assert Witnessed(s, acts, items[k], e[k]);
    }
    forall k | tight <= k < |e| - 1
      ensures NoProbe(s, acts + [a], e[k], e[k + 1])
    {
      assert NoProbe(s, acts, e[k], e[k + 1]) && e[k + 1] < |acts|;
      ProbesSame(s, acts, a);
    }
  }

  lemma EvidenceMore(s: State, acts: seq<Action>, a: Action, items: seq<Item>, e: seq<nat>, tight: nat, item: Item)
    requires Evidence(s, acts, items, e, tight) && Witnessed(s, acts + [a], item, |acts|)
    requires tight < |e| ==> NoProbe(s, acts, e[|e| - 1], |acts|)
    ensures Evidence(s, acts + [a], items + [item], e + [|acts|], tight)
    ensures NoProbe(s, acts + [a], |acts|, |acts| + 1)
  {
    EvidenceStays(s, acts, a, items, e, tight);
    if e != [] {
      assert Witnessed(s, acts, items[|e| - 1], e[|e| - 1]);
      QuietStays(s, acts, a, e[|e| - 1]);
    }
    EvidenceAppend(s, acts + [a], items, e, tight, item, |acts|);
  }

  lemma EvidenceAppend(s: State, acts: seq<Action>, items: seq<Item>, e: seq<nat>, tight: nat, item: Item, k: nat)
    requires Evidence(s, acts, items, e, tight) && k < |acts| && Witnessed(s, acts, item, k)
    requires e != [] ==> e[|e| - 1] < k
    requires e != [] && tight < |e| ==> NoProbe(s, acts, e[|e| - 1], k)
    ensures Evidence(s, acts, items + [item], e + [k], tight)
  {
  }

  lemma QuietStays(s: State, acts: seq<Action>, a: Action, i: nat)
    ensures NoProbe(s, acts, i, |acts|) ==> NoProbe(s, acts + [a], i, |acts|)
    ensures NoProbe(s, acts, i, |acts|) && !IsProbe(s, acts + [a], |acts|) ==> NoProbe(s, acts + [a], i, |acts| + 1)
  {
    ProbesSame(s, acts, a);
  }

  // ---- One step -------------------------------------------------------------------------------

  /** What a step that moves the host on has witnessed. */
  function Witness(pc: Pc, next: Pc): Option<Item> {
    match next
    case MarkerBarrier => Some(MarkerRead)
    case LostProbe => Some(RebootNoticed)
    case AwaitReboot => Some(BarrierPassed)
    case ForceReset => Some(BarrierPassed)
    case ProbeAfterReboot => Some(RebootAwaited)
    case ProbeAfterForced => Some(ForcedAwaited)
    case LostBarrier => Some(NewKeyIn)
    case Ready => Some(NewKeyIn)
    case Verify1 => Some(NewKeyIn)
    case Verify2 => Some(NewKeyIn)
    case Verify3 => Some(OldKeyRefused)
    case Launched => Some(NewKeyIn)
    case _ => None
  }

  /** The order of the host's states. */
  predicate Follows(pc: Pc, next: Pc) {
    match next
    case MarkerBarrier => pc.Attempt?
    case LostProbe => pc.Attempt?
    case AwaitReboot => pc.MarkerBarrier?
    case ProbeAfterReboot => pc.AwaitReboot?
    case LostBarrier => pc.LostProbe?
    case ForceReset => pc.LostBarrier?
    case AwaitForced => pc.ForceReset?
    case ProbeAfterForced => pc.AwaitForced?
    case Ready => pc.ProbeAfterReboot? || pc.ProbeAfterForced?
    case Verify1 => pc.Ready?
    case Verify2 => pc.Verify1?
    case Verify3 => pc.Verify2?
    case Launched => pc.Verify3?
    case Rotating => pc.Attempt?
    case Attempt(_) => pc.Rotating?
    case Failed => true
  }

  lemma Now(s: State, acts: seq<Action>, a: Action)
    ensures At(s, acts + [a], |acts|) == Exec(s, acts) && Exec(s, acts + [a]) == Step(Exec(s, acts), a)
  {
    assert (acts + [a])[..|acts|] == acts;
  }

  /** The program's steps, and those of anybody else. */
  predicate IsHosts(a: Action) {
    a.Connect? || a.Outcome? || a.Proceed? || a.Login? || a.GiveUp? || a.Stage?
  }

  lemma OthersLeaveHost(s: State, a: Action)
    requires !IsHosts(a)
    ensures Step(s, a).host.pc == s.host.pc && Step(s, a).host.staged == s.host.staged
    ensures Step(s, a).host.ephemeralKey == s.host.ephemeralKey && Step(s, a).host.pinned == s.host.pinned
    ensures Step(s, a).host.verified == s.host.verified
  {
  }

  /** The host only moves on when it has witnessed what the next state needs, and in this order. */
  ghost predicate MovesWell(s: State, a: Action) {
    var pc, next := s.host.pc, Step(s, a).host.pc;
    next != pc ==>
      Follows(pc, next) && (Witness(pc, next).Some? ==> WitnessedIn(s, a, Witness(pc, next).value))
  }

  lemma LoginMoves(s: State, p: Probe)
    ensures MovesWell(s, Login(p))
  {
  }

  lemma WaitMoves(s: State)
    ensures MovesWell(s, Proceed)
  {
  }

  lemma AttemptMoves(s: State, a: Action)
    requires a.Connect? || a.Outcome?
    ensures MovesWell(s, a)
  {
  }

  lemma StepMoves(s: State, a: Action)
    ensures MovesWell(s, a)
  {
    if !IsHosts(a) {
      OthersLeaveHost(s, a);
    } else if a.Login? {
      LoginMoves(s, a.probe);
    } else if a.Proceed? {
      WaitMoves(s);
    } else if a.Connect? || a.Outcome? {
      AttemptMoves(s, a);
    }
  }

  lemma MovesOnWitness(s: State, acts: seq<Action>, a: Action)
    ensures var pc, next := Exec(s, acts).host.pc, Exec(s, acts + [a]).host.pc;
            next != pc ==>
              Follows(pc, next)
              && (Witness(pc, next).Some? ==> Witnessed(s, acts + [a], Witness(pc, next).value, |acts|))
  {
    Now(s, acts, a);
    StepMoves(Exec(s, acts), a);
  }

  lemma NeedsMore(pc: Pc, next: Pc, path: seq<Item>, items: seq<Item>)
    returns (path': seq<Item>)
    requires Needs(pc, path, items) && next != pc && Witness(pc, next).Some? && Follows(pc, next)
    ensures Needs(next, path', items + [Witness(pc, next).value])
    ensures Passed(pc).Some? ==> path' == path
    ensures Passed(next) in {None, Some(0)} ==> |items| < |path'| + 1
  {
    path' := if Passed(pc).Some? then path else items + [Witness(pc, next).value];
  }

  /** While the verification is on, every result of a probe moves the host. */
  lemma ProbesMove(s: State, acts: seq<Action>, a: Action)
    requires Exec(s, acts).host.pc in {Verify1, Verify2, Verify3}
    requires Exec(s, acts + [a]).host.pc == Exec(s, acts).host.pc
    ensures !IsProbe(s, acts + [a], |acts|)
  {
    Now(s, acts, a);
  }

  /** A step that is a witness of something adds it to the trail. */
  lemma TrailGrows(s: State, acts: seq<Action>, a: Action, path: seq<Item>, items: seq<Item>, e: seq<nat>)
    returns (path': seq<Item>, items': seq<Item>, e': seq<nat>)
    requires Trail(s, acts, path, items, e)
    requires Exec(s, acts + [a]).host.pc != Exec(s, acts).host.pc
    requires Witness(Exec(s, acts).host.pc, Exec(s, acts + [a]).host.pc).Some?
    ensures Trail(s, acts + [a], path', items', e')
  {
    var pc, next := Exec(s, acts).host.pc, Exec(s, acts + [a]).host.pc;
    MovesOnWitness(s, acts, a);
    var item := Witness(pc, next).value;
    path' := NeedsMore(pc, next, path, items);
    items', e' := items + [item], e + [|acts|];
    EvidenceMore(s, acts, a, items, e, |path'| + 1, item);
  }

  lemma TrailMoves(s: State, acts: seq<Action>, a: Action, path: seq<Item>, items: seq<Item>, e: seq<nat>)
    returns (path': seq<Item>, items': seq<Item>, e': seq<nat>)
    requires Trail(s, acts, path, items, e)
    requires Exec(s, acts + [a]).host.pc != Exec(s, acts).host.pc
    ensures Trail(s, acts + [a], path', items', e')
  {
    var pc, next := Exec(s, acts).host.pc, Exec(s, acts + [a]).host.pc;
    MovesOnWitness(s, acts, a);
    if Witness(pc, next).Some? {
      path', items', e' := TrailGrows(s, acts, a, path, items, e);
    } else if next.AwaitForced? {
      path', items', e' := path, items, e;
      EvidenceStays(s, acts, a, items, e, |path| + 1);
    } else {
      path', items', e' := [], [], [];
    }
  }

  lemma TrailStays(s: State, acts: seq<Action>, a: Action, path: seq<Item>, items: seq<Item>, e: seq<nat>)
    requires Trail(s, acts, path, items, e) && Exec(s, acts + [a]).host.pc == Exec(s, acts).host.pc
    ensures Trail(s, acts + [a], path, items, e)
  {
    EvidenceStays(s, acts, a, items, e, |path| + 1);
    if Exec(s, acts).host.pc in {Verify1, Verify2, Verify3} {
      ProbesMove(s, acts, a);
      QuietStays(s, acts, a, e[|e| - 1]);
    }
  }

  lemma {:induction false} HasTrail(s: State, acts: seq<Action>)
    returns (path: seq<Item>, items: seq<Item>, e: seq<nat>)
    requires Init(s)
    ensures Trail(s, acts, path, items, e)
    decreases |acts|
  {
    if acts == [] {
      path, items, e := [], [], [];
    } else {
      var most, last := acts[..|acts| - 1], acts[|acts| - 1];
      assert acts == most + [last];
      path, items, e := HasTrail(s, most);
      if Exec(s, acts).host.pc == Exec(s, most).host.pc {
        TrailStays(s, most, last, path, items, e);
      } else {
        path, items, e := TrailMoves(s, most, last, path, items, e);
      }
    }
  }

  /**
   A handoff is only called verified on proof: in every run, the host has witnessed
   everything of the marker path or of the lost-marker path, then a login with the
   new key, another one, and then the three probes of the verification, one right after
   the other: the new key is in, the bootstrap key is rejected, the new key is in.
   */
  lemma VerifiedOnProof(s: State, acts: seq<Action>)
    returns (path: seq<Item>, e: seq<nat>)
    requires Init(s) && Exec(s, acts).host.verified
    ensures path == MARKER || path == LOST
    ensures Evidence(s, acts, path + FINAL, e, |path| + 1)
  {
    ExecInv(s, acts);
    var items;
    path, items, e := HasTrail(s, acts);
    assert FINAL[..5] == FINAL;
  }

  // ---- The gates of staging -----------------------------------------------------------------

  /** A record is staged by the session alone, and only behind all three gates. */
  lemma StagingIsGated(s: State, a: Action)
    ensures Step(s, a).host.staged > s.host.staged ==>
              a.Stage? && s.host.ephemeralKey && s.host.pinned && s.host.verified
    ensures Step(s, a).host.ephemeralKey == s.host.ephemeralKey && Step(s, a).host.pinned == s.host.pinned
    ensures s.host.verified && s.host.pc.Launched? ==> Step(s, a).host.verified
  {
    if !IsHosts(a) {
      OthersLeaveHost(s, a);
    } else if a.Login? {
      LoginLeavesGates(s, a.probe);
    }
  }

  lemma LoginLeavesGates(s: State, p: Probe)
    ensures var h := Step(s, Login(p)).host;
            && h.staged == s.host.staged && h.ephemeralKey == s.host.ephemeralKey && h.pinned == s.host.pinned
            && (s.host.verified ==> h.verified)
  {
    ProbedLeaves(s, p);
  }

  /** A probe's result may only move the host on, verify it, or make it ask for the barrier. */
  lemma ProbedLeaves(s: State, p: Probe)
    ensures var h := Probed(s, p).host;
            && h.staged == s.host.staged && h.ephemeralKey == s.host.ephemeralKey && h.pinned == s.host.pinned
            && (s.host.verified ==> h.verified) && h.rebootObserved == s.host.rebootObserved
            && (h.forcedObserved ==> s.host.forcedObserved)
  {
  }

  /** So without a per-launch key, a pinned host key and a verified handoff nothing is ever staged. */
  lemma {:induction false} StagedBehindGates(s: State, acts: seq<Action>)
    requires Init(s)
    ensures Exec(s, acts).host.staged > 0 ==> s.host.ephemeralKey && s.host.pinned && Exec(s, acts).host.verified
    ensures Exec(s, acts).host.ephemeralKey == s.host.ephemeralKey && Exec(s, acts).host.pinned == s.host.pinned
  {
    ExecInv(s, acts);
    if acts != [] {
      var most, last := acts[..|acts| - 1], acts[|acts| - 1];
      StagedBehindGates(s, most);
      StagingIsGated(Exec(s, most), last);
    }
  }

  /** The two flags of the host are set by the delivery of such an event alone. */
  lemma FlagsAreObserved(s: State, a: Action)
    ensures Step(s, a).host.rebootObserved && !s.host.rebootObserved ==>
              a.Deliver? && s.qmp.wire != [] && s.qmp.wire[0].Happened? && IsGuestReboot(s.qmp.wire[0].event)
    ensures Step(s, a).host.forcedObserved && !s.host.forcedObserved ==>
              a.Deliver? && s.qmp.wire != [] && s.qmp.wire[0].Happened? && IsHostReset(s.qmp.wire[0].event)
  {
    if a.Login? {
      LoginLeavesFlags(s, a.probe);
    } else if !a.Deliver? {
      OthersLeaveFlags(s, a);
    }
  }

  lemma LoginLeavesFlags(s: State, p: Probe)
    ensures var h := Step(s, Login(p)).host;
            h.rebootObserved == s.host.rebootObserved && (h.forcedObserved ==> s.host.forcedObserved)
  {
    ProbedLeaves(s, p);
  }

  lemma OthersLeaveFlags(s: State, a: Action)
    requires !a.Login? && !a.Deliver?
    ensures var h := Step(s, a).host;
            (h.rebootObserved ==> s.host.rebootObserved) && (h.forcedObserved ==> s.host.forcedObserved)
  {
  }
}
