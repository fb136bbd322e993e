/** Safety of the handoff over every run, and two runs that complete it. */
module HandoffSafety {
  import opened Prelude
  import opened Handoff

  lemma {:induction false} AfterReplyAppend(wire: seq<Message>, m: Message)
    ensures BarrierReply in wire ==> AfterReply(wire + [m]) == AfterReply(wire) + [m]
    ensures BarrierReply !in wire && m.BarrierReply? ==> AfterReply(wire + [m]) == []
  {
    if wire != [] {
      assert (wire + [m])[1..] == wire[1..] + [m];
      if !wire[0].BarrierReply? {
        AfterReplyAppend(wire[1..], m);
      }
    }
  }

  /** What a new event may do to the messages after the barrier. */
  lemma SendNewer(q: Qmp, e: Event, guest: bool)
    requires BarrierOk(q)
    ensures BarrierOk(Send(q, e))
    ensures Saw(Newer(Send(q, e)), guest) ==>
              Saw(Newer(q), guest) || (!q.barrier.Unasked? && !q.barrier.Asked? && IsReset(Happened(e), guest))
    ensures Saw(Send(q, e).wire, guest) ==> Saw(q.wire, guest) || IsReset(Happened(e), guest)
  {
    AfterReplyAppend(q.wire, Happened(e));
    NoReplyAfter(q.wire, Happened(e));
  }

  lemma {:induction false} NoReplyAfter(wire: seq<Message>, m: Message)
    ensures BarrierReply !in wire && m.Happened? ==> AfterReply(wire + [m]) == []
    ensures BarrierReply !in wire ==> AfterReply(wire) == []
  {
    if wire != [] {
      assert (wire + [m])[1..] == wire[1..] + [m];
      NoReplyAfter(wire[1..], m);
    }
  }

  lemma ResetInv(s: State, left: set<Key>, e: Event)
    requires Inv(s) && left in s.guest.mayRead && (IsGuestReboot(e) || IsHostReset(e))
    ensures Inv(s.(guest := Reset(s.guest, left), qmp := Send(s.qmp, e)))
  {
    SendNewer(s.qmp, e, true);
    SendNewer(s.qmp, e, false);
  }

  lemma EventInv(s: State, e: Event)
    requires Inv(s)
    ensures Inv(Step(s, OtherEvent(e)))
  {
    SendNewer(s.qmp, e, true);
    SendNewer(s.qmp, e, false);
  }

  lemma AnswerInv(s: State)
    requires Inv(s)
    ensures Inv(Step(s, Answer))
  {
    if s.qmp.barrier.Asked? {
      AfterReplyAppend(s.qmp.wire, BarrierReply);
    }
  }

  lemma DeliverInv(s: State)
    requires Inv(s)
    ensures Inv(Step(s, Deliver))
  {
    var q := s.qmp;
    if q.wire != [] {
      assert q.wire == [q.wire[0]] + q.wire[1..];
      NoReplyAfter(q.wire[1..], q.wire[0]);
      assert q.wire[0] in q.wire;
    }
  }

  lemma ScriptInv(s: State, id: nat)
    requires Inv(s)
    ensures Inv(Step(s, RunScript(id)))
  {
  }

  lemma ProceedInv(s: State)
    requires Inv(s)
    ensures Inv(Step(s, Proceed))
  {
  }

  lemma LoginInv(s: State, p: Probe)
    requires Inv(s)
    ensures Inv(Step(s, Login(p)))
  {
  }

  lemma ConnectInv(s: State)
    requires Inv(s)
    ensures Inv(Step(s, Connect))
  {
  }

  lemma OutcomeInv(s: State, marker: bool, retry: bool)
    requires Inv(s)
    ensures Inv(Step(s, Outcome(marker, retry)))
  {
  }

  lemma OpenInv(s: State, key: Key)
    requires Inv(s)
    ensures Inv(Step(s, Open(key)))
  {
  }

  lemma EndInv(s: State, id: nat)
    requires Inv(s)
    ensures Inv(Step(s, End(id)))
  {
  }

  lemma GateInv(s: State, a: Action)
    requires Inv(s) && (a.GiveUp? || a.Stage?)
    ensures Inv(Step(s, a))
  {
  }

  lemma AnyResetInv(s: State, a: Action)
    requires Inv(s) && (a.GuestReset? || a.HostReset?)
    ensures Inv(Step(s, a))
  {
    if a.left in s.guest.mayRead {
      if a.HostReset? {
        ResetInv(s, a.left, Event("RESET", Some("host-qmp-system-reset")));
      } else if a.name == "RESET" || a.name == "SHUTDOWN" {
        ResetInv(s, a.left, Event(a.name, Some("guest-reset")));
      }
    }
  }

  lemma StepInv(s: State, a: Action)
    requires Inv(s)
    ensures Inv(Step(s, a))
  {
    match a
    case GuestReset(_, _) => AnyResetInv(s, a);
    case HostReset(_) => AnyResetInv(s, a);
    case OtherEvent(e) => EventInv(s, e);
    case Answer => AnswerInv(s);
    case Deliver => DeliverInv(s);
    case RunScript(id) => ScriptInv(s, id);
    case Connect => ConnectInv(s);
    case Outcome(marker, retry) => OutcomeInv(s, marker, retry);
    case Proceed => ProceedInv(s);
    case Login(p) => LoginInv(s, p);
    case Open(key) => OpenInv(s, key);
    case End(id) => EndInv(s, id);
    case GiveUp => GateInv(s, a);
    case Stage => GateInv(s, a);
  }

  lemma {:induction false} ExecInv(s: State, acts: seq<Action>)
    requires Init(s)
    ensures Inv(Exec(s, acts))
  {
    if acts == [] {
      NoReplyAfter(s.qmp.wire, BarrierReply);
    } else {
      ExecInv(s, acts[..|acts| - 1]);
      StepInv(Exec(s, acts[..|acts| - 1]), acts[|acts| - 1]);
    }
  }

  /**
   Handoff safety: in every run, on the marker path and on the lost-marker
   path, once an environment record has been staged the guest accepts only the
   per-launch key, also after any reset, and no session that was opened with
   the bootstrap key is alive.
   */
  lemma StagedOnlyAfterHandover(s: State, acts: seq<Action>)
    requires Init(s)
    ensures var end := Exec(s, acts);
            end.host.staged > 0 ==>
              && end.guest.accepted == {PerLaunch}
              && end.guest.mayRead == {{PerLaunch}}
              && forall id | id in end.guest.sessions :: end.guest.sessions[id].key == PerLaunch
  {
    ExecInv(s, acts);
    var g := Exec(s, acts).guest;
    forall id | Exec(s, acts).host.staged > 0 && id in g.sessions
      ensures g.sessions[id].key == PerLaunch
    {
      assert g.sessions[id].key != Bootstrap;
    }
  }

  // ---- Runs that complete -----------------------------------------------------------------

  /** `t` can be reached from `s`. */
  ghost predicate Reaches(s: State, t: State) {
    exists acts :: Exec(s, acts) == t
  }

  lemma Then(s: State, t: State, a: Action)
    requires Reaches(s, t)
    ensures Reaches(s, Step(t, a))
  {
    var acts :| Exec(s, acts) == t;
    assert (acts + [a])[..|acts|] == acts;
    assert Exec(s, acts + [a]) == Step(t, a);
  }

  /** The rotation script of a fresh attempt writes the new key, and, if told so, gets to its marker. */
  lemma ScriptRuns(s: State, t: State, toMarker: bool) returns (t': State)
    requires Reaches(s, t) && t.host.pc.Rotating? && Bootstrap in t.guest.accepted
             && t.guest.nextId !in t.guest.sessions
    ensures Reaches(s, t')
    ensures t'.guest.accepted == {PerLaunch} && {PerLaunch} in t'.guest.mayRead && t'.qmp == t.qmp
    ensures t'.host == t.host.(pc := Attempt(Some(t.guest.nextId)))
    ensures toMarker ==> t'.guest.mayRead == {{PerLaunch}} && t.guest.nextId in t'.guest.markers
    ensures t'.guest.sessions.Keys == t.guest.sessions.Keys + {t.guest.nextId}
    ensures forall id | id in t.guest.sessions :: t'.guest.sessions[id] == t.guest.sessions[id]
  {
    var id := t.guest.nextId;
    Then(s, t, Connect);
    var t1 := Step(t, Connect);
    Then(s, t1, RunScript(id));
    var t2 := Step(t1, RunScript(id));
    Then(s, t2, RunScript(id));
    t' := Step(t2, RunScript(id));
    if toMarker {
      Then(s, t', RunScript(id));
      var t4 := Step(t', RunScript(id));
      Then(s, t4, RunScript(id));
      t' := Step(t4, RunScript(id));
    }
  }

  /** The host's next state if its probe shows what it hopes for. */
  function Passed(pc: Pc): Pc {
    match pc
    case ProbeAfterReboot => Ready
    case ProbeAfterForced => Ready
    case Ready => Verify1
    case Verify1 => Verify2
    case Verify2 => Verify3
    case Verify3 => Launched
    case _ => pc
  }

  predicate Probes(pc: Pc) {
    Passed(pc) != pc
  }

  /** With the per-launch key alone accepted, a probe that gets an answer passes. */
  lemma ProbePasses(s: State, t: State) returns (t': State)
    requires Reaches(s, t) && t.guest.accepted == {PerLaunch} && Probes(t.host.pc)
    ensures Reaches(s, t') && t'.guest == t.guest
    ensures t'.host == t.host.(pc := Passed(t.host.pc), verified := t.host.verified || t.host.pc.Verify3?)
  {
    var a := Login(if t.host.pc.Verify2? then Rejected else Authenticated);
    Then(s, t, a);
    t' := Step(t, a);
  }

  /** The three probes of the final check, the second with the bootstrap key. */
  lemma VerifyPasses(s: State, t: State) returns (t': State)
    requires Reaches(s, t) && t.guest.accepted == {PerLaunch} && t.host.pc.Verify1?
    ensures Reaches(s, t') && t'.guest == t.guest
    ensures t'.host == t.host.(pc := Launched, verified := true)
  {
    t' := ProbePasses(s, t);
    t' := ProbePasses(s, t');
    t' := ProbePasses(s, t');
  }

  /** Once the new key is proved to be alone, the remaining probes lead to a staged record. */
  lemma ProbesStage(s: State, t: State) returns (t': State)
    requires Reaches(s, t) && t.guest.accepted == {PerLaunch} && t.host.ephemeralKey && t.host.pinned
    requires t.host.pc.ProbeAfterReboot? || t.host.pc.ProbeAfterForced?
    ensures Reaches(s, t') && t'.host.staged == t.host.staged + 1
  {
    t' := ProbePasses(s, t);
    t' := ProbePasses(s, t');
    t' := VerifyPasses(s, t');
    Then(s, t', Stage);
    t' := Step(t', Stage);
  }

  /** With no undelivered messages, the barrier is answered and dispatched at once. */
  lemma BarrierPasses(s: State, t: State) returns (t': State)
    requires Reaches(s, t) && t.qmp == Qmp([], Asked)
    requires t.host.pc.MarkerBarrier? || t.host.pc.LostBarrier?
    ensures Reaches(s, t') && t'.guest == t.guest && t'.qmp == Qmp([], Answered)
    ensures t'.host == if t.host.pc.MarkerBarrier? then t.host.(rebootObserved := false, pc := AwaitReboot)
                       else t.host.(forcedObserved := false, pc := ForceReset)
  {
    Then(s, t, Answer);
    var t1 := Step(t, Answer);
    assert t1.qmp.wire == [BarrierReply];
    Then(s, t1, Deliver);
    var t2 := Step(t1, Deliver);
    assert t2.qmp.wire == [];
    Then(s, t2, Proceed);
    t' := Step(t2, Proceed);
  }

  /** The awaited reset happens and is observed. */
  lemma ResetObserved(s: State, t: State) returns (t': State)
    requires Reaches(s, t) && t.qmp == Qmp([], Answered) && {PerLaunch} in t.guest.mayRead
    requires t.host.pc.AwaitReboot? || t.host.pc.AwaitForced?
    ensures Reaches(s, t') && t'.guest.accepted == {PerLaunch}
    ensures t'.host.pc == if t.host.pc.AwaitReboot? then ProbeAfterReboot else ProbeAfterForced
    ensures t'.host.ephemeralKey == t.host.ephemeralKey && t'.host.pinned == t.host.pinned
    ensures t'.host.staged == t.host.staged
  {
    var reset := if t.host.pc.AwaitReboot? then GuestReset("RESET", {PerLaunch}) else HostReset({PerLaunch});
    Then(s, t, reset);
    var t1 := Step(t, reset);
    assert |t1.qmp.wire| == 1;
    Then(s, t1, Deliver);
    var t2 := Step(t1, Deliver);
    Then(s, t2, Proceed);
    t' := Step(t2, Proceed);
  }

  predicate CanComplete(s: State) {
    Init(s) && s.qmp.wire == [] && s.host.ephemeralKey && s.host.pinned && s.guest.nextId !in s.guest.sessions
  }

  /** The marker path can be completed. */
  lemma MarkerPathStages(s: State) returns (t: State)
    requires CanComplete(s)
    ensures Reaches(s, t) && t.host.staged == 1
  {
    assert Exec(s, []) == s;
    t := ScriptRuns(s, s, true);
    Then(s, t, Outcome(true, true));
    t := BarrierPasses(s, Step(t, Outcome(true, true)));
    t := ResetObserved(s, t);
    t := ProbesStage(s, t);
  }

  /** A boot-time reboot is observed late, and then somebody logs in with the bootstrap key. */
  lemma IntruderEnters(s: State) returns (t: State, intruder: nat)
    requires CanComplete(s)
    ensures Reaches(s, t) && t.host == s.host.(rebootObserved := true)
    ensures intruder in t.guest.sessions && t.guest.sessions[intruder].key == Bootstrap
    ensures t.guest.accepted == {Bootstrap} && t.guest.nextId !in t.guest.sessions && t.qmp == Qmp([], Unasked)
  {
    assert Exec(s, []) == s;
    var reset := GuestReset("RESET", {Bootstrap});
    Then(s, s, reset);
    var t1 := Step(s, reset);
    assert |t1.qmp.wire| == 1;
    Then(s, t1, Deliver);
    var t2 := Step(t1, Deliver);
    intruder := t2.guest.nextId;
    Then(s, t2, Open(Bootstrap));
    t := Step(t2, Open(Bootstrap));
  }

  /**
   On the lost-marker path the per-launch key can authenticate while a session
   opened with the bootstrap key is still alive: the reboot that was observed
   came before the key was replaced.
   */
  lemma LoginProvesTooLittle(s: State) returns (t: State)
    requires CanComplete(s)
    ensures Reaches(s, t) && t.host.pc.LostBarrier? && !NoBootstrapSession(t.guest)
    ensures t.host.ephemeralKey && t.host.pinned && t.host.staged == 0
    ensures {PerLaunch} in t.guest.mayRead && t.qmp == Qmp([], Asked)
  {
    var intruder;
    t, intruder := IntruderEnters(s);
    t := ScriptRuns(s, t, false);
    assert t.guest.sessions[intruder].key == Bootstrap;
    Then(s, t, Outcome(false, true));
    t := Step(t, Outcome(false, true));
    Then(s, t, Login(Authenticated));
    t := Step(t, Login(Authenticated));
  }

  /** The host-controlled reset that the code then insists on ends such sessions, and a record can be staged. */
  lemma LostMarkerPathStages(s: State) returns (t: State)
    requires CanComplete(s)
    ensures Reaches(s, t) && t.host.staged == 1
  {
    t := LoginProvesTooLittle(s);
    t := BarrierPasses(s, t);
    Then(s, t, Proceed);
    t := ResetObserved(s, Step(t, Proceed));
    t := ProbesStage(s, t);
  }
}
