/** What the saver steps guarantee over whole runs, power losses included. */
module CheckpointSafety {
  import opened Prelude
  import opened Storage
  import opened Checkpoint
  import opened CheckpointInvariant
  import Text

  /** An id that the COMPLETE file gives back unchanged when it is read. */
  predicate ReadsBack(id: string) {
    id != "" && '\r' !in id && Text.Strip(id) == id
  }

  lemma CompleteLineReadsBack(id: string)
    ensures ReadsBack(id) <==> id != "" && Text.Strip(Text.Universal(id + "\n")) == id
  {
    var line := id + "\n";
    if '\r' in id {
      Text.UniversalHasNoReturn(line);
      Text.StripKeepsChars(Text.Universal(line), '\r');
    } else {
      Text.UniversalIsIdentity(line);
      assert line[..|line| - 1] == id;
    }
  }

  predicate TemplateMatches(m: Manifest, expected: Option<string>) {
    expected.None? || expected.value == "" || m.template == expected
  }

  /** A sealed directory loads as the manifest that was written, exactly when its id reads back. */
  lemma SealedLoads(w: World, v: Volume, i: nat, s: Saver, expected: Option<string>)
    requires Sealed(w, v, i, s)
    ensures ReadFile(v, TempDir(i), DISK) == Some(Blob(s.meta.overlay.value))
    ensures ReadFile(v, TempDir(i), MANIFEST) == Some(Json(s.manifest))
    ensures Load(w, v, TempDir(i), expected) ==
            if ReadsBack(s.manifest.id.value) && TemplateMatches(s.manifest, expected)
            then Ok(s.manifest) else Err
  {
    CompleteLineReadsBack(s.manifest.id.value);
    assert Ent(v, TempDir(i), DISK).now == Some(DiskOf(i));
    assert Ent(v, TempDir(i), MANIFEST).now == Some(ManifestOf(i));
    assert Ent(v, TempDir(i), COMPLETE).now == Some(CompleteOf(i));
  }

  /** The three files of a bundle, agreeing with each other, and a sound image. */
  ghost predicate Whole(w: World, v: Volume, d: Ino, m: Manifest) {
    && ReadFile(v, d, MANIFEST) == Some(Json(m)) && m.schema == SCHEMA && m.version == VERSION && m.mode == MODE
    && (exists text :: ReadFile(v, d, COMPLETE) == Some(Line(text))
                       && Text.Strip(Text.Universal(text)) != "" && m.id == Some(Text.Strip(Text.Universal(text))))
    && (exists bytes :: ReadFile(v, d, DISK) == Some(Blob(bytes))
                        && w.tools.isQcow2(bytes) && w.tools.checks(bytes))
  }

  /** A directory loads exactly if it is a whole bundle for the expected template. */
  lemma LoadsIff(w: World, v: Volume, d: Ino, expected: Option<string>, m: Manifest)
    ensures Load(w, v, d, expected) == Ok(m) <==> Whole(w, v, d, m) && TemplateMatches(m, expected)
  {
    if Load(w, v, d, expected) == Ok(m) {
      assert ReadFile(v, d, COMPLETE).value.Line? && ReadFile(v, d, DISK).value.Blob?;
    }
  }

  /** `x` holds the bundle of a run: its overlay's bytes, its manifest, accepted by load_checkpoint. */
  ghost predicate IsBundleOf(w: World, s: Sys, x: Ino) {
    && x.TempDir? && x.saver < |s.savers|
    && var saver := s.savers[x.saver];
       && saver.meta.overlay.Some?
       && saver.manifest.id.Some?
       && ReadFile(s.vol, x, DISK) == Some(Blob(saver.meta.overlay.value))
       && ReadFile(s.vol, x, MANIFEST) == Some(Json(saver.manifest))
       && saver.manifest.template == saver.meta.template
       && (saver.meta.id.Some? && saver.meta.id.value != "" ==> saver.manifest.id == saver.meta.id)
       && Load(w, s.vol, x, saver.meta.template) ==
          (if ReadsBack(saver.manifest.id.value) then Ok(saver.manifest) else Err)
  }

  lemma DestinationIsBundle(w: World, s: Sys)
    requires Inv(w, s) && Destination(w, s.vol).Some? && !EarlierStands(w, s.vol)
    ensures var x := Destination(w, s.vol).value;
            Candidate(w, s, Some(x)) && Sealed(w, s.vol, x.saver, s.savers[x.saver]) && IsBundleOf(w, s, x)
  {
    var x := Destination(w, s.vol).value;
    var p := ParentEntry(s.vol).now.value;
    assert ParentEntry(s.vol).now in ParentEntry(s.vol).may;
    assert Ent(s.vol, p, w.base).now in Ent(s.vol, p, w.base).may;
    assert Candidate(w, s, Some(x));
    assert Phase(w, s.vol, x.saver, s.savers[x.saver]);
    SealedLoads(w, s.vol, x.saver, s.savers[x.saver], s.savers[x.saver].meta.template);
  }

  /**
   Crash safety: in every run of any number of savers, with power losses after
   any steps, the destination is absent, or a whole bundle, or what stood there before
   the savers began; in the last case no living saver has got beyond its first look.
   */
  lemma CrashSafety(w: World, s: Sys, acts: seq<Action>)
    requires Init(w, s)
    ensures var end := Exec(w, s, acts);
            var x := Destination(w, end.vol);
            x.Some? ==> IsBundleOf(w, end, x.value) || (x.value in w.earlier && Resting(end))
  {
    ExecInv(w, s, acts);
    var end := Exec(w, s, acts);
    if Destination(w, end.vol).Some? && !EarlierStands(w, end.vol) {
      DestinationIsBundle(w, end);
    }
  }

  /** Of the runs that no power loss ended, at most one put its directory at the destination. */
  lemma OnePublisher(w: World, s: Sys, acts: seq<Action>, i: nat, j: nat)
    requires Init(w, s) && i < |s.savers| && j < |s.savers|
    requires |Exec(w, s, acts).savers| == |s.savers|
    requires var end := Exec(w, s, acts);
             && end.savers[i].moved && !end.savers[i].pc.Dead?
             && end.savers[j].moved && !end.savers[j].pc.Dead?
    ensures i == j
  {
    ExecInv(w, s, acts);
    var end := Exec(w, s, acts);
    assert Phase(w, end.vol, i, end.savers[i]);
    assert Phase(w, end.vol, j, end.savers[j]);
  }

  /** Every run that returned normally returned the manifest that stands at the destination. */
  lemma ReturnsStandingManifest(w: World, s: Sys, acts: seq<Action>, i: nat)
    requires Init(w, s) && i < |s.savers|
    ensures var end := Exec(w, s, acts);
            i < |end.savers| &&
            (end.savers[i].pc.Returned? ==>
               && Destination(w, end.vol).Some?
               && ReadFile(end.vol, Destination(w, end.vol).value, MANIFEST) == Some(Json(end.savers[i].manifest)))
  {
    ExecInv(w, s, acts);
    var end := Exec(w, s, acts);
    if end.savers[i].pc.Returned? {
      assert Reported(w, end, i);
      if !EarlierStands(w, end.vol) {
        DestinationIsBundle(w, end);
      }
    }
  }

  ghost predicate NoPowerLoss(acts: seq<Action>) {
    forall a | a in acts :: a.Run?
  }

  /** What a reader of the destination sees. */
  ghost predicate SameBundle(w: World, v: Volume, v': Volume) {
    && Destination(w, v).Some?
    && Destination(w, v') == Destination(w, v)
    && var x := Destination(w, v).value;
       && ReadFile(v', x, DISK) == ReadFile(v, x, DISK)
       && ReadFile(v', x, MANIFEST) == ReadFile(v, x, MANIFEST)
       && ReadFile(v', x, COMPLETE) == ReadFile(v, x, COMPLETE)
  }

  /** Two views of one sealed directory show a reader the same. */
  lemma SealedSame(w: World, v: Volume, v': Volume, j: nat, s: Saver, s': Saver)
    requires Destination(w, v) == Some(TempDir(j)) == Destination(w, v')
    requires Sealed(w, v, j, s) && Sealed(w, v', j, s') && s'.manifest == s.manifest && s'.meta == s.meta
    ensures SameBundle(w, v, v')
  {
    assert ReadFile(v, TempDir(j), COMPLETE) == ReadFile(v', TempDir(j), COMPLETE);
    assert ReadFile(v, TempDir(j), MANIFEST) == ReadFile(v', TempDir(j), MANIFEST);
    assert ReadFile(v, TempDir(j), DISK) == ReadFile(v', TempDir(j), DISK);
  }

  lemma SameTrans(w: World, v: Volume, v': Volume, v'': Volume)
    requires SameBundle(w, v, v') && SameBundle(w, v', v'')
    ensures SameBundle(w, v, v'')
  {
  }

  /** After a step the standing directory is still there, sealed with the same manifest. */
  lemma StandingStep(w: World, s: Sys, i: nat, c: Choice)
    requires Inv(w, s) && i < |s.savers| && Destination(w, s.vol).Some?
    ensures SameBundle(w, s.vol, Step(w, s, Run(i, c)).vol)
  {
    if EarlierStands(w, s.vol) {
      EarlierLook(w, s, i, c);
    } else {
      DestinationIsBundle(w, s);
      var s', j := Step(w, s, Run(i, c)), Destination(w, s.vol).value.saver;
      StandingSealed(w, s, i, c, j);
      SealedSame(w, s.vol, s'.vol, j, s.savers[j], s'.savers[j]);
    }
  }

  lemma StandingSealed(w: World, s: Sys, i: nat, c: Choice, j: nat)
    requires Inv(w, s) && i < |s.savers| && Destination(w, s.vol) == Some(TempDir(j))
             && Candidate(w, s, Some(TempDir(j)))
    ensures var s' := Step(w, s, Run(i, c));
            && Destination(w, s'.vol) == Destination(w, s.vol)
            && Sealed(w, s.vol, j, s.savers[j]) && Sealed(w, s'.vol, j, s'.savers[j])
            && s'.savers[j].manifest == s.savers[j].manifest && s'.savers[j].meta == s.savers[j].meta
  {
    var s' := Step(w, s, Run(i, c));
    StepKeeps(w, s, i, c);
    MetaKept(w, s.vol, i, s.savers[i], c);
    assert Phase(w, s.vol, j, s.savers[j]);
    if j != i {
      assert SameFor(w, s.vol, s'.vol, j, s.savers[j]);
      OthersKeepPhase(w, s.vol, s'.vol, j, s.savers[j]);
    }
  }

  lemma MetaKept(w: World, v: Volume, i: nat, s: Saver, c: Choice)
    ensures Advance(w, v, i, s, c).1.meta == s.meta
  {
  }

  /** Until a power loss, a visible bundle never changes. */
  lemma {:induction false} StandingStays(w: World, s: Sys, acts: seq<Action>, more: seq<Action>)
    requires Init(w, s) && NoPowerLoss(more)
    requires Destination(w, Exec(w, s, acts).vol).Some?
    ensures SameBundle(w, Exec(w, s, acts).vol, Exec(w, s, acts + more).vol)
  {
    if more == [] {
      assert acts + more == acts;
    } else {
      var most, last := more[..|more| - 1], more[|more| - 1];
      assert last in more;
      StandingStays(w, s, acts, most);
      ExecInv(w, s, acts + most);
      RunMore(w, s, acts, more);
      var mid := Exec(w, s, acts + most);
      if last.saver < |mid.savers| {
        StandingStep(w, mid, last.saver, last.choice);
        SameTrans(w, Exec(w, s, acts).vol, mid.vol, Step(w, mid, last).vol);
      }
    }
  }

  lemma RunMore(w: World, s: Sys, acts: seq<Action>, more: seq<Action>)
    requires more != []
    ensures Exec(w, s, acts + more) == Step(w, Exec(w, s, acts + more[..|more| - 1]), more[|more| - 1])
  {
    assert (acts + more)[..|acts + more| - 1] == acts + more[..|more| - 1];
  }

  /**
   A retry over anything that stands changes no file.  Over a bundle of another
   run it returns the standing manifest exactly when the ids are equal and read back;
   otherwise it raises.
   */
  lemma RetryReturnsStanding(w: World, s: Sys, acts: seq<Action>, k: nat, c: Choice)
    requires Init(w, s) && k < |Exec(w, s, acts).savers|
    requires var end := Exec(w, s, acts);
             && Destination(w, end.vol).Some?
             && end.savers[k].pc.Start? && !end.savers[k].meta.blocked && !c.fail
             && end.savers[k].meta.id.Some? && end.savers[k].meta.id.value != ""
    ensures var end := Exec(w, s, acts);
            var x := Destination(w, end.vol).value;
            var next := Step(w, end, Run(k, c));
            && next.vol == end.vol
            && (next.savers[k].pc.Returned? || next.savers[k].pc.Raised?)
            && (x !in w.earlier ==>
                  && x.TempDir? && x.saver < |end.savers|
                  && (next.savers[k].pc.Returned? <==>
                        && end.savers[k].meta.id == end.savers[x.saver].manifest.id
                        && ReadsBack(end.savers[k].meta.id.value))
                  && (next.savers[k].pc.Returned? ==> next.savers[k].manifest == end.savers[x.saver].manifest))
  {
    ExecInv(w, s, acts);
    var end := Exec(w, s, acts);
    if !EarlierStands(w, end.vol) {
      var x := Destination(w, end.vol).value;
      DestinationIsBundle(w, end);
      SealedLoads(w, end.vol, x.saver, end.savers[x.saver], None);
    }
  }

  // ---- Durability -------------------------------------------------------------------------

  /** The path to `x` is on disk, entry by entry. */
  ghost predicate Committed(w: World, v: Volume, x: Ino) {
    && ParentEntry(v).now.Some?
    && ParentEntry(v) == Settled(ParentEntry(v).now)
    && Ent(v, ParentEntry(v).now.value, w.base) == Settled(Some(x))
  }

  /** The view a power loss leaves when entry `n` of `d` falls back to `x`. */
  ghost function Revert(v: Volume, d: Ino, n: string, x: Option<Ino>): Volume {
    Volume(
      map e | e in v.dirs :: map m | m in v.dirs[e] :: Settled(if e == d && m == n then x else v.dirs[e][m].now),
      map f | f in v.files :: File(v.files[f].data, true))
  }

  lemma RevertIsCrash(v: Volume, d: Ino, n: string, x: Option<Ino>)
    requires EntriesOk(v) && d in v.dirs && n in v.dirs[d] && x in Ent(v, d, n).may
    ensures CrashOf(v, Revert(v, d, n, x))
    ensures Ent(Revert(v, d, n, x), d, n).now == x
    ensures forall e, m | e != d || m != n :: Ent(Revert(v, d, n, x), e, m).now == Ent(v, e, m).now
  {
    var after := Revert(v, d, n, x);
    forall e, m
      ensures Ent(after, e, m).now in Ent(v, e, m).may && Ent(after, e, m).may == {Ent(after, e, m).now}
    {
      assert Ent(v, e, m).now in Ent(v, e, m).may;
    }
  }

  /** What stands survives every power loss. */
  ghost predicate Durable(w: World, v: Volume) {
    forall after | CrashOf(v, after) :: Destination(w, after) == Destination(w, v)
  }

  /** A standing bundle survives every power loss exactly when its path is committed. */
  lemma SurvivesIffCommitted(w: World, s: Sys)
    requires Inv(w, s) && Destination(w, s.vol).Some?
    ensures Durable(w, s.vol) <==> Committed(w, s.vol, Destination(w, s.vol).value)
  {
    var v := s.vol;
    var p := ParentEntry(v).now.value;
    var x := Destination(w, v).value;
    if ParentEntry(v) != Settled(Some(p)) {
      assert ParentEntry(v).now in ParentEntry(v).may;
      var q :| q in ParentEntry(v).may && q != Some(p);
      RevertIsCrash(v, Top, PARENT, q);
    } else if Ent(v, p, w.base) != Settled(Some(x)) {
      assert Ent(v, p, w.base).now in Ent(v, p, w.base).may;
      var y :| y in Ent(v, p, w.base).may && y != Some(x);
      RevertIsCrash(v, p, w.base, y);
      assert IsParent(p);
      assert Destination(w, Revert(v, p, w.base, y)) == y;
    }
  }

  lemma CommittedStep(w: World, s: Sys, a: Action, x: Ino)
    requires Inv(w, s) && Committed(w, s.vol, x)
    ensures Committed(w, Step(w, s, a).vol, x)
  {
    var p := ParentEntry(s.vol).now.value;
    if a.Run? && a.saver < |s.savers| {
      StepKeeps(w, s, a.saver, a.choice);
      RunInv(w, s, a.saver, a.choice);
      var after := Step(w, s, a);
      assert Ent(after.vol, p, w.base).now in Ent(after.vol, p, w.base).may;
    }
  }

  lemma {:induction false} CommittedRun(w: World, s: Sys, acts: seq<Action>, more: seq<Action>, x: Ino)
    requires Init(w, s) && Committed(w, Exec(w, s, acts).vol, x)
    ensures Committed(w, Exec(w, s, acts + more).vol, x)
  {
    if more == [] {
      assert acts + more == acts;
    } else {
      CommittedRun(w, s, acts, more[..|more| - 1], x);
      RunMore(w, s, acts, more);
      ExecInv(w, s, acts + more[..|more| - 1]);
      CommittedStep(w, Exec(w, s, acts + more[..|more| - 1]), more[|more| - 1], x);
    }
  }

  /** A power loss leaves a committed bundle as it was. */
  lemma LossSame(w: World, s: Sys, after: Volume, x: Ino)
    requires Inv(w, s) && Committed(w, s.vol, x) && x !in w.earlier && CrashOf(s.vol, after)
    ensures SameBundle(w, s.vol, after)
  {
    var s' := Step(w, s, PowerLoss(after));
    CommittedStep(w, s, PowerLoss(after), x);
    PowerLossInv(w, s, after);
    DestinationIsBundle(w, s);
    DestinationIsBundle(w, s');
    SealedSame(w, s.vol, after, x.saver, s.savers[x.saver], s'.savers[x.saver]);
  }

  lemma CommittedSame(w: World, s: Sys, a: Action, x: Ino)
    requires Inv(w, s) && Committed(w, s.vol, x) && x !in w.earlier
    ensures SameBundle(w, s.vol, Step(w, s, a).vol)
  {
    match a
    case Run(i, c) => if i < |s.savers| { StandingStep(w, s, i, c); }
    case PowerLoss(after) => if CrashOf(s.vol, after) { LossSame(w, s, after, x); }
  }

  lemma {:induction false} CommittedRunSame(w: World, s: Sys, acts: seq<Action>, more: seq<Action>, x: Ino)
    requires Init(w, s) && Committed(w, Exec(w, s, acts).vol, x) && x !in w.earlier
    ensures SameBundle(w, Exec(w, s, acts).vol, Exec(w, s, acts + more).vol)
  {
    if more == [] {
      assert acts + more == acts;
    } else {
      var most, mid := more[..|more| - 1], Exec(w, s, acts + more[..|more| - 1]);
      CommittedRunSame(w, s, acts, most, x);
      CommittedRun(w, s, acts, most, x);
      ExecInv(w, s, acts + most);
      CommittedSame(w, mid, more[|more| - 1], x);
      RunMore(w, s, acts, more);
      SameTrans(w, Exec(w, s, acts).vol, mid.vol, Exec(w, s, acts + more).vol);
    }
  }

  /** The bundle at a committed path stays there, the same, through every later step and power loss. */
  lemma CommittedStays(w: World, s: Sys, acts: seq<Action>, more: seq<Action>, x: Ino)
    requires Init(w, s) && Committed(w, Exec(w, s, acts).vol, x)
    ensures Committed(w, Exec(w, s, acts + more).vol, x)
    ensures x !in w.earlier ==>
              && IsBundleOf(w, Exec(w, s, acts + more), x)
              && SameBundle(w, Exec(w, s, acts).vol, Exec(w, s, acts + more).vol)
  {
    CommittedRun(w, s, acts, more, x);
    CrashSafety(w, s, acts + more);
    if x !in w.earlier {
      CommittedRunSame(w, s, acts, more, x);
    }
  }

  // ---- Who has made it durable ----------------------------------------------------------------

  /** The state right after the last power loss of a run, or its start. */
  ghost function Booted(w: World, s: Sys, acts: seq<Action>): Sys {
    if acts == [] then s
    else
      var most, last := acts[..|acts| - 1], acts[|acts| - 1];
      if last.PowerLoss? && CrashOf(Exec(w, s, most).vol, last.after) then Exec(w, s, acts) else Booted(w, s, most)
  }

  lemma {:induction false} BootedIsStart(w: World, s: Sys, acts: seq<Action>)
    requires NoPowerLoss(acts)
    ensures Booted(w, s, acts) == s
  {
    if acts != [] {
      assert acts[|acts| - 1] in acts;
      BootedIsStart(w, s, acts[..|acts| - 1]);
    }
  }

  /** The destination may still be lost, or the run that published it has returned. */
  ghost predicate Unsure(w: World, s: Sys) {
    ParentEntry(s.vol).now.Some? ==>
      || None in Ent(s.vol, ParentEntry(s.vol).now.value, w.base).may
      || (var x := Destination(w, s.vol);
          x.Some? && x.value.TempDir? && x.value.saver < |s.savers| && s.savers[x.value.saver].pc.Returned?)
  }

  /** The run that published this directory was ended by a power loss. */
  ghost predicate Buried(s: Sys, x: Ino) {
    x.TempDir? && x.saver < |s.savers| && s.savers[x.saver].pc.Dead?
  }

  /** What the steps since the boot with volume `v` have left of it. */
  ghost predicate Since(w: World, v: Volume, s: Sys) {
    && (None in ParentEntry(v).may ==> None in ParentEntry(s.vol).may)
    && (None !in ParentEntry(v).may ==> ParentEntry(s.vol) == ParentEntry(v))
    && match Destination(w, v)
       case Some(x) =>
         && Destination(w, s.vol) == Some(x)
         && (Committed(w, s.vol, x) <==> Committed(w, v, x))
         && (x !in w.earlier ==> Committed(w, v, x) && Buried(s, x))
       case None => Unsure(w, s)
  }

  /** The other steps only add to what the destination's entry may be. */
  ghost predicate EntryGrew(w: World, v: Volume, v': Volume)
    requires ParentEntry(v).now.Some?
  {
    Ent(v, ParentEntry(v).now.value, w.base).may <= Ent(v', ParentEntry(v).now.value, w.base).may
  }

  lemma TempGrows(w: World, s: Sys, i: nat, c: Choice)
    requires Inv(w, s) && i < |s.savers| && ParentEntry(s.vol).now.Some?
    ensures EntryGrew(w, s.vol, MakeTemp(w, s.vol, i, s.savers[i], c).0)
  {
    var v := s.vol;
    assert ParentEntry(v).now in ParentEntry(v).may;
    EntAddDir(v, TempDir(i));
    var name := PartialName(w.base, c.suffix);
    EntSetEntry(AddDir(v, TempDir(i)), ParentEntry(v).now.value, name, Some(TempDir(i)));
  }

  lemma RenameGrows(w: World, s: Sys, i: nat, c: Choice)
    requires Inv(w, s) && i < |s.savers| && ParentEntry(s.vol).now.Some? && s.savers[i].name != w.base
    ensures EntryGrew(w, s.vol, RenameTemp(w, s.vol, i, s.savers[i], c).0)
  {
    assert ParentEntry(s.vol).now in ParentEntry(s.vol).may;
    RenamingEntries(w, s.vol, ParentEntry(s.vol).now.value, s.savers[i].name, i);
  }

  lemma PrivateGrows(w: World, s: Sys, i: nat, c: Choice)
    requires Inv(w, s) && i < |s.savers| && ParentEntry(s.vol).now.Some? && WorksPrivately(s.savers[i].pc)
    ensures EntryGrew(w, s.vol, Advance(w, s.vol, i, s.savers[i], c).0)
  {
    PrivateNames(w, s, i, c);
  }

  lemma CleanUpGrows(w: World, s: Sys, i: nat, c: Choice)
    requires Inv(w, s) && i < |s.savers| && ParentEntry(s.vol).now.Some? && s.savers[i].pc.Cleaning?
    ensures EntryGrew(w, s.vol, Advance(w, s.vol, i, s.savers[i], c).0)
  {
    assert Ready(w, s, i);
    assert ParentEntry(s.vol).now in ParentEntry(s.vol).may;
    CleanUpFrames(w, s, i, c);
  }

  /** Only the sync of the run that renamed can settle the destination's entry. */
  lemma EntryGrows(w: World, s: Sys, i: nat, c: Choice)
    requires Inv(w, s) && i < |s.savers| && ParentEntry(s.vol).now.Some?
    requires s.savers[i].pc.Renamed? ==> c.fail
    ensures EntryGrew(w, s.vol, Advance(w, s.vol, i, s.savers[i], c).0)
  {
    var pc := s.savers[i].pc;
    assert Ready(w, s, i);
    if pc.Cleaning? {
      CleanUpGrows(w, s, i, c);
    } else if c.fail {
      FailedOwn(w, s, i, c);
    } else if WorksPrivately(pc) {
      PrivateGrows(w, s, i, c);
    } else if pc.ParentReady? {
      TempGrows(w, s, i, c);
    } else if pc.Rechecked? {
      assert Phase(w, s.vol, i, s.savers[i]);
      RenameGrows(w, s, i, c);
    }
  }

  lemma NewParentUnsure(w: World, s: Sys, i: nat, c: Choice)
    requires Inv(w, s) && i < |s.savers| && ParentEntry(s.vol).now.None?
    ensures Unsure(w, Step(w, s, Run(i, c)))
  {
    assert Ready(w, s, i);
    if s.savers[i].pc.Vetted? {
      EntAddDir(s.vol, ParentBy(i));
      EntSetEntry(AddDir(s.vol, ParentBy(i)), Top, PARENT, Some(ParentBy(i)));
    }
  }

  lemma PublisherReturns(w: World, s: Sys, i: nat, c: Choice)
    requires Inv(w, s) && i < |s.savers| && s.savers[i].pc.Renamed? && !c.fail
    ensures Unsure(w, Step(w, s, Run(i, c)))
  {
    RenamedReturns(w, s, i, c);
  }

  lemma UnsureStep(w: World, s: Sys, i: nat, c: Choice)
    requires Inv(w, s) && i < |s.savers| && Unsure(w, s)
    ensures Unsure(w, Step(w, s, Run(i, c)))
  {
    if ParentEntry(s.vol).now.None? {
      NewParentUnsure(w, s, i, c);
    } else if s.savers[i].pc.Renamed? && !c.fail {
      PublisherReturns(w, s, i, c);
    } else {
      assert Ready(w, s, i);
      StepKeeps(w, s, i, c);
      EntryGrows(w, s, i, c);
    }
  }

  /** The parent's own entry is never synced: without a power loss it stays as uncertain as it began. */
  lemma ParentStaysUnsynced(w: World, s: Sys, i: nat, c: Choice)
    requires Inv(w, s) && i < |s.savers|
    ensures var s' := Step(w, s, Run(i, c));
            && (None in ParentEntry(s.vol).may ==> None in ParentEntry(s'.vol).may)
            && (None !in ParentEntry(s.vol).may ==> ParentEntry(s'.vol) == ParentEntry(s.vol))
  {
    assert Ready(w, s, i);
    StepKeeps(w, s, i, c);
    assert ParentEntry(s.vol).now in ParentEntry(s.vol).may;
    if ParentEntry(s.vol).now.None? {
      UnbornParent(w, s, i, c);
    }
  }

  lemma UnbornParent(w: World, s: Sys, i: nat, c: Choice)
    requires Inv(w, s) && i < |s.savers| && ParentEntry(s.vol).now.None?
    ensures None in ParentEntry(Step(w, s, Run(i, c)).vol).may
  {
    assert Ready(w, s, i);
    assert ParentEntry(s.vol).now in ParentEntry(s.vol).may;
    if s.savers[i].pc.Vetted? {
      EntSetEntry(AddDir(s.vol, ParentBy(i)), Top, PARENT, Some(ParentBy(i)));
    }
  }

  /** What stood at the boot stands on, buried if it is a bundle. */
  lemma StoodRun(w: World, s: Sys, i: nat, c: Choice, x: Ino)
    requires Inv(w, s) && i < |s.savers| && Destination(w, s.vol) == Some(x)
    requires x !in w.earlier ==> Committed(w, s.vol, x) && Buried(s, x)
    ensures var s' := Step(w, s, Run(i, c));
            && Destination(w, s'.vol) == Some(x) && (Committed(w, s'.vol, x) <==> Committed(w, s.vol, x))
            && (x !in w.earlier ==> Buried(s', x))
  {
    if x in w.earlier {
      EarlierLook(w, s, i, c);
    } else {
      CommittedStep(w, s, Run(i, c), x);
    }
  }

  lemma SinceRun(w: World, v: Volume, s: Sys, i: nat, c: Choice)
    requires Inv(w, s) && i < |s.savers| && Since(w, v, s)
    ensures Since(w, v, Step(w, s, Run(i, c)))
  {
    ParentStaysUnsynced(w, s, i, c);
    match Destination(w, v)
    case None => UnsureStep(w, s, i, c);
    case Some(x) => StoodRun(w, s, i, c, x);
  }

  /** A start, and what a power loss leaves. */
  lemma SinceBoot(w: World, s: Sys)
    requires Inv(w, s)
    requires Destination(w, s.vol).Some? && Destination(w, s.vol).value !in w.earlier ==>
               Committed(w, s.vol, Destination(w, s.vol).value) && Buried(s, Destination(w, s.vol).value)
    ensures Since(w, s.vol, s)
  {
    if ParentEntry(s.vol).now.Some? {
      var e := Ent(s.vol, ParentEntry(s.vol).now.value, w.base);
      assert e.now in e.may;
    }
  }

  lemma LossBuries(w: World, s: Sys, after: Volume)
    requires Inv(w, s) && CrashOf(s.vol, after)
    ensures var s' := Step(w, s, PowerLoss(after));
            Destination(w, after).Some? && Destination(w, after).value !in w.earlier ==>
              Committed(w, after, Destination(w, after).value) && Buried(s', Destination(w, after).value)
  {
    var s' := Step(w, s, PowerLoss(after));
    PowerLossInv(w, s, after);
    if Destination(w, after).Some? && !EarlierStands(w, after) {
      DestinationIsBundle(w, s');
      var j := Destination(w, after).value.saver;
      assert Phase(w, s.vol, j, s.savers[j]);
    }
  }

  lemma {:induction false} SinceExec(w: World, s: Sys, acts: seq<Action>)
    requires Init(w, s)
    ensures Since(w, Booted(w, s, acts).vol, Exec(w, s, acts))
  {
    if acts == [] {
      InitInv(w, s);
      InitStands(w, s);
      SinceBoot(w, s);
    } else {
      var most, last := acts[..|acts| - 1], acts[|acts| - 1];
      var mid := Exec(w, s, most);
      ExecInv(w, s, most);
      SinceExec(w, s, most);
      match last
      case Run(i, c) => if i < |mid.savers| { SinceRun(w, Booted(w, s, most).vol, mid, i, c); }
      case PowerLoss(after) =>
        if CrashOf(mid.vol, after) {
          ExecInv(w, s, acts);
          LossBuries(w, mid, after);
          SinceBoot(w, Exec(w, s, acts));
        }
    }
  }

  /** At the start only something earlier can stand. */
  lemma InitStands(w: World, s: Sys)
    requires Init(w, s)
    ensures Destination(w, s.vol).Some? ==> Destination(w, s.vol).value in w.earlier
  {
    assert Ent(s.vol, Parent0, w.base).now in Ent(s.vol, Parent0, w.base).may;
  }

  /**
   When a standing bundle is durable, exactly, after every run: the parent's own
   entry was on disk when the machine last started, and either the bundle stood there
   then, or the run that published it has returned.  That another run has returned
   it says nothing, and a publisher whose sync fails never makes up for it.
   */
  lemma StandingDurableIff(w: World, s: Sys, acts: seq<Action>)
    requires Init(w, s) && Destination(w, Exec(w, s, acts).vol).Some?
    ensures var end, boot, x := Exec(w, s, acts), Booted(w, s, acts), Destination(w, Exec(w, s, acts).vol).value;
            if x in w.earlier then Durable(w, end.vol) <==> Committed(w, boot.vol, x)
            else
              && x.TempDir? && x.saver < |end.savers|
              && (Durable(w, end.vol) <==>
                    && None !in ParentEntry(boot.vol).may
                    && (Destination(w, boot.vol) == Some(x) || end.savers[x.saver].pc.Returned?))
  {
    var end := Exec(w, s, acts);
    ExecInv(w, s, acts);
    SinceExec(w, s, acts);
    SurvivesIffCommitted(w, end);
    if !EarlierStands(w, end.vol) {
      DestinationIsBundle(w, end);
      BundleCommittedIff(w, Booted(w, s, acts).vol, end);
    }
  }

  lemma BundleCommittedIff(w: World, v: Volume, s: Sys)
    requires Inv(w, s) && Since(w, v, s) && Destination(w, s.vol).Some? && !EarlierStands(w, s.vol)
    requires Candidate(w, s, Destination(w, s.vol))
    ensures var x := Destination(w, s.vol).value;
            x.TempDir? && x.saver < |s.savers| &&
            (Committed(w, s.vol, x) <==>
               None !in ParentEntry(v).may && (Destination(w, v) == Some(x) || s.savers[x.saver].pc.Returned?))
  {
    var x := Destination(w, s.vol).value;
    assert Phase(w, s.vol, x.saver, s.savers[x.saver]);
    assert ParentEntry(s.vol).now in ParentEntry(s.vol).may;
  }

  /** The same said of every call that has returned, whether it published the bundle or found it. */
  lemma ReturnIsDurableIff(w: World, s: Sys, acts: seq<Action>, k: nat)
    requires Init(w, s) && k < |Exec(w, s, acts).savers| && Exec(w, s, acts).savers[k].pc.Returned?
    ensures var end, boot := Exec(w, s, acts), Booted(w, s, acts);
            && Destination(w, end.vol).Some?
            && var x := Destination(w, end.vol).value;
               Durable(w, end.vol) <==>
                 if x in w.earlier then Committed(w, boot.vol, x)
                 else
                   && None !in ParentEntry(boot.vol).may
                   && (Destination(w, boot.vol) == Some(x)
                       || (x.TempDir? && x.saver < |end.savers| && end.savers[x.saver].pc.Returned?))
  {
    ExecInv(w, s, acts);
    assert Reported(w, Exec(w, s, acts), k);
    StandingDurableIff(w, s, acts);
  }

  /** Run `j` has put its directory in place and was told of a failure. */
  predicate FailedLate(s: Sys, j: nat) {
    j < |s.savers| && s.savers[j].moved && (s.savers[j].pc.Cleaning? || s.savers[j].pc.Raised?)
  }

  lemma FailedLateStep(w: World, s: Sys, i: nat, c: Choice, j: nat)
    requires FailedLate(s, j)
    ensures FailedLate(Step(w, s, Run(i, c)), j)
  {
    if i == j {
      assert Advance(w, s.vol, j, s.savers[j], c).1 in {s.savers[j], s.savers[j].(pc := Raised)};
    }
  }

  lemma {:induction false} FailedLateStays(w: World, s: Sys, acts: seq<Action>, more: seq<Action>, j: nat)
    requires Init(w, s) && NoPowerLoss(more) && FailedLate(Exec(w, s, acts), j)
    ensures FailedLate(Exec(w, s, acts + more), j)
  {
    if more == [] {
      assert acts + more == acts;
    } else {
      assert more[|more| - 1] in more;
      FailedLateStays(w, s, acts, more[..|more| - 1], j);
      RunMore(w, s, acts, more);
      FailedLateStep(w, Exec(w, s, acts + more[..|more| - 1]), more[|more| - 1].saver, more[|more| - 1].choice, j);
    }
  }

  /**
   A bundle whose publisher failed after the rename, in the sync or because the
   rename was reported as failed, stands and is never made durable: no later step of
   any run repairs it, however many calls return it.
   */
  lemma FailedSyncIsNotRepaired(w: World, s: Sys, acts: seq<Action>, more: seq<Action>, j: nat)
    requires Init(w, s) && NoPowerLoss(more) && FailedLate(Exec(w, s, acts), j)
    ensures var end := Exec(w, s, acts + more);
            Destination(w, end.vol) == Some(TempDir(j)) && !Durable(w, end.vol)
  {
    FailedLateStays(w, s, acts, more, j);
    var end := Exec(w, s, acts + more);
    ExecInv(w, s, acts + more);
    SinceExec(w, s, acts + more);
    assert Phase(w, end.vol, j, end.savers[j]);
    assert !TempDir(j).Foreign?;
    StandingDurableIff(w, s, acts + more);
  }

  /**
   A run that published and returned has made its bundle durable exactly when
   the parent directory's own entry was on disk when the machine last started: a
   parent that makedirs creates is never synced into its own parent.
   */
  lemma PublishedIsDurableIff(w: World, s: Sys, acts: seq<Action>, i: nat)
    requires Init(w, s) && i < |Exec(w, s, acts).savers|
    requires var saver := Exec(w, s, acts).savers[i]; saver.pc.Returned? && saver.moved
    ensures var end := Exec(w, s, acts);
            && Destination(w, end.vol) == Some(TempDir(i))
            && (Durable(w, end.vol) <==> None !in ParentEntry(Booted(w, s, acts).vol).may)
            && (NoPowerLoss(acts) ==> Booted(w, s, acts) == s)
  {
    ExecInv(w, s, acts);
    var end := Exec(w, s, acts);
    assert Phase(w, end.vol, i, end.savers[i]);
    assert !TempDir(i).Foreign?;
    StandingDurableIff(w, s, acts);
    if NoPowerLoss(acts) {
      BootedIsStart(w, s, acts);
    }
  }

  // ---- A run that nothing disturbs publishes ------------------------------------------------

  function Times<T>(x: T, n: nat): (r: seq<T>)
    ensures |r| == n && forall k | 0 <= k < n :: r[k] == x
  {
    seq(n, _ => x)
  }

  ghost predicate Willing(w: World, saver: Saver, c: Choice) {
    && !saver.meta.blocked && saver.meta.overlay.Some? && ImageOk(w.tools, saver.meta.overlay.value)
    && !c.fail && !c.lostReply
  }

  ghost predicate NameFree(w: World, v: Volume, c: Choice) {
    && Ent(v, Parent0, PartialName(w.base, c.suffix)).now.None?
    && (forall k :: Ent(v, ParentBy(k), PartialName(w.base, c.suffix)).now.None?)
  }

  /** Saver `i` has taken `n` undisturbed steps and the destination is still free. */
  ghost predicate Alone(w: World, s: Sys, i: nat, c: Choice, n: nat) {
    && i < |s.savers|
    && var saver := s.savers[i];
       && Willing(w, saver, c) && !saver.moved && Progress(saver.pc) == n <= 13
       && Destination(w, s.vol).None?
       && (n <= 3 ==> NameFree(w, s.vol, c))
       && (4 <= n ==> ParentEntry(s.vol).now.Some?
                      && Ent(s.vol, ParentEntry(s.vol).now.value, saver.name).now == Some(TempDir(i)))
  }

  lemma AloneLooks(w: World, s: Sys, i: nat, c: Choice, n: nat)
    requires Inv(w, s) && Alone(w, s, i, c, n) && n <= 1
    ensures Alone(w, Step(w, s, Run(i, c)), i, c, n + 1)
  {
  }

  lemma AloneMakesParent(w: World, s: Sys, i: nat, c: Choice)
    requires Inv(w, s) && Alone(w, s, i, c, 2)
    ensures Alone(w, Step(w, s, Run(i, c)), i, c, 3)
  {
    assert ParentEntry(s.vol).now in ParentEntry(s.vol).may;
    EntAddDir(s.vol, ParentBy(i));
    EntSetEntry(AddDir(s.vol, ParentBy(i)), Top, PARENT, Some(ParentBy(i)));
  }

  lemma AloneMakesTemp(w: World, s: Sys, i: nat, c: Choice)
    requires Inv(w, s) && Alone(w, s, i, c, 3)
    ensures Alone(w, Step(w, s, Run(i, c)), i, c, 4)
  {
    assert Phase(w, s.vol, i, s.savers[i]);
    assert ParentEntry(s.vol).now in ParentEntry(s.vol).may;
    EntAddDir(s.vol, TempDir(i));
    EntSetEntry(AddDir(s.vol, TempDir(i)), ParentEntry(s.vol).now.value, PartialName(w.base, c.suffix),
      Some(TempDir(i)));
  }

  /** Work in the private directory leaves the parent and the destination as they are. */
  lemma PrivateNames(w: World, s: Sys, i: nat, c: Choice)
    requires Inv(w, s) && i < |s.savers| && WorksPrivately(s.savers[i].pc) && ParentEntry(s.vol).now.Some?
    ensures var v', p := Advance(w, s.vol, i, s.savers[i], c).0, ParentEntry(s.vol).now.value;
            ParentEntry(v') == ParentEntry(s.vol) && forall n :: Ent(v', p, n) == Ent(s.vol, p, n)
  {
    assert ParentEntry(s.vol).now in ParentEntry(s.vol).may;
    PrivateStep(w, s.vol, i, s.savers[i], c);
  }

  /** An undisturbed saver takes its next step. */
  lemma AloneAdvances(w: World, v: Volume, i: nat, s: Saver, c: Choice)
    requires Willing(w, s, c) && Built(w, v, i, s) && 4 <= Progress(s.pc) <= 12 && Destination(w, v).None?
    ensures var s' := Advance(w, v, i, s, c).1;
            Progress(s'.pc) == Progress(s.pc) + 1 && s'.name == s.name && s'.meta == s.meta && s'.moved == s.moved
  {
    if Progress(s.pc) <= 6 {
      FillAdvances(w, v, i, s, c);
    } else {
      SealAdvances(w, v, i, s, c);
    }
  }

  lemma FillAdvances(w: World, v: Volume, i: nat, s: Saver, c: Choice)
    requires Willing(w, s, c) && Built(w, v, i, s) && 4 <= Progress(s.pc) <= 6
    ensures var s' := Advance(w, v, i, s, c).1;
            Progress(s'.pc) == Progress(s.pc) + 1 && s'.name == s.name && s'.meta == s.meta && s'.moved == s.moved
  {
  }

  lemma SealAdvances(w: World, v: Volume, i: nat, s: Saver, c: Choice)
    requires Willing(w, s, c) && 7 <= Progress(s.pc) <= 12 && Destination(w, v).None?
    ensures var s' := Advance(w, v, i, s, c).1;
            Progress(s'.pc) == Progress(s.pc) + 1 && s'.name == s.name && s'.meta == s.meta && s'.moved == s.moved
  {
  }

  lemma AloneWorks(w: World, s: Sys, i: nat, c: Choice, n: nat)
    requires Inv(w, s) && Alone(w, s, i, c, n) && 4 <= n < 13
    ensures Alone(w, Step(w, s, Run(i, c)), i, c, n + 1)
  {
    assert Phase(w, s.vol, i, s.savers[i]);
    PrivateNames(w, s, i, c);
    AloneAdvances(w, s.vol, i, s.savers[i], c);
  }

  lemma OneMore(w: World, s: Sys, a: Action, n: nat)
    ensures Exec(w, s, Times(a, n + 1)) == Step(w, Exec(w, s, Times(a, n)), a)
  {
    assert Times(a, n + 1)[..n] == Times(a, n);
  }

  lemma AloneStep(w: World, s: Sys, i: nat, c: Choice, n: nat)
    requires Inv(w, s) && Alone(w, s, i, c, n) && n < 13
    ensures Alone(w, Step(w, s, Run(i, c)), i, c, n + 1)
  {
    if n <= 1 {
      AloneLooks(w, s, i, c, n);
    } else if n == 2 {
      AloneMakesParent(w, s, i, c);
    } else if n == 3 {
      AloneMakesTemp(w, s, i, c);
    } else {
      AloneWorks(w, s, i, c, n);
    }
  }

  /** The state is sound, and saver `i` alone has worked, `n` steps. */
  ghost predicate AloneAt(w: World, s: Sys, i: nat, c: Choice, n: nat) {
    Inv(w, s) && Alone(w, s, i, c, n)
  }

  lemma AloneNext(w: World, s: Sys, t: Sys, i: nat, c: Choice, n: nat)
    requires AloneAt(w, s, i, c, n) && n < 13 && t == Step(w, s, Run(i, c))
    ensures AloneAt(w, t, i, c, n + 1)
  {
    RunInv(w, s, i, c);
    AloneStep(w, s, i, c, n);
  }

  lemma {:induction false} AloneFrom(w: World, s: Sys, i: nat, c: Choice, n: nat)
    requires AloneAt(w, s, i, c, 0) && n <= 13
    ensures AloneAt(w, Exec(w, s, Times(Run(i, c), n)), i, c, n)
  {
    if n == 0 {
      assert Times(Run(i, c), 0) == [];
    } else {
      AloneFrom(w, s, i, c, n - 1);
      OneMore(w, s, Run(i, c), n - 1);
      AloneNext(w, Exec(w, s, Times(Run(i, c), n - 1)), Exec(w, s, Times(Run(i, c), n)), i, c, n - 1);
    }
  }

  lemma AloneRun(w: World, s: Sys, i: nat, c: Choice, n: nat)
    requires Init(w, s) && Alone(w, s, i, c, 0) && n <= 13
    ensures Alone(w, Exec(w, s, Times(Run(i, c), n)), i, c, n)
  {
    InitInv(w, s);
    AloneFrom(w, s, i, c, n);
  }

  /** The rename of an undisturbed run takes effect, and is not on disk yet. */
  lemma AloneRenames(w: World, s: Sys, i: nat, c: Choice)
    requires Inv(w, s) && Alone(w, s, i, c, 13)
    ensures var s' := Step(w, s, Run(i, c));
            && s'.savers == s.savers[i := s.savers[i].(pc := Renamed, moved := true)]
            && Destination(w, s'.vol) == Some(TempDir(i))
            && None in Ent(s'.vol, ParentEntry(s'.vol).now.value, w.base).may
  {
    var p := ParentEntry(s.vol).now.value;
    assert ParentEntry(s.vol).now in ParentEntry(s.vol).may;
    assert Ent(s.vol, p, w.base).now in Ent(s.vol, p, w.base).may;
    assert Phase(w, s.vol, i, s.savers[i]);
    RenamingEntries(w, s.vol, p, s.savers[i].name, i);
  }

  lemma RenamedReturns(w: World, s: Sys, i: nat, c: Choice)
    requires Inv(w, s) && i < |s.savers| && s.savers[i].pc.Renamed? && !c.fail
    ensures var s' := Step(w, s, Run(i, c));
            s'.savers[i] == s.savers[i].(pc := Returned) && s'.savers[i].moved
            && Destination(w, s'.vol) == Some(TempDir(i))
  {
    assert Phase(w, s.vol, i, s.savers[i]);
    RunInv(w, s, i, c);
    assert Phase(w, Step(w, s, Run(i, c)).vol, i, Step(w, s, Run(i, c)).savers[i]);
  }

  /** With a sound overlay, a free name and no failing call, one run publishes and returns. */
  lemma UndisturbedRunPublishes(w: World, s: Sys, i: nat, c: Choice)
    requires Init(w, s) && Alone(w, s, i, c, 0)
    ensures var end := Exec(w, s, Times(Run(i, c), 15));
            && |end.savers| == |s.savers|
            && end.savers[i].pc.Returned? && end.savers[i].moved
            && Destination(w, end.vol) == Some(TempDir(i))
  {
    AloneRenamed(w, s, i, c);
    ExecInv(w, s, Times(Run(i, c), 14));
    OneMore(w, s, Run(i, c), 14);
    RenamedReturns(w, Exec(w, s, Times(Run(i, c), 14)), i, c);
  }

  lemma {:induction false} OthersUntouched(w: World, s: Sys, i: nat, c: Choice, n: nat, k: nat)
    requires i < |s.savers| && k < |s.savers| && k != i
    ensures var end := Exec(w, s, Times(Run(i, c), n));
            |end.savers| == |s.savers| && end.savers[k] == s.savers[k] && end.savers[i].meta == s.savers[i].meta
  {
    if n > 0 {
      OneMore(w, s, Run(i, c), n - 1);
      OthersUntouched(w, s, i, c, n - 1, k);
      var mid := Exec(w, s, Times(Run(i, c), n - 1));
      MetaKept(w, mid.vol, i, mid.savers[i], c);
    }
  }

  lemma UnsyncedIsLost(w: World, s: Sys)
    requires Inv(w, s) && Destination(w, s.vol).Some?
    requires None in Ent(s.vol, ParentEntry(s.vol).now.value, w.base).may
    ensures exists after :: CrashOf(s.vol, after) && Destination(w, after).None?
  {
    var p := ParentEntry(s.vol).now.value;
    assert ParentEntry(s.vol).now in ParentEntry(s.vol).may;
    RevertIsCrash(s.vol, p, w.base, None);
    assert Destination(w, Revert(s.vol, p, w.base, None)).None?;
  }

  /**
   A retry may return before the first run has synced the parent.  The bundle
   it reports can still be lost to a power failure, although the caller may
   already have removed the overlay.
   */
  lemma RetryCanReturnTooEarly(w: World, s: Sys, i: nat, c: Choice, k: nat, c': Choice)
    requires Init(w, s) && Alone(w, s, i, c, 0) && k < |s.savers| && k != i
    requires s.savers[k].meta.id == s.savers[i].meta.id && !s.savers[k].meta.blocked && !c'.fail
    requires s.savers[i].meta.id.Some? && ReadsBack(s.savers[i].meta.id.value)
    ensures var end := Exec(w, s, Times(Run(i, c), 14) + [Run(k, c')]);
            && |end.savers| == |s.savers|
            && end.savers[k].pc.Returned?
            && exists after :: CrashOf(end.vol, after) && Destination(w, after).None?
  {
    var acts := Times(Run(i, c), 14);
    AloneRenamed(w, s, i, c);
    OthersUntouched(w, s, i, c, 14, k);
    var mid := Exec(w, s, acts);
    ExecInv(w, s, acts);
    RetryFinds(w, s, acts, i, k, c');
    UnsyncedIsLost(w, mid);
  }

  /** An undisturbed run whose last call, the sync of the parent, fails. */
  function FailingSync(i: nat, c: Choice): seq<Action> {
    Times(Run(i, c), 14) + [Run(i, c.(fail := true))]
  }

  lemma SyncFails(w: World, s: Sys, i: nat, c: Choice, k: nat)
    requires Init(w, s) && Alone(w, s, i, c, 0) && k < |s.savers| && k != i
    ensures var end := Exec(w, s, FailingSync(i, c));
            && |end.savers| == |s.savers| && end.savers[k] == s.savers[k] && end.savers[i].meta == s.savers[i].meta
            && end.savers[i].pc.Raised? && end.savers[i].moved && Destination(w, end.vol) == Some(TempDir(i))
  {
    AloneRenamed(w, s, i, c);
    OthersUntouched(w, s, i, c, 14, k);
    assert FailingSync(i, c)[..14] == Times(Run(i, c), 14);
  }

  /** A publisher whose sync fails raises; a retry then returns, and what it returns never becomes durable. */
  lemma RetryAfterFailedSync(w: World, s: Sys, i: nat, c: Choice, k: nat, c': Choice, more: seq<Action>)
    requires Init(w, s) && Alone(w, s, i, c, 0) && k < |s.savers| && k != i && NoPowerLoss(more)
    requires s.savers[k].meta.id == s.savers[i].meta.id && !s.savers[k].meta.blocked && !c'.fail
    requires s.savers[i].meta.id.Some? && ReadsBack(s.savers[i].meta.id.value)
    ensures var end := Exec(w, s, FailingSync(i, c) + [Run(k, c')]);
            && |end.savers| == |s.savers| && end.savers[i].pc.Raised? && end.savers[k].pc.Returned?
            && !Durable(w, Exec(w, s, FailingSync(i, c) + [Run(k, c')] + more).vol)
  {
    var failed := FailingSync(i, c);
    SyncFails(w, s, i, c, k);
    RetryFinds(w, s, failed, i, k, c');
    FailedSyncIsNotRepaired(w, s, failed + [Run(k, c')], more, i);
  }

  /** A retry over another run's bundle with the same id returns. */
  lemma RetryFinds(w: World, s: Sys, acts: seq<Action>, i: nat, k: nat, c: Choice)
    requires Init(w, s) && k < |Exec(w, s, acts).savers| && i < |Exec(w, s, acts).savers| && k != i && !c.fail
    requires var end := Exec(w, s, acts);
             && Destination(w, end.vol) == Some(TempDir(i))
             && end.savers[k].pc.Start? && !end.savers[k].meta.blocked && end.savers[k].meta.id == end.savers[i].meta.id
             && end.savers[i].meta.id.Some? && ReadsBack(end.savers[i].meta.id.value)
    ensures var end := Exec(w, s, acts);
            Exec(w, s, acts + [Run(k, c)]) == Sys(end.vol, end.savers[k := Step(w, end, Run(k, c)).savers[k]])
            && Step(w, end, Run(k, c)).savers[k].pc.Returned?
  {
    ExecInv(w, s, acts);
    assert !TempDir(i).Foreign?;
    DestinationIsBundle(w, Exec(w, s, acts));
    RetryReturnsStanding(w, s, acts, k, c);
    assert (acts + [Run(k, c)])[..|acts|] == acts;
  }

  /** Fourteen undisturbed steps put the directory in place, with the parent not synced. */
  lemma AloneRenamed(w: World, s: Sys, i: nat, c: Choice)
    requires Init(w, s) && Alone(w, s, i, c, 0)
    ensures var mid := Exec(w, s, Times(Run(i, c), 14));
            && |mid.savers| == |s.savers| && mid.savers[i].pc.Renamed? && mid.savers[i].moved
            && Destination(w, mid.vol) == Some(TempDir(i))
            && None in Ent(mid.vol, ParentEntry(mid.vol).now.value, w.base).may
  {
    ExecInv(w, s, Times(Run(i, c), 13));
    OneMore(w, s, Run(i, c), 13);
    AloneRun(w, s, i, c, 13);
    AloneRenames(w, Exec(w, s, Times(Run(i, c), 13)), i, c);
  }
}
