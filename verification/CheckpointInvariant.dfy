/** What every step of every saver, and every power loss, keeps. */
module CheckpointInvariant {
  import opened Prelude
  import opened Storage
  import opened Checkpoint

  /** Entry `n` of saver `i`'s directory is, and after any crash stays, file `f` with this data. */
  ghost predicate Sealed1(v: Volume, i: nat, n: string, f: Ino, data: Content) {
    Ent(v, TempDir(i), n) == Settled(Some(f)) && f in v.files && v.files[f] == File(data, true)
  }

  ghost predicate WellMade(w: World, s: Saver) {
    && s.meta.overlay.Some? && ImageOk(w.tools, s.meta.overlay.value)
    && s.manifest.schema == SCHEMA && s.manifest.version == VERSION && s.manifest.mode == MODE
    && s.manifest.id.Some? && s.manifest.template == s.meta.template
    && (s.meta.id.Some? && s.meta.id.value != "" ==> s.manifest.id == s.meta.id)
  }

  /** Saver `i`'s directory is a whole bundle that no crash can alter. */
  ghost predicate Sealed(w: World, v: Volume, i: nat, s: Saver) {
    && TempDir(i) in v.dirs
    && WellMade(w, s)
    && Sealed1(v, i, DISK, DiskOf(i), Blob(s.meta.overlay.value))
    && Sealed1(v, i, MANIFEST, ManifestOf(i), Json(s.manifest))
    && Sealed1(v, i, COMPLETE, CompleteOf(i), Line(s.manifest.id.value + "\n"))
  }

  function Progress(pc: Pc): nat {
    match pc
    case Start => 0
    case Clear => 1
    case Vetted => 2
    case ParentReady => 3
    case TempMade => 4
    case DiskOpen => 5
    case DiskCopied => 6
    case ManifestWritten => 7
    case ManifestSynced => 8
    case CompleteWritten => 9
    case CompleteSynced => 10
    case DiskSynced => 11
    case TempSynced => 12
    case Rechecked => 13
    case _ => 14
  }

  ghost predicate Has(v: Volume, i: nat, n: string, f: Ino) {
    Ent(v, TempDir(i), n).now == Some(f) && f in v.files
  }

  /** What saver `i` has built so far, while it still works on its private directory. */
  ghost predicate Built(w: World, v: Volume, i: nat, s: Saver) {
    var k := Progress(s.pc);
    && (2 <= k ==> s.meta.overlay.Some? && ImageOk(w.tools, s.meta.overlay.value))
    && (3 <= k ==> ParentEntry(v).now.Some?)
    && (4 <= k ==> TempDir(i) in v.dirs && s.name != w.base)
    && (5 <= k ==> Has(v, i, DISK, DiskOf(i)))
    && (6 <= k ==> v.files[DiskOf(i)] == File(Blob(s.meta.overlay.value), true))
    && (7 <= k ==> WellMade(w, s) && Has(v, i, MANIFEST, ManifestOf(i))
                   && v.files[ManifestOf(i)].data == Json(s.manifest))
    && (8 <= k ==> v.files[ManifestOf(i)].synced)
    && (9 <= k ==> Has(v, i, COMPLETE, CompleteOf(i))
                   && v.files[CompleteOf(i)].data == Line(s.manifest.id.value + "\n"))
    && (10 <= k ==> v.files[CompleteOf(i)].synced)
    && (12 <= k ==> Sealed(w, v, i, s))
  }

  /** What a run whose rename took effect can rely on until the next crash. */
  ghost predicate Moved(w: World, v: Volume, i: nat, s: Saver) {
    && Sealed(w, v, i, s)
    && (s.pc.Renamed? || s.pc.Returned? || s.pc.Cleaning? || s.pc.Raised? || s.pc.Dead?)
    && (!s.pc.Dead? ==>
          && ParentEntry(v).now.Some?
          && Destination(w, v) == Some(TempDir(i))
          && Ent(v, ParentEntry(v).now.value, s.name).now != Some(TempDir(i)))
    && (s.pc.Returned? ==>
          Ent(v, ParentEntry(v).now.value, w.base) == Settled(Some(TempDir(i))))
  }

  ghost predicate Phase(w: World, v: Volume, i: nat, s: Saver) {
    && (s.pc.Renamed? ==> s.moved)
    && (s.moved ==> Moved(w, v, i, s))
    && (!s.moved && Progress(s.pc) < 14 ==> Built(w, v, i, s))
    && (s.pc.Cleaning? && !s.moved ==> ParentEntry(v).now.Some? && s.name != w.base && TempDir(i) in v.dirs)
  }

  /** What stands at the destination was there before, or was brought back by a power loss. */
  predicate EarlierStands(w: World, v: Volume) {
    Destination(w, v).Some? && Destination(w, v).value in w.earlier
  }

  predicate AtRest(pc: Pc) {
    pc.Start? || pc.Returned? || pc.Raised? || pc.Dead?
  }

  /** No living saver has got beyond its first look. */
  ghost predicate Resting(s: Sys) {
    forall i | 0 <= i < |s.savers| :: AtRest(s.savers[i].pc)
  }

  /** A run that returned names the manifest that stands. */
  ghost predicate Reported(w: World, s: Sys, i: nat)
    requires i < |s.savers|
  {
    s.savers[i].pc.Returned? ==>
      var x := Destination(w, s.vol);
      && x.Some?
      && if x.value in w.earlier then Load(w, s.vol, x.value, None) == Ok(s.savers[i].manifest)
         else
           && x.value.TempDir? && x.value.saver < |s.savers|
           && s.savers[x.value.saver].moved
           && s.savers[x.value.saver].manifest == s.savers[i].manifest
  }

  /** Whatever the destination may be after a crash was there before, or was put there by a rename. */
  ghost predicate Candidate(w: World, s: Sys, x: Option<Ino>) {
    x.Some? ==>
      || x.value in w.earlier
      || (x.value.TempDir? && x.value.saver < |s.savers| && s.savers[x.value.saver].moved)
  }

  /** A directory that the parent's path may lead to, now or later. */
  predicate Linked(v: Volume, p: Ino) {
    p.ParentBy? || Some(p) in ParentEntry(v).may
  }

  ghost predicate Shape(w: World, s: Sys) {
    && EntriesOk(s.vol)
    && Top in s.vol.dirs
    && (forall x | x in w.earlier :: x.Foreign?)
    && ParentEntry(s.vol).may <= {None, ParentEntry(s.vol).now}
    && (ParentEntry(s.vol).now.Some? ==>
          IsParent(ParentEntry(s.vol).now.value) && ParentEntry(s.vol).now.value in s.vol.dirs)
    && (forall p, x | Linked(s.vol, p) && x in Ent(s.vol, p, w.base).may :: Candidate(w, s, x))
  }

  ghost predicate Inv(w: World, s: Sys) {
    && Shape(w, s)
    && (forall i | 0 <= i < |s.savers| :: Phase(w, s.vol, i, s.savers[i]))
    && (forall i | 0 <= i < |s.savers| :: Reported(w, s, i))
    && (EarlierStands(w, s.vol) ==> Resting(s))
  }

  lemma InitInv(w: World, s: Sys)
    requires Init(w, s)
    ensures Inv(w, s)
  {
  }

  /** The parts of the volume that saver `j`'s phase speaks about. */
  ghost predicate SameFor(w: World, v: Volume, v': Volume, j: nat, s: Saver) {
    && (TempDir(j) in v.dirs ==> TempDir(j) in v'.dirs)
    && (forall n :: Ent(v', TempDir(j), n) == Ent(v, TempDir(j), n))
    && (forall f | f in v.files && (f == DiskOf(j) || f == ManifestOf(j) || f == CompleteOf(j)) ::
          f in v'.files && v'.files[f] == v.files[f])
    && (ParentEntry(v).now.Some? ==> SameName(w, v, v', j, s))
  }

  /** Saver `j`'s temporary name is not given to its directory anew. */
  ghost predicate SameName(w: World, v: Volume, v': Volume, j: nat, s: Saver)
    requires ParentEntry(v).now.Some?
  {
    var p := ParentEntry(v).now.value;
    Ent(v', p, s.name).now == Some(TempDir(j)) ==> Ent(v, p, s.name).now == Some(TempDir(j))
  }

  /** The parent stays where it is, and so does a destination that stands. */
  ghost predicate StandingKept(w: World, v: Volume, v': Volume) {
    ParentEntry(v).now.Some? ==>
      var p := ParentEntry(v).now.value;
      && ParentEntry(v') == ParentEntry(v)
      && (Ent(v, p, w.base).now.Some? ==>
            && Ent(v', p, w.base).now == Ent(v, p, w.base).now
            && Ent(v', p, w.base).may <= Ent(v, p, w.base).may)
  }

  lemma OthersKeepPhase(w: World, v: Volume, v': Volume, j: nat, s: Saver)
    requires Phase(w, v, j, s) && SameFor(w, v, v', j, s) && StandingKept(w, v, v') && EntriesOk(v')
    ensures Phase(w, v', j, s)
  {
    if ParentEntry(v).now.Some? {
      var e := Ent(v', ParentEntry(v).now.value, w.base);
      assert e.now in e.may;
    }
  }

  /** Only the private directory and files of saver `i` differ. */
  ghost predicate Private(v: Volume, v': Volume, i: nat) {
    && v'.dirs.Keys == v.dirs.Keys
    && EntriesOk(v')
    && (forall d, n | d != TempDir(i) :: Ent(v', d, n) == Ent(v, d, n))
    && (forall f | f in v.files && f != DiskOf(i) && f != ManifestOf(i) && f != CompleteOf(i) ::
          f in v'.files && v'.files[f] == v.files[f])
  }

  predicate WorksPrivately(pc: Pc) {
    HasTemp(pc) && !pc.Rechecked?
  }

  /** Creating a file in the private directory. */
  lemma PrivateEntry(v: Volume, i: nat, n: string, f: Ino)
    requires EntriesOk(v)
    ensures Private(v, SetEntry(v, TempDir(i), n, Some(f)), i)
  {
    EntSetEntry(v, TempDir(i), n, Some(f));
    var v' := SetEntry(v, TempDir(i), n, Some(f));
    forall d, m
      ensures Ent(v', d, m).now in Ent(v', d, m).may
    {
      assert Ent(v, d, m).now in Ent(v, d, m).may;
    }
  }

  lemma PrivateSync(v: Volume, i: nat)
    requires EntriesOk(v)
    ensures Private(v, SyncDir(v, TempDir(i)), i)
  {
    EntSyncDir(v, TempDir(i));
    var v' := SyncDir(v, TempDir(i));
    forall d, n
      ensures Ent(v', d, n).now in Ent(v', d, n).may
    {
      assert Ent(v, d, n).now in Ent(v, d, n).may;
    }
  }

  /** Writing or syncing a private file. */
  lemma PrivateFile(v: Volume, v': Volume, i: nat, f: Ino, data: Content, synced: bool)
    requires EntriesOk(v) && Private(v, v', i) && (f == DiskOf(i) || f == ManifestOf(i) || f == CompleteOf(i))
    ensures Private(v, WriteFile(v', f, data, synced), i) && Private(v, SyncFile(v', f), i)
  {
    forall d, n
      ensures Ent(WriteFile(v', f, data, synced), d, n) == Ent(v', d, n)
      ensures Ent(SyncFile(v', f), d, n) == Ent(v', d, n)
    {
    }
  }

  lemma PrivateFiles(v: Volume, v': Volume, i: nat)
    requires EntriesOk(v) && Private(v, v', i)
    ensures forall f, data, synced | f == DiskOf(i) || f == ManifestOf(i) || f == CompleteOf(i) ::
              Private(v, WriteFile(v', f, data, synced), i)
    ensures forall f | f == DiskOf(i) || f == ManifestOf(i) || f == CompleteOf(i) :: Private(v, SyncFile(v', f), i)
  {
    forall f, data, synced | f == DiskOf(i) || f == ManifestOf(i) || f == CompleteOf(i)
      ensures Private(v, WriteFile(v', f, data, synced), i) && Private(v, SyncFile(v', f), i)
    {
      PrivateFile(v, v', i, f, data, synced);
    }
  }

  lemma PrivateStep(w: World, v: Volume, i: nat, s: Saver, c: Choice)
    requires EntriesOk(v) && WorksPrivately(s.pc)
    ensures Private(v, Advance(w, v, i, s, c).0, i)
  {
    PrivateFiles(v, v, i);
    if s.pc.TempMade? {
      PrivateEntry(v, i, DISK, DiskOf(i));
      PrivateFiles(v, SetEntry(v, TempDir(i), DISK, Some(DiskOf(i))), i);
    } else if s.pc.DiskCopied? {
      PrivateEntry(v, i, MANIFEST, ManifestOf(i));
      PrivateFiles(v, SetEntry(v, TempDir(i), MANIFEST, Some(ManifestOf(i))), i);
    } else if s.pc.ManifestSynced? {
      PrivateEntry(v, i, COMPLETE, CompleteOf(i));
      PrivateFiles(v, SetEntry(v, TempDir(i), COMPLETE, Some(CompleteOf(i))), i);
    } else if s.pc.DiskSynced? {
      PrivateSync(v, i);
    }
  }

  /** Only a power loss brings back what stood before. */
  predicate NoneComesBack(w: World, v: Volume, v': Volume) {
    EarlierStands(w, v') ==> EarlierStands(w, v)
  }

  /** The outcome of a step of saver `i` is as good as the state it started from. */
  ghost predicate Keeps(w: World, s: Sys, i: nat, r: (Volume, Saver))
    requires i < |s.savers|
  {
    && Shape(w, Sys(r.0, s.savers[i := r.1]))
    && Phase(w, r.0, i, r.1)
    && StandingKept(w, s.vol, r.0) && NoneComesBack(w, s.vol, r.0)
    && (s.savers[i].moved ==> r.1.moved && r.1.manifest == s.savers[i].manifest)
    && (forall j | 0 <= j < |s.savers| && j != i :: SameFor(w, s.vol, r.0, j, s.savers[j]))
  }

  ghost predicate Ready(w: World, s: Sys, i: nat) {
    && i < |s.savers|
    && Shape(w, s)
    && Phase(w, s.vol, i, s.savers[i])
  }

  /** A step that leaves the destination's entry in every parent keeps the shape. */
  lemma ShapeKept(w: World, s: Sys, i: nat, v': Volume, saver': Saver)
    requires Shape(w, s) && i < |s.savers|
    requires EntriesOk(v') && v'.dirs.Keys >= s.vol.dirs.Keys
    requires s.savers[i].moved ==> saver'.moved
    requires ParentEntry(v').may <= {None, ParentEntry(v').now}
    requires ParentEntry(v').now.Some? ==>
               IsParent(ParentEntry(v').now.value) && ParentEntry(v').now.value in v'.dirs
    requires forall p | Linked(v', p) :: Linked(s.vol, p)
    requires forall p, x | Linked(v', p) && x in Ent(v', p, w.base).may ::
               x.None? || x in Ent(s.vol, p, w.base).may || (x == Some(TempDir(i)) && saver'.moved)
    ensures Shape(w, Sys(v', s.savers[i := saver']))
  {
    var s' := Sys(v', s.savers[i := saver']);
    forall p, x | Linked(v', p) && x in Ent(v', p, w.base).may
      ensures Candidate(w, s', x)
    {
      assert x.None? || x in Ent(s.vol, p, w.base).may || (x == Some(TempDir(i)) && saver'.moved);
      if x.Some? && x in Ent(s.vol, p, w.base).may {
        assert Candidate(w, s, x);
        assert Candidate(w, s', x);
      } else if x.Some? {
        assert x == Some(TempDir(i)) && saver'.moved;
        assert Candidate(w, s', x);
      }
    }
  }

  /** A step of saver `i` leaves everything the other savers rely on as it was. */
  ghost predicate Frames(w: World, s: Sys, i: nat, v': Volume) {
    && StandingKept(w, s.vol, v') && NoneComesBack(w, s.vol, v')
    && forall j | 0 <= j < |s.savers| && j != i :: SameFor(w, s.vol, v', j, s.savers[j])
  }

  lemma PrivateFrames(w: World, s: Sys, i: nat, v': Volume)
    requires Ready(w, s, i) && Private(s.vol, v', i)
    ensures Frames(w, s, i, v')
  {
    forall j | 0 <= j < |s.savers| && j != i
      ensures SameFor(w, s.vol, v', j, s.savers[j])
    {
    }
  }

  predicate FillsDisk(pc: Pc) {
    pc.TempMade? || pc.DiskOpen? || pc.DiskCopied?
  }

  predicate FillsRecords(pc: Pc) {
    pc.ManifestWritten? || pc.ManifestSynced? || pc.CompleteWritten?
  }

  lemma DiskOwn(w: World, s: Sys, i: nat, c: Choice)
    requires Ready(w, s, i) && FillsDisk(s.savers[i].pc) && !c.fail
    ensures var r := Advance(w, s.vol, i, s.savers[i], c); Phase(w, r.0, i, r.1)
  {
    assert Built(w, s.vol, i, s.savers[i]);
  }

  lemma RecordsOwn(w: World, s: Sys, i: nat, c: Choice)
    requires Ready(w, s, i) && FillsRecords(s.savers[i].pc) && !c.fail
    ensures var r := Advance(w, s.vol, i, s.savers[i], c); Phase(w, r.0, i, r.1)
  {
    assert Built(w, s.vol, i, s.savers[i]);
  }

  lemma SealOwn(w: World, s: Sys, i: nat, c: Choice)
    requires Ready(w, s, i) && !c.fail
    requires var pc := s.savers[i].pc; pc.CompleteSynced? || pc.DiskSynced? || pc.TempSynced?
    ensures var r := Advance(w, s.vol, i, s.savers[i], c); Phase(w, r.0, i, r.1)
  {
    assert Built(w, s.vol, i, s.savers[i]);
  }

  lemma PrivateKeeps(w: World, s: Sys, i: nat, c: Choice)
    requires Ready(w, s, i) && WorksPrivately(s.savers[i].pc) && !c.fail
    ensures Keeps(w, s, i, Advance(w, s.vol, i, s.savers[i], c))
  {
    var r := Advance(w, s.vol, i, s.savers[i], c);
    PrivateStep(w, s.vol, i, s.savers[i], c);
    PrivateFrames(w, s, i, r.0);
    if FillsDisk(s.savers[i].pc) {
      DiskOwn(w, s, i, c);
    } else if FillsRecords(s.savers[i].pc) {
      RecordsOwn(w, s, i, c);
    } else {
      SealOwn(w, s, i, c);
    }
    ShapeKept(w, s, i, r.0, r.1);
  }

  predicate Reads(pc: Pc) {
    pc.Start? || pc.Clear? || pc.Returned? || pc.Raised? || pc.Dead?
  }

  lemma UnchangedFrames(w: World, s: Sys, i: nat)
    ensures Frames(w, s, i, s.vol)
  {
  }

  lemma SameVolumeKeeps(w: World, s: Sys, i: nat, r: (Volume, Saver))
    requires Ready(w, s, i) && r.0 == s.vol && Phase(w, s.vol, i, r.1)
    requires s.savers[i].moved ==> r.1.moved && r.1.manifest == s.savers[i].manifest
    ensures Keeps(w, s, i, r)
  {
    UnchangedFrames(w, s, i);
    ShapeKept(w, s, i, r.0, r.1);
  }

  lemma FailedOwn(w: World, s: Sys, i: nat, c: Choice)
    requires Ready(w, s, i) && c.fail && !s.savers[i].pc.Cleaning?
    ensures var r := Advance(w, s.vol, i, s.savers[i], c);
            r.0 == s.vol && r.1.moved == s.savers[i].moved && r.1.manifest == s.savers[i].manifest
            && Phase(w, s.vol, i, r.1)
  {
  }

  /** A failing call changes nothing on disk. */
  lemma FailingKeeps(w: World, s: Sys, i: nat, c: Choice)
    requires Ready(w, s, i) && !s.savers[i].pc.Cleaning? && c.fail
    ensures Keeps(w, s, i, Advance(w, s.vol, i, s.savers[i], c))
  {
    FailedOwn(w, s, i, c);
    SameVolumeKeeps(w, s, i, Advance(w, s.vol, i, s.savers[i], c));
  }

  lemma ReadingOwn(w: World, v: Volume, i: nat, s: Saver, c: Choice)
    requires Phase(w, v, i, s) && !c.fail && Reads(s.pc)
    ensures var r := Advance(w, v, i, s, c);
            r.0 == v && r.1.moved == s.moved && (s.moved ==> r.1.manifest == s.manifest) && Phase(w, v, i, r.1)
  {
  }

  /** Nor do the first checks, and runs that are over. */
  lemma ReadingKeeps(w: World, s: Sys, i: nat, c: Choice)
    requires Ready(w, s, i) && !c.fail && Reads(s.savers[i].pc)
    ensures Keeps(w, s, i, Advance(w, s.vol, i, s.savers[i], c))
  {
    ReadingOwn(w, s.vol, i, s.savers[i], c);
    SameVolumeKeeps(w, s, i, Advance(w, s.vol, i, s.savers[i], c));
  }

  lemma ParentFrames(w: World, s: Sys, i: nat)
    requires Ready(w, s, i)
    ensures var v' := MakeParent(s.vol, i); EntriesOk(v') && Frames(w, s, i, v')
  {
    EntAddDir(s.vol, ParentBy(i));
    EntSetEntry(AddDir(s.vol, ParentBy(i)), Top, PARENT, Some(ParentBy(i)));
  }

  lemma ParentKeeps(w: World, s: Sys, i: nat, c: Choice)
    requires Ready(w, s, i) && s.savers[i].pc.Vetted? && !c.fail
    ensures Keeps(w, s, i, Advance(w, s.vol, i, s.savers[i], c))
  {
    var r := Advance(w, s.vol, i, s.savers[i], c);
    ParentFrames(w, s, i);
    ShapeKept(w, s, i, r.0, r.1);
  }

  lemma MakeTempFrames(w: World, s: Sys, i: nat, c: Choice)
    requires Ready(w, s, i) && s.savers[i].pc.ParentReady?
    ensures var v' := MakeTemp(w, s.vol, i, s.savers[i], c).0; EntriesOk(v') && Frames(w, s, i, v')
  {
    EntAddDir(s.vol, TempDir(i));
    if ParentEntry(s.vol).now.Some? {
      EntSetEntry(AddDir(s.vol, TempDir(i)), ParentEntry(s.vol).now.value, PartialName(w.base, c.suffix),
        Some(TempDir(i)));
    }
  }

  lemma MakeTempKeeps(w: World, s: Sys, i: nat, c: Choice)
    requires Ready(w, s, i) && s.savers[i].pc.ParentReady?
    ensures Keeps(w, s, i, MakeTemp(w, s.vol, i, s.savers[i], c))
  {
    var r := MakeTemp(w, s.vol, i, s.savers[i], c);
    MakeTempFrames(w, s, i, c);
    EntAddDir(s.vol, TempDir(i));
    assert ParentEntry(s.vol).now in ParentEntry(s.vol).may;
    ShapeKept(w, s, i, r.0, r.1);
  }

  /** A rename onto a standing bundle fails: the bundle is not empty. */
  lemma StandingIsNotEmpty(w: World, s: Sys, x: Ino)
    requires Inv(w, s) && Destination(w, s.vol) == Some(x) && x !in w.earlier
    ensures !IsEmptyDir(s.vol, x)
  {
    var p := ParentEntry(s.vol).now.value;
    assert Ent(s.vol, p, w.base).now in Ent(s.vol, p, w.base).may;
    assert ParentEntry(s.vol).now in ParentEntry(s.vol).may;
    assert Candidate(w, s, Some(x));
    assert Phase(w, s.vol, x.saver, s.savers[x.saver]);
    assert Ent(s.vol, x, DISK).now.Some?;
  }

  /** The volume after the rename: one entry gone, the destination's set. */
  function Renaming(w: World, v: Volume, p: Ino, name: string, i: nat): Volume {
    SetEntry(SetEntry(v, p, name, None), p, w.base, Some(TempDir(i)))
  }

  lemma RenamingEntries(w: World, v: Volume, p: Ino, name: string, i: nat)
    requires p in v.dirs && name != w.base
    ensures forall d, n :: Ent(Renaming(w, v, p, name, i), d, n) ==
              if d == p && n == w.base then Entry(Some(TempDir(i)), Ent(v, d, n).may + {Some(TempDir(i))})
              else if d == p && n == name then Entry(None, Ent(v, d, n).may + {None})
              else Ent(v, d, n)
    ensures EntriesOk(v) ==> EntriesOk(Renaming(w, v, p, name, i))
  {
    EntSetEntry(v, p, name, None);
    EntSetEntry(SetEntry(v, p, name, None), p, w.base, Some(TempDir(i)));
  }

  lemma RenameFrames(w: World, s: Sys, i: nat)
    requires Ready(w, s, i) && s.savers[i].pc.Rechecked? && Destination(w, s.vol).None?
    ensures Frames(w, s, i, Renaming(w, s.vol, ParentEntry(s.vol).now.value, s.savers[i].name, i))
  {
    var p := ParentEntry(s.vol).now.value;
    assert ParentEntry(s.vol).now in ParentEntry(s.vol).may;
    RenamingEntries(w, s.vol, p, s.savers[i].name, i);
    var v' := Renaming(w, s.vol, p, s.savers[i].name, i);
    assert ParentEntry(v') == ParentEntry(s.vol);
    forall j | 0 <= j < |s.savers| && j != i
      ensures SameFor(w, s.vol, v', j, s.savers[j])
    {
      RenameSame(w, s.vol, p, s.savers[i].name, i, j, s.savers[j]);
    }
  }

  lemma RenameSame(w: World, v: Volume, p: Ino, name: string, i: nat, j: nat, saver: Saver)
    requires p in v.dirs && IsParent(p) && name != w.base && j != i && ParentEntry(v).now == Some(p)
    ensures SameFor(w, v, Renaming(w, v, p, name, i), j, saver)
  {
    RenamingEntries(w, v, p, name, i);
  }

  lemma RenameKeeps(w: World, s: Sys, i: nat, c: Choice)
    requires Ready(w, s, i) && s.savers[i].pc.Rechecked?
    requires Destination(w, s.vol).Some? ==> !IsEmptyDir(s.vol, Destination(w, s.vol).value)
    ensures Keeps(w, s, i, RenameTemp(w, s.vol, i, s.savers[i], c))
  {
    var v, saver := s.vol, s.savers[i];
    var r := RenameTemp(w, v, i, saver, c);
    var p := ParentEntry(v).now.value;
    UnchangedFrames(w, s, i);
    if r.1.moved {
      RenameFrames(w, s, i);
      assert ParentEntry(v).now in ParentEntry(v).may;
      RenamingEntries(w, v, p, saver.name, i);
    }
    ShapeKept(w, s, i, r.0, r.1);
  }

  lemma SyncParentFrames(w: World, s: Sys, i: nat, p: Ino)
    requires Ready(w, s, i) && s.savers[i].pc.Renamed? && IsParent(p)
    ensures EntriesOk(SyncDir(s.vol, p)) && Frames(w, s, i, SyncDir(s.vol, p))
  {
    EntSyncDir(s.vol, p);
  }

  lemma SyncParentKeeps(w: World, s: Sys, i: nat, c: Choice)
    requires Ready(w, s, i) && s.savers[i].pc.Renamed? && !c.fail
    ensures Keeps(w, s, i, Advance(w, s.vol, i, s.savers[i], c))
  {
    var r := Advance(w, s.vol, i, s.savers[i], c);
    assert ParentEntry(s.vol).now in ParentEntry(s.vol).may;
    SyncParentFrames(w, s, i, ParentEntry(s.vol).now.value);
    EntSyncDir(s.vol, ParentEntry(s.vol).now.value);
    ShapeKept(w, s, i, r.0, r.1);
  }

  lemma CleanUpFrames(w: World, s: Sys, i: nat, c: Choice)
    requires Ready(w, s, i) && s.savers[i].pc.Cleaning?
    ensures var v' := CleanUp(s.vol, i, s.savers[i], c);
            EntriesOk(v') && Frames(w, s, i, v') && v'.dirs.Keys == s.vol.dirs.Keys
            && ParentEntry(v') == ParentEntry(s.vol)
            && (forall p | IsParent(p) :: Ent(v', p, w.base) == Ent(s.vol, p, w.base))
            && (s.savers[i].moved ==> v' == s.vol)
  {
    var v, saver := s.vol, s.savers[i];
    var v' := CleanUp(v, i, saver, c);
    EntPruneDir(v, TempDir(i), c.kept);
    if ParentEntry(v).now.Some? {
      assert ParentEntry(v).now in ParentEntry(v).may;
      EntSetEntry(PruneDir(v, TempDir(i), c.kept), ParentEntry(v).now.value, saver.name, None);
    }
    forall j | 0 <= j < |s.savers| && j != i
      ensures SameFor(w, v, v', j, s.savers[j])
    {
    }
  }

  lemma CleanUpKeeps(w: World, s: Sys, i: nat, c: Choice)
    requires Ready(w, s, i) && s.savers[i].pc.Cleaning?
    ensures Keeps(w, s, i, (CleanUp(s.vol, i, s.savers[i], c), s.savers[i].(pc := Raised)))
  {
    CleanUpFrames(w, s, i, c);
    ShapeKept(w, s, i, CleanUp(s.vol, i, s.savers[i], c), s.savers[i].(pc := Raised));
  }

  lemma StepKeeps(w: World, s: Sys, i: nat, c: Choice)
    requires Inv(w, s) && Ready(w, s, i)
    ensures Keeps(w, s, i, Advance(w, s.vol, i, s.savers[i], c))
  {
    var pc := s.savers[i].pc;
    if pc.Cleaning? {
      CleanUpKeeps(w, s, i, c);
    } else if c.fail {
      FailingKeeps(w, s, i, c);
    } else if Reads(pc) {
      ReadingKeeps(w, s, i, c);
    } else if pc.Vetted? {
      ParentKeeps(w, s, i, c);
    } else if pc.ParentReady? {
      MakeTempKeeps(w, s, i, c);
    } else if pc.Rechecked? {
      if Destination(w, s.vol).Some? {
        StandingIsNotEmpty(w, s, Destination(w, s.vol).value);
      }
      RenameKeeps(w, s, i, c);
    } else if pc.Renamed? {
      SyncParentKeeps(w, s, i, c);
    } else {
      PrivateKeeps(w, s, i, c);
    }
  }

  /** A run that finds a bundle returns the manifest of the run that published it. */
  lemma LookReports(w: World, s: Sys, i: nat, c: Choice)
    requires Inv(w, s) && Ready(w, s, i) && s.savers[i].pc.Start?
    ensures Reported(w, Step(w, s, Run(i, c)), i)
  {
    var r := Advance(w, s.vol, i, s.savers[i], c);
    if r.1.pc.Returned? {
      var x := Destination(w, s.vol).value;
      var p := ParentEntry(s.vol).now.value;
      assert ParentEntry(s.vol).now in ParentEntry(s.vol).may;
      assert Some(x) in Ent(s.vol, p, w.base).may;
      assert Candidate(w, s, Some(x));
      if x !in w.earlier {
        assert Phase(w, s.vol, x.saver, s.savers[x.saver]);
      }
    }
  }

  /** A run returns either its own manifest, standing, or the one it found standing. */
  lemma StepReports(w: World, s: Sys, i: nat, c: Choice)
    requires Inv(w, s) && Ready(w, s, i)
    ensures Reported(w, Step(w, s, Run(i, c)), i)
  {
    if s.savers[i].pc.Start? {
      LookReports(w, s, i, c);
    } else if s.savers[i].pc.Returned? {
      assert Reported(w, s, i);
    } else {
      StepKeeps(w, s, i, c);
      OwnReports(w, s, i, c);
    }
  }

  /** Only a run that has published returns later than at its first look. */
  lemma OwnReports(w: World, s: Sys, i: nat, c: Choice)
    requires i < |s.savers| && !s.savers[i].pc.Start? && !s.savers[i].pc.Returned?
    requires Keeps(w, s, i, Advance(w, s.vol, i, s.savers[i], c)) && (s.savers[i].pc.Renamed? ==> s.savers[i].moved)
    ensures Reported(w, Step(w, s, Run(i, c)), i)
  {
    assert Advance(w, s.vol, i, s.savers[i], c).1.pc.Returned? ==> s.savers[i].pc.Renamed?;
  }

  /** While something earlier stands, a run can only look at it. */
  lemma EarlierLook(w: World, s: Sys, i: nat, c: Choice)
    requires Inv(w, s) && i < |s.savers| && EarlierStands(w, s.vol)
    ensures Step(w, s, Run(i, c)).vol == s.vol && Resting(Step(w, s, Run(i, c)))
  {
    assert AtRest(s.savers[i].pc);
  }

  lemma OthersInv(w: World, s: Sys, i: nat, c: Choice)
    requires Inv(w, s) && i < |s.savers| && Keeps(w, s, i, Advance(w, s.vol, i, s.savers[i], c))
    ensures var s' := Step(w, s, Run(i, c));
            forall j | 0 <= j < |s.savers| && j != i :: Phase(w, s'.vol, j, s'.savers[j])
  {
    var s' := Step(w, s, Run(i, c));
    forall j | 0 <= j < |s.savers| && j != i
      ensures Phase(w, s'.vol, j, s'.savers[j])
    {
      OthersKeepPhase(w, s.vol, s'.vol, j, s.savers[j]);
    }
  }

  lemma OthersReport(w: World, s: Sys, i: nat, c: Choice, j: nat)
    requires Inv(w, s) && i < |s.savers| && j < |s.savers| && j != i
    requires Keeps(w, s, i, Advance(w, s.vol, i, s.savers[i], c))
    ensures Reported(w, Step(w, s, Run(i, c)), j)
  {
    assert Reported(w, s, j);
    if EarlierStands(w, s.vol) {
      EarlierLook(w, s, i, c);
    }
  }

  lemma RunInv(w: World, s: Sys, i: nat, c: Choice)
    requires Inv(w, s) && i < |s.savers|
    ensures Inv(w, Step(w, s, Run(i, c)))
  {
    assert Ready(w, s, i);
    StepKeeps(w, s, i, c);
    OthersInv(w, s, i, c);
    var s' := Step(w, s, Run(i, c));
    forall j | 0 <= j < |s.savers|
      ensures Reported(w, s', j)
    {
      if j == i {
        StepReports(w, s, i, c);
      } else {
        OthersReport(w, s, i, c, j);
      }
    }
    if EarlierStands(w, s.vol) {
      EarlierLook(w, s, i, c);
    }
  }

  /** A run that a power loss ends, or finds not begun, keeps what it has published. */
  lemma LossPhase(w: World, v: Volume, after: Volume, j: nat, s: Saver)
    requires Phase(w, v, j, s) && CrashOf(v, after)
    ensures Phase(w, after, j, Kill(s)) && !Kill(s).pc.Returned? && AtRest(Kill(s).pc)
  {
  }

  lemma PowerLossInv(w: World, s: Sys, after: Volume)
    requires Inv(w, s) && CrashOf(s.vol, after)
    ensures Inv(w, Step(w, s, PowerLoss(after)))
  {
    var s' := Step(w, s, PowerLoss(after));
    forall p, x | Linked(after, p) && x in Ent(after, p, w.base).may
      ensures Candidate(w, s', x)
    {
      assert Linked(s.vol, p);
      assert x in Ent(s.vol, p, w.base).may;
      assert Candidate(w, s, x);
    }
    forall j | 0 <= j < |s.savers|
      ensures Phase(w, after, j, s'.savers[j]) && Reported(w, s', j) && AtRest(s'.savers[j].pc)
    {
      LossPhase(w, s.vol, after, j, s.savers[j]);
    }
  }

  lemma {:induction false} ExecInv(w: World, s: Sys, acts: seq<Action>)
    requires Init(w, s)
    ensures Inv(w, Exec(w, s, acts))
    ensures |Exec(w, s, acts).savers| == |s.savers|
  {
    if acts == [] {
      InitInv(w, s);
    } else {
      var before := Exec(w, s, acts[..|acts| - 1]);
      ExecInv(w, s, acts[..|acts| - 1]);
      match acts[|acts| - 1]
      case Run(i, c) => if i < |before.savers| { RunInv(w, before, i, c); }
      case PowerLoss(after) => if CrashOf(before.vol, after) { PowerLossInv(w, before, after); }
    }
  }
}
