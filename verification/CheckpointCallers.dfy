/** What the program's own callers get: the ids they make, and destinations that stood before. */
module CheckpointCallers {
  import opened Prelude
  import opened Storage
  import opened Checkpoint
  import opened CheckpointInvariant
  import opened CheckpointSafety
  import Text

  // ---- The ids that the program makes -------------------------------------------------------

  predicate IsIdChar(c: char) {
    '0' <= c <= '9' || 'a' <= c <= 'f' || c == '-'
  }

  /** The characters of str(uuid.uuid4()). */
  predicate IsUuid(id: string) {
    id != "" && forall c | c in id :: IsIdChar(c)
  }

  /** Such an id is read back as it was written. */
  lemma UuidReadsBack(id: string)
    requires IsUuid(id)
    ensures ReadsBack(id)
  {
    assert id[0] in id && id[|id| - 1] in id;
    assert !Text.IsSpace(id[0]) && !Text.IsSpace(id[|id| - 1]);
    assert !IsIdChar('\r');
  }

  predicate OwnMeta(meta: Meta) {
    meta.id.Some? && meta.id.value != "" ==> IsUuid(meta.id.value)
  }

  /** Every id, in the metadata or made by create_checkpoint, is the program's own. */
  ghost predicate OwnIds(s: Sys, acts: seq<Action>) {
    && (forall saver | saver in s.savers :: OwnMeta(saver.meta))
    && (forall a | a in acts && a.Run? :: IsUuid(a.choice.freshId))
  }

  predicate Writes(pc: Pc) {
    7 <= Progress(pc) <= 13 || pc.Renamed?
  }

  predicate OwnManifest(s: Saver) {
    Writes(s.pc) || s.moved ==> s.manifest.id.Some? && IsUuid(s.manifest.id.value)
  }

  ghost predicate AllOwn(s: Sys) {
    forall i | 0 <= i < |s.savers| :: OwnMeta(s.savers[i].meta) && OwnManifest(s.savers[i])
  }

  lemma AdvanceOwn(w: World, v: Volume, i: nat, s: Saver, c: Choice)
    requires OwnMeta(s.meta) && OwnManifest(s) && IsUuid(c.freshId)
    requires s.moved ==> 14 <= Progress(s.pc)
    ensures OwnMeta(Advance(w, v, i, s, c).1.meta) && OwnManifest(Advance(w, v, i, s, c).1)
  {
    MetaKept(w, v, i, s, c);
  }

  lemma RunOwn(w: World, s: Sys, i: nat, c: Choice)
    requires AllOwn(s) && i < |s.savers| && IsUuid(c.freshId) && Phase(w, s.vol, i, s.savers[i])
    ensures AllOwn(Step(w, s, Run(i, c)))
  {
    AdvanceOwn(w, s.vol, i, s.savers[i], c);
  }

  lemma LossOwn(w: World, s: Sys, after: Volume)
    requires AllOwn(s)
    ensures AllOwn(Step(w, s, PowerLoss(after)))
  {
  }

  lemma {:induction false} ExecOwn(w: World, s: Sys, acts: seq<Action>)
    requires Init(w, s) && OwnIds(s, acts)
    ensures AllOwn(Exec(w, s, acts))
  {
    if acts != [] {
      var most, last := acts[..|acts| - 1], acts[|acts| - 1];
      assert last in acts && forall a | a in most :: a in acts;
      ExecOwn(w, s, most);
      ExecInv(w, s, most);
      match last
      case Run(i, c) => if i < |Exec(w, s, most).savers| { RunOwn(w, Exec(w, s, most), i, c); }
      case PowerLoss(after) => LossOwn(w, Exec(w, s, most), after);
    }
  }

  /**
   Crash safety for the ids the program makes: after every run, power losses
   included, the destination is absent, or what stood there before, or a bundle that
   load_checkpoint accepts, with the manifest that one saver wrote and that saver's
   overlay as its disk.
   */
  lemma OwnBundlesLoad(w: World, s: Sys, acts: seq<Action>)
    requires Init(w, s) && OwnIds(s, acts)
    ensures var end := Exec(w, s, acts);
            var x := Destination(w, end.vol);
            x.Some? && x.value !in w.earlier ==>
              && IsBundleOf(w, end, x.value)
              && Load(w, end.vol, x.value, end.savers[x.value.saver].meta.template) ==
                  Ok(end.savers[x.value.saver].manifest)
  {
    var end := Exec(w, s, acts);
    ExecInv(w, s, acts);
    ExecOwn(w, s, acts);
    if Destination(w, end.vol).Some? && !EarlierStands(w, end.vol) {
      DestinationIsBundle(w, end);
      var saver := end.savers[Destination(w, end.vol).value.saver];
      assert OwnManifest(saver);
      UuidReadsBack(saver.manifest.id.value);
    }
  }

  // ---- A destination that stood before --------------------------------------------------------

  /** Anything at all stands at the destination, and nobody has begun. */
  ghost predicate Earlier(w: World, s: Sys) {
    && EntriesOk(s.vol)
    && Destination(w, s.vol).Some?
    && forall i | 0 <= i < |s.savers| :: s.savers[i].pc.Start? && !s.savers[i].moved
  }

  /** No run gets beyond its first look. */
  predicate LookedOnly(s: Saver) {
    !s.moved && (s.pc.Start? || s.pc.Returned? || s.pc.Raised? || s.pc.Dead?)
  }

  ghost predicate Looked(s: Sys) {
    forall i | 0 <= i < |s.savers| :: LookedOnly(s.savers[i])
  }

  /**
   A first look at a standing destination changes nothing, and returns its manifest if
   that loads with the caller's id.
   */
  lemma FirstLook(w: World, s: Sys, i: nat, c: Choice)
    requires Looked(s) && i < |s.savers| && Destination(w, s.vol).Some?
    ensures Step(w, s, Run(i, c)).vol == s.vol && Looked(Step(w, s, Run(i, c)))
    ensures var x, saver, next := Destination(w, s.vol).value, s.savers[i], Step(w, s, Run(i, c)).savers[i];
            saver.pc.Start? && next.pc.Returned? <==>
              && saver.pc.Start? && !c.fail && !saver.meta.blocked && x in s.vol.dirs
              && saver.meta.id.Some? && saver.meta.id.value != ""
              && Load(w, s.vol, x, None) == Ok(next.manifest) && next.manifest.id == saver.meta.id
  {
  }

  /** Whatever stood at the destination before, the savers leave the whole volume as it was. */
  lemma {:induction false} EarlierUntouched(w: World, s: Sys, acts: seq<Action>)
    requires Earlier(w, s) && NoPowerLoss(acts)
    ensures Exec(w, s, acts).vol == s.vol && Looked(Exec(w, s, acts))
  {
    if acts != [] {
      var most, last := acts[..|acts| - 1], acts[|acts| - 1];
      assert last in acts;
      EarlierUntouched(w, s, most);
      if last.saver < |Exec(w, s, most).savers| {
        FirstLook(w, Exec(w, s, most), last.saver, last.choice);
      }
    }
  }

  // ---- What was on disk before stays as it was --------------------------------------------------

  /** A directory whose entries are on disk, and whose files are. */
  ghost predicate OnDisk(v: Volume, d: Ino) {
    forall n :: Ent(v, d, n) == Settled(Ent(v, d, n).now) && FileOnDisk(v, Ent(v, d, n).now)
  }

  predicate FileOnDisk(v: Volume, f: Option<Ino>) {
    f.Some? && f.value in v.files ==> v.files[f.value].synced
  }

  /** It is on disk, and every file in it reads as before. */
  ghost predicate Kept(v: Volume, v': Volume, d: Ino) {
    OnDisk(v', d) && forall n :: Ent(v', d, n) == Ent(v, d, n) && ReadFile(v', d, n) == ReadFile(v, d, n)
  }

  lemma LossKeeps(v: Volume, after: Volume, d: Ino)
    requires OnDisk(v, d) && CrashOf(v, after)
    ensures Kept(v, after, d)
  {
    forall n
      ensures Ent(after, d, n) == Ent(v, d, n) && FileOnDisk(after, Ent(after, d, n).now)
      ensures ReadFile(after, d, n) == ReadFile(v, d, n)
    {
      assert FileOnDisk(v, Ent(v, d, n).now);
      assert Ent(after, d, n).now in Ent(v, d, n).may;
    }
  }

  /** load_checkpoint reads nothing but these files. */
  lemma KeptLoads(w: World, v: Volume, v': Volume, d: Ino, expected: Option<string>)
    requires Kept(v, v', d)
    ensures Load(w, v', d, expected) == Load(w, v, d, expected)
  {
    assert ReadFile(v', d, COMPLETE) == ReadFile(v, d, COMPLETE);
    assert ReadFile(v', d, MANIFEST) == ReadFile(v, d, MANIFEST);
    assert ReadFile(v', d, DISK) == ReadFile(v, d, DISK);
  }

  /**
   If the path of what stood is on disk it stands after every power loss too, and
   the savers change nothing; if it is on disk itself, it also reads and loads as
   before.
   */
  lemma EarlierStays(w: World, s: Sys, acts: seq<Action>, x: Ino, i: nat, c: Choice)
    requires Earlier(w, s) && Committed(w, s.vol, x)
    ensures var end := Exec(w, s, acts);
            && Committed(w, end.vol, x) && Looked(end) && Step(w, end, Run(i, c)).vol == end.vol
            && (OnDisk(s.vol, x) ==>
                  Kept(s.vol, end.vol, x) && forall e :: Load(w, end.vol, x, e) == Load(w, s.vol, x, e))
  {
    EarlierRun(w, s, acts, x);
    var end := Exec(w, s, acts);
    if i < |end.savers| {
      FirstLook(w, end, i, c);
    }
    if OnDisk(s.vol, x) {
      forall e
        ensures Load(w, end.vol, x, e) == Load(w, s.vol, x, e)
      {
        KeptLoads(w, s.vol, end.vol, x, e);
      }
    }
  }

  lemma {:induction false} EarlierRun(w: World, s: Sys, acts: seq<Action>, x: Ino)
    requires Earlier(w, s) && Committed(w, s.vol, x)
    ensures var end := Exec(w, s, acts);
            Committed(w, end.vol, x) && Looked(end) && (OnDisk(s.vol, x) ==> Kept(s.vol, end.vol, x))
  {
    if acts != [] {
      var most, last := acts[..|acts| - 1], acts[|acts| - 1];
      EarlierRun(w, s, most, x);
      EarlierStep(w, Exec(w, s, most), last, x);
      KeptMore(s.vol, Exec(w, s, most).vol, Exec(w, s, acts).vol, x);
    }
  }

  lemma KeptMore(v: Volume, v': Volume, v'': Volume, d: Ino)
    ensures Kept(v, v', d) && Kept(v', v'', d) ==> Kept(v, v'', d)
  {
  }

  lemma EarlierStep(w: World, s: Sys, a: Action, x: Ino)
    requires Committed(w, s.vol, x) && Looked(s)
    ensures Committed(w, Step(w, s, a).vol, x) && Looked(Step(w, s, a))
    ensures OnDisk(s.vol, x) ==> Kept(s.vol, Step(w, s, a).vol, x)
  {
    match a
    case Run(i, c) => if i < |s.savers| { FirstLook(w, s, i, c); }
    case PowerLoss(after) =>
      if CrashOf(s.vol, after) {
        var p := ParentEntry(s.vol).now.value;
        assert Ent(after, Top, PARENT).now in Ent(s.vol, Top, PARENT).may;
        assert Ent(after, p, w.base).now in Ent(s.vol, p, w.base).may;
        if OnDisk(s.vol, x) {
          LossKeeps(s.vol, after, x);
        }
      }
  }

  // ---- What others made ---------------------------------------------------------------------------

  /** A directory that no saver made, with nothing in it that a saver made. */
  ghost predicate OfOthers(v: Volume, d: Ino) {
    d.Foreign? && forall n :: Ent(v, d, n).now.Some? ==> Ent(v, d, n).now.value.Foreign?
  }

  /** What no saver made is as it was. */
  ghost predicate OthersLeft(v: Volume, v': Volume) {
    && (forall d: Ino, n | d.Foreign? :: Ent(v', d, n) == Ent(v, d, n))
    && (forall f: Ino | f.Foreign? :: f in v'.files <==> f in v.files)
    && (forall f: Ino | f.Foreign? && f in v.files :: v'.files[f] == v.files[f])
  }

  lemma DirsLeave(w: World, s: Sys, i: nat, c: Choice)
    requires Inv(w, s) && i < |s.savers| && !c.fail && (s.savers[i].pc.Vetted? || s.savers[i].pc.ParentReady?)
    ensures OthersLeft(s.vol, Advance(w, s.vol, i, s.savers[i], c).0)
  {
    var v := s.vol;
    if s.savers[i].pc.Vetted? {
      EntAddDir(v, ParentBy(i));
      EntSetEntry(AddDir(v, ParentBy(i)), Top, PARENT, Some(ParentBy(i)));
    } else if ParentEntry(v).now.Some? {
      EntAddDir(v, TempDir(i));
      var name := PartialName(w.base, c.suffix);
      EntSetEntry(AddDir(v, TempDir(i)), ParentEntry(v).now.value, name, Some(TempDir(i)));
    }
  }

  /** A rename in, and the sync of, a directory that is not of others. */
  lemma RenamingLeaves(w: World, v: Volume, p: Ino, name: string, i: nat)
    requires p in v.dirs && !p.Foreign? && name != w.base
    ensures OthersLeft(v, Renaming(w, v, p, name, i))
  {
    RenamingEntries(w, v, p, name, i);
  }

  lemma RenameLeaves(w: World, v: Volume, i: nat, s: Saver, c: Choice)
    requires ParentEntry(v).now.Some? ==> ParentEntry(v).now.value in v.dirs && !ParentEntry(v).now.value.Foreign?
    requires s.name != w.base
    ensures OthersLeft(v, RenameTemp(w, v, i, s, c).0)
  {
    if ParentEntry(v).now.Some? {
      RenamingLeaves(w, v, ParentEntry(v).now.value, s.name, i);
      assert RenameTemp(w, v, i, s, c).0 in {v, Renaming(w, v, ParentEntry(v).now.value, s.name, i)};
    }
  }

  lemma SyncLeaves(v: Volume, p: Ino)
    requires !p.Foreign?
    ensures OthersLeft(v, SyncDir(v, p))
  {
    EntSyncDir(v, p);
  }

  /** Work in the private directory creates no file but the saver's own. */
  lemma PrivateLeaves(w: World, v: Volume, i: nat, s: Saver, c: Choice)
    requires EntriesOk(v) && WorksPrivately(s.pc)
    ensures OthersLeft(v, Advance(w, v, i, s, c).0)
  {
    PrivateStep(w, v, i, s, c);
    assert forall f: Ino | f.Foreign? :: f in Advance(w, v, i, s, c).0.files <==> f in v.files;
  }

  lemma CleanUpLeaves(w: World, s: Sys, i: nat, c: Choice)
    requires Inv(w, s) && i < |s.savers|
    ensures OthersLeft(s.vol, CleanUp(s.vol, i, s.savers[i], c))
  {
    var v := s.vol;
    EntPruneDir(v, TempDir(i), c.kept);
    if ParentEntry(v).now.Some? {
      EntSetEntry(PruneDir(v, TempDir(i), c.kept), ParentEntry(v).now.value, s.savers[i].name, None);
    }
  }

  lemma ParentLeaves(w: World, s: Sys, i: nat, c: Choice)
    requires Inv(w, s) && i < |s.savers| && !c.fail && (s.savers[i].pc.Rechecked? || s.savers[i].pc.Renamed?)
    ensures OthersLeft(s.vol, Advance(w, s.vol, i, s.savers[i], c).0)
  {
    if s.savers[i].pc.Rechecked? {
      assert Phase(w, s.vol, i, s.savers[i]);
      RenameLeaves(w, s.vol, i, s.savers[i], c);
    } else if ParentEntry(s.vol).now.Some? {
      SyncLeaves(s.vol, ParentEntry(s.vol).now.value);
    }
  }

  /** No step of a saver touches what others made. */
  lemma RunLeaves(w: World, s: Sys, i: nat, c: Choice)
    requires Inv(w, s) && i < |s.savers|
    ensures OthersLeft(s.vol, Advance(w, s.vol, i, s.savers[i], c).0)
  {
    var pc := s.savers[i].pc;
    if pc.Cleaning? {
      CleanUpLeaves(w, s, i, c);
    } else if c.fail {
      FailedOwn(w, s, i, c);
    } else if WorksPrivately(pc) {
      PrivateLeaves(w, s.vol, i, s.savers[i], c);
    } else if pc.Vetted? || pc.ParentReady? {
      DirsLeave(w, s, i, c);
    } else if pc.Rechecked? || pc.Renamed? {
      ParentLeaves(w, s, i, c);
    }
  }

  lemma LeftKept(v: Volume, v': Volume, d: Ino)
    requires OthersLeft(v, v') && OfOthers(v, d) && OnDisk(v, d)
    ensures Kept(v, v', d)
  {
    forall n
      ensures Ent(v', d, n) == Ent(v, d, n) && FileOnDisk(v', Ent(v', d, n).now)
              && ReadFile(v', d, n) == ReadFile(v, d, n)
    {
      assert FileOnDisk(v, Ent(v, d, n).now);
      assert Ent(v, d, n).now.Some? ==> Ent(v, d, n).now.value.Foreign?;
    }
  }

  lemma KeptOfOthers(v: Volume, v': Volume, d: Ino)
    requires Kept(v, v', d) && OfOthers(v, d)
    ensures OfOthers(v', d)
  {
  }

  /**
   Crash safety for everything else: whatever others had put on disk, at the
   destination or anywhere beside it, reads and loads as before after every run of the
   savers, power losses included.
   */
  lemma OthersKept(w: World, s: Sys, acts: seq<Action>, d: Ino, expected: Option<string>)
    requires Init(w, s) && OfOthers(s.vol, d) && OnDisk(s.vol, d)
    ensures var end := Exec(w, s, acts);
            Kept(s.vol, end.vol, d) && Load(w, end.vol, d, expected) == Load(w, s.vol, d, expected)
  {
    OthersRun(w, s, acts, d);
    KeptLoads(w, s.vol, Exec(w, s, acts).vol, d, expected);
  }

  lemma {:induction false} OthersRun(w: World, s: Sys, acts: seq<Action>, d: Ino)
    requires Init(w, s) && OfOthers(s.vol, d) && OnDisk(s.vol, d)
    ensures Kept(s.vol, Exec(w, s, acts).vol, d)
  {
    if acts != [] {
      var most, last := acts[..|acts| - 1], acts[|acts| - 1];
      OthersRun(w, s, most, d);
      ExecInv(w, s, most);
      var mid := Exec(w, s, most);
      KeptOfOthers(s.vol, mid.vol, d);
      match last
      case Run(i, c) =>
        if i < |mid.savers| {
          RunLeaves(w, mid, i, c);
          LeftKept(mid.vol, Exec(w, s, acts).vol, d);
        }
      case PowerLoss(after) => if CrashOf(mid.vol, after) { LossKeeps(mid.vol, after, d); }
      KeptMore(s.vol, mid.vol, Exec(w, s, acts).vol, d);
    }
  }
}
