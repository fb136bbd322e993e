/** What a refused or a failing call of create_checkpoint leaves behind. */
module CheckpointRefusals {
  import opened Prelude
  import opened Storage
  import opened Checkpoint
  import opened CheckpointInvariant
  import opened CheckpointSafety

  // ---- Everything that a saver makes --------------------------------------------------------

  predicate MadeBy(x: Ino, i: nat) {
    x in {ParentBy(i), TempDir(i), DiskOf(i), ManifestOf(i), CompleteOf(i)}
  }

  /** No entry has come to name anything of saver `i` that it could not have named before. */
  ghost predicate NotNamed(v: Volume, v': Volume, i: nat) {
    forall d, n, x: Ino | Some(x) in Ent(v', d, n).may && MadeBy(x, i) :: Some(x) in Ent(v, d, n).may
  }

  /** The step of saver `j` only makes entries name what it made itself. */
  ghost predicate NamesOwn(v: Volume, v': Volume, j: nat) {
    && EntriesOk(v')
    && (forall d, n, x: Ino | Some(x) in Ent(v', d, n).may :: MadeBy(x, j) || Some(x) in Ent(v, d, n).may)
    && (forall d | d in v'.dirs :: MadeBy(d, j) || d in v.dirs)
  }

  lemma SetNamesOwn(v: Volume, d: Ino, n: string, x: Option<Ino>, j: nat)
    requires EntriesOk(v) && (x.Some? ==> MadeBy(x.value, j))
    ensures NamesOwn(v, SetEntry(v, d, n, x), j)
  {
    EntSetEntry(v, d, n, x);
  }

  lemma AddNamesOwn(v: Volume, d: Ino, j: nat)
    requires EntriesOk(v) && MadeBy(d, j)
    ensures NamesOwn(v, AddDir(v, d), j)
  {
    EntAddDir(v, d);
  }

  lemma SyncNamesOwn(v: Volume, d: Ino, j: nat)
    requires EntriesOk(v)
    ensures NamesOwn(v, SyncDir(v, d), j)
  {
    EntSyncDir(v, d);
    forall e, n
      ensures Ent(v, e, n).now in Ent(v, e, n).may
    {
    }
  }

  lemma PruneNamesOwn(v: Volume, d: Ino, kept: set<string>, j: nat)
    requires EntriesOk(v)
    ensures NamesOwn(v, PruneDir(v, d, kept), j)
  {
    EntPruneDir(v, d, kept);
    var v' := PruneDir(v, d, kept);
    forall n, x: Ino | Some(x) in Ent(v', d, n).may
      ensures Some(x) in Ent(v, d, n).may
    {
    }
  }

  lemma FilesNameNothing(v: Volume, v': Volume, files: map<Ino, File>, j: nat)
    requires NamesOwn(v, v', j)
    ensures NamesOwn(v, v'.(files := files), j)
  {
    assert forall d, n :: Ent(v'.(files := files), d, n) == Ent(v', d, n);
  }

  lemma NamesOwnMore(v: Volume, v': Volume, v'': Volume, j: nat)
    requires NamesOwn(v, v', j) && NamesOwn(v', v'', j)
    ensures NamesOwn(v, v'', j)
  {
  }

  lemma ParentNamesOwn(v: Volume, j: nat)
    requires EntriesOk(v)
    ensures NamesOwn(v, MakeParent(v, j), j)
  {
    AddNamesOwn(v, ParentBy(j), j);
    SetNamesOwn(AddDir(v, ParentBy(j)), Top, PARENT, Some(ParentBy(j)), j);
    NamesOwnMore(v, AddDir(v, ParentBy(j)), SetEntry(AddDir(v, ParentBy(j)), Top, PARENT, Some(ParentBy(j))), j);
  }

  lemma TempNamesOwn(w: World, v: Volume, j: nat, s: Saver, c: Choice)
    requires EntriesOk(v)
    ensures NamesOwn(v, MakeTemp(w, v, j, s, c).0, j)
  {
    if ParentEntry(v).now.Some? {
      var made, p, name := AddDir(v, TempDir(j)), ParentEntry(v).now.value, PartialName(w.base, c.suffix);
      AddNamesOwn(v, TempDir(j), j);
      SetNamesOwn(made, p, name, Some(TempDir(j)), j);
      NamesOwnMore(v, made, SetEntry(made, p, name, Some(TempDir(j))), j);
    }
  }

  lemma RenameNamesOwn(w: World, v: Volume, j: nat, s: Saver, c: Choice)
    requires EntriesOk(v)
    ensures NamesOwn(v, RenameTemp(w, v, j, s, c).0, j)
  {
    if ParentEntry(v).now.Some? {
      var p := ParentEntry(v).now.value;
      var gone := SetEntry(v, p, s.name, None);
      SetNamesOwn(v, p, s.name, None, j);
      SetNamesOwn(gone, p, w.base, Some(TempDir(j)), j);
      NamesOwnMore(v, gone, SetEntry(gone, p, w.base, Some(TempDir(j))), j);
    }
  }

  lemma CleanUpNamesOwn(v: Volume, j: nat, s: Saver, c: Choice)
    requires EntriesOk(v)
    ensures NamesOwn(v, CleanUp(v, j, s, c), j)
  {
    if ParentEntry(v).now.Some? {
      var p, pruned := ParentEntry(v).now.value, PruneDir(v, TempDir(j), c.kept);
      PruneNamesOwn(v, TempDir(j), c.kept, j);
      SetNamesOwn(pruned, p, s.name, None, j);
      NamesOwnMore(v, pruned, SetEntry(pruned, p, s.name, None), j);
    }
  }

  /** One file of its own is created, written or synced. */
  lemma FileNamesOwn(w: World, v: Volume, j: nat, s: Saver, c: Choice)
    requires EntriesOk(v) && !c.fail && WorksPrivately(s.pc)
    ensures NamesOwn(v, Advance(w, v, j, s, c).0, j)
  {
    var v' := Advance(w, v, j, s, c).0;
    SetNamesOwn(v, TempDir(j), DISK, Some(DiskOf(j)), j);
    SetNamesOwn(v, TempDir(j), MANIFEST, Some(ManifestOf(j)), j);
    SetNamesOwn(v, TempDir(j), COMPLETE, Some(CompleteOf(j)), j);
    SyncNamesOwn(v, TempDir(j), j);
    FilesNameNothing(v, v, v'.files, j);
    FilesNameNothing(v, SetEntry(v, TempDir(j), DISK, Some(DiskOf(j))), v'.files, j);
    FilesNameNothing(v, SetEntry(v, TempDir(j), MANIFEST, Some(ManifestOf(j))), v'.files, j);
    FilesNameNothing(v, SetEntry(v, TempDir(j), COMPLETE, Some(CompleteOf(j))), v'.files, j);
  }

  lemma AdvanceNamesOwn(w: World, v: Volume, j: nat, s: Saver, c: Choice)
    requires EntriesOk(v)
    ensures NamesOwn(v, Advance(w, v, j, s, c).0, j)
  {
    if s.pc.Cleaning? {
      CleanUpNamesOwn(v, j, s, c);
    } else if !c.fail {
      match s.pc
      case Vetted => ParentNamesOwn(v, j);
      case ParentReady => TempNamesOwn(w, v, j, s, c);
      case Rechecked => RenameNamesOwn(w, v, j, s, c);
      case Renamed => if ParentEntry(v).now.Some? { SyncNamesOwn(v, ParentEntry(v).now.value, j); }
      case _ => if WorksPrivately(s.pc) { FileNamesOwn(w, v, j, s, c); }
    }
  }

  // ---- A disabled checkpoint ------------------------------------------------------------------

  /** Saver `i` is refused at once and has made nothing since the volume was `start`. */
  ghost predicate Refused(s: Sys, start: Volume, i: nat) {
    && i < |s.savers| && s.savers[i].meta.blocked && !s.savers[i].moved
    && s.savers[i].pc in {Start, Raised, Dead}
    && EntriesOk(s.vol) && NotNamed(start, s.vol, i)
    && forall d | d in s.vol.dirs :: MadeBy(d, i) ==> d in start.dirs
  }

  lemma OthersNameOthers(start: Volume, v: Volume, v': Volume, i: nat, j: nat)
    requires NotNamed(start, v, i) && NamesOwn(v, v', j) && i != j
    ensures NotNamed(start, v', i)
    ensures forall d | d in v'.dirs && MadeBy(d, i) :: d in v.dirs
  {
  }

  lemma RefusedRun(w: World, s: Sys, start: Volume, i: nat, j: nat, c: Choice)
    requires Refused(s, start, i) && j < |s.savers|
    ensures Refused(Step(w, s, Run(j, c)), start, i)
  {
    if j != i {
      AdvanceNamesOwn(w, s.vol, j, s.savers[j], c);
      OthersNameOthers(start, s.vol, Advance(w, s.vol, j, s.savers[j], c).0, i, j);
    }
  }

  lemma RefusedLoss(w: World, s: Sys, start: Volume, i: nat, after: Volume)
    requires Refused(s, start, i) && CrashOf(s.vol, after)
    ensures Refused(Step(w, s, PowerLoss(after)), start, i)
  {
    forall d, n, x: Ino | Some(x) in Ent(after, d, n).may
      ensures Some(x) in Ent(s.vol, d, n).may
    {
      assert Ent(after, d, n).now in Ent(s.vol, d, n).may;
    }
  }

  /**
   A checkpoint that the metadata disables is refused, whether or not the destination
   is free: in every run such a saver never gets beyond its first look, publishes and
   returns nothing, and no entry comes to name anything of its making.
   */
  lemma {:induction false} BlockedIsRefused(w: World, s: Sys, acts: seq<Action>, i: nat)
    requires Init(w, s) && i < |s.savers| && s.savers[i].meta.blocked
    ensures Refused(Exec(w, s, acts), s.vol, i)
  {
    if acts == [] {
      assert s.savers[i] in s.savers;
    } else {
      var most, last := acts[..|acts| - 1], acts[|acts| - 1];
      BlockedIsRefused(w, s, most, i);
      var before := Exec(w, s, most);
      match last
      case Run(j, c) => if j < |before.savers| { RefusedRun(w, before, s.vol, i, j, c); }
      case PowerLoss(after) => if CrashOf(before.vol, after) { RefusedLoss(w, before, s.vol, i, after); }
    }
  }

  lemma {:induction false} MetaStays(w: World, s: Sys, acts: seq<Action>, i: nat)
    requires i < |s.savers|
    ensures i < |Exec(w, s, acts).savers| && Exec(w, s, acts).savers[i].meta == s.savers[i].meta
  {
    if acts != [] {
      var most, last := acts[..|acts| - 1], acts[|acts| - 1];
      MetaStays(w, s, most, i);
      if last.Run? && last.saver < |Exec(w, s, most).savers| {
        MetaKept(w, Exec(w, s, most).vol, last.saver, Exec(w, s, most).savers[last.saver], last.choice);
      }
    }
  }

  /** Only a checkpoint that is not disabled, of an overlay that both checks accept, is published. */
  lemma PublishedWasAllowed(w: World, s: Sys, acts: seq<Action>, i: nat)
    requires Init(w, s) && i < |s.savers|
    ensures |Exec(w, s, acts).savers| == |s.savers|
    ensures Exec(w, s, acts).savers[i].moved || Exec(w, s, acts).savers[i].pc.Returned? ==> !s.savers[i].meta.blocked
    ensures Exec(w, s, acts).savers[i].moved ==>
              s.savers[i].meta.overlay.Some? && ImageOk(w.tools, s.savers[i].meta.overlay.value)
  {
    ExecInv(w, s, acts);
    MetaStays(w, s, acts, i);
    assert Phase(w, Exec(w, s, acts).vol, i, Exec(w, s, acts).savers[i]);
    if s.savers[i].meta.blocked {
      BlockedIsRefused(w, s, acts, i);
    }
  }

  // ---- A failing call ---------------------------------------------------------------------------

  predicate Working(pc: Pc) {
    !pc.Returned? && !pc.Raised? && !pc.Dead? && !pc.Cleaning?
  }

  /** A failing call is never taken for a success: the run raises, after its cleanup if it has made a directory. */
  lemma FailureRaises(w: World, v: Volume, i: nat, s: Saver, c: Choice)
    requires Working(s.pc) && c.fail
    ensures var (v', s') := Advance(w, v, i, s, c);
            v' == v && s'.moved == s.moved && s'.pc == if HasTemp(s.pc) then Cleaning else Raised
  {
  }

  /** Saver `i` has cleaned up: its temporary name is gone, and what it had put in place is not touched. */
  ghost predicate CleanedUp(s: Sys, s': Sys, i: nat) {
    && i < |s.savers| && s'.savers == s.savers[i := s.savers[i].(pc := Raised)]
    && ParentEntry(s.vol).now.Some?
    && Ent(s'.vol, ParentEntry(s.vol).now.value, s.savers[i].name).now != Some(TempDir(i))
    && (s.savers[i].moved ==> s'.vol == s.vol)
  }

  /**
   In every run, a failed saver whose cleanup meets no error leaves nothing under its
   temporary name; a bundle it had already put in place stays.
   */
  lemma CleanUpLeavesNothing(w: World, s: Sys, acts: seq<Action>, i: nat, c: Choice)
    requires Init(w, s) && i < |Exec(w, s, acts).savers| && Exec(w, s, acts).savers[i].pc.Cleaning?
    requires c.kept == {} && !c.keepTemp
    ensures CleanedUp(Exec(w, s, acts), Step(w, Exec(w, s, acts), Run(i, c)), i)
  {
    ExecInv(w, s, acts);
    CleanUpEnds(w, Exec(w, s, acts), i, c);
  }

  lemma CleanUpEnds(w: World, s: Sys, i: nat, c: Choice)
    requires Inv(w, s) && i < |s.savers| && s.savers[i].pc.Cleaning? && c.kept == {} && !c.keepTemp
    ensures CleanedUp(s, Step(w, s, Run(i, c)), i)
  {
    assert Phase(w, s.vol, i, s.savers[i]);
    if !s.savers[i].moved {
      CleanUpFrees(s.vol, i, s.savers[i], c);
    }
  }

  lemma CleanUpFrees(v: Volume, i: nat, s: Saver, c: Choice)
    requires ParentEntry(v).now.Some? && ParentEntry(v).now.value in v.dirs && ParentEntry(v).now.value != TempDir(i)
    requires TempDir(i) in v.dirs && c.kept == {} && !c.keepTemp
    ensures Ent(CleanUp(v, i, s, c), ParentEntry(v).now.value, s.name).now != Some(TempDir(i))
  {
    var pruned := PruneDir(v, TempDir(i), {});
    assert IsEmptyDir(pruned, TempDir(i));
    EntPruneDir(v, TempDir(i), {});
    EntSetEntry(pruned, ParentEntry(v).now.value, s.name, None);
  }

  // ---- What was checked on the way ------------------------------------------------------------

  /** Saver `i` stands before the manifest, and the copy that it finds on the volume is a sound image. */
  ghost predicate CopySound(w: World, s: Sys, i: nat) {
    && i < |s.savers| && s.savers[i].pc.DiskCopied?
    && var copy := ReadFile(s.vol, TempDir(i), DISK);
       copy.Some? && copy.value.Blob? && ImageOk(w.tools, copy.value.bytes)
  }

  /** Saver `i` stands before its rename with its directory on disk, and the destination is free. */
  ghost predicate FreeSeen(w: World, s: Sys, i: nat) {
    i < |s.savers| && s.savers[i].pc.TempSynced? && Destination(w, s.vol).None?
  }

  predicate PastCopy(s: Saver) {
    || s.moved || s.pc.ManifestWritten? || s.pc.ManifestSynced? || s.pc.CompleteWritten? || s.pc.CompleteSynced?
    || s.pc.DiskSynced? || s.pc.TempSynced? || s.pc.Rechecked?
  }

  predicate PastLook(s: Saver) {
    s.moved || s.pc.Rechecked?
  }

  lemma GetsPast(w: World, s: Sys, i: nat, c: Choice)
    requires i < |s.savers|
    ensures var s' := Step(w, s, Run(i, c)).savers[i];
            && (PastCopy(s') && !PastCopy(s.savers[i]) ==> CopySound(w, s, i))
            && (PastLook(s') && !PastLook(s.savers[i]) ==> FreeSeen(w, s, i))
  {
  }

  /** The `k`-th action was saver `i`'s, and it found the copy sound, or the destination free. */
  ghost predicate CheckedAt(w: World, s: Sys, acts: seq<Action>, i: nat, k: nat, look: bool) {
    && k < |acts| && acts[k].Run? && acts[k].saver == i
    && if look then FreeSeen(w, Exec(w, s, acts[..k]), i) else CopySound(w, Exec(w, s, acts[..k]), i)
  }

  lemma {:induction false} CheckedBefore(w: World, s: Sys, acts: seq<Action>, i: nat, look: bool) returns (k: nat)
    requires i < |s.savers| && s.savers[i].pc.Start? && !s.savers[i].moved
    requires i < |Exec(w, s, acts).savers|
    requires var end := Exec(w, s, acts).savers[i]; if look then PastLook(end) else PastCopy(end)
    ensures CheckedAt(w, s, acts, i, k, look)
  {
    var most, last := acts[..|acts| - 1], acts[|acts| - 1];
    MetaStays(w, s, most, i);
    var before := Exec(w, s, most);
    if if look then PastLook(before.savers[i]) else PastCopy(before.savers[i]) {
      k := CheckedBefore(w, s, most, i, look);
      assert acts[..k] == most[..k];
    } else {
      assert last.Run? && last.saver == i;
      GetsPast(w, before, i, last.choice);
      k := |most|;
    }
  }

  /**
   Whoever has published had found the copy on the volume to be a sound image, and after
   that, with its directory on disk, the destination free.
   */
  lemma PublishedAfterChecks(w: World, s: Sys, acts: seq<Action>, i: nat) returns (copied: nat, looked: nat)
    requires Init(w, s) && i < |s.savers| && i < |Exec(w, s, acts).savers| && Exec(w, s, acts).savers[i].moved
    ensures copied < looked
    ensures CheckedAt(w, s, acts, i, copied, false) && CheckedAt(w, s, acts, i, looked, true)
  {
    assert s.savers[i] in s.savers;
    looked := CheckedBefore(w, s, acts, i, true);
    copied := CheckedBefore(w, s, acts[..looked], i, false);
    assert acts[..looked][..copied] == acts[..copied];
  }
}
