/**
 A file system with a volatile view and the views a power loss may leave.

 Each directory entry carries its current target and the set of targets it may
 have after a crash: everything it has pointed to since the directory was last
 synced.  A file whose data is not synced may hold anything after a crash.
 */
module Storage {
  import opened Prelude

  /** An inode, identified by what created it. */
  datatype Ino =
    | Top
    | Parent0
    | Foreign(number: nat)
    | ParentBy(saver: nat)
    | TempDir(saver: nat)
    | DiskOf(saver: nat)
    | ManifestOf(saver: nat)
    | CompleteOf(saver: nat)

  datatype Manifest = Manifest(
    schema: string, version: int, mode: string, id: Option<string>,
    template: Option<string>, details: string)

  datatype Content = Blob(bytes: Bytes) | Json(manifest: Manifest) | Line(text: string)

  datatype File = File(data: Content, synced: bool)

  datatype Entry = Entry(now: Option<Ino>, may: set<Option<Ino>>)

  datatype Volume = Volume(dirs: map<Ino, map<string, Entry>>, files: map<Ino, File>)

  function Settled(x: Option<Ino>): Entry {
    Entry(x, {x})
  }

  function Ent(v: Volume, d: Ino, n: string): Entry {
    if d in v.dirs && n in v.dirs[d] then v.dirs[d][n] else Settled(None)
  }

  function SetEntry(v: Volume, d: Ino, n: string, x: Option<Ino>): Volume {
    if d in v.dirs then
      v.(dirs := v.dirs[d := v.dirs[d][n := Entry(x, Ent(v, d, n).may + {x})]])
    else v
  }

  /** A fresh, empty directory. */
  function AddDir(v: Volume, d: Ino): Volume {
    v.(dirs := v.dirs[d := map[]])
  }

  function WriteFile(v: Volume, f: Ino, data: Content, synced: bool): Volume {
    v.(files := v.files[f := File(data, synced)])
  }

  function SyncFile(v: Volume, f: Ino): Volume {
    if f in v.files then WriteFile(v, f, v.files[f].data, true) else v
  }

  function SyncDir(v: Volume, d: Ino): Volume {
    if d in v.dirs then
      v.(dirs := v.dirs[d := map n | n in v.dirs[d] :: Settled(v.dirs[d][n].now)])
    else v
  }

  /** rmtree with ignore_errors: any of the entries may stay behind. */
  function PruneDir(v: Volume, d: Ino, kept: set<string>): Volume {
    if d in v.dirs then
      v.(dirs := v.dirs[d := map n | n in v.dirs[d] ::
        if n in kept then v.dirs[d][n] else Entry(None, v.dirs[d][n].may + {None})])
    else v
  }

  predicate IsEmptyDir(v: Volume, d: Ino) {
    d in v.dirs && forall n | n in v.dirs[d] :: v.dirs[d][n].now.None?
  }

  /** `after` is a view of `v` that a power loss may leave. */
  ghost predicate CrashOf(v: Volume, after: Volume) {
    && after.dirs.Keys == v.dirs.Keys
    && after.files.Keys == v.files.Keys
    && (forall d, n :: Ent(after, d, n).now in Ent(v, d, n).may)
    && (forall d, n :: Ent(after, d, n).may == {Ent(after, d, n).now})
    && (forall f | f in v.files ::
          after.files[f].synced && (v.files[f].synced ==> after.files[f].data == v.files[f].data))
  }

  ghost predicate EntriesOk(v: Volume) {
    forall d, n :: Ent(v, d, n).now in Ent(v, d, n).may
  }

  lemma EntSetEntry(v: Volume, d: Ino, n: string, x: Option<Ino>)
    ensures forall e, m :: Ent(SetEntry(v, d, n, x), e, m) ==
              if d in v.dirs && e == d && m == n then Entry(x, Ent(v, d, n).may + {x}) else Ent(v, e, m)
    ensures EntriesOk(v) ==> EntriesOk(SetEntry(v, d, n, x))
  {
    var v' := SetEntry(v, d, n, x);
    assert forall e, m ::
        Ent(v', e, m) == if d in v.dirs && e == d && m == n then Entry(x, Ent(v, d, n).may + {x}) else Ent(v, e, m);
  }

  lemma EntAddDir(v: Volume, d: Ino)
    ensures forall e, m :: Ent(AddDir(v, d), e, m) == if e == d then Settled(None) else Ent(v, e, m)
    ensures EntriesOk(v) ==> EntriesOk(AddDir(v, d))
  {
    var v' := AddDir(v, d);
    assert forall e, m :: Ent(v', e, m) == if e == d then Settled(None) else Ent(v, e, m);
  }

  lemma EntSyncDir(v: Volume, d: Ino)
    ensures forall e, m :: Ent(SyncDir(v, d), e, m) == if e == d then Settled(Ent(v, e, m).now) else Ent(v, e, m)
    ensures EntriesOk(v) ==> EntriesOk(SyncDir(v, d))
  {
    var v' := SyncDir(v, d);
    assert forall e, m :: Ent(v', e, m) == if e == d then Settled(Ent(v, e, m).now) else Ent(v, e, m);
  }

  lemma EntPruneDir(v: Volume, d: Ino, kept: set<string>)
    ensures forall e, m | e != d :: Ent(PruneDir(v, d, kept), e, m) == Ent(v, e, m)
    ensures EntriesOk(v) ==> EntriesOk(PruneDir(v, d, kept))
  {
    var v' := PruneDir(v, d, kept);
    forall e, m | EntriesOk(v)
      ensures Ent(v', e, m).now in Ent(v', e, m).may
    {
      assert Ent(v, e, m).now in Ent(v, e, m).may;
    }
  }
}
