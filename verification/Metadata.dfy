/**
 The atomic replacement of vm.json by its one owner, on the file system of
 `Storage`, where a power loss may keep any part of what was not synced: of a
 rename it may keep both names.  Versions are numbered in the order in which the
 owner writes them; `doc` gives their texts.
 */
module Metadata {
  import opened Prelude
  import opened Storage

  const JSON := "vm.json"
  const TEMP := "vm.json.tmp"

  /** How far the current call has come. */
  datatype Pc = Idle | Opened | Written | Synced | Replaced

  /** The runtime directory is `Top`; files from number `next` on are unused. */
  datatype State = State(vol: Volume, next: nat, pc: Pc, version: nat, returned: Option<nat>)

  datatype Action =
    | Go                         // the next step succeeds
    | Fail                       // it raises, or the process dies
    | PowerLoss(after: Volume)

  type Docs = nat -> string

  function Json(v: Volume): Entry {
    Ent(v, Top, JSON)
  }

  function Temp(v: Volume): Entry {
    Ent(v, Top, TEMP)
  }

  /** open(temp, 'w'): a leftover file is truncated in place. */
  function Open(s: State): State {
    match Temp(s.vol).now
    case Some(f) => s.(vol := WriteFile(s.vol, f, Blob([]), false), pc := Opened)
    case None =>
      s.(vol := WriteFile(SetEntry(s.vol, Top, TEMP, Some(Foreign(s.next))), Foreign(s.next), Blob([]), false),
         next := s.next + 1, pc := Opened)
  }

  /** os.replace(temp, path) */
  function Replace(v: Volume): Volume {
    SetEntry(SetEntry(v, Top, TEMP, None), Top, JSON, Temp(v).now)
  }

  /** One step of _write_metadata. */
  function Advance(doc: Docs, s: State): State {
    match s.pc
    case Idle => Open(s.(version := s.version + 1))
    case Opened =>
      (match Temp(s.vol).now
       case Some(f) => s.(vol := WriteFile(s.vol, f, Line(doc(s.version)), false), pc := Written)
       case None => s)
    case Written =>
      (match Temp(s.vol).now
       case Some(f) => s.(vol := SyncFile(s.vol, f), pc := Synced)
       case None => s)
    case Synced => s.(vol := Replace(s.vol), pc := Replaced)
    case Replaced => s.(vol := SyncDir(s.vol, Top), pc := Idle, returned := Some(s.version))
  }

  ghost function Step(doc: Docs, s: State, a: Action): State {
    match a
    case Go => Advance(doc, s)
    case Fail => s.(pc := Idle)
    case PowerLoss(after) => if CrashOf(s.vol, after) then s.(vol := after, pc := Idle) else s
  }

  ghost function Exec(doc: Docs, s: State, acts: seq<Action>): State {
    if acts == [] then s else Step(doc, Exec(doc, s, acts[..|acts| - 1]), acts[|acts| - 1])
  }

  /** A fresh runtime directory. */
  ghost predicate Init(s: State) {
    && s.vol == Volume(map[Top := map[]], map[])
    && s.pc.Idle? && s.version == 0 && s.returned.None?
  }

  /** Reading vm.json. */
  function Read(v: Volume): Option<Content> {
    match Json(v).now
    case Some(f) => if f in v.files then Some(v.files[f].data) else None
    case None => None
  }

  /** The versions from the last that returned to the last begun. */
  ghost predicate IsVersion(doc: Docs, s: State, data: Content) {
    exists k | Oldest(s) <= k <= s.version :: data == Line(doc(k))
  }

  function Oldest(s: State): nat {
    match s.returned
    case Some(k) => k
    case None => 0
  }

  /** vm.json is one whole version, or it is absent and none has returned. */
  ghost predicate Whole(doc: Docs, s: State) {
    match Read(s.vol)
    case Some(data) => IsVersion(doc, s, data)
    case None => Json(s.vol).now.None? && s.returned.None?
  }

  /** The two names are not names of one file. */
  predicate Apart(v: Volume) {
    Json(v).now.Some? ==> Json(v).now != Temp(v).now
  }

  /** A power loss that keeps a rename whole, or drops it whole, never leaves both names on one file. */
  ghost predicate KeepsApart(acts: seq<Action>) {
    forall a | a in acts && a.PowerLoss? :: Apart(a.after)
  }

  // ---- The invariant ------------------------------------------------------------------------

  /** What vm.json may be after a power loss: a synced version, or absent before the first return. */
  ghost predicate Good(doc: Docs, s: State, x: Option<Ino>) {
    match x
    case None => s.returned.None?
    case Some(f) => f in s.vol.files && s.vol.files[f].synced && IsVersion(doc, s, s.vol.files[f].data)
  }

  ghost predicate Inv(doc: Docs, s: State) {
    && Top in s.vol.dirs
    && EntriesOk(s.vol)
    && Oldest(s) <= s.version
    && (forall f | f in s.vol.files :: f.Foreign? && f.number < s.next)
    && (forall x | x in Json(s.vol).may :: Good(doc, s, x))
    && (forall x | x in Temp(s.vol).may :: x.Some? ==> x.value in s.vol.files)
    && (Temp(s.vol).now.Some? ==> Temp(s.vol).now !in Json(s.vol).may)
    && (s.pc.Opened? || s.pc.Written? || s.pc.Synced? ==> Temp(s.vol).now.Some?)
    && (s.pc.Written? || s.pc.Synced? ==> s.vol.files[Temp(s.vol).now.value].data == Line(doc(s.version)))
    && (s.pc.Synced? ==> s.vol.files[Temp(s.vol).now.value].synced)
    && (s.pc.Replaced? ==>
        Json(s.vol).now.Some? && s.vol.files[Json(s.vol).now.value] == File(Line(doc(s.version)), true))
  }

  lemma InvWhole(doc: Docs, s: State)
    requires Inv(doc, s)
    ensures Whole(doc, s) && Apart(s.vol)
  {
    assert Json(s.vol).now in Json(s.vol).may;
    assert Good(doc, s, Json(s.vol).now);
  }

  /** What is good stays good while its file is left alone and only newer versions are begun. */
  lemma GoodStays(doc: Docs, s: State, s': State, x: Option<Ino>)
    requires Good(doc, s, x) && s'.returned == s.returned && s.version <= s'.version
    requires x.Some? ==> x.value in s'.vol.files && s'.vol.files[x.value] == s.vol.files[x.value]
    ensures Good(doc, s', x)
  {
    if x.Some? {
      var k :| Oldest(s) <= k <= s.version && s.vol.files[x.value].data == Line(doc(k));
    }
  }

  /** Writing or syncing the temporary file. */
  lemma TempFileInv(doc: Docs, s: State, s': State, f: Ino, file: File)
    requires Inv(doc, s) && Temp(s.vol).now == Some(f) && f in s.vol.files
    requires s'.vol == s.vol.(files := s.vol.files[f := file])
    requires s'.next == s.next && s'.returned == s.returned && s.version <= s'.version && !s'.pc.Replaced?
             && !s'.pc.Idle?
    requires s'.pc.Written? || s'.pc.Synced? ==> file.data == Line(doc(s'.version))
    requires s'.pc.Synced? ==> file.synced
    ensures Inv(doc, s')
  {
    assert forall d, n :: Ent(s'.vol, d, n) == Ent(s.vol, d, n);
    forall x | x in Json(s'.vol).may
      ensures Good(doc, s', x)
    {
      assert Good(doc, s, x);
      GoodStays(doc, s, s', x);
    }
  }

  lemma NewTempInv(doc: Docs, s: State)
    requires Inv(doc, s) && s.pc.Idle? && Temp(s.vol).now.None?
    ensures Inv(doc, Advance(doc, s))
  {
    var s', f := Advance(doc, s), Foreign(s.next);
    EntSetEntry(s.vol, Top, TEMP, Some(f));
    assert forall d, n :: Ent(s'.vol, d, n) == Ent(SetEntry(s.vol, Top, TEMP, Some(f)), d, n);
    forall x | x in Json(s'.vol).may
      ensures Good(doc, s', x) && x != Some(f)
    {
      assert Good(doc, s, x);
      GoodStays(doc, s, s', x);
    }
  }

  lemma ReplaceInv(doc: Docs, s: State)
    requires Inv(doc, s) && s.pc.Synced?
    ensures Inv(doc, Advance(doc, s))
  {
    var s', f := Advance(doc, s), Temp(s.vol).now;
    var mid := SetEntry(s.vol, Top, TEMP, None);
    EntSetEntry(s.vol, Top, TEMP, None);
    EntSetEntry(mid, Top, JSON, f);
    assert Json(s'.vol) == Entry(f, Json(s.vol).may + {f}) && Temp(s'.vol) == Entry(None, Temp(s.vol).may + {None});
    forall x | x in Json(s'.vol).may
      ensures Good(doc, s', x)
    {
      if x == f {
        assert Oldest(s') <= s.version <= s'.version;
      } else {
        assert Good(doc, s, x);
        GoodStays(doc, s, s', x);
      }
    }
  }

  lemma ReturnInv(doc: Docs, s: State)
    requires Inv(doc, s) && s.pc.Replaced?
    ensures Inv(doc, Advance(doc, s))
  {
    EntSyncDir(s.vol, Top);
    var s' := Advance(doc, s);
    assert Json(s'.vol) == Entry(Json(s.vol).now, {Json(s.vol).now});
    assert Json(s.vol).now in Json(s.vol).may && Temp(s.vol).now in Temp(s.vol).may;
    assert Oldest(s') <= s.version <= s'.version;
  }

  lemma AdvanceInv(doc: Docs, s: State)
    requires Inv(doc, s)
    ensures Inv(doc, Advance(doc, s))
  {
    assert Temp(s.vol).now in Temp(s.vol).may;
    match s.pc
    case Idle =>
      if Temp(s.vol).now.None? {
        NewTempInv(doc, s);
      } else {
        TempFileInv(doc, s, Advance(doc, s), Temp(s.vol).now.value, File(Blob([]), false));
      }
    case Opened => TempFileInv(doc, s, Advance(doc, s), Temp(s.vol).now.value, File(Line(doc(s.version)), false));
    case Written => TempFileInv(doc, s, Advance(doc, s), Temp(s.vol).now.value, File(Line(doc(s.version)), true));
    case Synced => ReplaceInv(doc, s);
    case Replaced => ReturnInv(doc, s);
  }

  lemma FailInv(doc: Docs, s: State)
    requires Inv(doc, s)
    ensures Inv(doc, Step(doc, s, Fail))
  {
    var s' := Step(doc, s, Fail);
    forall x | x in Json(s'.vol).may
      ensures Good(doc, s', x)
    {
      assert Good(doc, s, x);
      GoodStays(doc, s, s', x);
    }
  }

  lemma LossInv(doc: Docs, s: State, after: Volume)
    requires Inv(doc, s) && CrashOf(s.vol, after) && Apart(after)
    ensures Inv(doc, Step(doc, s, PowerLoss(after)))
  {
    var s' := Step(doc, s, PowerLoss(after));
    forall x | x in Json(after).may
      ensures Good(doc, s', x)
    {
      assert x in Json(s.vol).may;
      assert Good(doc, s, x);
      GoodStays(doc, s, s', x);
    }
    assert Temp(after).now in Temp(s.vol).may;
  }

  lemma {:induction false} ExecInv(doc: Docs, s: State, acts: seq<Action>)
    requires Init(s) && KeepsApart(acts)
    ensures Inv(doc, Exec(doc, s, acts))
  {
    if acts != [] {
      var most, last := acts[..|acts| - 1], acts[|acts| - 1];
      assert last in acts && forall a | a in most :: a in acts;
      ExecInv(doc, s, most);
      match last
      case Go => AdvanceInv(doc, Exec(doc, s, most));
      case Fail => FailInv(doc, Exec(doc, s, most));
      case PowerLoss(after) => if CrashOf(Exec(doc, s, most).vol, after) { LossInv(doc, Exec(doc, s, most), after); }
    }
  }

  // ---- What a reader sees -------------------------------------------------------------------

  /**
   In every run of writes that fail, die or lose power after any step, as long
   as no power loss leaves both names on one file, vm.json is absent or one whole
   version: none newer than the last begun, none older than the last that returned.
   */
  lemma ReaderSeesWholeVersion(doc: Docs, s: State, acts: seq<Action>)
    requires Init(s) && KeepsApart(acts)
    ensures Whole(doc, Exec(doc, s, acts))
  {
    ExecInv(doc, s, acts);
    InvWhole(doc, Exec(doc, s, acts));
  }

  /**
   That condition is exact: after any power loss vm.json is still whole, but it
   survives the next write's open, which truncates a leftover temporary file,
   exactly if the two names are not on one file.
   */
  lemma NextOpenKeepsWholeIff(doc: Docs, s: State, acts: seq<Action>, after: Volume)
    requires Init(s) && KeepsApart(acts) && CrashOf(Exec(doc, s, acts).vol, after)
    ensures var lost := Step(doc, Exec(doc, s, acts), PowerLoss(after));
            Whole(doc, lost) && (Whole(doc, Step(doc, lost, Go)) <==> Apart(after))
  {
    ExecInv(doc, s, acts);
    var end := Exec(doc, s, acts);
    var lost := Step(doc, end, PowerLoss(after));
    LostIsWhole(doc, end, after);
    if Apart(after) {
      LossInv(doc, end, after);
      AdvanceInv(doc, lost);
      InvWhole(doc, Step(doc, lost, Go));
    } else {
      SharedIsTruncated(doc, lost);
    }
  }

  lemma LostIsWhole(doc: Docs, s: State, after: Volume)
    requires Inv(doc, s) && CrashOf(s.vol, after)
    ensures Whole(doc, Step(doc, s, PowerLoss(after)))
  {
    var s' := Step(doc, s, PowerLoss(after));
    assert Json(after).now in Json(s.vol).may;
    assert Good(doc, s, Json(after).now);
    GoodStays(doc, s, s', Json(after).now);
  }

  lemma SharedIsTruncated(doc: Docs, s: State)
    requires s.pc.Idle? && !Apart(s.vol) && Whole(doc, s)
    ensures Read(Advance(doc, s).vol) == Some(Blob([])) && !Whole(doc, Advance(doc, s))
  {
    var s', f := Advance(doc, s), Json(s.vol).now.value;
    assert Json(s'.vol) == Json(s.vol);
    assert s'.vol.files[f].data == Blob([]);
  }

  /** A write that returned is on disk: a power loss right after it changes nothing a reader sees. */
  lemma ReturnedIsDurable(doc: Docs, s: State, acts: seq<Action>, after: Volume)
    requires Init(s) && KeepsApart(acts) && Exec(doc, s, acts).pc.Replaced?
    requires CrashOf(Exec(doc, s, acts + [Go]).vol, after)
    ensures var end := Exec(doc, s, acts + [Go]);
            && Read(end.vol) == Some(Line(doc(end.version))) == Read(after) && end.returned == Some(end.version)
  {
    var before := Exec(doc, s, acts);
    ExecInv(doc, s, acts);
    assert (acts + [Go])[..|acts|] == acts;
    EntSyncDir(before.vol, Top);
    var end := Advance(doc, before);
    assert Exec(doc, s, acts + [Go]) == end;
    assert Json(end.vol) == Storage.Settled(Json(before.vol).now);
    assert Json(after).now in Json(end.vol).may;
  }

  /** Before the directory sync a power loss can undo the write, or leave both names on the new file. */
  lemma BothNamesCanSurvive(doc: Docs, s: State) returns (undone: Volume, both: Volume)
    requires Init(s)
    ensures var end := Exec(doc, s, [Go, Go, Go, Go]);
            && end.pc.Replaced? && Read(end.vol) == Some(Line(doc(1)))
            && CrashOf(end.vol, undone) && Read(undone).None?
            && CrashOf(end.vol, both) && !Apart(both) && Read(both) == Some(Line(doc(1)))
  {
    var end := Exec(doc, s, [Go, Go, Go, Go]);
    var f := Some(Foreign(s.next));
    FirstReplace(doc, s);
    undone := Names(end.vol, None, None);
    both := Names(end.vol, f, f);
    NamesAre(end.vol, None, None);
    NamesAre(end.vol, f, f);
  }

  /** The same files, with these two names on disk. */
  function Names(v: Volume, json: Option<Ino>, temp: Option<Ino>): Volume {
    Volume(map[Top := map[JSON := Storage.Settled(json), TEMP := Storage.Settled(temp)]], v.files)
  }

  lemma NamesAre(v: Volume, json: Option<Ino>, temp: Option<Ino>)
    ensures forall d, n :: Ent(Names(v, json, temp), d, n) ==
              if d == Top && n == JSON then Storage.Settled(json)
              else if d == Top && n == TEMP then Storage.Settled(temp)
              else Storage.Settled(None)
  {
    assert JSON != TEMP;
  }

  /** Only the temporary name is there, on file `f`; nothing is on disk yet. */
  ghost predicate OnlyTemp(v: Volume, f: Ino) {
    && v.dirs.Keys == {Top}
    && forall d, n :: Ent(v, d, n) ==
         if d == Top && n == TEMP then Entry(Some(f), {None, Some(f)}) else Storage.Settled(None)
  }

  lemma FirstOpen(doc: Docs, s: State)
    requires Init(s)
    ensures var s1 := Step(doc, s, Go);
            && s1 == State(s1.vol, s.next + 1, Opened, 1, None)
            && OnlyTemp(s1.vol, Foreign(s.next)) && s1.vol.files == map[Foreign(s.next) := File(Blob([]), false)]
  {
    EntSetEntry(s.vol, Top, TEMP, Some(Foreign(s.next)));
    assert Temp(s.vol) == Storage.Settled(None);
  }

  lemma OnlyFiles(v: Volume, f: Ino, file: File)
    requires OnlyTemp(v, f)
    ensures OnlyTemp(v.(files := map[f := file]), f)
  {
    assert forall d, n :: Ent(v.(files := map[f := file]), d, n) == Ent(v, d, n);
  }

  /** The write and the sync of a first temporary file. */
  lemma FirstData(doc: Docs, s: State, f: Ino, file: File)
    requires OnlyTemp(s.vol, f) && s.vol.files == map[f := file]
    ensures s.pc.Opened? ==>
      Step(doc, s, Go) == s.(vol := s.vol.(files := map[f := File(Line(doc(s.version)), false)]), pc := Written)
    ensures s.pc.Written? ==>
      Step(doc, s, Go) == s.(vol := s.vol.(files := map[f := File(file.data, true)]), pc := Synced)
  {
    assert Temp(s.vol).now == Some(f);
    assert map[f := file][f := File(Line(doc(s.version)), false)] == map[f := File(Line(doc(s.version)), false)];
    assert map[f := file][f := File(file.data, true)] == map[f := File(file.data, true)];
  }

  lemma ExecMore(doc: Docs, s: State, acts: seq<Action>, a: Action)
    ensures Exec(doc, s, acts + [a]) == Step(doc, Exec(doc, s, acts), a)
  {
    assert (acts + [a])[..|acts|] == acts;
  }

  lemma FirstTemp(doc: Docs, s: State)
    requires Init(s)
    ensures var s3 := Exec(doc, s, [Go, Go, Go]);
            && s3 == State(s3.vol, s.next + 1, Synced, 1, None)
            && OnlyTemp(s3.vol, Foreign(s.next)) && s3.vol.files == map[Foreign(s.next) := File(Line(doc(1)), true)]
  {
    var f, s1 := Foreign(s.next), Step(doc, s, Go);
    FirstOpen(doc, s);
    FirstData(doc, s1, f, File(Blob([]), false));
    var s2 := Step(doc, s1, Go);
    OnlyFiles(s1.vol, f, File(Line(doc(1)), false));
    FirstData(doc, s2, f, File(Line(doc(1)), false));
    OnlyFiles(s2.vol, f, File(Line(doc(1)), true));
    assert [] + [Go] == [Go] && [Go] + [Go] == [Go, Go] && [Go, Go] + [Go] == [Go, Go, Go];
    ExecMore(doc, s, [], Go);
    ExecMore(doc, s, [Go], Go);
    ExecMore(doc, s, [Go, Go], Go);
  }

  lemma FirstReplace(doc: Docs, s: State)
    requires Init(s)
    ensures var end, f := Exec(doc, s, [Go, Go, Go, Go]), Some(Foreign(s.next));
            && end.pc.Replaced? && end.vol.dirs.Keys == {Top}
            && end.vol.files == map[Foreign(s.next) := File(Line(doc(1)), true)]
            && forall d, n :: Ent(end.vol, d, n) ==
                 if d == Top && n == JSON then Entry(f, {None, f})
                 else if d == Top && n == TEMP then Entry(None, {None, f})
                 else Storage.Settled(None)
  {
    FirstTemp(doc, s);
    var s3 := Exec(doc, s, [Go, Go, Go]);
    ExecMore(doc, s, [Go, Go, Go], Go);
    assert [Go, Go, Go] + [Go] == [Go, Go, Go, Go];
    assert JSON != TEMP;
    EntSetEntry(s3.vol, Top, TEMP, None);
    EntSetEntry(SetEntry(s3.vol, Top, TEMP, None), Top, JSON, Some(Foreign(s.next)));
  }
}
