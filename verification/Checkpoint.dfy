/**
 Publication of a stopped overlay as a checkpoint bundle.

 Any number of savers run the steps of create_checkpoint on one destination,
 interleaved with each other and with power losses.  One step is one call that
 other processes or a crash can observe.
 */
module Checkpoint {
  import opened Prelude
  import opened Storage
  import Text

  const SCHEMA := "vmocs.checkpoint"
  const VERSION := 1
  const MODE := "cold-disk"
  const DISK := "disk.qcow2"
  const MANIFEST := "manifest.json"
  const COMPLETE := "COMPLETE"

  /** The entry of the destination's parent directory in its own parent. */
  const PARENT := "parent"

  /** qemu-img's verdicts, as functions of the image's bytes. */
  datatype Tools = Tools(isQcow2: Bytes -> bool, checks: Bytes -> bool)

  /**
   What all savers agree on: the tools and the destination's base name.  `earlier`
   is what stood at the destination before, or what a power loss may bring back
   there; no saver made it.
   */
  datatype World = World(tools: Tools, base: string, earlier: set<Ino>)

  /** The part of the VM metadata that create_checkpoint reads. */
  datatype Meta = Meta(
    blocked: bool, id: Option<string>, overlay: Option<Bytes>, template: Option<string>)

  function ParentEntry(v: Volume): Entry {
    Ent(v, Top, PARENT)
  }

  /** What the destination path currently resolves to. */
  function Destination(w: World, v: Volume): Option<Ino> {
    match ParentEntry(v).now
    case None => None
    case Some(p) => Ent(v, p, w.base).now
  }

  function ReadFile(v: Volume, d: Ino, n: string): Option<Content> {
    match Ent(v, d, n).now
    case None => None
    case Some(f) => if f in v.files then Some(v.files[f].data) else None
  }

  function ReadManifest(v: Volume, d: Ino): Result<Manifest> {
    match ReadFile(v, d, MANIFEST)
    case Some(Json(m)) =>
      if m.schema == SCHEMA && m.version == VERSION && m.mode == MODE then Ok(m) else Err
    case _ => Err
  }

  predicate ImageOk(tools: Tools, bytes: Bytes) {
    tools.isQcow2(bytes) && tools.checks(bytes)
  }

  /** load_checkpoint, once the path is known to be the directory `d`. */
  function Load(w: World, v: Volume, d: Ino, expected: Option<string>): Result<Manifest> {
    match ReadFile(v, d, COMPLETE)
    case Some(Line(text)) =>
      var completeId := Text.Strip(Text.Universal(text));
      (match ReadManifest(v, d)
       case Ok(m) =>
         if completeId == "" || m.id != Some(completeId) then Err
         else if expected.Some? && expected.value != "" && m.template != expected then Err
         else
           (match ReadFile(v, d, DISK)
            case Some(Blob(bytes)) => if ImageOk(w.tools, bytes) then Ok(m) else Err
            case _ => Err)
       case Err => Err)
    case _ => Err
  }

  /** Where one run of create_checkpoint stands. */
  datatype Pc =
    | Start | Clear | Vetted | ParentReady | TempMade | DiskOpen | DiskCopied
    | ManifestWritten | ManifestSynced | CompleteWritten | CompleteSynced
    | DiskSynced | TempSynced | Rechecked | Renamed
    | Returned | Cleaning | Raised | Dead

  /** `moved` records that this run's rename took effect. */
  datatype Saver = Saver(meta: Meta, pc: Pc, name: string, manifest: Manifest, moved: bool)

  /**
   What the environment decides in one step: whether the call fails, the
   random part of names and ids, what an unfinished write holds, what a failed
   cleanup leaves behind, and whether a rename that took effect is reported as
   failed.
   */
  datatype Choice = Choice(
    fail: bool, suffix: string, partial: Content, freshId: string, details: string,
    kept: set<string>, keepTemp: bool, lostReply: bool)

  function PartialName(base: string, suffix: string): (n: string)
    ensures n != base
  {
    "." + base + ".partial-" + suffix
  }

  function IdOf(meta: Meta, freshId: string): string {
    if meta.id.Some? && meta.id.value != "" then meta.id.value else freshId
  }

  function MakeManifest(meta: Meta, c: Choice): Manifest {
    Manifest(SCHEMA, VERSION, MODE, Some(IdOf(meta, c.freshId)), meta.template, c.details)
  }

  predicate HasTemp(pc: Pc) {
    || pc.TempMade? || pc.DiskOpen? || pc.DiskCopied? || pc.ManifestWritten? || pc.ManifestSynced?
    || pc.CompleteWritten? || pc.CompleteSynced? || pc.DiskSynced? || pc.TempSynced? || pc.Rechecked?
  }

  /** The first checks: an existing destination is only ever read. */
  function Begin(w: World, v: Volume, s: Saver): Saver {
    if s.meta.blocked then s.(pc := Raised)
    else
      match Destination(w, v)
      case None => s.(pc := Clear)
      case Some(x) =>
        if x !in v.dirs then s.(pc := Raised)
        else
          match Load(w, v, x, None)
          case Err => s.(pc := Raised)
          case Ok(m) =>
            if s.meta.id.Some? && s.meta.id.value != "" && m.id == s.meta.id
            then s.(pc := Returned, manifest := m)
            else s.(pc := Raised)
  }

  function Vet(w: World, s: Saver): Saver {
    if s.meta.overlay.Some? && ImageOk(w.tools, s.meta.overlay.value)
    then s.(pc := Vetted) else s.(pc := Raised)
  }

  function MakeParent(v: Volume, i: nat): Volume {
    if ParentEntry(v).now.Some? then v
    else SetEntry(AddDir(v, ParentBy(i)), Top, PARENT, Some(ParentBy(i)))
  }

  function MakeTemp(w: World, v: Volume, i: nat, s: Saver, c: Choice): (Volume, Saver) {
    var name := PartialName(w.base, c.suffix);
    match ParentEntry(v).now
    case None => (v, s.(pc := Raised))
    case Some(p) =>
      if Ent(v, p, name).now.Some? then (v, s)
      else (SetEntry(AddDir(v, TempDir(i)), p, name, Some(TempDir(i))),
            s.(pc := TempMade, name := name))
  }

  /** POSIX rename of a directory: it may replace an empty directory only. */
  function RenameTemp(w: World, v: Volume, i: nat, s: Saver, c: Choice): (Volume, Saver) {
    match ParentEntry(v).now
    case None => (v, s.(pc := Cleaning))
    case Some(p) =>
      var standing := Ent(v, p, w.base).now;
      if standing.Some? && !IsEmptyDir(v, standing.value) then (v, s.(pc := Cleaning))
      else if Ent(v, p, s.name).now != Some(TempDir(i)) then (v, s.(pc := Cleaning))
      else
        var v' := SetEntry(SetEntry(v, p, s.name, None), p, w.base, Some(TempDir(i)));
        (v', s.(pc := if c.lostReply then Cleaning else Renamed, moved := true))
  }

  /** shutil.rmtree(temporary, ignore_errors=True), found through its path. */
  function CleanUp(v: Volume, i: nat, s: Saver, c: Choice): Volume {
    match ParentEntry(v).now
    case None => v
    case Some(p) =>
      if Ent(v, p, s.name).now == Some(TempDir(i)) then
        var v' := PruneDir(v, TempDir(i), c.kept);
        if c.keepTemp || !IsEmptyDir(v', TempDir(i)) then v' else SetEntry(v', p, s.name, None)
      else v
  }

  /** One step of saver `i`. */
  function Advance(w: World, v: Volume, i: nat, s: Saver, c: Choice): (Volume, Saver) {
    if c.fail && HasTemp(s.pc) then (v, s.(pc := Cleaning))
    else if c.fail && (s.pc.Start? || s.pc.Clear? || s.pc.Vetted? || s.pc.ParentReady? || s.pc.Renamed?) then
      (v, s.(pc := Raised))
    else
      match s.pc
      case Start => (v, Begin(w, v, s))
      case Clear => (v, Vet(w, s))
      case Vetted => (MakeParent(v, i), s.(pc := ParentReady))
      case ParentReady => MakeTemp(w, v, i, s, c)
      case TempMade =>
        (WriteFile(SetEntry(v, TempDir(i), DISK, Some(DiskOf(i))), DiskOf(i), c.partial, false),
         s.(pc := DiskOpen))
      case DiskOpen =>
        if s.meta.overlay.None? then (v, s.(pc := Cleaning))
        else (WriteFile(v, DiskOf(i), Blob(s.meta.overlay.value), true), s.(pc := DiskCopied))
      case DiskCopied =>
        if ReadFile(v, TempDir(i), DISK).Some? && ReadFile(v, TempDir(i), DISK).value.Blob?
           && ImageOk(w.tools, ReadFile(v, TempDir(i), DISK).value.bytes) then
          var m := MakeManifest(s.meta, c);
          (WriteFile(SetEntry(v, TempDir(i), MANIFEST, Some(ManifestOf(i))), ManifestOf(i), Json(m), false),
           s.(pc := ManifestWritten, manifest := m))
        else (v, s.(pc := Cleaning))
      case ManifestWritten => (SyncFile(v, ManifestOf(i)), s.(pc := ManifestSynced))
      case ManifestSynced =>
        (WriteFile(SetEntry(v, TempDir(i), COMPLETE, Some(CompleteOf(i))), CompleteOf(i),
                   Line((if s.manifest.id.Some? then s.manifest.id.value else "") + "\n"), false),
         s.(pc := CompleteWritten))
      case CompleteWritten => (SyncFile(v, CompleteOf(i)), s.(pc := CompleteSynced))
      case CompleteSynced => (SyncFile(v, DiskOf(i)), s.(pc := DiskSynced))
      case DiskSynced => (SyncDir(v, TempDir(i)), s.(pc := TempSynced))
      case TempSynced =>
        (v, s.(pc := if Destination(w, v).Some? then Cleaning else Rechecked))
      case Rechecked => RenameTemp(w, v, i, s, c)
      case Renamed =>
        (match ParentEntry(v).now
         case None => (v, s.(pc := Raised))
         case Some(p) => (SyncDir(v, p), s.(pc := Returned)))
      case Cleaning => (CleanUp(v, i, s, c), s.(pc := Raised))
      case _ => (v, s)
  }

  datatype Sys = Sys(vol: Volume, savers: seq<Saver>)

  datatype Action = Run(saver: nat, choice: Choice) | PowerLoss(after: Volume)

  /** A power loss ends every run that has started. */
  function Kill(s: Saver): Saver {
    if s.pc.Start? then s else s.(pc := Dead)
  }

  ghost function Step(w: World, s: Sys, a: Action): Sys {
    match a
    case Run(i, c) =>
      if i < |s.savers| then
        var (v, saver) := Advance(w, s.vol, i, s.savers[i], c);
        Sys(v, s.savers[i := saver])
      else s
    case PowerLoss(after) =>
      if CrashOf(s.vol, after) then Sys(after, seq(|s.savers|, i requires 0 <= i < |s.savers| => Kill(s.savers[i])))
      else s
  }

  ghost function Exec(w: World, s: Sys, acts: seq<Action>): Sys {
    if acts == [] then s else Step(w, Exec(w, s, acts[..|acts| - 1]), acts[|acts| - 1])
  }

  predicate IsParent(p: Ino) {
    p.Parent0? || p.ParentBy?
  }

  /**
   The start: nobody has begun.  The destination is absent or something earlier
   stands there, in either case on disk or not yet: it may be that a power loss
   brings back what was removed.  The same holds for its parent directory.
   Anything else may be in the parent.
   */
  ghost predicate Init(w: World, s: Sys) {
    && EntriesOk(s.vol)
    && Top in s.vol.dirs
    && (forall d | d in s.vol.dirs :: d.Top? || d.Parent0? || d.Foreign?)
    && (|| ParentEntry(s.vol) == Settled(None)
        || (ParentEntry(s.vol).now == Some(Parent0) && ParentEntry(s.vol).may <= {None, Some(Parent0)}
            && Parent0 in s.vol.dirs))
    && (forall x | x in w.earlier :: x.Foreign?)
    && (forall x | x in Ent(s.vol, Parent0, w.base).may && x.Some? :: x.value in w.earlier)
    && (forall saver | saver in s.savers :: saver.pc.Start? && !saver.moved)
  }
}
