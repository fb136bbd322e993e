/** The sparse-aware disk copy of a checkpoint: nested loops over two file descriptors. */
module SparseCopy {
  import opened Prelude

  const CHUNK := 1024 * 1024

  function Min(a: nat, b: nat): nat {
    if a < b then a else b
  }

  function Zeros(n: nat): Bytes {
    seq(n, _ => 0)
  }

  /** The first `n` bytes of a file, reading zeros past its end. */
  function Prefix(data: Bytes, n: nat): (p: Bytes)
    ensures |p| == n
  {
    if n <= |data| then data[..n] else data + Zeros(n - |data|)
  }

  /** A write at `at`: the gap after the old end, if any, becomes zeros. */
  function WriteAt(data: Bytes, at: nat, d: Bytes): Bytes {
    if d == [] then data
    else Prefix(data, at) + d + (if at + |d| < |data| then data[at + |d|..] else [])
  }

  lemma WriteAtPrefix(data: Bytes, at: nat, d: Bytes)
    ensures Prefix(WriteAt(data, at, d), at + |d|) == Prefix(data, at) + d
    ensures d != [] ==> |WriteAt(data, at, d)| == if |data| < at + |d| then at + |d| else |data|
  {
    if d == [] {
      assert Prefix(data, at) + d == Prefix(data, at);
    } else {
      assert WriteAt(data, at, d)[..at + |d|] == Prefix(data, at) + d;
    }
  }

  /** `after` is `origin` with the first `done` bytes of `d` written at `at`, as far as a prefix shows. */
  ghost predicate PartWritten(origin: Bytes, at: nat, d: Bytes, done: nat, after: Bytes)
    requires done <= |d|
  {
    && Prefix(after, at + done) == Prefix(origin, at) + d[..done]
    && |after| <= (if |origin| < at + done then at + done else |origin|)
  }

  lemma WriteBegins(origin: Bytes, at: nat, d: Bytes)
    ensures PartWritten(origin, at, d, 0, origin) && d[0..] == d
  {
    assert Prefix(origin, at) + d[..0] == Prefix(origin, at);
  }

  lemma WriteEnds(origin: Bytes, at: nat, d: Bytes, after: Bytes)
    requires PartWritten(origin, at, d, |d|, after)
    ensures Prefix(after, at + |d|) == Prefix(origin, at) + d
    ensures |after| <= (if |origin| < at + |d| then at + |d| else |origin|)
  {
    assert d[..|d|] == d;
  }

  /** One short write. */
  lemma WriteStep(origin: Bytes, at: nat, d: Bytes, done: nat, view: Bytes, n: nat, before: Bytes, after: Bytes)
    requires done <= |d| && view == d[done..] && 0 < n <= |view| && PartWritten(origin, at, d, done, before)
    requires after == WriteAt(before, at + done, view[..n])
    ensures PartWritten(origin, at, d, done + n, after)
    ensures view[n..] == d[done + n..]
  {
    WriteAtPrefix(before, at + done, view[..n]);
    Regroup(Prefix(origin, at), d, done, n);
  }

  lemma Regroup(start: Bytes, d: Bytes, done: nat, n: nat)
    requires done + n <= |d|
    ensures start + d[..done] + d[done..][..n] == start + d[..done + n]
    ensures d[done..][n..] == d[done + n..] && |d[done..][..n]| == n
  {
    assert d[..done] + d[done..][..n] == d[..done + n];
  }

  /** `n` places of a file, from `at` on. */
  function Places(at: nat, n: nat): (r: set<nat>)
    ensures forall k: nat :: k in r <==> at <= k < at + n
  {
    if n == 0 then {} else Places(at, n - 1) + {at + n - 1}
  }

  /** Nothing below `from` or from `to` on has been written since. */
  predicate WrittenWithin(before: set<nat>, after: set<nat>, from: nat, to: nat) {
    forall k | k in after :: k in before || from <= k < to
  }

  lemma WithinMore(a: set<nat>, b: set<nat>, c: set<nat>, from: nat, at: nat, to: nat)
    requires WrittenWithin(a, b, from, to) && WrittenWithin(b, c, at, to) && from <= at
    ensures WrittenWithin(a, c, from, to)
  {
  }

  /** Nothing has been written since but what is data in the source. */
  predicate WrittenOnData(before: set<nat>, after: set<nat>, isData: seq<bool>) {
    forall k | k in after :: k in before || (k < |isData| && isData[k])
  }

  datatype Seek = At(offset: nat) | NoMoreData | NotSupported | Failed

  /**
   The two descriptors of one copy.  The source never changes: its bytes and
   the file system's data/hole layout are fixed, and holes read as zeros.
   Every call may fail; `faults` counts the calls that did, and `refusals` the
   seeks that the file system does not support.  `written` are the places of the
   target that a write has reached: a hole is a place that none has.
   */
  class Descriptors {
    const source: Bytes
    const isData: seq<bool>
    var sourcePos: nat
    var target: Bytes
    var targetPos: nat
    var synced: bool
    var faults: nat
    ghost var refusals: nat
    ghost var written: set<nat>

    ghost predicate Valid() {
      && |isData| == |source|
      && forall k | 0 <= k < |source| && !isData[k] :: source[k] == 0
    }

    /** open(destination, O_CREAT | O_EXCL): a new, empty target. */
    constructor (source: Bytes, isData: seq<bool>)
      requires |isData| == |source|
      requires forall k | 0 <= k < |source| && !isData[k] :: source[k] == 0
      ensures Valid() && this.source == source && this.isData == isData
      ensures target == [] && targetPos == 0 && sourcePos == 0 && !synced && faults == 0
      ensures refusals == 0 && written == {}
    {
      this.source, this.isData := source, isData;
      sourcePos, target, targetPos, synced, faults := 0, [], 0, false, 0;
      refusals, written := 0, {};
    }

    /** lseek(source, offset, SEEK_DATA): it may be refused at any offset. */
    method SeekData(offset: nat) returns (r: Seek)
      requires Valid() && offset < |source|
      modifies this`faults, this`refusals, this`sourcePos
      ensures refusals == old(refusals) + (if r.NotSupported? then 1 else 0)
      ensures r.At? ==> offset <= r.offset < |source| && isData[r.offset]
                        && forall k | offset <= k < r.offset :: !isData[k]
      ensures r.NoMoreData? ==> forall k | offset <= k < |source| :: !isData[k]
      ensures faults == old(faults) + (if r.Failed? then 1 else 0)
    {
      if {
        case true => r, refusals := NotSupported, refusals + 1;
        case true => r, faults := Failed, faults + 1;
        case true =>
          var p := offset;
          while p < |source| && !isData[p]
            invariant offset <= p <= |source|
            invariant forall k | offset <= k < p :: !isData[k]
          {
            p := p + 1;
          }
          r := if p < |source| then At(p) else NoMoreData;
          sourcePos := p;
      }
    }

    /** lseek(source, offset, SEEK_HOLE): the end of the file counts as a hole. */
    method SeekHole(offset: nat) returns (r: Seek)
      requires Valid() && offset < |source| && isData[offset]
      modifies this`faults, this`sourcePos
      ensures r.At? || r.Failed?
      ensures r.At? ==> offset < r.offset <= |source| && forall k | offset <= k < r.offset :: isData[k]
      ensures faults == old(faults) + (if r.Failed? then 1 else 0)
    {
      if {
        case true => r, faults := Failed, faults + 1;
        case true =>
          var p := offset + 1;
          while p < |source| && isData[p]
            invariant offset < p <= |source|
            invariant forall k | offset <= k < p :: isData[k]
          {
            p := p + 1;
          }
          r := At(p);
          sourcePos := p;
      }
    }

    /** read(source, limit): any non-empty part of what is left, up to `limit`. */
    method Read(limit: nat) returns (r: Result<Bytes>)
      requires Valid() && limit > 0
      modifies this`sourcePos, this`faults
      ensures r.Ok? ==>
                && |r.value| <= limit
                && (r.value == [] <==> old(sourcePos) >= |source|)
                && old(sourcePos) + |r.value| == sourcePos
                && (r.value != [] ==> sourcePos <= |source| && r.value == source[old(sourcePos)..sourcePos])
      ensures faults == old(faults) + (if r.Err? then 1 else 0)
    {
      if {
        case true => r, faults := Err, faults + 1;
        case true =>
          if sourcePos >= |source| {
            r := Ok([]);
          } else {
            var most := Min(limit, |source| - sourcePos);
            var n: nat :| 1 <= n <= most;
            r := Ok(source[sourcePos..sourcePos + n]);
            sourcePos := sourcePos + n;
          }
      }
    }

    /** write(target, d): any prefix of `d` may be written, even none. */
    method Write(d: Bytes) returns (r: Result<nat>)
      requires d != []
      modifies this`target, this`targetPos, this`faults, this`written
      ensures WrittenWithin(old(written), written, old(targetPos), old(targetPos) + |d|)
      ensures r.Ok? ==> r.value <= |d| && targetPos == old(targetPos) + r.value
                        && target == WriteAt(old(target), old(targetPos), d[..r.value])
      ensures faults == old(faults) + (if r == Ok(0) || r.Err? then 1 else 0)
    {
      if {
        case true => r, faults := Err, faults + 1;
        case true =>
          var n: nat :| n <= |d|;
          target := WriteAt(target, targetPos, d[..n]);
          written := written + Places(targetPos, n);
          targetPos := targetPos + n;
          faults := faults + (if n == 0 then 1 else 0);
          r := Ok(n);
      }
    }

    /**
     One turn of _write_all: a part of what is left, after `done` bytes of `d` have been
     written over `origin` at `at`.
     */
    method WritePart(view: Bytes, ghost origin: Bytes, ghost at: nat, ghost d: Bytes, ghost done: nat) returns (n: nat)
      requires view != [] && done + |view| == |d| && view == d[done..]
      requires targetPos == at + done && PartWritten(origin, at, d, done, target)
      modifies this`target, this`targetPos, this`faults, this`written
      ensures WrittenWithin(old(written), written, at + done, at + |d|)
      ensures n <= |view| && (n > 0 <==> faults == old(faults)) && faults >= old(faults)
      ensures n > 0 ==> targetPos == at + done + n && view[n..] == d[done + n..]
      ensures n > 0 ==> PartWritten(origin, at, d, done + n, target)
    {
      var written := Write(view);
      n := if written.Ok? then written.value else 0;
      if n > 0 {
        WriteStep(origin, at, d, done, view, n, old(target), target);
      }
    }

    /** _write_all: repeat short writes; a write of nothing is an error. */
    method WriteAll(d: Bytes) returns (ok: bool)
      modifies this`target, this`targetPos, this`faults, this`written
      ensures WrittenWithin(old(written), written, old(targetPos), old(targetPos) + |d|)
      ensures ok <==> faults == old(faults)
      ensures faults >= old(faults)
      ensures ok ==>
                && targetPos == old(targetPos) + |d|
                && Prefix(target, targetPos) == Prefix(old(target), old(targetPos)) + d
                && |target| <= (if |old(target)| < targetPos then targetPos else |old(target)|)
    {
      var view := d;
      ghost var done: nat := 0;
      WriteBegins(target, targetPos, d);
      while view != []
        invariant done <= |d| && view == d[done..]
        invariant faults == old(faults)
        invariant targetPos == old(targetPos) + done
        invariant WrittenWithin(old(written), written, old(targetPos), old(targetPos) + |d|)
        invariant PartWritten(old(target), old(targetPos), d, done, target)
        decreases |view|
      {
        ghost var before := written;
        var n := WritePart(view, old(target), old(targetPos), d, done);
        WithinMore(old(written), before, written, old(targetPos), old(targetPos) + done, old(targetPos) + |d|);
        if n == 0 {
          return false;
        }
        view := view[n..];
        done := done + n;
      }
      WriteEnds(old(target), old(targetPos), d, target);
      ok := true;
    }

    /** ftruncate(target, size) */
    method Truncate(size: nat) returns (ok: bool)
      modifies this`target, this`faults
      ensures ok ==> target == Prefix(old(target), size)
      ensures faults == old(faults) + (if ok then 0 else 1)
    {
      if {
        case true => ok, faults := false, faults + 1;
        case true => ok, target := true, Prefix(target, size);
      }
    }

    method Sync() returns (ok: bool)
      modifies this`synced, this`faults
      ensures ok ==> synced
      ensures faults == old(faults) + (if ok then 0 else 1)
    {
      if {
        case true => ok, faults := false, faults + 1;
        case true => ok, synced := true, true;
      }
    }

    /** Copy one data region, whatever the sizes of the reads and writes. */
    method CopyRegion(from: nat, to: nat) returns (ok: bool)
      requires Valid() && from < to <= |source|
      requires |target| <= from && Prefix(target, from) == source[..from]
      modifies this`sourcePos, this`target, this`targetPos, this`faults, this`written
      ensures WrittenWithin(old(written), written, from, to)
      ensures ok <==> faults == old(faults)
      ensures faults >= old(faults)
      ensures ok ==> |target| <= to && Prefix(target, to) == source[..to]
    {
      sourcePos, targetPos := from, from;
      var remaining := to - from;
      while remaining != 0
        invariant 0 <= remaining <= to - from && sourcePos == targetPos == to - remaining
        invariant faults == old(faults) && WrittenWithin(old(written), written, from, to)
        invariant |target| <= targetPos && Prefix(target, targetPos) == source[..targetPos]
        decreases remaining
      {
        var data := Read(Min(CHUNK, remaining));
        if data.Err? {
          return false;
        }
        var written := WriteAll(data.value);
        if !written {
          return false;
        }
        assert source[..sourcePos] == source[..sourcePos - |data.value|] + data.value;
        remaining := remaining - |data.value|;
      }
      ok := true;
    }

    /**
     The SEEK_DATA/SEEK_HOLE loop, which leaves every hole unwritten.  It is given up,
     with `sparse` false, exactly if a seek is not supported.
     */
    method CopySparse() returns (ok: bool, sparse: bool)
      requires Valid() && target == []
      modifies this`sourcePos, this`target, this`targetPos, this`faults, this`refusals, this`written
      ensures WrittenOnData(old(written), written, isData)
      ensures sparse <==> refusals == old(refusals)
      ensures ok <==> faults == old(faults)
      ensures faults >= old(faults)
      ensures ok ==> |target| <= |source|
      ensures ok && sparse ==> Prefix(target, |source|) == source
    {
      var offset := 0;
      sparse := true;
      while offset < |source|
        invariant offset <= |source| && faults == old(faults) && sparse && refusals == old(refusals)
        invariant WrittenOnData(old(written), written, isData)
        invariant |target| <= offset && Prefix(target, offset) == source[..offset]
        decreases |source| - offset
      {
        var data := SeekData(offset);
        match data {
          case NoMoreData =>
            assert Prefix(target, |source|) == source[..offset] + Zeros(|source| - offset);
            return true, true;
          case NotSupported => return true, false;
          case Failed => return false, true;
          case At(from) =>
            var hole := SeekHole(from);
            if hole.Failed? {
              return false, true;
            }
            assert Prefix(target, from) == source[..offset] + Zeros(from - offset);
            assert source[..from] == source[..offset] + source[offset..from];
            assert source[offset..from] == Zeros(from - offset);
            var copied := CopyRegion(from, hole.offset);
            if !copied {
              return false, true;
            }
            offset := hole.offset;
        }
      }
      ok := true;
    }

    /** The plain copy from the start, over whatever a sparse attempt left. */
    method CopyPlain() returns (ok: bool)
      requires Valid() && |target| <= |source|
      modifies this`sourcePos, this`target, this`targetPos, this`faults, this`written
      ensures ok <==> faults == old(faults)
      ensures faults >= old(faults)
      ensures ok ==> Prefix(target, |source|) == source
    {
      sourcePos, targetPos := 0, 0;
      while true
        invariant sourcePos == targetPos <= |source| && |target| <= |source|
        invariant faults == old(faults)
        invariant Prefix(target, targetPos) == source[..targetPos]
        decreases |source| - sourcePos
      {
        var data := Read(CHUNK);
        if data.Err? {
          return false;
        }
        if data.value == [] {
          break;
        }
        var written := WriteAll(data.value);
        if !written {
          return false;
        }
        assert source[..sourcePos] == source[..sourcePos - |data.value|] + data.value;
      }
      ok := true;
    }

    /**
     _copy_disk between the two opens and the closes.  It returns normally
     exactly when no call failed, and then the target holds the source's bytes,
     no more and no fewer, on stable storage.  Where the seeks are supported the
     source's holes are holes of the target.
     */
    method CopyDisk(hasSparseSeek: bool) returns (ok: bool)
      requires Valid() && target == []
      modifies this`sourcePos, this`target, this`targetPos, this`synced, this`faults, this`refusals, this`written
      ensures ok <==> faults == old(faults)
      ensures ok ==> target == source && synced
      ensures hasSparseSeek && refusals == old(refusals) ==> WrittenOnData(old(written), written, isData)
    {
      var sparse := hasSparseSeek;
      if sparse {
        ok, sparse := CopySparse();
        if !ok {
          return;
        }
      }
      if !sparse {
        ok := CopyPlain();
        if !ok {
          return;
        }
      }
      ok := Truncate(|source|);
      if !ok {
        return;
      }
      ok := Sync();
    }
  }

  /** The copy of a given source, as a value: what a caller of _copy_disk gets. */
  method Copied(source: Bytes, isData: seq<bool>, hasSparseSeek: bool) returns (r: Result<Bytes>)
    requires |isData| == |source|
    requires forall k | 0 <= k < |source| && !isData[k] :: source[k] == 0
    ensures r.Ok? ==> r.value == source
  {
    var files := new Descriptors(source, isData);
    var ok := files.CopyDisk(hasSparseSeek);
    r := if ok then Ok(files.target) else Err;
  }
}
