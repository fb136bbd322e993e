/**
 The SPANK plugin's table of forwarded environment names: a bounded table,
 printed to and parsed from one environment variable, merged across the
 contexts of a Slurm job, and finally resolved to values by vmocs run.
 */
module ForwardEnv {
  import opened Prelude
  import opened Text

  const MAX_FORWARD_ENV := 16
  const MAX_ENV_NAME := 128
  const MAX_SERIALIZED := MAX_FORWARD_ENV * MAX_ENV_NAME
  const NUL: char := '\0'

  datatype Rc = Success | BadArg | NoSpace

  predicate IsAlpha(c: char) {
    'a' <= c <= 'z' || 'A' <= c <= 'Z'
  }

  predicate IsNameChar(c: char) {
    IsAlpha(c) || '0' <= c <= '9' || c == '_'
  }

  /** valid_env_name, and equally the pattern that vmocs run applies. */
  predicate ValidName(name: string) {
    name != "" && (IsAlpha(name[0]) || name[0] == '_') && forall c | c in name :: IsNameChar(c)
  }

  /** A table the plugin can hold. */
  predicate WellFormed(t: seq<string>) {
    && |t| <= MAX_FORWARD_ENV
    && Distinct(t)
    && forall n | n in t :: ValidName(n) && |n| < MAX_ENV_NAME
  }

  /** add_forward_env_name */
  function Add(t: seq<string>, name: string): (seq<string>, Rc) {
    if !ValidName(name) then (t, BadArg)
    else if name in t then (t, Success)
    else if |t| >= MAX_FORWARD_ENV || |name| >= MAX_ENV_NAME then (t, BadArg)
    else (t + [name], Success)
  }

  /** Adding in order, stopping at the first refusal. */
  function AddAll(t: seq<string>, names: seq<string>): (seq<string>, Rc)
    decreases |names|
  {
    if names == [] then (t, Success)
    else
      var (t', rc) := Add(t, names[0]);
      if rc != Success then (t', rc) else AddAll(t', names[1..])
  }

  /** recover_forward_env_names */
  function Recover(t: seq<string>, serialized: string, replace: bool): (seq<string>, Rc) {
    if serialized == "" || |serialized| >= MAX_SERIALIZED then (t, BadArg)
    else
      var (decoded, rc) := AddAll([], Split(serialized, ','));
      if rc != Success then ([], rc)
      else
        var (merged, rc') := AddAll(decoded, if replace then [] else t);
        if rc' != Success then ([], rc') else (merged, Success)
  }

  /** A NUL-terminated string that starts at `at`. */
  predicate HoldsString(buf: seq<char>, at: nat, s: string) {
    && at + |s| < |buf| && buf[at + |s|] == NUL && NUL !in s
    && forall k | 0 <= k < |s| :: buf[at + k] == s[k]
  }

  class NameTable {
    const slots: array<string>
    var count: nat

    predicate Valid()
      reads this, slots
    {
      slots.Length == MAX_FORWARD_ENV && count <= MAX_FORWARD_ENV && WellFormed(slots[..count])
    }

    function Names(): seq<string>
      reads this, slots
      requires Valid()
    {
      slots[..count]
    }

    constructor ()
      ensures Valid() && Names() == [] && fresh(slots)
    {
      slots := new string[MAX_FORWARD_ENV](_ => "");
      count := 0;
    }

    method Clear()
      requires Valid()
      modifies this`count, slots
      ensures Valid() && Names() == []
    {
      for i := 0 to slots.Length
        modifies slots
      {
        slots[i] := "";
      }
      count := 0;
    }

    method AddName(name: string) returns (rc: Rc)
      requires Valid()
      modifies this`count, slots
      ensures Valid() && (Names(), rc) == Add(old(Names()), name)
    {
      if !ValidName(name) {
        return BadArg;
      }
      for i := 0 to count
        invariant name !in slots[..i]
      {
        if slots[i] == name {
          return Success;
        }
      }
      if count >= MAX_FORWARD_ENV || |name| >= MAX_ENV_NAME {
        return BadArg;
      }
      slots[count] := name;
      count := count + 1;
      assert slots[..count] == old(slots[..count]) + [name];
      rc := Success;
    }

    /** Print the names, separated by commas, into a caller's buffer; it fails exactly when they do not fit. */
    method Serialize(buf: array<char>) returns (rc: Rc)
      requires Valid() && buf.Length > 0
      modifies buf
      ensures Valid() && Names() == old(Names())
      ensures rc == Success <==> |Join(Names(), ',')| < buf.Length
      ensures rc == Success ==> HoldsString(buf[..], 0, Join(Names(), ','))
    {
      buf[0] := NUL;
      var used: nat := 0;
      ghost var names := Names();
      for i := 0 to count
        invariant slots[..count] == names
        invariant used < buf.Length && buf[..used] == Join(names[..i], ',') && buf[used] == NUL
      {
        var name := slots[i];
        assert name == names[i];
        JoinGrows(names, i);
        if |name| + (if i > 0 then 1 else 0) >= buf.Length - used {
          JoinPrefix(names, i + 1);
          return NoSpace;
        }
        used := AppendName(buf, used, name, i > 0);
      }
      assert names[..count] == names;
      NamesHaveNoNul(names);
      rc := Success;
    }

    /** The list's names, in order, into a cleared table; `copy` is cut up at its commas. */
    method DecodeNames(copy: array<char>, ghost serialized: string) returns (rc: Rc)
      requires Valid() && Names() == [] && HoldsString(copy[..], 0, serialized)
      modifies this`count, slots, copy
      ensures Valid() && (Names(), rc) == AddAll([], Split(serialized, ','))
    {
      ghost var goal := AddAll([], Split(serialized, ','));
      ghost var rest := serialized;
      var cursor := Some(0);
      rc := Success;
      while cursor.Some?
        invariant Valid() && rc == Success
        invariant cursor.Some? ==> HoldsString(copy[..], cursor.value, rest)
                                   && AddAll(Names(), Split(rest, ',')) == goal
        invariant cursor.None? ==> (Names(), Success) == goal
        decreases cursor.Some?, |rest|
      {
        ghost var now := Names();
        var name, next := NextName(copy, cursor.value, rest);
        if next.Some? {
          assert ([name] + Split(rest[|name| + 1..], ','))[1..] == Split(rest[|name| + 1..], ',');
        }
        rc := AddName(name);
        if rc != Success {
          return;
        }
        if next.Some? {
          rest := rest[|name| + 1..];
        }
        cursor := next;
      }
    }

    method MergeNames(existing: seq<string>) returns (rc: Rc)
      requires Valid()
      modifies this`count, slots
      ensures Valid() && (Names(), rc) == AddAll(old(Names()), existing)
    {
      ghost var goal := AddAll(Names(), existing);
      for i := 0 to |existing|
        invariant Valid() && AddAll(Names(), existing[i..]) == goal
      {
        assert existing[i..][1..] == existing[i + 1..];
        rc := AddName(existing[i]);
        if rc != Success {
          return;
        }
      }
      rc := Success;
    }

    /** Parse a list that Serialize printed, in place in a private copy. */
    method RecoverNames(serialized: string, replace: bool) returns (rc: Rc)
      requires Valid() && NUL !in serialized
      modifies this`count, slots
      ensures Valid() && (Names(), rc) == Recover(old(Names()), serialized, replace)
    {
      if serialized == "" || |serialized| >= MAX_SERIALIZED {
        return BadArg;
      }
      var existing := if replace then [] else slots[..count];
      Clear();
      var copy := new char[MAX_SERIALIZED];
      Copy(copy, 0, serialized);
      copy[|serialized|] := NUL;
      rc := DecodeNames(copy, serialized);
      if rc == Success {
        rc := MergeNames(existing);
      }
      if rc != Success {
        Clear();
      }
    }
  }

  method AppendName(buf: array<char>, used: nat, name: string, separate: bool) returns (used': nat)
    requires used + |name| + (if separate then 1 else 0) < buf.Length
    modifies buf
    ensures used' == used + |name| + (if separate then 1 else 0)
    ensures buf[..used'] == old(buf[..used]) + (if separate then "," else "") + name && buf[used'] == NUL
  {
    used' := used;
    if separate {
      buf[used'] := ',';
      used' := used' + 1;
    }
    Copy(buf, used', name);
    used' := used' + |name|;
    buf[used'] := NUL;
  }

  /** Cut the string at `at` at its first comma, and say where the rest starts. */
  method NextName(copy: array<char>, at: nat, ghost rest: string) returns (name: string, next: Option<nat>)
    requires HoldsString(copy[..], at, rest)
    modifies copy
    ensures |name| <= |rest| && name == rest[..|name|]
    ensures next.None? ==> Split(rest, ',') == [name]
    ensures next.Some? ==>
              && |name| < |rest|
              && Split(rest, ',') == [name] + Split(rest[|name| + 1..], ',')
              && HoldsString(copy[..], next.value, rest[|name| + 1..])
  {
    ghost var text := copy[..];
    var comma := StrChr(copy, at, ',', rest);
    if comma.None? {
      var end := StrEnd(copy, at, rest);
      HeldText(text, at, rest, |rest|);
      name := copy[at..end];
      next := None;
      FirstPart(rest, |rest|);
    } else {
      var end := comma.value;
      HeldText(text, at, rest, end - at);
      name := copy[at..end];
      next := Some(end + 1);
      FirstPart(rest, end - at);
      HoldsParts(text, at, rest, end - at);
      copy[end] := NUL;
      assert copy[..] == text[end := NUL];
    }
  }

  lemma HeldText(buf: seq<char>, at: nat, s: string, k: nat)
    requires HoldsString(buf, at, s) && k <= |s|
    ensures buf[at..at + k] == s[..k] && |s[..k]| == k && s[..|s|] == s
  {
    forall j | 0 <= j < k
      ensures buf[at..at + k][j] == s[j]
    {
      assert buf[at + j] == s[j];
    }
  }

  lemma HoldsParts(buf: seq<char>, at: nat, s: string, k: nat)
    requires HoldsString(buf, at, s) && k < |s|
    ensures HoldsString(buf[at + k := NUL], at + k + 1, s[k + 1..])
  {
    var buf', s' := buf[at + k := NUL], s[k + 1..];
    forall j | 0 <= j < |s'|
      ensures buf'[at + k + 1 + j] == s'[j]
    {
      assert buf[at + (k + 1 + j)] == s[k + 1 + j];
    }
  }

  /** memcpy */
  method Copy(buf: array<char>, at: nat, s: string)
    requires at + |s| <= buf.Length
    modifies buf
    ensures buf[..at + |s|] == old(buf[..at]) + s
  {
    for i := 0 to |s|
      invariant buf[..at + i] == old(buf[..at]) + s[..i]
    {
      buf[at + i] := s[i];
    }
  }

  /** The place of the terminator of the string at `at`, which is `s`. */
  method StrEnd(buf: array<char>, at: nat, ghost s: string) returns (end: nat)
    requires HoldsString(buf[..], at, s)
    ensures end == at + |s|
  {
    end := at;
    while buf[end] != NUL
      invariant at <= end <= at + |s|
      invariant end < at + |s| ==> buf[..][at + (end - at)] == s[end - at]
      decreases at + |s| - end
    {
      end := end + 1;
    }
  }

  /** strchr: the first `c` of the string at `at`, which is `s`. */
  method StrChr(buf: array<char>, at: nat, c: char, ghost s: string) returns (r: Option<nat>)
    requires HoldsString(buf[..], at, s) && c != NUL
    ensures r.None? ==> c !in s
    ensures r.Some? ==> at <= r.value < at + |s| && s[r.value - at] == c && c !in s[..r.value - at]
  {
    var k := at;
    while buf[k] != NUL
      invariant at <= k <= at + |s| && c !in s[..k - at]
      invariant k < at + |s| ==> buf[..][at + (k - at)] == s[k - at]
      decreases at + |s| - k
    {
      if buf[k] == c {
        return Some(k);
      }
      k := k + 1;
    }
    assert s[..k - at] == s;
    r := None;
  }

  // ---- Printing and parsing ---------------------------------------------------------------

  lemma JoinOne(t: seq<string>)
    requires t != []
    ensures Join(t[..1], ',') == t[0]
  {
  }

  lemma JoinFront(t: seq<string>, i: nat)
    requires 1 < i <= |t|
    ensures Join(t[..i], ',') == t[0] + "," + Join(t[1..][..i - 1], ',')
  {
    assert t[..i][1..] == t[1..][..i - 1];
  }

  lemma {:induction false} JoinGrows(t: seq<string>, i: nat)
    requires i < |t|
    ensures Join(t[..i + 1], ',') == if i == 0 then t[0] else Join(t[..i], ',') + "," + t[i]
    decreases |t|
  {
    if i == 0 {
      JoinOne(t);
    } else {
      JoinGrows(t[1..], i - 1);
      JoinFront(t, i + 1);
      if i == 1 {
        JoinOne(t);
        JoinOne(t[1..]);
      } else {
        JoinFront(t, i);
        assert t[0] + "," + (Join(t[1..][..i - 1], ',') + "," + t[i]) ==
          t[0] + "," + Join(t[1..][..i - 1], ',') + "," + t[i];
      }
    }
  }

  lemma {:induction false} JoinPrefix(t: seq<string>, i: nat)
    requires i <= |t|
    ensures |Join(t[..i], ',')| <= |Join(t, ',')|
    decreases |t| - i
  {
    if i == |t| {
      assert t[..i] == t;
    } else {
      JoinGrows(t, i);
      JoinPrefix(t, i + 1);
    }
  }

  lemma {:induction false} JoinChars(t: seq<string>, c: char)
    requires c != ',' && forall n | n in t :: c !in n
    ensures c !in Join(t, ',')
    decreases |t|
  {
    if |t| > 1 {
      assert t[0] in t;
      assert forall n | n in t[1..] :: n in t;
      JoinChars(t[1..], c);
    } else if |t| == 1 {
      assert t[0] in t;
    }
  }

  lemma NamesHaveNoNul(t: seq<string>)
    requires WellFormed(t)
    ensures NUL !in Join(t, ',')
  {
    forall n | n in t
      ensures NUL !in n
    {
      assert !IsNameChar(NUL);
    }
    JoinChars(t, NUL);
  }

  /** The part of a list up to its first comma. */
  lemma {:induction false} FirstPart(s: string, k: nat)
    requires k <= |s| && ',' !in s[..k] && (k < |s| ==> s[k] == ',')
    ensures Split(s, ',') == if k == |s| then [s] else [s[..k]] + Split(s[k + 1..], ',')
  {
    if k > 0 {
      assert s[1..][..k - 1] == s[..k][1..];
      assert s[..k][0] == s[0];
      FirstPart(s[1..], k - 1);
      assert [s[0]] + s[1..][..k - 1] == s[..k];
      if k < |s| {
        assert s[1..][k..] == s[k + 1..];
      } else {
        assert [s[0]] + s[1..] == s;
      }
    } else if |s| > 0 {
      assert s[..0] == "" && s[0 + 1..] == s[1..];
    }
  }

  lemma SplitJoin(t: seq<string>)
    requires t != [] && forall n | n in t :: ',' !in n
    ensures Split(Join(t, ','), ',') == t
  {
    SplitJoined(t, ',');
    WholePieces(t);
  }

  lemma {:induction false} WholePieces(t: seq<string>)
    requires forall n | n in t :: ',' !in n
    ensures Pieces(t, ',') == t
  {
    if t != [] {
      assert t[0] in t && forall n | n in t[1..] :: n in t;
      SplitWhole(t[0], ',');
      WholePieces(t[1..]);
      assert [t[0]] + t[1..] == t;
    }
  }

  /** Sixteen names of 127 characters and fifteen commas still leave room for the terminator. */
  lemma {:induction false} JoinFits(t: seq<string>)
    requires forall n | n in t :: |n| < MAX_ENV_NAME
    ensures |Join(t, ',')| <= if t == [] then 0 else |t| * MAX_ENV_NAME - 1
    decreases |t|
  {
    if t != [] {
      assert t[0] in t;
      assert forall n | n in t[1..] :: n in t;
      JoinFits(t[1..]);
    }
  }
}
