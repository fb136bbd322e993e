/** Small datatypes and text functions that several components share. */
module Prelude {

  datatype Option<+T> = None | Some(value: T)

  datatype Result<+T> = Ok(value: T) | Err

  newtype byte = x: int | 0 <= x < 256

  type Bytes = seq<byte>

  /** No element comes twice. */
  predicate Distinct<T(==)>(xs: seq<T>) {
    forall i, j | 0 <= i < j < |xs| :: xs[i] != xs[j]
  }
}

/** The parts of Python's text handling the source relies on. */
module Text {

  /** The characters that str.strip() removes. */
  predicate IsSpace(c: char) {
    || '\t' <= c <= '\r'
    || '\U{1c}' <= c <= ' '
    || c in {'\U{85}', '\U{a0}', '\U{1680}', '\U{2028}', '\U{2029}', '\U{202f}', '\U{205f}', '\U{3000}'}
    || '\U{2000}' <= c <= '\U{200a}'
  }

  function StripLeft(s: string): string {
    if s != "" && IsSpace(s[0]) then StripLeft(s[1..]) else s
  }

  function StripRight(s: string): string {
    if s != "" && IsSpace(s[|s| - 1]) then StripRight(s[..|s| - 1]) else s
  }

  function Strip(s: string): string {
    StripLeft(StripRight(s))
  }

  lemma {:induction false} StripRightIsPrefix(s: string)
    ensures StripRight(s) <= s
  {
    if s != "" && IsSpace(s[|s| - 1]) {
      StripRightIsPrefix(s[..|s| - 1]);
    }
  }

  lemma {:induction false} StripLeftKeepsChars(s: string, c: char)
    ensures c in StripLeft(s) ==> c in s
  {
    if s != "" && IsSpace(s[0]) {
      StripLeftKeepsChars(s[1..], c);
    }
  }

  lemma StripKeepsChars(s: string, c: char)
    ensures c in Strip(s) ==> c in s
  {
    StripRightIsPrefix(s);
    StripLeftKeepsChars(StripRight(s), c);
  }

  /** Reading a file in text mode: "\r\n" and "\r" both become "\n". */
  function Universal(s: string): string {
    if s == "" then ""
    else if s[0] == '\r' then
      "\n" + Universal(if |s| > 1 && s[1] == '\n' then s[2..] else s[1..])
    else [s[0]] + Universal(s[1..])
  }

  lemma {:induction false} UniversalHasNoReturn(s: string)
    ensures '\r' !in Universal(s)
  {
    if s != "" {
      UniversalHasNoReturn(s[1..]);
      if |s| > 1 {
        UniversalHasNoReturn(s[2..]);
      }
    }
  }

  lemma {:induction false} UniversalIsIdentity(s: string)
    requires '\r' !in s
    ensures Universal(s) == s
  {
    if s != "" {
      UniversalIsIdentity(s[1..]);
      assert [s[0]] + s[1..] == s;
    }
  }

  function Split(s: string, sep: char): (parts: seq<string>)
    ensures parts != []
    ensures forall part | part in parts :: sep !in part
  {
    if s == "" then [""]
    else
      var rest := Split(s[1..], sep);
      if s[0] == sep then [""] + rest else [[s[0]] + rest[0]] + rest[1..]
  }

  function Join(parts: seq<string>, sep: char): string {
    if parts == [] then ""
    else if |parts| == 1 then parts[0]
    else parts[0] + [sep] + Join(parts[1..], sep)
  }

  lemma {:induction false} SplitAppend(a: string, b: string, sep: char)
    ensures Split(a + [sep] + b, sep) == Split(a, sep) + Split(b, sep)
  {
    if a == "" {
      assert (a + [sep] + b)[1..] == b;
    } else {
      assert (a + [sep] + b)[1..] == a[1..] + [sep] + b;
      SplitAppend(a[1..], b, sep);
    }
  }

  lemma {:induction false} SplitWhole(s: string, sep: char)
    requires sep !in s
    ensures Split(s, sep) == [s]
  {
    if s != "" {
      SplitWhole(s[1..], sep);
      assert [s[0]] + s[1..] == s;
    }
  }

  /** All the pieces of all the texts. */
  function Pieces(texts: seq<string>, sep: char): seq<string> {
    if texts == [] then [] else Split(texts[0], sep) + Pieces(texts[1..], sep)
  }

  lemma {:induction false} SplitJoined(texts: seq<string>, sep: char)
    requires texts != []
    ensures Split(Join(texts, sep), sep) == Pieces(texts, sep)
  {
    if |texts| == 1 {
      assert Pieces(texts[1..], sep) == [];
    } else {
      SplitAppend(texts[0], Join(texts[1..], sep), sep);
      SplitJoined(texts[1..], sep);
    }
  }
}

/** What a YAML document can hold. */
module Yaml {

  datatype Value =
    | Null
    | Str(s: string)
    | Bool(b: bool)
    | Number(n: int)
    | List(items: seq<Value>)
    | Mapping(entries: map<string, Value>)
  {
    /** Python's bool(value). */
    predicate Truthy() {
      match this
      case Null => false
      case Str(s) => s != ""
      case Bool(b) => b
      case Number(n) => n != 0
      case List(items) => items != []
      case Mapping(entries) => entries != map[]
    }
  }
}
