/** The -netdev argument: how a template's network policy is checked and printed. */
module Network {
  import opened Prelude
  import opened Text
  import opened Yaml

  type Entries = map<string, Value>

  function Decimal(n: nat): (s: string)
    ensures s != "" && forall c | c in s :: '0' <= c <= '9'
  {
    (if n < 10 then "" else Decimal(n / 10)) + [('0' as int + n % 10) as char]
  }

  /** The options that the managed code prints. */
  datatype Key = Id | Restrict | Ipv4 | Ipv6 | HostFwd | GuestFwd | TcpPorts | UdpPorts
  {
    function Name(): string {
      match this
      case Id => "id"
      case Restrict => "restrict"
      case Ipv4 => "ipv4"
      case Ipv6 => "ipv6"
      case HostFwd => "hostfwd"
      case GuestFwd => "guestfwd"
      case TcpPorts => "tcp-ports"
      case UdpPorts => "udp-ports"
    }

    function Prefix(): string { Name() + "=" }
  }

  /** _validated_network_mapping */
  function Validated(network: Value): Option<Entries> {
    match network
    case Null => Some(map[])
    case Mapping(entries) => Some(entries)
    case _ => None
  }

  predicate IsStringList(v: Value) {
    v.List? && forall item | item in v.items :: item.Str? && item.s != ""
  }

  function Strings(v: Value): (r: seq<string>)
    requires IsStringList(v)
    ensures |r| == |v.items| && forall i | 0 <= i < |r| :: v.items[i] == Str(r[i])
  {
    seq(|v.items|, i requires 0 <= i < |v.items| => v.items[i].s)
  }

  predicate NoCommas(values: seq<string>) {
    forall value | value in values :: ',' !in value
  }

  predicate PlainList(v: Value) {
    IsStringList(v) && NoCommas(Strings(v))
  }

  /** network.get(name, []) */
  function Entry(m: Entries, name: string): Value {
    if name in m then m[name] else List([])
  }

  /** _network_string_list */
  function StringList(m: Entries, name: string, allowCommas: bool): Option<seq<string>> {
    var v := Entry(m, name);
    if IsStringList(v) && (allowCommas || NoCommas(Strings(v))) then Some(Strings(v)) else None
  }

  /** What the managed code prints for a boolean setting: one value if it is configured, else none. */
  function Switch(m: Entries, k: Key): seq<string> {
    if k.Name() in m && m[k.Name()].Bool? then [if m[k.Name()].b then "on" else "off"] else []
  }

  predicate Switches(m: Entries, keys: seq<Key>) {
    forall k | k in keys && k.Name() in m :: m[k.Name()].Bool?
  }

  function SwitchTexts(m: Entries, keys: seq<Key>): seq<string> {
    if keys == [] then [] else Prefixed(keys[0], Switch(m, keys[0])) + SwitchTexts(m, keys[1..])
  }

  /** Some comma-separated part of `text` starts with a managed option. */
  predicate Overrides(text: string, managed: set<Key>) {
    exists part, k | part in Split(text, ',') && k in managed :: k.Prefix() <= part
  }

  predicate RawAccepted(m: Entries, managed: set<Key>) {
    IsStringList(Entry(m, "options")) && forall text | text in Strings(Entry(m, "options")) :: !Overrides(text, managed)
  }

  // ---- Options and what is printed for them -------------------------------------------------

  /** An element of the source's `options` list: raw text, or a managed option with its value. */
  datatype Opt = Free(text: string) | Keyed(key: Key, value: string)
  {
    function Printed(): string {
      match this
      case Free(text) => text
      case Keyed(key, value) => key.Prefix() + value
    }
  }

  function Render(opts: seq<Opt>): (r: seq<string>)
    ensures |r| == |opts|
  {
    if opts == [] then [] else [opts[0].Printed()] + Render(opts[1..])
  }

  function Managed(key: Key, values: seq<string>): seq<Opt> {
    if values == [] then [] else [Keyed(key, values[0])] + Managed(key, values[1..])
  }

  function Frees(texts: seq<string>): seq<Opt> {
    if texts == [] then [] else [Free(texts[0])] + Frees(texts[1..])
  }

  function Prefixed(key: Key, values: seq<string>): (r: seq<string>)
    ensures |r| == |values| && forall i | 0 <= i < |r| :: r[i] == key.Prefix() + values[i]
  {
    seq(|values|, i requires 0 <= i < |values| => key.Prefix() + values[i])
  }

  /** The values given to option `q` in a list of parts, in order. */
  function PartValues(parts: seq<string>, q: Key): seq<string> {
    if parts == [] then []
    else (if q.Prefix() <= parts[0] then [parts[0][|q.Prefix()|..]] else []) + PartValues(parts[1..], q)
  }

  function OptValues(opts: seq<Opt>, q: Key): seq<string> {
    if opts == [] then []
    else (if opts[0].Keyed? && opts[0].key == q then [opts[0].value] else []) + OptValues(opts[1..], q)
  }

  /** The parts that belong to no managed option. */
  function FreeParts(parts: seq<string>, managed: set<Key>): seq<string> {
    if parts == [] then []
    else (if exists q | q in managed :: q.Prefix() <= parts[0] then [] else [parts[0]]) + FreeParts(parts[1..], managed)
  }

  function OptFrees(opts: seq<Opt>): seq<string> {
    if opts == [] then []
    else (if opts[0].Free? then Split(opts[0].text, ',') else []) + OptFrees(opts[1..])
  }

  predicate GoodOpt(o: Opt, managed: set<Key>) {
    match o
    case Free(text) => !Overrides(text, managed)
    case Keyed(key, value) => key in managed && ',' !in value
  }

  predicate AllGood(opts: seq<Opt>, managed: set<Key>) {
    opts == [] || (GoodOpt(opts[0], managed) && AllGood(opts[1..], managed))
  }

  // ---- How they combine ---------------------------------------------------------------------

  lemma {:induction false} RenderAppend(a: seq<Opt>, b: seq<Opt>)
    ensures Render(a + b) == Render(a) + Render(b)
  {
    if a == [] {
      assert a + b == b;
    } else {
      assert (a + b)[1..] == a[1..] + b;
      RenderAppend(a[1..], b);
    }
  }

  lemma {:induction false} RenderManaged(key: Key, values: seq<string>)
    ensures Render(Managed(key, values)) == Prefixed(key, values)
  {
    if values != [] {
      RenderManaged(key, values[1..]);
      assert Prefixed(key, values) == [key.Prefix() + values[0]] + Prefixed(key, values[1..]);
    }
  }

  lemma {:induction false} PartValuesAppend(a: seq<string>, b: seq<string>, q: Key)
    ensures PartValues(a + b, q) == PartValues(a, q) + PartValues(b, q)
  {
    if a == [] {
      assert a + b == b;
    } else {
      assert (a + b)[1..] == a[1..] + b;
      PartValuesAppend(a[1..], b, q);
    }
  }

  lemma {:induction false} FreePartsAppend(a: seq<string>, b: seq<string>, managed: set<Key>)
    ensures FreeParts(a + b, managed) == FreeParts(a, managed) + FreeParts(b, managed)
  {
    if a == [] {
      assert a + b == b;
    } else {
      assert (a + b)[1..] == a[1..] + b;
      FreePartsAppend(a[1..], b, managed);
    }
  }

  lemma {:induction false} OptValuesAppend(a: seq<Opt>, b: seq<Opt>, q: Key)
    ensures OptValues(a + b, q) == OptValues(a, q) + OptValues(b, q)
  {
    if a == [] {
      assert a + b == b;
    } else {
      assert (a + b)[1..] == a[1..] + b;
      OptValuesAppend(a[1..], b, q);
    }
  }

  lemma {:induction false} OptFreesAppend(a: seq<Opt>, b: seq<Opt>)
    ensures OptFrees(a + b) == OptFrees(a) + OptFrees(b)
  {
    if a == [] {
      assert a + b == b;
    } else {
      assert (a + b)[1..] == a[1..] + b;
      OptFreesAppend(a[1..], b);
    }
  }

  lemma {:induction false} GoodAppend(a: seq<Opt>, b: seq<Opt>, managed: set<Key>)
    requires AllGood(a, managed) && AllGood(b, managed)
    ensures AllGood(a + b, managed)
  {
    if a == [] {
      assert a + b == b;
    } else {
      assert (a + b)[1..] == a[1..] + b;
      GoodAppend(a[1..], b, managed);
    }
  }

  /** What the first option adds. */
  lemma OptFirst(o: Opt, rest: seq<Opt>, q: Key)
    ensures OptValues([o] + rest, q) == (if o.Keyed? && o.key == q then [o.value] else []) + OptValues(rest, q)
    ensures OptFrees([o] + rest) == (if o.Free? then Split(o.text, ',') else []) + OptFrees(rest)
    ensures Render([o] + rest) == [o.Printed()] + Render(rest)
  {
    assert ([o] + rest)[0] == o && ([o] + rest)[1..] == rest;
  }

  lemma {:induction false} ManagedValues(key: Key, values: seq<string>, q: Key)
    ensures OptValues(Managed(key, values), q) == if key == q then values else []
    ensures OptFrees(Managed(key, values)) == []
  {
    if values != [] {
      ManagedValues(key, values[1..], q);
      OptFirst(Keyed(key, values[0]), Managed(key, values[1..]), q);
      assert values == [values[0]] + values[1..];
    }
  }

  lemma {:induction false} GoodManaged(key: Key, values: seq<string>, managed: set<Key>)
    requires key in managed && NoCommas(values)
    ensures AllGood(Managed(key, values), managed)
  {
    if values != [] {
      assert values[0] in values && forall value | value in values[1..] :: value in values;
      GoodManaged(key, values[1..], managed);
    }
  }

  lemma {:induction false} RawValues(texts: seq<string>, q: Key)
    ensures OptValues(Frees(texts), q) == []
    ensures OptFrees(Frees(texts)) == Pieces(texts, ',')
    ensures Render(Frees(texts)) == texts
  {
    if texts != [] {
      RawValues(texts[1..], q);
      OptFirst(Free(texts[0]), Frees(texts[1..]), q);
      assert texts == [texts[0]] + texts[1..];
    }
  }

  lemma {:induction false} GoodRaw(texts: seq<string>, managed: set<Key>)
    requires forall text | text in texts :: !Overrides(text, managed)
    ensures AllGood(Frees(texts), managed)
  {
    if texts != [] {
      assert texts[0] in texts && forall text | text in texts[1..] :: text in texts;
      GoodRaw(texts[1..], managed);
    }
  }

  // ---- Splitting what was printed -----------------------------------------------------------

  function FirstEquals(s: string): (n: nat)
    ensures n <= |s|
  {
    if s == "" || s[0] == '=' then 0 else 1 + FirstEquals(s[1..])
  }

  /** What a part names: its text up to the equals sign, all of it if there is none. */
  function Named(part: string): string {
    part[..FirstEquals(part)]
  }

  lemma {:induction false} NameEnds(name: string, rest: string)
    requires '=' !in name
    ensures FirstEquals(name + "=" + rest) == |name|
  {
    if name != "" {
      assert (name + "=" + rest)[1..] == name[1..] + "=" + rest;
      NameEnds(name[1..], rest);
    }
  }

  lemma {:induction false} WholeName(name: string)
    requires '=' !in name
    ensures Named(name) == name
  {
    if name != "" {
      WholeName(name[1..]);
    }
  }

  lemma PlainKey(k: Key)
    ensures '=' !in k.Name() && ',' !in k.Name() && ',' !in k.Prefix()
  {
  }

  lemma NamesDiffer(j: Key, k: Key)
    requires j.Name() == k.Name()
    ensures j == k
  {
    assert j.Name()[0] == k.Name()[0] && |j.Name()| == |k.Name()|
      && j.Name()[|j.Name()| - 1] == k.Name()[|k.Name()| - 1];
  }

  /** Only parts printed for an option start with it. */
  lemma PrefixNames(k: Key, part: string)
    ensures k.Prefix() <= part ==> Named(part) == k.Name()
  {
    if k.Prefix() <= part {
      PlainKey(k);
      assert part == k.Name() + "=" + part[|k.Prefix()|..];
      NameEnds(k.Name(), part[|k.Prefix()|..]);
    }
  }

  /** A first part with no managed option in front stays. */
  lemma FirstUnmanaged(part: string, rest: seq<string>, q: Key, managed: set<Key>)
    requires q in managed && forall k | k in managed :: !(k.Prefix() <= part)
    ensures PartValues([part] + rest, q) == PartValues(rest, q)
    ensures FreeParts([part] + rest, managed) == [part] + FreeParts(rest, managed)
  {
    assert ([part] + rest)[0] == part && ([part] + rest)[1..] == rest;
    assert [] + PartValues(rest, q) == PartValues(rest, q);
  }

  lemma {:induction false} NoOverride(parts: seq<string>, q: Key, managed: set<Key>)
    requires forall part, k | part in parts && k in managed :: !(k.Prefix() <= part)
    requires q in managed
    ensures PartValues(parts, q) == [] && FreeParts(parts, managed) == parts
  {
    if parts != [] {
      var first, rest := parts[0], parts[1..];
      assert parts == [first] + rest && first in parts && forall part | part in rest :: part in parts;
      NoOverride(rest, q, managed);
      FirstUnmanaged(first, rest, q, managed);
    }
  }

  lemma StartsWithKey(key: Key, value: string, q: Key)
    ensures key.Prefix() <= key.Prefix() + value && (key.Prefix() + value)[|key.Prefix()|..] == value
    ensures q.Prefix() <= key.Prefix() + value <==> q == key
  {
    var part := key.Prefix() + value;
    PrefixNames(key, part);
    PrefixNames(q, part);
    if key.Name() == q.Name() {
      NamesDiffer(key, q);
    }
  }

  lemma OnePart(part: string, q: Key, managed: set<Key>)
    ensures PartValues([part], q) == if q.Prefix() <= part then [part[|q.Prefix()|..]] else []
    ensures FreeParts([part], managed) == if exists k | k in managed :: k.Prefix() <= part then [] else [part]
  {
    assert PartValues([part], q) ==
        (if q.Prefix() <= part then [part[|q.Prefix()|..]] else []) + PartValues([part][1..], q);
    assert FreeParts([part][1..], managed) == [];
  }

  lemma KeyedPart(key: Key, value: string, q: Key, managed: set<Key>)
    requires q in managed && key in managed && ',' !in value
    ensures Split(key.Prefix() + value, ',') == [key.Prefix() + value]
    ensures PartValues([key.Prefix() + value], q) == if key == q then [value] else []
    ensures FreeParts([key.Prefix() + value], managed) == []
  {
    PlainKey(key);
    SplitWhole(key.Prefix() + value, ',');
    StartsWithKey(key, value, q);
    StartsWithKey(key, value, key);
    OnePart(key.Prefix() + value, q, managed);
  }

  lemma OptPieces(o: Opt, q: Key, managed: set<Key>)
    requires q in managed && GoodOpt(o, managed)
    ensures PartValues(Split(o.Printed(), ','), q) == if o.Keyed? && o.key == q then [o.value] else []
    ensures FreeParts(Split(o.Printed(), ','), managed) == if o.Free? then Split(o.text, ',') else []
  {
    match o
    case Free(text) => NoOverride(Split(text, ','), q, managed);
    case Keyed(key, value) => KeyedPart(key, value, q, managed);
  }

  lemma {:induction false} RenderedPieces(opts: seq<Opt>, q: Key, managed: set<Key>)
    requires q in managed && AllGood(opts, managed)
    ensures PartValues(Pieces(Render(opts), ','), q) == OptValues(opts, q)
    ensures FreeParts(Pieces(Render(opts), ','), managed) == OptFrees(opts)
  {
    if opts != [] {
      OptPieces(opts[0], q, managed);
      RenderedPieces(opts[1..], q, managed);
      assert Render(opts)[0] == opts[0].Printed() && Render(opts)[1..] == Render(opts[1..]);
      PartValuesAppend(Split(opts[0].Printed(), ','), Pieces(Render(opts[1..]), ','), q);
      FreePartsAppend(Split(opts[0].Printed(), ','), Pieces(Render(opts[1..]), ','), managed);
    }
  }

  /**
   Splitting the printed argument on commas gives back, for every managed option,
   exactly the values the managed code gave it, and leaves exactly the raw parts.
   */
  lemma PrintedPolicy(opts: seq<Opt>, q: Key, managed: set<Key>)
    requires opts != [] && q in managed && AllGood(opts, managed)
    ensures PartValues(Split(Join(Render(opts), ','), ','), q) == OptValues(opts, q)
    ensures FreeParts(Split(Join(Render(opts), ','), ','), managed) == OptFrees(opts)
  {
    SplitJoined(Render(opts), ',');
    RenderedPieces(opts, q, managed);
  }

  lemma {:induction false} FreePartsMembers(parts: seq<string>, managed: set<Key>, part: string)
    ensures part in FreeParts(parts, managed) <==> part in parts && forall k | k in managed :: !(k.Prefix() <= part)
  {
    if parts != [] {
      FreePartsMembers(parts[1..], managed, part);
    }
  }

  /** Every part that names option `q` gives it a value. */
  predicate AlwaysValued(parts: seq<string>, q: Key) {
    forall part | part in parts && Named(part) == q.Name() :: q.Prefix() <= part
  }

  /** A bare name, without an equals sign, is the only other way to mention an option. */
  lemma BareName(part: string, q: Key)
    ensures Named(part) == q.Name() && !(q.Prefix() <= part) <==> part == q.Name()
  {
    PlainKey(q);
    WholeName(q.Name());
    var n := FirstEquals(part);
    StopsAtEquals(part);
    assert n < |part| && part[..n] == q.Name() ==> part[..n + 1] == q.Prefix();
    assert n == |part| ==> part[..n] == part;
  }

  lemma {:induction false} StopsAtEquals(s: string)
    ensures FirstEquals(s) < |s| ==> s[FirstEquals(s)] == '='
  {
    if s != "" && s[0] != '=' {
      StopsAtEquals(s[1..]);
    }
  }

  lemma PrefixHasEquals(k: Key, s: string)
    ensures k.Prefix() <= s ==> '=' in s
  {
    assert k.Prefix()[|k.Name()|] == '=';
  }

  /**
   A managed option is mentioned without the managed code having set it iff it is among
   the free parts as a bare name.
   */
  lemma ValuedIffNotBare(parts: seq<string>, q: Key, managed: set<Key>)
    ensures AlwaysValued(parts, q) <==> q.Name() !in FreeParts(parts, managed)
  {
    forall part | part in parts
      ensures Named(part) == q.Name() && !(q.Prefix() <= part) <==> part == q.Name()
    {
      BareName(part, q);
    }
    FreePartsMembers(parts, managed, q.Name());
    PlainKey(q);
    forall k | k in managed
      ensures !(k.Prefix() <= q.Name())
    {
      PrefixHasEquals(k, q.Name());
    }
    BareName(q.Name(), q);
  }

  // ---- The two back ends --------------------------------------------------------------------

  const USER_SETTINGS := {"mode", "restrict", "ipv4", "ipv6", "options", "hostfwd", "guestfwd"}
  const USER_SWITCHES := [Restrict, Ipv4, Ipv6]
  const USER_MANAGED := {Id, Restrict, Ipv4, Ipv6, HostFwd, GuestFwd}

  const PASST_SETTINGS := {"mode", "ipv4", "ipv6", "options", "bind", "tcp-ports", "udp-ports"}
  const PASST_SWITCHES := [Ipv4, Ipv6]
  const PASST_MANAGED := {Id, Ipv4, Ipv6, TcpPorts, UdpPorts}

  /** extra_hostfwd or [] */
  function OrEmpty(extra: Value): Value {
    if extra.Truthy() then extra else List([])
  }

  predicate HasInfix(s: string, w: string) {
    exists i | 0 <= i <= |s| :: w <= s[i..]
  }

  /** One round of the loop over the three lists of forwards. */
  predicate ForwardsAccepted(key: Key, v: Value) {
    PlainList(v)
      && (key == GuestFwd ==>
          forall value | value in Strings(v) :: HasInfix(value, "-tcp:") || HasInfix(value, "-cmd:"))
  }

  predicate UserAccepts(m: Entries, extra: Value) {
    m.Keys <= USER_SETTINGS && UserValues(m, extra)
  }

  predicate UserValues(m: Entries, extra: Value) {
    && Switches(m, USER_SWITCHES)
    && RawAccepted(m, USER_MANAGED)
    && ForwardsAccepted(HostFwd, Entry(m, "hostfwd"))
    && ForwardsAccepted(GuestFwd, Entry(m, "guestfwd"))
    && ForwardsAccepted(HostFwd, OrEmpty(extra))
  }

  function SshForward(port: nat): string {
    "tcp:127.0.0.1:" + Decimal(port) + "-:22"
  }

  /** The three lists of forwards are lists of texts. */
  predicate UserLists(m: Entries, extra: Value) {
    IsStringList(Entry(m, "hostfwd")) && IsStringList(Entry(m, "guestfwd")) && IsStringList(OrEmpty(extra))
  }

  /** What the managed code is meant to set in user mode, option by option. */
  function UserPolicy(m: Entries, port: nat, extra: Value, q: Key): seq<string>
    requires UserLists(m, extra)
  {
    match q
    case Id => ["net0"]
    case HostFwd => [SshForward(port)] + Strings(Entry(m, "hostfwd")) + Strings(OrEmpty(extra))
    case GuestFwd => Strings(Entry(m, "guestfwd"))
    case _ => Switch(m, q)
  }

  function Bind(m: Entries): Value {
    if "bind" in m then m["bind"] else Str("127.0.0.1")
  }

  predicate BindAccepted(v: Value) {
    v.Str? && v.s != "" && ',' !in v.s && '/' !in v.s
  }

  predicate PasstAccepts(m: Entries, extra: Value) {
    m.Keys <= PASST_SETTINGS && !extra.Truthy() && PasstValues(m)
  }

  predicate PasstValues(m: Entries) {
    && BindAccepted(Bind(m))
    && PlainList(Entry(m, "tcp-ports"))
    && PlainList(Entry(m, "udp-ports"))
    && Switches(m, PASST_SWITCHES)
    && RawAccepted(m, PASST_MANAGED)
  }

  function PasstForward(m: Entries, port: nat): string
    requires BindAccepted(Bind(m))
  {
    Bind(m).s + "/" + Decimal(port) + ":22"
  }

  function UdpValues(m: Entries): seq<string>
    requires BindAccepted(Bind(m)) && PlainList(Entry(m, "udp-ports"))
  {
    var udp := Strings(Entry(m, "udp-ports"));
    if udp == [] then ["none"] else [Bind(m).s + "/" + udp[0]] + udp[1..]
  }

  /** What the managed code is meant to set in passt mode: UDP is always spelled out, "none" if there is none. */
  function PasstPolicy(m: Entries, port: nat, q: Key): seq<string>
    requires PasstValues(m)
  {
    match q
    case Id => ["net0"]
    case TcpPorts => [PasstForward(m, port)] + Strings(Entry(m, "tcp-ports"))
    case UdpPorts => UdpValues(m)
    case _ => Switch(m, q)
  }

  /**
   Split on commas, `netdev` gives the managed options exactly their policy, and
   otherwise holds the mode and the raw options.
   */
  ghost predicate UserCarries(netdev: string, m: Entries, port: nat, extra: Value)
    requires UserValues(m, extra)
  {
    && (forall q | q in USER_MANAGED :: PartValues(Split(netdev, ','), q) == UserPolicy(m, port, extra, q))
    && FreeParts(Split(netdev, ','), USER_MANAGED) == ["user"] + Pieces(Strings(Entry(m, "options")), ',')
  }

  ghost predicate PasstCarries(netdev: string, m: Entries, port: nat)
    requires PasstValues(m)
  {
    && (forall q | q in PASST_MANAGED :: PartValues(Split(netdev, ','), q) == PasstPolicy(m, port, q))
    && FreeParts(Split(netdev, ','), PASST_MANAGED) == ["passt"] + Pieces(Strings(Entry(m, "options")), ',')
  }

  // ---- Building the list --------------------------------------------------------------------

  /**
   The texts in `options` are the printed form of an option list that gives every
   managed option `q` the values `given[q]`, and whose raw parts are `frees`.
   */
  ghost predicate Builds(options: seq<string>, given: map<Key, seq<string>>, frees: seq<string>, managed: set<Key>) {
    given.Keys == managed && exists opts :: IsListFor(opts, options, given, frees, managed)
  }

  ghost predicate IsListFor(opts: seq<Opt>, options: seq<string>, given: map<Key, seq<string>>, frees: seq<string>,
                            managed: set<Key>) {
    && Render(opts) == options
    && AllGood(opts, managed)
    && OptFrees(opts) == frees
    && forall q | q in given :: OptValues(opts, q) == given[q]
  }

  function NothingGiven(managed: set<Key>): map<Key, seq<string>> {
    map q | q in managed :: []
  }

  lemma FreeAlone(text: string, q: Key, managed: set<Key>)
    requires !Overrides(text, managed)
    ensures OptValues([Free(text)], q) == []
    ensures OptFrees([Free(text)]) == Split(text, ',')
    ensures AllGood([Free(text)], managed)
    ensures Render([Free(text)]) == [text]
  {
    var opts: seq<Opt> := [Free(text)];
    assert opts[1..] == [];
    assert OptValues(opts[1..], q) == [] && OptFrees(opts[1..]) == [] && Render(opts[1..]) == [];
  }

  lemma PlainText(text: string, managed: set<Key>)
    requires '=' !in text && ',' !in text
    ensures Split(text, ',') == [text] && !Overrides(text, managed)
  {
    SplitWhole(text, ',');
    forall k | k in managed
      ensures !(k.Prefix() <= text)
    {
      PrefixHasEquals(k, text);
    }
  }

  lemma BuildsStart(mode: string, managed: set<Key>)
    requires '=' !in mode && ',' !in mode
    ensures Builds([mode], NothingGiven(managed), [mode], managed)
  {
    PlainText(mode, managed);
    FreeAlone(mode, Id, managed);
    forall q | q in managed
      ensures OptValues([Free(mode)], q) == []
    {
      FreeAlone(mode, q, managed);
    }
    assert IsListFor([Free(mode)], [mode], NothingGiven(managed), [mode], managed);
  }

  lemma KeyedValues(opts: seq<Opt>, key: Key, values: seq<string>, q: Key)
    ensures OptValues(opts + Managed(key, values), q) == OptValues(opts, q) + if q == key then values else []
    ensures OptFrees(opts + Managed(key, values)) == OptFrees(opts)
    ensures Render(opts + Managed(key, values)) == Render(opts) + Prefixed(key, values)
  {
    OptValuesAppend(opts, Managed(key, values), q);
    OptFreesAppend(opts, Managed(key, values));
    ManagedValues(key, values, q);
    RenderManaged(key, values);
    RenderAppend(opts, Managed(key, values));
  }

  /** Appending values of one managed option. */
  lemma BuildsKeyed(options: seq<string>, given: map<Key, seq<string>>, frees: seq<string>, managed: set<Key>,
                    key: Key, values: seq<string>)
    requires Builds(options, given, frees, managed) && key in managed && NoCommas(values)
    ensures Builds(options + Prefixed(key, values), given[key := given[key] + values], frees, managed)
  {
    var opts :| IsListFor(opts, options, given, frees, managed);
    var more := opts + Managed(key, values);
    var given' := given[key := given[key] + values];
    forall q | q in given'
      ensures OptValues(more, q) == given'[q]
    {
      KeyedValues(opts, key, values, q);
    }
    KeyedValues(opts, key, values, key);
    GoodManaged(key, values, managed);
    GoodAppend(opts, Managed(key, values), managed);
    assert IsListFor(more, options + Prefixed(key, values), given', frees, managed);
  }

  lemma BuildsFirst(options: seq<string>, given: map<Key, seq<string>>, frees: seq<string>, managed: set<Key>,
                    key: Key, values: seq<string>)
    requires Builds(options, given, frees, managed) && key in managed && NoCommas(values) && given[key] == []
    ensures Builds(options + Prefixed(key, values), given[key := values], frees, managed)
  {
    BuildsKeyed(options, given, frees, managed, key, values);
    assert [] + values == values;
  }

  lemma FreeValues(opts: seq<Opt>, texts: seq<string>, q: Key)
    ensures OptValues(opts + Frees(texts), q) == OptValues(opts, q)
    ensures OptFrees(opts + Frees(texts)) == OptFrees(opts) + Pieces(texts, ',')
    ensures Render(opts + Frees(texts)) == Render(opts) + texts
  {
    OptValuesAppend(opts, Frees(texts), q);
    OptFreesAppend(opts, Frees(texts));
    RawValues(texts, q);
    RenderAppend(opts, Frees(texts));
  }

  /** Appending raw options. */
  lemma BuildsRaw(options: seq<string>, given: map<Key, seq<string>>, frees: seq<string>, managed: set<Key>,
                  texts: seq<string>)
    requires Builds(options, given, frees, managed) && forall text | text in texts :: !Overrides(text, managed)
    ensures Builds(options + texts, given, frees + Pieces(texts, ','), managed)
  {
    var opts :| IsListFor(opts, options, given, frees, managed);
    var more := opts + Frees(texts);
    forall q | q in given
      ensures OptValues(more, q) == given[q]
    {
      FreeValues(opts, texts, q);
    }
    FreeValues(opts, texts, Id);
    GoodRaw(texts, managed);
    GoodAppend(opts, Frees(texts), managed);
    assert IsListFor(more, options + texts, given, frees + Pieces(texts, ','), managed);
  }

  /** What splitting the joined list on commas gives back. */
  lemma BuildsPrints(options: seq<string>, given: map<Key, seq<string>>, frees: seq<string>, managed: set<Key>, q: Key)
    requires Builds(options, given, frees, managed) && options != [] && q in managed
    ensures PartValues(Split(Join(options, ','), ','), q) == given[q]
    ensures FreeParts(Split(Join(options, ','), ','), managed) == frees
  {
    var opts :| IsListFor(opts, options, given, frees, managed);
    PrintedPolicy(opts, q, managed);
  }
}
