/** The two back ends of the -netdev argument, and what their check on raw options lets through. */
module NetworkBackends {
  import opened Prelude
  import opened Text
  import opened Yaml
  import opened Network

  // ---- The builders -------------------------------------------------------------------------

  lemma SwitchNext(m: Entries, keys: seq<Key>, i: nat, options: seq<string>)
    requires i < |keys|
    ensures keys[..i + 1] == keys[..i] + [keys[i]]
    ensures options + SwitchTexts(m, keys[i..]) ==
              (options + Prefixed(keys[i], Switch(m, keys[i]))) + SwitchTexts(m, keys[i + 1..])
  {
    assert keys[i..][1..] == keys[i + 1..];
  }

  /** One round of _network_bool_options: what it appends. */
  method OneSwitch(m: Entries, k: Key) returns (r: Option<seq<string>>)
    ensures r.Some? <==> k.Name() in m ==> m[k.Name()].Bool?
    ensures r.Some? ==> r.value == Prefixed(k, Switch(m, k))
  {
    if k.Name() !in m {
      return Some([]);
    }
    if !m[k.Name()].Bool? {
      return None;
    }
    return Some([k.Name() + "=" + if m[k.Name()].b then "on" else "off"]);
  }

  /** _network_bool_options */
  method BoolOptions(m: Entries, keys: seq<Key>) returns (r: Option<seq<string>>)
    ensures r.Some? <==> Switches(m, keys)
    ensures r.Some? ==> r.value == SwitchTexts(m, keys)
  {
    var options: seq<string> := [];
    for i := 0 to |keys|
      invariant Switches(m, keys[..i])
      invariant options + SwitchTexts(m, keys[i..]) == SwitchTexts(m, keys)
    {
      SwitchNext(m, keys, i, options);
      var text := OneSwitch(m, keys[i]);
      if text.None? {
        return None;
      }
      options := options + text.value;
    }
    assert keys[..|keys|] == keys;
    return Some(options);
  }

  /** _raw_network_options */
  method RawOptions(m: Entries, managed: set<Key>) returns (r: Option<seq<string>>)
    ensures r.Some? <==> RawAccepted(m, managed)
    ensures r.Some? ==> r.value == Strings(Entry(m, "options"))
  {
    var values := StringList(m, "options", true);
    if values.None? {
      return None;
    }
    for i := 0 to |values.value|
      invariant forall text | text in values.value[..i] :: !Overrides(text, managed)
    {
      if Overrides(values.value[i], managed) {
        return None;
      }
    }
    return values;
  }

  /** options.extend(f'{key}={value}' for value in values) */
  method Extend(options: seq<string>, key: Key, values: seq<string>) returns (r: seq<string>)
    ensures r == options + Prefixed(key, values)
  {
    r := options;
    for i := 0 to |values|
      invariant r == options + Prefixed(key, values)[..i]
    {
      r := r + [key.Name() + "=" + values[i]];
    }
    assert Prefixed(key, values)[..|values|] == Prefixed(key, values);
  }

  lemma PlainSwitch(m: Entries, k: Key)
    ensures NoCommas(Switch(m, k))
  {
  }

  lemma PlainForward(port: nat)
    ensures ',' !in Decimal(port) && ',' !in SshForward(port)
  {
    assert ',' !in "tcp:127.0.0.1:" && ',' !in "-:22";
  }

  // ---- What both back ends begin with ---------------------------------------------------------

  function Switched(given: map<Key, seq<string>>, m: Entries, keys: seq<Key>): (r: map<Key, seq<string>>)
    ensures r.Keys == given.Keys + set k | k in keys
    decreases |keys|
  {
    if keys == [] then given else Switched(given[keys[0] := Switch(m, keys[0])], m, keys[1..])
  }

  lemma {:induction false} SwitchedValues(given: map<Key, seq<string>>, m: Entries, keys: seq<Key>, q: Key)
    requires q in given
    ensures Switched(given, m, keys)[q] == if q in keys then Switch(m, q) else given[q]
    decreases |keys|
  {
    if keys != [] {
      SwitchedValues(given[keys[0] := Switch(m, keys[0])], m, keys[1..], q);
    }
  }

  lemma TailKeys(keys: seq<Key>)
    requires keys != [] && Prelude.Distinct(keys)
    ensures Prelude.Distinct(keys[1..]) && forall j | j in keys[1..] :: j in keys && j != keys[0]
  {
  }

  lemma Regroup(a: seq<string>, b: seq<string>, c: seq<string>)
    ensures a + (b + c) == (a + b) + c && a + [] == a
  {
  }

  /** All of `keys` can still be given values. */
  ghost predicate Open(given: map<Key, seq<string>>, keys: seq<Key>, managed: set<Key>) {
    given.Keys == managed && forall k | k in keys :: k in managed && given[k] == []
  }

  lemma {:induction false} BuildsSwitches(options: seq<string>, given: map<Key, seq<string>>, frees: seq<string>,
                                          managed: set<Key>, m: Entries, keys: seq<Key>)
    requires Builds(options, given, frees, managed) && Prelude.Distinct(keys) && Open(given, keys, managed)
    ensures Builds(options + SwitchTexts(m, keys), Switched(given, m, keys), frees, managed)
    decreases |keys|
  {
    if keys == [] {
      Regroup(options, [], []);
    } else {
      var k, texts := keys[0], Prefixed(keys[0], Switch(m, keys[0]));
      assert k in keys;
      PlainSwitch(m, k);
      BuildsFirst(options, given, frees, managed, k, Switch(m, k));
      TailKeys(keys);
      BuildsSwitches(options + texts, given[k := Switch(m, k)], frees, managed, m, keys[1..]);
      Regroup(options, texts, SwitchTexts(m, keys[1..]));
    }
  }

  lemma IdText()
    ensures Prefixed(Id, ["net0"]) == ["id=net0"] && NoCommas(["net0"])
  {
    assert Id.Prefix() + "net0" == "id=net0";
  }

  lemma HeadBuilds(mode: string, managed: set<Key>)
    requires '=' !in mode && ',' !in mode && Id in managed
    ensures Builds([mode, "id=net0"], NothingGiven(managed)[Id := ["net0"]], [mode], managed)
  {
    BuildsStart(mode, managed);
    IdText();
    BuildsFirst([mode], NothingGiven(managed), [mode], managed, Id, ["net0"]);
    assert [mode] + ["id=net0"] == [mode, "id=net0"];
  }

  /** What is given before the forwards. */
  function Common(m: Entries, switches: seq<Key>, managed: set<Key>): map<Key, seq<string>> {
    Switched(NothingGiven(managed)[Id := ["net0"]], m, switches)
  }

  lemma CommonValues(m: Entries, switches: seq<Key>, managed: set<Key>, q: Key)
    requires q in managed && Id !in switches
    ensures q in Common(m, switches, managed)
    ensures Common(m, switches, managed)[q] == if q == Id then ["net0"] else if q in switches then Switch(m, q) else []
  {
    SwitchedValues(NothingGiven(managed)[Id := ["net0"]], m, switches, q);
  }

  /** The lists of the two back ends before their forwards. */
  lemma CommonBuilds(m: Entries, mode: string, switches: seq<Key>, managed: set<Key>)
    requires '=' !in mode && ',' !in mode && Id in managed && RawAccepted(m, managed)
    requires Prelude.Distinct(switches) && Id !in switches && forall k | k in switches :: k in managed
    ensures Builds([mode, "id=net0"] + SwitchTexts(m, switches) + Strings(Entry(m, "options")),
                   Common(m, switches, managed),
                   [mode] + Pieces(Strings(Entry(m, "options")), ','), managed)
  {
    HeadBuilds(mode, managed);
    BuildsSwitches([mode, "id=net0"], NothingGiven(managed)[Id := ["net0"]], [mode], managed, m, switches);
    var options := [mode, "id=net0"] + SwitchTexts(m, switches);
    BuildsRaw(options, Common(m, switches, managed), [mode], managed, Strings(Entry(m, "options")));
  }

  lemma OneText(key: Key, value: string, text: string)
    requires text == key.Prefix() + value
    ensures Prefixed(key, [value]) == [text]
  {
  }

  // ---- User mode ----------------------------------------------------------------------------

  type Forwards = (Key, Value)

  function UserForwards(m: Entries, extra: Value): seq<Forwards> {
    [(HostFwd, Entry(m, "hostfwd")), (GuestFwd, Entry(m, "guestfwd")), (HostFwd, OrEmpty(extra))]
  }

  /** `given` with the values of some lists of forwards added. */
  function Gives(given: map<Key, seq<string>>, lists: seq<Forwards>): (r: map<Key, seq<string>>)
    requires forall list | list in lists :: IsStringList(list.1) && list.0 in given
    ensures r.Keys == given.Keys
  {
    if lists == [] then given
    else
      var last := lists[|lists| - 1];
      var before := Gives(given, lists[..|lists| - 1]);
      before[last.0 := before[last.0] + Strings(last.1)]
  }

  lemma GivesSnoc(given: map<Key, seq<string>>, lists: seq<Forwards>, last: Forwards)
    requires forall list | list in lists :: IsStringList(list.1) && list.0 in given
    requires IsStringList(last.1) && last.0 in given
    ensures Gives(given, lists + [last]) == Gives(given, lists)[last.0 := Gives(given, lists)[last.0] + Strings(last.1)]
  {
    assert (lists + [last])[..|lists|] == lists;
  }

  lemma GivesThree(given: map<Key, seq<string>>, a: Forwards, b: Forwards, c: Forwards)
    requires IsStringList(a.1) && IsStringList(b.1) && IsStringList(c.1) && a.0 in given && b.0 in given
             && c.0 == a.0 != b.0
    ensures Gives(given, [a, b, c]) ==
      given[a.0 := given[a.0] + Strings(a.1) + Strings(c.1)][b.0 := given[b.0] + Strings(b.1)]
  {
    GivesSnoc(given, [], a);
    GivesSnoc(given, [a], b);
    GivesSnoc(given, [a, b], c);
    assert [] + [a] == [a] && [a] + [b] == [a, b] && [a, b] + [c] == [a, b, c];
  }

  function UserGiven(m: Entries, ssh: string): map<Key, seq<string>> {
    Common(m, USER_SWITCHES, USER_MANAGED)[HostFwd := [ssh]]
  }

  function Argv(netdev: string): seq<string> {
    ["-netdev", netdev, "-device", "virtio-net-pci,netdev=net0"]
  }

  lemma UserSwitches(q: Key)
    ensures Prelude.Distinct(USER_SWITCHES) && Id !in USER_SWITCHES
    ensures forall k | k in USER_SWITCHES :: k in USER_MANAGED
    ensures q in USER_SWITCHES <==> q.Restrict? || q.Ipv4? || q.Ipv6?
  {
    var s := USER_SWITCHES;
    assert s[0] == Restrict && s[1] == Ipv4 && s[2] == Ipv6;
  }

  /** The parts of a user network's list that are not managed. */
  function UserFrees(m: Entries): seq<string>
    requires IsStringList(Entry(m, "options"))
  {
    ["user"] + Pieces(Strings(Entry(m, "options")), ',')
  }

  lemma UserSsh(m: Entries, ssh: string, options: seq<string>)
    requires RawAccepted(m, USER_MANAGED) && ',' !in ssh
    requires options == ["user", "id=net0"] + SwitchTexts(m, USER_SWITCHES) + Strings(Entry(m, "options"))
    ensures Builds(options + ["hostfwd=" + ssh], UserGiven(m, ssh), UserFrees(m), USER_MANAGED)
  {
    UserSwitches(HostFwd);
    CommonBuilds(m, "user", USER_SWITCHES, USER_MANAGED);
    CommonValues(m, USER_SWITCHES, USER_MANAGED, HostFwd);
    OneForward(options, Common(m, USER_SWITCHES, USER_MANAGED), UserFrees(m), ssh);
  }

  lemma OneForward(options: seq<string>, given: map<Key, seq<string>>, frees: seq<string>, ssh: string)
    requires Builds(options, given, frees, USER_MANAGED) && given[HostFwd] == [] && ',' !in ssh
    ensures Builds(options + ["hostfwd=" + ssh], given[HostFwd := [ssh]], frees, USER_MANAGED)
  {
    BuildsFirst(options, given, frees, USER_MANAGED, HostFwd, [ssh]);
    OneText(HostFwd, ssh, "hostfwd=" + ssh);
  }

  /** What the user network's list was built from. */
  function UserMade(m: Entries, port: nat, extra: Value): map<Key, seq<string>>
    requires UserLists(m, extra)
  {
    Gives(UserGiven(m, SshForward(port)), UserForwards(m, extra))
  }

  /** A list that was built from the policy carries it. */
  lemma CarriesMade(m: Entries, port: nat, extra: Value, options: seq<string>, made: map<Key, seq<string>>)
    requires UserValues(m, extra) && options != []
    requires Builds(options, made, UserFrees(m), USER_MANAGED)
    requires forall q | q in USER_MANAGED :: q in made && made[q] == UserPolicy(m, port, extra, q)
    ensures UserCarries(Join(options, ','), m, port, extra)
  {
    forall q | q in USER_MANAGED
      ensures PartValues(Split(Join(options, ','), ','), q) == UserPolicy(m, port, extra, q)
    {
      BuildsPrints(options, made, UserFrees(m), USER_MANAGED, q);
    }
    BuildsPrints(options, made, UserFrees(m), USER_MANAGED, Id);
  }

  lemma UserCarried(m: Entries, port: nat, extra: Value, options: seq<string>)
    requires UserValues(m, extra) && options != []
    requires Builds(options, UserMade(m, port, extra), UserFrees(m), USER_MANAGED)
    ensures UserCarries(Join(options, ','), m, port, extra)
  {
    var made := UserMade(m, port, extra);
    forall q | q in USER_MANAGED
      ensures q in made && made[q] == UserPolicy(m, port, extra, q)
    {
      UserGives(m, port, extra, q);
    }
    CarriesMade(m, port, extra, options, made);
  }

  lemma UserGives(m: Entries, port: nat, extra: Value, q: Key)
    requires UserLists(m, extra) && q in USER_MANAGED
    ensures q in UserMade(m, port, extra) && UserMade(m, port, extra)[q] == UserPolicy(m, port, extra, q)
  {
    UserForwarded(m, SshForward(port), Entry(m, "hostfwd"), Entry(m, "guestfwd"), OrEmpty(extra));
    UserSwitches(q);
    CommonValues(m, USER_SWITCHES, USER_MANAGED, q);
    PolicyIs(m, port, extra, q, Common(m, USER_SWITCHES, USER_MANAGED));
  }

  lemma PolicyIs(m: Entries, port: nat, extra: Value, q: Key, common: map<Key, seq<string>>)
    requires UserLists(m, extra) && q in USER_MANAGED && q in common
    requires common[q] == if q == Id then ["net0"] else if q.Restrict? || q.Ipv4? || q.Ipv6? then Switch(m, q) else []
    ensures common[HostFwd := [SshForward(port)] + Strings(Entry(m, "hostfwd")) + Strings(OrEmpty(extra))]
                  [GuestFwd := Strings(Entry(m, "guestfwd"))][q] == UserPolicy(m, port, extra, q)
  {
  }

  lemma UserForwarded(m: Entries, ssh: string, host: Value, guest: Value, more: Value)
    requires IsStringList(host) && IsStringList(guest) && IsStringList(more)
    ensures HostFwd in UserGiven(m, ssh) && GuestFwd in UserGiven(m, ssh)
    ensures Gives(UserGiven(m, ssh), [(HostFwd, host), (GuestFwd, guest), (HostFwd, more)]) ==
      Common(m, USER_SWITCHES, USER_MANAGED)
        [HostFwd := [ssh] + Strings(host) + Strings(more)][GuestFwd := Strings(guest)]
  {
    var given := UserGiven(m, ssh);
    UserSwitches(GuestFwd);
    CommonValues(m, USER_SWITCHES, USER_MANAGED, GuestFwd);
    CommonValues(m, USER_SWITCHES, USER_MANAGED, HostFwd);
    GivesThree(given, (HostFwd, host), (GuestFwd, guest), (HostFwd, more));
    Nothing(Strings(guest));
  }

  lemma Nothing(a: seq<string>)
    ensures [] + a == a
  {
  }

  /** _user_network_cmdline */
  method UserNetworkCmdline(network: Value, port: nat, extra: Value) returns (argv: Option<seq<string>>)
    ensures argv.Some? <==> Validated(network).Some? && UserAccepts(Validated(network).value, extra)
    ensures argv.Some? ==>
              |argv.value| == 4 && argv.value == Argv(argv.value[1])
                && UserCarries(argv.value[1], Validated(network).value, port, extra)
  {
    var entries := Validated(network);
    if entries.None? || !(entries.value.Keys <= USER_SETTINGS) {
      return None;
    }
    var options := UserOptions(entries.value, port, extra);
    return if options.None? then None else Some(Argv(Join(options.value, ',')));
  }

  method UserOptions(m: Entries, port: nat, extra: Value) returns (r: Option<seq<string>>)
    ensures r.Some? <==> UserValues(m, extra)
    ensures r.Some? ==> UserCarries(Join(r.value, ','), m, port, extra)
  {
    ForwardsChecked(m, extra);
    var options := UserHead(m, port);
    if options.None? || StringList(m, "hostfwd", false).None? || StringList(m, "guestfwd", false).None? {
      return None;
    }
    r := AddForwards(options.value, UserForwards(m, extra), UserGiven(m, SshForward(port)), UserFrees(m));
    if r.Some? {
      UserCarried(m, port, extra, r.value);
    }
  }

  method UserHead(m: Entries, port: nat) returns (r: Option<seq<string>>)
    ensures r.Some? <==> Switches(m, USER_SWITCHES) && RawAccepted(m, USER_MANAGED)
    ensures r.Some? ==> r.value != []
    ensures r.Some? ==> Builds(r.value, UserGiven(m, SshForward(port)), UserFrees(m), USER_MANAGED)
  {
    var switches := BoolOptions(m, USER_SWITCHES);
    if switches.None? {
      return None;
    }
    var raw := RawOptions(m, USER_MANAGED);
    if raw.None? {
      return None;
    }
    var options := ["user", "id=net0"] + switches.value + raw.value;
    PlainForward(port);
    UserSsh(m, SshForward(port), options);
    return Some(options + ["hostfwd=" + SshForward(port)]);
  }

  predicate AllAccepted(lists: seq<Forwards>) {
    forall i | 0 <= i < |lists| :: ForwardsAccepted(lists[i].0, lists[i].1)
  }

  lemma ForwardsChecked(m: Entries, extra: Value)
    ensures forall list | list in UserForwards(m, extra) :: list.0 in USER_MANAGED
    ensures UserValues(m, extra) <==>
      Switches(m, USER_SWITCHES) && RawAccepted(m, USER_MANAGED) && AllAccepted(UserForwards(m, extra))
    ensures StringList(m, "hostfwd", false).None? || StringList(m, "guestfwd", false).None? ==> !UserValues(m, extra)
  {
    var lists := UserForwards(m, extra);
    assert lists[0].0 == HostFwd && lists[1].0 == GuestFwd && lists[2].0 == HostFwd;
  }

  lemma AcceptedMore(lists: seq<Forwards>, i: nat)
    requires i < |lists| && AllAccepted(lists[..i]) && ForwardsAccepted(lists[i].0, lists[i].1)
    ensures AllAccepted(lists[..i + 1]) && lists[..i + 1] == lists[..i] + [lists[i]]
    ensures forall list | list in lists[..i + 1] :: IsStringList(list.1)
  {
  }

  /** One more list of forwards. */
  lemma ForwardsMore(options: seq<string>, given: map<Key, seq<string>>, frees: seq<string>, lists: seq<Forwards>,
                     last: Forwards)
    requires forall list | list in lists :: IsStringList(list.1) && list.0 in given
    requires PlainList(last.1) && last.0 in USER_MANAGED
    requires Builds(options, Gives(given, lists), frees, USER_MANAGED)
    ensures Builds(options + Prefixed(last.0, Strings(last.1)), Gives(given, lists + [last]), frees, USER_MANAGED)
  {
    GivesSnoc(given, lists, last);
    BuildsKeyed(options, Gives(given, lists), frees, USER_MANAGED, last.0, Strings(last.1));
  }

  /** The loop over the lists of forwards. */
  method AddForwards(start: seq<string>, lists: seq<Forwards>, ghost given: map<Key, seq<string>>,
                     ghost frees: seq<string>)
    returns (options: Option<seq<string>>)
    requires Builds(start, given, frees, USER_MANAGED) && start != []
    requires forall list | list in lists :: list.0 in USER_MANAGED
    ensures options.Some? <==> AllAccepted(lists)
    ensures options.Some? ==>
              options.value != [] && (forall list | list in lists :: IsStringList(list.1) && list.0 in given)
                && Builds(options.value, Gives(given, lists), frees, USER_MANAGED)
  {
    options := Some(start);
    for i := 0 to |lists|
      invariant options.Some? && options.value != []
      invariant AllAccepted(lists[..i])
      invariant forall list | list in lists[..i] :: IsStringList(list.1) && list.0 in given
      invariant Builds(options.value, Gives(given, lists[..i]), frees, USER_MANAGED)
    {
      if !ForwardsAccepted(lists[i].0, lists[i].1) {
        return None;
      }
      AcceptedMore(lists, i);
      ForwardsMore(options.value, given, frees, lists[..i], lists[i]);
      var more := Extend(options.value, lists[i].0, Strings(lists[i].1));
      options := Some(more);
    }
    assert lists[..|lists|] == lists;
  }

  // ---- Passt mode ---------------------------------------------------------------------------

  lemma PasstPlain(m: Entries, port: nat)
    requires BindAccepted(Bind(m)) && PlainList(Entry(m, "tcp-ports")) && PlainList(Entry(m, "udp-ports"))
    ensures NoCommas([PasstForward(m, port)] + Strings(Entry(m, "tcp-ports"))) && NoCommas(UdpValues(m))
  {
    PlainForward(port);
    assert ',' !in ":22" && ',' !in PasstForward(m, port) && ',' !in "none";
    var udp := Strings(Entry(m, "udp-ports"));
    if udp != [] {
      assert udp[0] in udp && forall value | value in udp[1..] :: value in udp;
    }
  }

  lemma PasstSwitches(q: Key)
    ensures Prelude.Distinct(PASST_SWITCHES) && Id !in PASST_SWITCHES
    ensures forall k | k in PASST_SWITCHES :: k in PASST_MANAGED
    ensures q in PASST_SWITCHES <==> q.Ipv4? || q.Ipv6?
  {
    var s := PASST_SWITCHES;
    assert s[0] == Ipv4 && s[1] == Ipv6;
  }

  function PasstGiven(m: Entries, tcp: seq<string>, udp: seq<string>): map<Key, seq<string>> {
    Common(m, PASST_SWITCHES, PASST_MANAGED)[TcpPorts := tcp][UdpPorts := udp]
  }

  lemma PasstBuilds(m: Entries, tcp: seq<string>, udp: seq<string>)
    requires RawAccepted(m, PASST_MANAGED) && NoCommas(tcp) && NoCommas(udp)
    ensures Builds(["passt", "id=net0"] + SwitchTexts(m, PASST_SWITCHES) + Strings(Entry(m, "options"))
            + Prefixed(TcpPorts, tcp) + Prefixed(UdpPorts, udp),
                   PasstGiven(m, tcp, udp), ["passt"] + Pieces(Strings(Entry(m, "options")), ','), PASST_MANAGED)
  {
    var start := ["passt", "id=net0"] + SwitchTexts(m, PASST_SWITCHES) + Strings(Entry(m, "options"));
    var common := Common(m, PASST_SWITCHES, PASST_MANAGED);
    var frees := ["passt"] + Pieces(Strings(Entry(m, "options")), ',');
    PasstSwitches(TcpPorts);
    PasstSwitches(UdpPorts);
    CommonBuilds(m, "passt", PASST_SWITCHES, PASST_MANAGED);
    CommonValues(m, PASST_SWITCHES, PASST_MANAGED, TcpPorts);
    CommonValues(m, PASST_SWITCHES, PASST_MANAGED, UdpPorts);
    BuildsTwo(start, common, frees, PASST_MANAGED, TcpPorts, tcp, UdpPorts, udp);
  }

  lemma BuildsTwo(options: seq<string>, given: map<Key, seq<string>>, frees: seq<string>, managed: set<Key>,
                  j: Key, a: seq<string>, k: Key, b: seq<string>)
    requires Builds(options, given, frees, managed) && j in managed && k in managed && j != k
    requires NoCommas(a) && NoCommas(b) && given[j] == [] && given[k] == []
    ensures Builds(options + Prefixed(j, a) + Prefixed(k, b), given[j := a][k := b], frees, managed)
  {
    BuildsFirst(options, given, frees, managed, j, a);
    BuildsFirst(options + Prefixed(j, a), given[j := a], frees, managed, k, b);
  }

  lemma PasstCarried(m: Entries, port: nat, options: seq<string>)
    requires PasstValues(m)
    requires options == ["passt", "id=net0"] + SwitchTexts(m, PASST_SWITCHES) + Strings(Entry(m, "options"))
      + Prefixed(TcpPorts, [PasstForward(m, port)] + Strings(Entry(m, "tcp-ports"))) + Prefixed(UdpPorts, UdpValues(m))
    ensures PasstCarries(Join(options, ','), m, port)
  {
    var tcp, udp := [PasstForward(m, port)] + Strings(Entry(m, "tcp-ports")), UdpValues(m);
    PasstPlain(m, port);
    PasstBuilds(m, tcp, udp);
    var given, frees := PasstGiven(m, tcp, udp), ["passt"] + Pieces(Strings(Entry(m, "options")), ',');
    forall q | q in PASST_MANAGED
      ensures PartValues(Split(Join(options, ','), ','), q) == PasstPolicy(m, port, q)
    {
      BuildsPrints(options, given, frees, PASST_MANAGED, q);
      PasstGives(m, port, q);
    }
    BuildsPrints(options, given, frees, PASST_MANAGED, Id);
  }

  lemma PasstGives(m: Entries, port: nat, q: Key)
    requires PasstValues(m) && q in PASST_MANAGED
    ensures q in PasstGiven(m, [PasstForward(m, port)] + Strings(Entry(m, "tcp-ports")), UdpValues(m))
    ensures PasstGiven(m, [PasstForward(m, port)] + Strings(Entry(m, "tcp-ports")), UdpValues(m))[q] ==
              PasstPolicy(m, port, q)
  {
    PasstSwitches(q);
    CommonValues(m, PASST_SWITCHES, PASST_MANAGED, q);
  }

  lemma PrefixedCons(key: Key, first: string, rest: seq<string>)
    ensures Prefixed(key, [first] + rest) == [key.Name() + "=" + first] + Prefixed(key, rest)
  {
  }

  /** _passt_network_cmdline */
  method PasstNetworkCmdline(network: Value, port: nat, extra: Value) returns (argv: Option<seq<string>>)
    ensures argv.Some? <==> Validated(network).Some? && PasstAccepts(Validated(network).value, extra)
    ensures argv.Some? ==>
              |argv.value| == 4 && argv.value == Argv(argv.value[1])
                && PasstCarries(argv.value[1], Validated(network).value, port)
  {
    var entries := Validated(network);
    if entries.None? || !(entries.value.Keys <= PASST_SETTINGS) || extra.Truthy() {
      return None;
    }
    var options := PasstOptions(entries.value, port);
    return if options.None? then None else Some(Argv(Join(options.value, ',')));
  }

  method PasstOptions(m: Entries, port: nat) returns (r: Option<seq<string>>)
    ensures r.Some? <==> PasstValues(m)
    ensures r.Some? ==> PasstCarries(Join(r.value, ','), m, port)
  {
    if !BindAccepted(Bind(m)) {
      return None;
    }
    var tcp, udp := StringList(m, "tcp-ports", false), StringList(m, "udp-ports", false);
    if tcp.None? || udp.None? {
      return None;
    }
    var switches := BoolOptions(m, PASST_SWITCHES);
    if switches.None? {
      return None;
    }
    var raw := RawOptions(m, PASST_MANAGED);
    if raw.None? {
      return None;
    }
    var start := ["passt", "id=net0"] + switches.value + raw.value;
    var options := PasstForwards(Bind(m).s, port, tcp.value, udp.value, start);
    PasstCarried(m, port, options);
    return Some(options);
  }

  /** The forwards of the passt back end. */
  method PasstForwards(bind: string, port: nat, tcp: seq<string>, udp: seq<string>, start: seq<string>)
    returns (options: seq<string>)
    ensures options == start
      + Prefixed(TcpPorts, [bind + "/" + Decimal(port) + ":22"] + tcp)
      + Prefixed(UdpPorts, if udp == [] then ["none"] else [bind + "/" + udp[0]] + udp[1..])
  {
    options := start + [TcpPorts.Name() + "=" + (bind + "/" + Decimal(port) + ":22")];
    options := Extend(options, TcpPorts, tcp);
    PrefixedCons(TcpPorts, bind + "/" + Decimal(port) + ":22", tcp);
    if udp != [] {
      options := options + [UdpPorts.Name() + "=" + (bind + "/" + udp[0])];
      options := Extend(options, UdpPorts, udp[1..]);
      PrefixedCons(UdpPorts, bind + "/" + udp[0], udp[1..]);
    } else {
      options := options + [UdpPorts.Name() + "=" + "none"];
    }
  }

  // ---- Dispatch -----------------------------------------------------------------------------

  /** network.get('mode', 'user') */
  function Mode(m: Entries): Value {
    if "mode" in m then m["mode"] else Str("user")
  }

  predicate Accepts(network: Value, extra: Value) {
    Validated(network).Some? &&
    var m := Validated(network).value;
    (Mode(m) == Str("user") && UserAccepts(m, extra)) || (Mode(m) == Str("passt") && PasstAccepts(m, extra))
  }

  /** _network_cmdline */
  method NetworkCmdline(network: Value, port: nat, extra: Value) returns (argv: Option<seq<string>>)
    ensures argv.Some? <==> Accepts(network, extra)
    ensures argv.Some? ==> |argv.value| == 4 && argv.value == Argv(argv.value[1])
    ensures argv.Some? && Mode(Validated(network).value) == Str("user") ==>
              UserCarries(argv.value[1], Validated(network).value, port, extra)
    ensures argv.Some? && Mode(Validated(network).value) == Str("passt") ==>
              PasstCarries(argv.value[1], Validated(network).value, port)
  {
    var entries := Validated(network);
    if entries.None? {
      return None;
    }
    if Mode(entries.value) == Str("user") {
      argv := UserNetworkCmdline(network, port, extra);
    } else if Mode(entries.value) == Str("passt") {
      argv := PasstNetworkCmdline(network, port, extra);
    } else {
      argv := None;
    }
  }

  // ---- What the check on raw options lets through --------------------------------------------

  /**
   In an accepted user network, every mention of a managed option is one with the
   managed code's value iff no raw option gives the option's bare name.
   */
  lemma UserOnlyManagedIff(netdev: string, m: Entries, port: nat, extra: Value, q: Key)
    requires UserValues(m, extra) && UserCarries(netdev, m, port, extra) && q in USER_MANAGED
    ensures AlwaysValued(Split(netdev, ','), q) <==> q.Name() !in Pieces(Strings(Entry(m, "options")), ',')
  {
    ValuedIffNotBare(Split(netdev, ','), q, USER_MANAGED);
    NoModeName(q, Pieces(Strings(Entry(m, "options")), ','));
  }

  /** A mode's name is no option's name. */
  lemma NoModeName(q: Key, rest: seq<string>)
    ensures q.Name() in ["user"] + rest <==> q.Name() in rest
    ensures q.Name() in ["passt"] + rest <==> q.Name() in rest
  {
    assert q.Name() != "user" && q.Name() != "passt" by {
      assert "user"[0] == 'u' && |"user"| == 4 && "passt"[0] == 'p';
      assert q.Name()[0] != 'p' && (q.Name()[0] == 'u' ==> |q.Name()| == 9);
    }
  }

  lemma PasstOnlyManagedIff(netdev: string, m: Entries, port: nat, q: Key)
    requires PasstValues(m) && PasstCarries(netdev, m, port) && q in PASST_MANAGED
    ensures AlwaysValued(Split(netdev, ','), q) <==> q.Name() !in Pieces(Strings(Entry(m, "options")), ',')
  {
    ValuedIffNotBare(Split(netdev, ','), q, PASST_MANAGED);
    NoModeName(q, Pieces(Strings(Entry(m, "options")), ','));
  }

  /** A template that turns `restrict` off can still pass a bare `restrict` through the check on raw options. */
  lemma BareRestrictPasses(netdev: string, port: nat)
    ensures var m: Entries := map["restrict" := Bool(false), "options" := List([Str("restrict")])];
            && UserAccepts(m, Null)
            && (UserCarries(netdev, m, port, Null) ==> !AlwaysValued(Split(netdev, ','), Restrict))
  {
    var m: Entries := map["restrict" := Bool(false), "options" := List([Str("restrict")])];
    RestrictAccepted(m);
    if UserCarries(netdev, m, port, Null) {
      UserOnlyManagedIff(netdev, m, port, Null, Restrict);
    }
  }

  lemma RestrictAccepted(m: Entries)
    requires m == map["restrict" := Bool(false), "options" := List([Str("restrict")])]
    ensures UserAccepts(m, Null) && "restrict" in Pieces(Strings(Entry(m, "options")), ',')
  {
    RestrictRaw(m);
    OnlyRestrict(m);
    assert m.Keys <= USER_SETTINGS;
    assert Entry(m, "hostfwd") == Entry(m, "guestfwd") == OrEmpty(Null) == List([]);
    NoForwards(HostFwd);
    NoForwards(GuestFwd);
  }

  lemma NoForwards(key: Key)
    ensures ForwardsAccepted(key, List([]))
  {
  }

  lemma RestrictRaw(m: Entries)
    requires "options" in m && m["options"] == List([Str("restrict")])
    ensures RawAccepted(m, USER_MANAGED) && "restrict" in Pieces(Strings(Entry(m, "options")), ',')
  {
    var raw := Strings(Entry(m, "options"));
    assert raw == ["restrict"];
    BareIsNoOverride(Restrict, USER_MANAGED);
    assert Pieces(raw, ',') == ["restrict"] + Pieces(raw[1..], ',');
  }

  lemma OnlyRestrict(m: Entries)
    requires m.Keys == {"restrict", "options"} && m["restrict"].Bool?
    ensures "hostfwd" !in m && "guestfwd" !in m && Switches(m, USER_SWITCHES)
  {
    assert "hostfwd"[0] == 'h' && "guestfwd"[0] == 'g' && "restrict"[0] == 'r' && "options"[0] == 'o';
    forall k | k in USER_SWITCHES && k.Name() in m
      ensures m[k.Name()].Bool?
    {
      NotOptions(k);
    }
  }

  lemma NotOptions(k: Key)
    ensures k.Name() != "options"
  {
    assert "options"[0] == 'o' && k.Name()[0] != 'o';
  }

  lemma BareIsNoOverride(k: Key, managed: set<Key>)
    ensures Split(k.Name(), ',') == [k.Name()] && !Overrides(k.Name(), managed)
  {
    PlainKey(k);
    SplitWhole(k.Name(), ',');
    forall j | j in managed
      ensures !(j.Prefix() <= k.Name())
    {
      PrefixHasEquals(j, k.Name());
    }
  }
}
