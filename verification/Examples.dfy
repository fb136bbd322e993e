/**
 The small definitions that both sides of a theorem use, fixed by an independent
 account of their own or by the values of the repository's tests.
 */
module Examples {
  import opened Prelude
  import opened Text
  import opened Yaml
  import Checkpoint
  import ForwardEnv
  import ForwardEnvTransport
  import Network
  import NetworkBackends
  import SshDiagnostics
  import Templates

  // ---- Bundles ----------------------------------------------------------------------------------

  /** The names and marks of a bundle of stage 1. */
  lemma BundleNames()
    ensures Checkpoint.DISK == "disk.qcow2" && Checkpoint.MANIFEST == "manifest.json"
    ensures Checkpoint.COMPLETE == "COMPLETE"
    ensures Checkpoint.SCHEMA == "vmocs.checkpoint" && Checkpoint.VERSION == 1 && Checkpoint.MODE == "cold-disk"
  {
  }

  // ---- Names of environment variables -----------------------------------------------------------

  const LOWER := "abcdefghijklmnopqrstuvwxyz"
  const UPPER := "ABCDEFGHIJKLMNOPQRSTUVWXYZ"
  const DIGITS := "0123456789"

  /** The letters of either alphabet follow each other. */
  lemma LowerAt(k: nat)
    requires k < 26
    ensures LOWER[k] as int == 'a' as int + k
  {
  }

  lemma UpperAt(k: nat)
    requires k < 26
    ensures UPPER[k] as int == 'A' as int + k
  {
  }

  lemma LowerAre(c: char)
    ensures c in LOWER <==> 'a' <= c <= 'z'
  {
    if c in LOWER {
      var k :| 0 <= k < 26 && LOWER[k] == c;
      LowerAt(k);
    }
    if 'a' <= c <= 'z' {
      LowerAt(c as int - 'a' as int);
    }
  }

  lemma UpperAre(c: char)
    ensures c in UPPER <==> 'A' <= c <= 'Z'
  {
    if c in UPPER {
      var k :| 0 <= k < 26 && UPPER[k] == c;
      UpperAt(k);
    }
    if 'A' <= c <= 'Z' {
      UpperAt(c as int - 'A' as int);
    }
  }

  lemma LettersAre(c: char)
    ensures c in LOWER <==> 'a' <= c <= 'z'
    ensures c in UPPER <==> 'A' <= c <= 'Z'
  {
    LowerAre(c);
    UpperAre(c);
  }

  lemma DigitsAre(c: char)
    ensures c in DIGITS <==> '0' <= c <= '9'
  {
    if '0' <= c <= '9' {
      assert DIGITS[c as int - '0' as int] == c;
    }
  }

  /** A name is letters, digits and underscores, and does not begin with a digit. */
  lemma NamesAre(name: string)
    ensures ForwardEnv.ValidName(name) <==>
              && name != "" && name[0] !in DIGITS
              && forall c | c in name :: c in LOWER || c in UPPER || c in DIGITS || c == '_'
  {
    forall c: char
      ensures ForwardEnv.IsNameChar(c) <==> c in LOWER || c in UPPER || c in DIGITS || c == '_'
      ensures ForwardEnv.IsAlpha(c) <==> c in LOWER || c in UPPER
    {
      LettersAre(c);
      DigitsAre(c);
    }
    if name != "" {
      assert name[0] in name;
      LettersAre(name[0]);
      DigitsAre(name[0]);
    }
  }

  /** Upper case is the letter at the same place of the other alphabet. */
  lemma UpperIs(k: nat, c: char)
    requires k < 26
    ensures ForwardEnvTransport.Upper(LOWER[k]) == UPPER[k]
    ensures c !in LOWER ==> ForwardEnvTransport.Upper(c) == c
  {
    LowerAre(c);
    LowerAt(k);
    UpperAt(k);
  }

  /** Sixteen names of at most 127 characters, and 64 KiB of values. */
  lemma Limits(t: seq<string>, name: string)
    requires ForwardEnv.ValidName(name) && name !in t
    ensures ForwardEnv.Add(t, name).1 == ForwardEnv.Success <==> |t| < 16 && |name| <= 127
    ensures ForwardEnvTransport.MAX_FORWARDED_ENV_BYTES == 65536
  {
  }

  // ---- The ssh log ----------------------------------------------------------------------------

  const KEY := "/runtime/id_ed25519"
  const DENIED := "vagrant" + "@" + "127.0.0.1" + ": Permission denied (" + "publickey" + ")."
  const OFFERED := "debug1: Offering public key: " + KEY + " " + "ED25519 SHA256:test" + " explicit"

  const OTHER_OFFER := "debug1: Offering public key: " + KEY + " " + "ED25519 SHA256:test" + " agent"
  const SENT := "debug2: " + "we sent a publickey packet, wait for reply"

  /** The lines of a log of which the tests expect a rejection. */
  const REFUSED := [
    "debug3: receive packet: type 51",
    OFFERED,
    "debug3: send packet: type 50",
    SENT,
    "debug3: receive packet: type 51",
    "debug1: Authentications that can continue: publickey",
    DENIED]

  lemma OfferIs()
    ensures SshDiagnostics.IsOffer(OFFERED) && SshDiagnostics.IsOfferOf(OFFERED, KEY)
    ensures !SshDiagnostics.IsOfferOf(OFFERED, "/runtime/id_rsa")
    ensures !SshDiagnostics.IsOfferOf(OTHER_OFFER, KEY)
  {
    var opening := "debug1: Offering public key: ";
    assert OFFERED[..|opening|] == opening;
    assert OFFERED == opening + KEY + " " + ("ED25519 SHA256:test" + " explicit");
    assert OFFERED == (opening + KEY + " " + "ED25519 SHA256:test") + " explicit";
    var other := opening + "/runtime/id_rsa" + " ";
    assert other[|opening| + 12] == "/runtime/id_rsa"[12] == 'r';
    assert OFFERED[|opening| + 12] == KEY[12] == 'e';
    NotExplicit(opening + KEY + " " + "ED25519 SHA256:test");
  }

  lemma NotExplicit(start: string)
    ensures !SshDiagnostics.EndsWith(start + " agent", " explicit")
  {
    var line := start + " agent";
    assert line[|line| - 2] == " agent"[4] == 'n' && " explicit"[7] == 'i';
    if SshDiagnostics.EndsWith(line, " explicit") {
      EndsAlike(line, " explicit");
    }
  }

  lemma EndsAlike(s: string, suffix: string)
    requires |suffix| > 1 && SshDiagnostics.EndsWith(s, suffix)
    ensures s[|s| - 2] == suffix[|suffix| - 2]
  {
    assert s[|s| - |suffix|..][|suffix| - 2] == s[|s| - 2];
  }

  /** A line whose sixth character is not a 1 offers nothing. */
  lemma NoOffer(line: string)
    requires |line| > 5 && line[5] != '1'
    ensures !SshDiagnostics.IsOffer(line)
  {
    assert SshDiagnostics.OFFERING[5] == '1';
  }

  /** The log of a refused key proves its refusal; */
  lemma RefusedLogProves()
    ensures SshDiagnostics.ProvesRefusal(REFUSED, KEY)
  {
    OfferIs();
    assert SENT[5] == "debug2: "[5] == '2' && REFUSED[2][5] == REFUSED[4][5] == '3';
    NoOffer(REFUSED[2]);
    NoOffer(REFUSED[3]);
    NoOffer(REFUSED[4]);
    assert SshDiagnostics.SameOffer(REFUSED, 1, 4);
    assert REFUSED[2] == SshDiagnostics.SENT_REQUEST && REFUSED[4] == SshDiagnostics.GOT_FAILURE;
    assert SshDiagnostics.AnsweredWithFailure(REFUSED, 1);
  }

  /** without the request there is no proof. */
  lemma UnsentLogDoesNot()
    ensures !SshDiagnostics.ProvesRefusal([OFFERED, "debug3: receive packet: type 51", DENIED], KEY)
  {
    var log := [OFFERED, "debug3: receive packet: type 51", DENIED];
    assert SshDiagnostics.SENT_REQUEST[0] == 'd' && SshDiagnostics.SENT_REQUEST[5] == '3';
    assert log[0][5] == "debug1: Offering public key: "[5] == '1';
    assert |log[1]| == 31 && |SshDiagnostics.SENT_REQUEST| == 28;
    assert log[2][0] == "vagrant"[0] == 'v';
    assert forall j | 0 <= j < 3 :: log[j] != SshDiagnostics.SENT_REQUEST;
  }

  lemma DenialIs()
    ensures SshDiagnostics.IsDenial(DENIED, "vagrant", "127.0.0.1")
    ensures !SshDiagnostics.IsDenial("vagrant" + "@" + "127.0.0.1" + ": Permission denied (" + ").",
                                     "vagrant", "127.0.0.1")
  {
    var opening := "vagrant" + "@" + "127.0.0.1" + ": Permission denied (";
    assert DENIED == opening + ("publickey" + ").") == (opening + "publickey") + ").";
    assert DENIED[|opening|..|DENIED| - 2] == "publickey";
    assert forall k | 0 <= k < 9 :: 'a' <= "publickey"[k] <= 'z';
  }

  // ---- Network arguments ------------------------------------------------------------------------

  /** The number that a text of digits reads as. */
  function Reads(s: string): int {
    if s == "" then 0 else 10 * Reads(s[..|s| - 1]) + (s[|s| - 1] as int - '0' as int)
  }

  /** A port is printed as the shortest text of digits that reads as it. */
  lemma {:induction false} DecimalReads(n: nat)
    ensures Reads(Network.Decimal(n)) == n
    ensures n > 0 ==> Network.Decimal(n)[0] != '0'
  {
    if n >= 10 {
      DecimalReads(n / 10);
      assert Network.Decimal(n)[..|Network.Decimal(n)| - 1] == Network.Decimal(n / 10);
    } else {
      assert Network.Decimal(n)[..0] == "";
    }
  }

  /** The test's mapping for passt, with a bind address, forwards and a raw option. */
  function PasstMapping(): Network.Entries {
    map["mode" := Str("passt"), "ipv6" := Bool(false), "bind" := Str("0.0.0.0"),
        "tcp-ports" := List([Str("8080:80")]), "udp-ports" := List([Str("5353:53")]),
        "options" := List([Str("mtu=1500")])]
  }

  lemma PortIs()
    ensures Network.Decimal(60222) == "60222"
  {
    assert Network.Decimal(6) == "6";
    assert Network.Decimal(60) == "60";
    assert Network.Decimal(602) == "602";
    assert Network.Decimal(6022) == "6022";
  }

  lemma StringsOne(s: string)
    requires s != ""
    ensures Network.IsStringList(List([Str(s)])) && Network.Strings(List([Str(s)])) == [s]
    ensures Network.IsStringList(List([])) && Network.Strings(List([])) == []
  {
  }

  /** What the test finds in the argument for passt, and the defaults of the next one. */
  lemma PasstExample(m: Network.Entries)
    requires Network.PasstValues(m) && m == PasstMapping()
    ensures Network.PasstPolicy(m, 60222, Network.TcpPorts) == ["0.0.0.0/60222:22", "8080:80"]
    ensures Network.PasstPolicy(m, 60222, Network.UdpPorts) == ["0.0.0.0/5353:53"]
    ensures Network.PasstPolicy(m, 60222, Network.Ipv6) == ["off"]
    ensures Network.PasstPolicy(m, 60222, Network.Ipv4) == []
  {
    PasstTcp(m);
    PasstUdp(m);
    PasstSwitches();
  }

  lemma PasstSwitches()
    ensures Network.Switch(PasstMapping(), Network.Ipv6) == ["off"]
    ensures Network.Switch(PasstMapping(), Network.Ipv4) == []
  {
  }

  lemma PasstTcp(m: Network.Entries)
    requires Network.PasstValues(m) && m == PasstMapping()
    ensures Network.PasstPolicy(m, 60222, Network.TcpPorts) == ["0.0.0.0/60222:22", "8080:80"]
  {
    PortIs();
    StringsOne("8080:80");
    assert "0.0.0.0" + "/" + "60222" + ":22" == "0.0.0.0/60222:22";
  }

  lemma PasstUdp(m: Network.Entries)
    requires Network.PasstValues(m) && m == PasstMapping()
    ensures Network.PasstPolicy(m, 60222, Network.UdpPorts) == ["0.0.0.0/5353:53"]
  {
    StringsOne("5353:53");
    assert "0.0.0.0" + "/" + "5353:53" == "0.0.0.0/5353:53";
  }

  lemma PasstDefaults(m: Network.Entries)
    requires Network.PasstValues(m) && m == map["mode" := Str("passt")]
    ensures Network.PasstPolicy(m, 60222, Network.TcpPorts) == ["127.0.0.1/60222:22"]
    ensures Network.PasstPolicy(m, 60222, Network.UdpPorts) == ["none"]
  {
    PortIs();
    StringsOne("x");
    assert "127.0.0.1" + "/" + "60222" + ":22" == "127.0.0.1/60222:22";
  }

  /** The tests' mappings for user networking, in one. */
  function UserMapping(): Network.Entries {
    map["restrict" := Bool(true), "ipv6" := Bool(false), "hostfwd" := List([Str("tcp:127.0.0.1:8080-:80")])]
  }

  /** What the tests find in its argument. */
  lemma UserExample(m: Network.Entries)
    requires m == UserMapping()
    ensures Network.UserLists(m, Null)
    ensures Network.UserPolicy(m, 60222, Null, Network.Restrict) == ["on"]
    ensures Network.UserPolicy(m, 60222, Null, Network.Ipv6) == ["off"]
    ensures Network.UserPolicy(m, 60222, Null, Network.HostFwd) ==
              ["tcp:127.0.0.1:60222-:22", "tcp:127.0.0.1:8080-:80"]
  {
    UserHosts(m);
  }

  lemma UserHosts(m: Network.Entries)
    requires m == UserMapping()
    ensures Network.UserLists(m, Null)
    ensures Network.UserPolicy(m, 60222, Null, Network.HostFwd) ==
              ["tcp:127.0.0.1:60222-:22", "tcp:127.0.0.1:8080-:80"]
  {
    PortIs();
    StringsOne("tcp:127.0.0.1:8080-:80");
    assert "tcp:127.0.0.1:" + "60222" + "-:22" == "tcp:127.0.0.1:60222-:22";
  }

  /** The managed options of each mode, as texts. */
  const USER_NAMES := {"id=", "restrict=", "ipv4=", "ipv6=", "hostfwd=", "guestfwd="}
  const PASST_NAMES := {"id=", "ipv4=", "ipv6=", "tcp-ports=", "udp-ports="}

  lemma UserName(name: string) returns (k: Network.Key)
    requires name in USER_NAMES
    ensures k in Network.USER_MANAGED && k.Prefix() == name
  {
    k := if name == "id=" then Network.Key.Id else if name == "restrict=" then Network.Key.Restrict
         else if name == "ipv4=" then Network.Key.Ipv4 else if name == "ipv6=" then Network.Key.Ipv6
         else if name == "hostfwd=" then Network.Key.HostFwd else Network.Key.GuestFwd;
  }

  lemma PasstName(name: string) returns (k: Network.Key)
    requires name in PASST_NAMES
    ensures k in Network.PASST_MANAGED && k.Prefix() == name
  {
    k := if name == "id=" then Network.Key.Id else if name == "ipv4=" then Network.Key.Ipv4
         else if name == "ipv6=" then Network.Key.Ipv6 else if name == "tcp-ports=" then Network.Key.TcpPorts
         else Network.Key.UdpPorts;
  }

  /** A raw option that sets one of them itself is refused, in whatever part of it. */
  lemma OverridesRefused(m: Network.Entries, text: string, part: string, name: string)
    requires Network.IsStringList(Network.Entry(m, "options")) && text in Network.Strings(Network.Entry(m, "options"))
    requires part in Split(text, ',') && name <= part
    ensures name in USER_NAMES ==> !Network.UserValues(m, Null)
    ensures name in PASST_NAMES ==> !Network.RawAccepted(m, Network.PASST_MANAGED)
  {
    if name in USER_NAMES {
      var k := UserName(name);
      assert Network.Overrides(text, Network.USER_MANAGED);
    }
    if name in PASST_NAMES {
      var k := PasstName(name);
      assert Network.Overrides(text, Network.PASST_MANAGED);
    }
  }

  /** A text without a comma that begins otherwise sets none of them. */
  lemma Harmless(text: string, managed: set<Network.Key>)
    requires text != "" && ',' !in text && text[0] !in "irhgtu"
    ensures !Network.Overrides(text, managed)
  {
    SplitWhole(text, ',');
    forall k: Network.Key
      ensures !(k.Prefix() <= text)
    {
      assert k.Prefix()[0] in "irhgtu";
    }
  }

  /** The test's mapping is accepted, and one with a setting of user mode is not. */
  lemma PasstAccepted(v: Value)
    ensures Network.PasstAccepts(PasstMapping(), Null)
    ensures !Network.PasstAccepts(map["restrict" := v], Null)
  {
    PasstPorts();
    PasstRaw();
    assert "restrict" in map["restrict" := v];
  }

  lemma PasstRaw()
    ensures Network.RawAccepted(PasstMapping(), Network.PASST_MANAGED)
  {
    StringsOne("mtu=1500");
    Harmless("mtu=1500", Network.PASST_MANAGED);
  }

  lemma PasstPorts()
    ensures Network.PlainList(Network.Entry(PasstMapping(), "tcp-ports"))
    ensures Network.PlainList(Network.Entry(PasstMapping(), "udp-ports"))
    ensures Network.BindAccepted(Network.Bind(PasstMapping()))
  {
    StringsOne("8080:80");
    StringsOne("5353:53");
  }

  /** The same in user mode, with a setting of passt. */
  lemma UserAccepted(v: Value)
    ensures Network.UserAccepts(map["restrict" := Bool(true), "ipv6" := Bool(false)], Null)
    ensures !Network.UserAccepts(map["bind" := v], Null)
  {
    assert "bind" in map["bind" := v];
  }

  /** The back end and the guest's card that uses it. */
  lemma ArgumentsAre(netdev: string)
    ensures NetworkBackends.Argv(netdev) == ["-netdev", netdev, "-device", "virtio-net-pci,netdev=net0"]
  {
  }

  /** `w` occurs in `text`. */
  ghost predicate Occurs(w: string, text: string) {
    exists a, b :: text == a + w + b
  }

  lemma InfixOccurs(text: string, w: string)
    ensures Network.HasInfix(text, w) <==> Occurs(w, text)
  {
    if Network.HasInfix(text, w) {
      var i :| 0 <= i <= |text| && w <= text[i..];
      assert text == text[..i] + w + text[i..][|w|..];
    }
    if a, b :| text == a + w + b {
      assert text[|a|..] == w + b && w <= text[|a|..];
    }
  }

  /** A forward with a comma is refused, and a guest forward that names neither a target nor a command. */
  lemma ForwardsRefused(m: Network.Entries, text: string)
    requires Network.UserLists(m, Null)
    ensures text in Network.Strings(Network.Entry(m, "hostfwd")) && ',' in text ==> !Network.UserValues(m, Null)
    ensures text in Network.Strings(Network.Entry(m, "guestfwd"))
            && (',' in text || (!Occurs("-tcp:", text) && !Occurs("-cmd:", text))) ==>
              !Network.UserValues(m, Null)
  {
    InfixOccurs(text, "-tcp:");
    InfixOccurs(text, "-cmd:");
  }

  /** An address to bind to is a text, not empty, without a comma or a slash. */
  lemma BindRefused(m: Network.Entries)
    requires "bind" in m
    requires !m["bind"].Str? || m["bind"].s == "" || ',' in m["bind"].s || '/' in m["bind"].s
    ensures !Network.PasstValues(m)
  {
  }

  // ---- Templates --------------------------------------------------------------------------------

  /** The parent is a name that is given and not empty. */
  lemma ParentIs(t: Templates.Attrs, p: string)
    ensures Templates.Parent(t) == Some(p) <==> "inherits" in t && t["inherits"] == Str(p) && p != ""
  {
  }

  /** An entry is in order if its name is new and does not begin with an underscore and its settings are known. */
  lemma EntryInOrder(schema: Templates.Schema, c: Templates.Config, item: Templates.Item)
    ensures Templates.ItemError(schema, c, item).None? <==>
              && !("_" <= item.name) && item.name !in c
              && (item.attrs.Some? ==> item.attrs.value.Keys <= schema.Keys)
    ensures "_" <= item.name ==> Templates.ItemError(schema, c, item) == Some(Templates.ReservedName(item.name))
    ensures !("_" <= item.name) && item.name in c ==>
              Templates.ItemError(schema, c, item) == Some(Templates.DuplicateName(item.name))
  {
  }

  /** What validate() refuses, setting by setting; anything else it lets pass. */
  lemma ValidationExamples(c: Templates.Config, t: Templates.Attrs)
    ensures "network" in t && !t["network"].Mapping? ==> !Templates.Validates(c, t)
    ensures "host-user-identity" in t && t["host-user-identity"] == Str("yes") ==> !Templates.Validates(c, t)
    ensures "ssh-command-style" in t && t["ssh-command-style"] == Str("cmd") ==> !Templates.Validates(c, t)
    ensures "inherits" in t && t["inherits"] == Str("nobody") && "nobody" !in c ==> !Templates.Validates(c, t)
    ensures t == map["inherits" := Str(""), "ssh-command-style" := Null] ==> Templates.Validates(c, t)
    ensures t == map["inherits" := Str("base"), "ssh-command-style" := Str("windows"),
                     "host-user-identity" := Bool(false), "network" := Mapping(map[])] && "base" in c ==>
              Templates.Validates(c, t)
  {
    assert "cmd"[0] == 'c' && "posix"[0] == 'p' && "windows"[0] == 'w';
    assert |"network"| == 7 && |"inherits"| == 8 && |"ssh-command-style"| == 17 && |"host-user-identity"| == 18;
  }
}
