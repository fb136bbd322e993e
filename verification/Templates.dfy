/** VM templates with lazy inheritance: loading, and resolution along the parent chain. */
module Templates {
  import opened Prelude
  import opened Yaml

  /** A row of TEMPLATE_SETTINGS. */
  datatype Setting = Setting(required: bool, default: Value, heritable: bool)

  type Schema = map<string, Setting>

  /** A template's own settings. */
  type Attrs = map<string, Value>

  type Config = map<string, Attrs>

  const INHERITS := "inherits"

  /** The parent that validate() caches: an absent or falsy name means none. */
  function Parent(t: Attrs): Option<string> {
    if INHERITS in t && t[INHERITS].Str? && t[INHERITS].Truthy() then Some(t[INHERITS].s) else None
  }

  /** Template.validate */
  predicate Validates(c: Config, t: Attrs) {
    && ("network" in t ==> t["network"].Mapping?)
    && ("host-user-identity" in t ==> t["host-user-identity"].Bool?)
    && ("ssh-command-style" in t ==> t["ssh-command-style"] in {Null, Str("posix"), Str("windows")})
    && (INHERITS in t && t[INHERITS].Truthy() ==> t[INHERITS].Str? && t[INHERITS].s in c)
  }

  predicate Valid(c: Config) {
    forall n | n in c :: Validates(c, c[n])
  }

  /** `n`'s `steps`-th ancestor. */
  function Ancestor(c: Config, n: string, steps: nat): Option<string>
    decreases steps
  {
    if n !in c then None
    else if steps == 0 then Some(n)
    else
      match Parent(c[n])
      case None => None
      case Some(p) => Ancestor(c, p, steps - 1)
  }

  datatype Lookup = Found(value: Value) | Missing

  function OrDefault(v: Value, s: Setting): Lookup {
    Found(if v.Null? then s.default else v)
  }

  function Unset(s: Setting): Lookup {
    if s.required then Missing else Found(s.default)
  }

  /**
   Template.__getattr__ for a key of the schema.  The source recurses without a
   bound; `None` here means that more than `depth` recursive calls are needed.
   */
  function Get(schema: Schema, c: Config, n: string, key: string, depth: nat): Option<Lookup>
    requires n in c && key in schema && Valid(c)
    decreases depth
  {
    if key in c[n] then Some(OrDefault(c[n][key], schema[key]))
    else if schema[key].heritable && Parent(c[n]).Some? then
      if depth == 0 then None else Get(schema, c, Parent(c[n]).value, key, depth - 1)
    else Some(Unset(schema[key]))
  }

  // ---- Meaning ----------------------------------------------------------------------------

  /** The ancestor `steps` above `n` exists and does not set `key`. */
  predicate Silent(c: Config, n: string, key: string, steps: nat) {
    var a := Ancestor(c, n, steps);
    a.Some? && a.value in c && key !in c[a.value]
  }

  /** The ancestor `steps` above `n` is the nearest that sets `key`. */
  predicate Nearest(c: Config, n: string, key: string, steps: nat) {
    var a := Ancestor(c, n, steps);
    && a.Some? && a.value in c && key in c[a.value]
    && forall k | 0 <= k < steps :: Silent(c, n, key, k)
  }

  /** What a setting means: the nearest one on the chain, null meaning the default; or else the default. */
  ghost predicate Means(schema: Schema, c: Config, n: string, key: string, r: Lookup)
    requires n in c && key in schema
  {
    var s := schema[key];
    if key !in c[n] && !s.heritable then NothingSet(s, r)
    else
      && (forall steps | Nearest(c, n, key, steps) ::
            var own := c[Ancestor(c, n, steps).value][key];
            r.Found? && (if own == Null then r.value == s.default else r.value == own))
      && ((forall steps :: !Nearest(c, n, key, steps)) ==> NothingSet(s, r))
  }

  /** A setting that nobody sets is an error exactly if it is required. */
  predicate NothingSet(s: Setting, r: Lookup) {
    if s.required then r.Missing? else r.Found? && r.value == s.default
  }

  lemma ParentSteps(c: Config, n: string, key: string, steps: nat)
    requires n in c && Parent(c[n]).Some? && key !in c[n]
    ensures Nearest(c, n, key, steps + 1) <==> Nearest(c, Parent(c[n]).value, key, steps)
    ensures !Nearest(c, n, key, 0)
  {
    var p := Parent(c[n]).value;
    assert Ancestor(c, n, steps + 1) == Ancestor(c, p, steps);
    if Nearest(c, p, key, steps) {
      forall k | 0 <= k < steps + 1
        ensures Silent(c, n, key, k)
      {
        assert k > 0 ==> Silent(c, p, key, k - 1);
      }
    }
    if Nearest(c, n, key, steps + 1) {
      forall k | 0 <= k < steps
        ensures Silent(c, p, key, k)
      {
        assert Silent(c, n, key, k + 1);
      }
    }
  }

  /** At most one ancestor is the nearest. */
  lemma NearestIsUnique(c: Config, n: string, key: string, j: nat, k: nat)
    requires Nearest(c, n, key, j) && Nearest(c, n, key, k)
    ensures j == k
  {
    assert j < k ==> Silent(c, n, key, j);
    assert k < j ==> Silent(c, n, key, k);
  }

  /** Whatever the lookup returns is what the setting means. */
  lemma {:induction false} GetIsMeaning(schema: Schema, c: Config, n: string, key: string, depth: nat)
    requires n in c && key in schema && Valid(c)
    ensures Get(schema, c, n, key, depth).Some? ==> Means(schema, c, n, key, Get(schema, c, n, key, depth).value)
    decreases depth
  {
    if key in c[n] {
      forall steps | Nearest(c, n, key, steps)
        ensures steps == 0
      {
        assert Nearest(c, n, key, 0);
        NearestIsUnique(c, n, key, 0, steps);
      }
      assert Nearest(c, n, key, 0);
    } else if schema[key].heritable {
      if Parent(c[n]).None? {
        forall steps
          ensures !Nearest(c, n, key, steps)
        {
          assert steps > 0 ==> Ancestor(c, n, steps).None?;
        }
      } else if depth > 0 {
        ParentMeaning(schema, c, n, key, depth);
      }
    }
  }

  lemma ParentMeaning(schema: Schema, c: Config, n: string, key: string, depth: nat)
    requires n in c && key in schema && Valid(c) && depth > 0
    requires key !in c[n] && schema[key].heritable && Parent(c[n]).Some?
    ensures Get(schema, c, n, key, depth).Some? ==> Means(schema, c, n, key, Get(schema, c, n, key, depth).value)
    decreases depth, 0
  {
    var p := Parent(c[n]).value;
    GetIsMeaning(schema, c, p, key, depth - 1);
    forall steps: nat
      ensures Nearest(c, n, key, steps + 1) <==> Nearest(c, p, key, steps)
      ensures !Nearest(c, n, key, 0)
    {
      ParentSteps(c, n, key, steps);
    }
    forall steps: nat | Nearest(c, n, key, steps)
      ensures steps > 0 && Nearest(c, p, key, steps - 1)
    {
      assert steps > 0 ==> (Nearest(c, n, key, steps - 1 + 1) <==> Nearest(c, p, key, steps - 1));
    }
    if steps: nat :| Nearest(c, p, key, steps) {
      assert Nearest(c, n, key, steps + 1);
    }
  }

  // ---- Termination ------------------------------------------------------------------------

  /** The chain of parents of `n` comes to an end. */
  ghost predicate Ends(c: Config, n: string) {
    exists steps :: Ancestor(c, n, steps).None?
  }

  lemma {:induction false} AncestorAdds(c: Config, n: string, i: nat, j: nat)
    ensures Ancestor(c, n, i).None? ==> Ancestor(c, n, i + j).None?
    ensures Ancestor(c, n, i).Some? ==> Ancestor(c, n, i + j) == Ancestor(c, Ancestor(c, n, i).value, j)
    decreases i
  {
    if n in c {
      if i > 0 && Parent(c[n]).Some? {
        AncestorAdds(c, Parent(c[n]).value, i - 1, j);
      }
    }
  }

  lemma {:induction false} AncestorIsKnown(c: Config, n: string, steps: nat)
    ensures Ancestor(c, n, steps).Some? ==> Ancestor(c, n, steps).value in c
    decreases steps
  {
    if n in c && steps > 0 && Parent(c[n]).Some? {
      AncestorIsKnown(c, Parent(c[n]).value, steps - 1);
    }
  }

  /** The first `k` names of the chain of `n`. */
  ghost function Line(c: Config, n: string, k: nat): set<string> {
    set i | 0 <= i < k && Ancestor(c, n, i).Some? :: Ancestor(c, n, i).value
  }

  lemma LineGrows(c: Config, n: string, j: nat)
    requires Ancestor(c, n, j).Some?
    requires forall i | 0 <= i < j :: Ancestor(c, n, i) != Ancestor(c, n, j)
    ensures |Line(c, n, j + 1)| == |Line(c, n, j)| + 1
  {
    assert Line(c, n, j + 1) == Line(c, n, j) + {Ancestor(c, n, j).value};
  }

  /** As long as the chain ends at `k` and not before, its names differ. */
  lemma {:induction false} LineSize(c: Config, n: string, j: nat, k: nat)
    requires j <= k && Ancestor(c, n, k).None?
    requires forall i | 0 <= i < k :: Ancestor(c, n, i).Some?
    ensures |Line(c, n, j)| == j
    decreases j
  {
    if j > 0 {
      LineSize(c, n, j - 1, k);
      forall i | 0 <= i < j - 1
        ensures Ancestor(c, n, i) != Ancestor(c, n, j - 1)
      {
        AncestorAdds(c, n, i, k - (j - 1));
        AncestorAdds(c, n, j - 1, k - (j - 1));
      }
      LineGrows(c, n, j - 1);
    }
  }

  lemma SubsetSize(a: set<string>, b: set<string>)
    requires a <= b
    ensures |a| <= |b|
  {
    assert b == a + (b - a);
  }

  lemma LineIsKnown(c: Config, n: string, k: nat)
    ensures Line(c, n, k) <= c.Keys
  {
    forall name | name in Line(c, n, k)
      ensures name in c.Keys
    {
      var i :| 0 <= i < k && Ancestor(c, n, i) == Some(name);
      AncestorIsKnown(c, n, i);
    }
  }

  /** A chain that ends at all ends within as many steps as there are templates. */
  lemma EndsIff(c: Config, n: string)
    ensures Ends(c, n) <==> Ancestor(c, n, |c|).None?
  {
    if Ends(c, n) {
      var any: nat :| Ancestor(c, n, any).None?;
      var k := FirstEnd(c, n, any);
      LineSize(c, n, k, k);
      LineIsKnown(c, n, k);
      SubsetSize(Line(c, n, k), c.Keys);
      assert k <= |c|;
      AncestorAdds(c, n, k, |c| - k);
    }
  }

  lemma {:induction false} FirstEnd(c: Config, n: string, any: nat) returns (k: nat)
    requires Ancestor(c, n, any).None?
    ensures k <= any && Ancestor(c, n, k).None?
    ensures forall i | 0 <= i < k :: Ancestor(c, n, i).Some?
    decreases any
  {
    if i :| 0 <= i < any && Ancestor(c, n, i).None? {
      k := FirstEnd(c, n, i);
    } else {
      k := any;
    }
  }

  /** The ancestor `steps` above `n` settles the lookup of a heritable key: it sets it, or it is the last. */
  predicate Settles(c: Config, n: string, key: string, steps: nat) {
    Nearest(c, n, key, steps) || Ancestor(c, n, steps + 1).None?
  }

  lemma ParentSettles(c: Config, n: string, key: string, steps: nat)
    requires n in c && Parent(c[n]).Some? && Parent(c[n]).value in c && key !in c[n]
    ensures Settles(c, n, key, steps + 1) <==> Settles(c, Parent(c[n]).value, key, steps)
    ensures !Settles(c, n, key, 0)
  {
    var p := Parent(c[n]).value;
    ParentSteps(c, n, key, steps);
    assert Ancestor(c, n, steps + 2) == Ancestor(c, p, steps + 1);
    assert Ancestor(c, n, 1) == Ancestor(c, p, 0) == Some(p);
  }

  ghost predicate SettledWithin(c: Config, n: string, key: string, depth: nat) {
    exists steps | 0 <= steps <= depth :: Settles(c, n, key, steps)
  }

  lemma ParentSettledWithin(c: Config, n: string, key: string, depth: nat)
    requires n in c && Parent(c[n]).Some? && Parent(c[n]).value in c && key !in c[n]
    ensures SettledWithin(c, n, key, depth + 1) <==> SettledWithin(c, Parent(c[n]).value, key, depth)
    ensures !SettledWithin(c, n, key, 0)
  {
    var p := Parent(c[n]).value;
    ParentSettles(c, n, key, 0);
    if steps :| 0 <= steps <= depth && Settles(c, p, key, steps) {
      ParentSettles(c, n, key, steps);
      var above := steps + 1;
      assert Settles(c, n, key, above);
    }
    if steps :| 0 <= steps <= depth + 1 && Settles(c, n, key, steps) {
      var below := steps - 1;
      ParentSettles(c, n, key, below);
      assert Settles(c, p, key, below);
    }
  }

  /** Exactly when a lookup needs at most `depth` recursive calls. */
  lemma {:induction false} AnswersWithin(schema: Schema, c: Config, n: string, key: string, depth: nat)
    requires n in c && key in schema && Valid(c)
    ensures Get(schema, c, n, key, depth).Some? <==> !schema[key].heritable || SettledWithin(c, n, key, depth)
    decreases depth
  {
    if key in c[n] {
      assert Settles(c, n, key, 0);
    } else if schema[key].heritable {
      if Parent(c[n]).None? {
        assert Ancestor(c, n, 1).None?;
        assert Settles(c, n, key, 0);
      } else {
        assert Validates(c, c[n]);
        if depth == 0 {
          ParentSettledWithin(c, n, key, 0);
        } else {
          ParentSettledWithin(c, n, key, depth - 1);
          AnswersWithin(schema, c, Parent(c[n]).value, key, depth - 1);
        }
      }
    }
  }

  /** The lookup of a heritable key comes to an end. */
  ghost predicate Settled(c: Config, n: string, key: string) {
    exists depth: nat :: SettledWithin(c, n, key, depth)
  }

  /** A chain that came back to a name before the nearest setting would never reach that setting. */
  lemma SilentDiffers(c: Config, n: string, key: string, i: nat, j: nat, k: nat)
    requires i < j < k && Nearest(c, n, key, k)
    ensures Ancestor(c, n, j).Some? && Ancestor(c, n, i) != Ancestor(c, n, j)
  {
    assert Silent(c, n, key, j);
    AncestorAdds(c, n, j, k - j);
    AncestorAdds(c, n, i, k - j);
    assert Silent(c, n, key, i + (k - j));
  }

  lemma {:induction false} SilentLineSize(c: Config, n: string, key: string, j: nat, k: nat)
    requires j <= k && Nearest(c, n, key, k)
    ensures |Line(c, n, j)| == j
    decreases j
  {
    if j > 0 {
      SilentLineSize(c, n, key, j - 1, k);
      forall i | 0 <= i < j - 1
        ensures Ancestor(c, n, i) != Ancestor(c, n, j - 1)
      {
        SilentDiffers(c, n, key, i, j - 1, k);
      }
      assert Silent(c, n, key, j - 1);
      LineGrows(c, n, j - 1);
    }
  }

  /** A lookup that ends at all needs no more calls than there are templates. */
  lemma SettledIff(c: Config, n: string, key: string)
    ensures Settled(c, n, key) <==> SettledWithin(c, n, key, |c|)
  {
    if Settled(c, n, key) {
      var depth: nat :| SettledWithin(c, n, key, depth);
      var steps: nat :| steps <= depth && Settles(c, n, key, steps);
      if Nearest(c, n, key, steps) {
        SilentLineSize(c, n, key, steps, steps);
        LineIsKnown(c, n, steps);
        SubsetSize(Line(c, n, steps), c.Keys);
      } else {
        var next := steps + 1;
        assert Ancestor(c, n, next).None?;
        EndsIff(c, n);
        AncestorAdds(c, n, |c|, 1);
        assert Settles(c, n, key, |c|);
      }
    }
  }

  /** On a chain that ends, every lookup ends. */
  lemma EndsSettled(c: Config, n: string, key: string)
    requires Ends(c, n)
    ensures Settled(c, n, key)
  {
    EndsIff(c, n);
    AncestorAdds(c, n, |c|, 1);
    assert Settles(c, n, key, |c|);
    assert SettledWithin(c, n, key, |c|);
  }

  /**
   validate() accepts a template that inherits from itself, although its
   description speaks of an acyclic chain; the lookup of a key it does not set
   then needs more calls than any bound.
   */
  lemma CyclesAreAccepted(schema: Schema, depth: nat)
    requires "image" in schema && schema["image"].heritable
    ensures var c: Config := map["t" := map[INHERITS := Str("t")]];
            Valid(c) && !Ends(c, "t") && Get(schema, c, "t", "image", depth).None?
  {
    var c: Config := map["t" := map[INHERITS := Str("t")]];
    forall steps: nat
      ensures Ancestor(c, "t", steps) == Some("t")
    {
      SelfParent(c, steps);
    }
    AnswersWithin(schema, c, "t", "image", depth);
    forall steps | 0 <= steps <= depth
      ensures !Settles(c, "t", "image", steps)
    {
      assert Ancestor(c, "t", steps + 1) == Some("t");
    }
  }

  lemma {:induction false} SelfParent(c: Config, steps: nat)
    requires c == map["t" := map[INHERITS := Str("t")]]
    ensures Ancestor(c, "t", steps) == Some("t")
    decreases steps
  {
    if steps > 0 {
      SelfParent(c, steps - 1);
    }
  }

  // ---- resolved() -------------------------------------------------------------------------

  /** Every lookup of resolved() ends. */
  ghost predicate Resolvable(schema: Schema, c: Config, n: string) {
    forall key | key in schema && schema[key].heritable :: Settled(c, n, key)
  }

  lemma Answered(schema: Schema, c: Config, n: string, key: string)
    requires n in c && key in schema && Valid(c) && Resolvable(schema, c, n)
    ensures Get(schema, c, n, key, |c|).Some?
    ensures Means(schema, c, n, key, Get(schema, c, n, key, |c|).value)
  {
    SettledIff(c, n, key);
    AnswersWithin(schema, c, n, key, |c|);
    GetIsMeaning(schema, c, n, key, |c|);
  }

  /** Template.resolved, where its lookups end: every setting that has a meaning, and no other key. */
  method Resolved(schema: Schema, keys: seq<string>, c: Config, n: string) returns (result: Attrs)
    requires n in c && Valid(c) && Resolvable(schema, c, n)
    requires forall key :: key in keys <==> key in schema
    ensures forall key | key in result :: key in schema && Means(schema, c, n, key, Found(result[key]))
    ensures forall key | key in schema && key !in result :: Means(schema, c, n, key, Missing)
  {
    result := map[];
    for i := 0 to |keys|
      invariant forall key | key in result :: key in schema && Means(schema, c, n, key, Found(result[key]))
      invariant forall key | key in keys[..i] && key !in result :: Means(schema, c, n, key, Missing)
    {
      var key := keys[i];
      Answered(schema, c, n, key);
      var answer := Get(schema, c, n, key, |c|).value;
      assert keys[..i + 1] == keys[..i] + [key];
      if answer.Found? {
        result := result[key := answer.value];
      }
    }
    assert keys[..|keys|] == keys;
  }

  /** Where some lookup of resolved() does not end, that key's lookup needs more calls than any bound. */
  lemma UnresolvableNeverAnswers(schema: Schema, c: Config, n: string, key: string, depth: nat)
    requires n in c && key in schema && Valid(c) && schema[key].heritable && !Settled(c, n, key)
    ensures Get(schema, c, n, key, depth).None?
  {
    AnswersWithin(schema, c, n, key, depth);
  }

  /** A setting means at most one thing, so Resolved has one result. */
  lemma MeaningIsUnique(schema: Schema, c: Config, n: string, key: string, r: Lookup, r': Lookup)
    requires n in c && key in schema
    requires Means(schema, c, n, key, r) && Means(schema, c, n, key, r')
    ensures r == r'
  {
    if key in c[n] || schema[key].heritable {
      if steps: nat :| Nearest(c, n, key, steps) {
        assert r.Found? && r'.Found?;
      }
    }
  }

  // ---- load() -----------------------------------------------------------------------------

  datatype LoadError =
    | ReservedName(name: string) | DuplicateName(name: string) | UnknownSetting(name: string) | InvalidTemplate

  /** One entry of a parsed file; the value of a bare `name:` is null. */
  datatype Item = Item(name: string, attrs: Option<Attrs>)
  {
    function Settings(): Attrs { if attrs.Some? then attrs.value else map[] }
  }

  predicate Known(schema: Schema, t: Attrs) {
    forall key | key in t :: key in schema
  }

  /** What is wrong with one entry, in the order in which the source looks. */
  function ItemError(schema: Schema, c: Config, item: Item): Option<LoadError> {
    if item.name != "" && item.name[0] == '_' then Some(ReservedName(item.name))
    else if item.name in c then Some(DuplicateName(item.name))
    else if !Known(schema, item.Settings()) then Some(UnknownSetting(item.name))
    else None
  }

  /** The keys of a mapping that a parser returns differ. */
  ghost predicate DistinctNames(data: seq<Item>) {
    forall i, j | 0 <= i < j < |data| :: data[i].name != data[j].name
  }

  ghost predicate Acceptable(schema: Schema, c: Config, data: seq<Item>) {
    forall i | 0 <= i < |data| :: ItemError(schema, c, data[i]).None?
  }

  ghost predicate Names(data: seq<Item>, n: string) {
    exists i | 0 <= i < |data| :: data[i].name == n
  }

  /** `c` with every entry added. */
  ghost predicate Added(c: Config, data: seq<Item>, c': Config) {
    && (forall n | n in c :: n in c' && c'[n] == c[n])
    && (forall i | 0 <= i < |data| :: data[i].name in c' && c'[data[i].name] == data[i].Settings())
    && (forall n | n in c' && n !in c :: Names(data, n))
  }

  lemma AddedOne(c: Config, before: seq<Item>, item: Item, c': Config)
    requires Added(c, before, c') && item.name !in c'
    ensures Added(c, before + [item], c'[item.name := item.Settings()])
  {
    var data := before + [item];
    assert data[|before|].name == item.name;
    forall n | n in c' && n !in c
      ensures Names(data, n)
    {
      var j :| 0 <= j < |before| && before[j].name == n;
      assert data[j].name == n;
    }
  }

  /** Looking at the next entry, when the ones before it are in. */
  lemma AddedStep(schema: Schema, c: Config, data: seq<Item>, i: nat, c': Config)
    requires DistinctNames(data) && i < |data|
    requires Acceptable(schema, c, data[..i]) && Added(c, data[..i], c')
    ensures ItemError(schema, c', data[i]) == ItemError(schema, c, data[i])
    ensures data[..i + 1] == data[..i] + [data[i]]
    ensures ItemError(schema, c, data[i]).None? ==> data[i].name !in c' && Acceptable(schema, c, data[..i + 1])
  {
    assert data[i].name in c' && data[i].name !in c ==> Names(data[..i], data[i].name);
    assert data[..i + 1] == data[..i] + [data[i]];
  }

  class TemplateConfig {
    var templates: Config

    constructor ()
      ensures templates == map[]
    {
      templates := map[];
    }

    /** TemplateConfig.load, from the parsed file on; None is a normal return. */
    method Load(schema: Schema, data: seq<Item>) returns (failure: Option<LoadError>)
      requires DistinctNames(data)
      modifies this
      ensures failure.None? <==> Acceptable(schema, old(templates), data) && Valid(templates)
      ensures Acceptable(schema, old(templates), data) ==> Added(old(templates), data, templates)
      ensures failure.Some? && failure.value != InvalidTemplate ==>
        exists i | 0 <= i < |data| :: StoppedAt(schema, old(templates), data, i, failure, templates)
    {
      for i := 0 to |data|
        invariant Acceptable(schema, old(templates), data[..i])
        invariant Added(old(templates), data[..i], templates)
      {
        failure := ItemError(schema, templates, data[i]);
        AddedStep(schema, old(templates), data, i, templates);
        if failure.Some? {
          assert StoppedAt(schema, old(templates), data, i, failure, templates);
          return;
        }
        AddedOne(old(templates), data[..i], data[i], templates);
        templates := templates[data[i].name := data[i].Settings()];
      }
      assert data[..|data|] == data;
      failure := if forall n | n in templates :: Validates(templates, templates[n]) then None
        else Some(InvalidTemplate);
    }
  }

  /** Entry `i` is the first with something wrong, `failure` says what, and `c'` has the entries before it. */
  ghost predicate StoppedAt(schema: Schema, c: Config, data: seq<Item>, i: nat, failure: Option<LoadError>, c': Config)
    requires i < |data|
  {
    && failure.Some?
    && ItemError(schema, c, data[i]) == failure
    && Acceptable(schema, c, data[..i])
    && Added(c, data[..i], c')
  }

  // ---- System templates stay put ----------------------------------------------------------

  /** Loading a further file changes no ancestor of a template that was there before. */
  lemma {:induction false} LoadKeepsAncestors(c: Config, data: seq<Item>, c': Config, n: string, steps: nat)
    requires Valid(c) && Added(c, data, c') && n in c
    ensures Ancestor(c', n, steps) == Ancestor(c, n, steps)
    decreases steps
  {
    if steps > 0 && Parent(c[n]).Some? {
      LoadKeepsAncestors(c, data, c', Parent(c[n]).value, steps - 1);
    }
  }

  /**
   After a further load succeeds, every setting of every template that was there
   before resolves as it did, and no chain that ended is made endless.
   */
  lemma {:induction false} LoadKeepsResolution(schema: Schema, c: Config, data: seq<Item>, c': Config, n: string,
                                               key: string, depth: nat)
    requires Valid(c) && Added(c, data, c') && Valid(c') && n in c && key in schema
    ensures Get(schema, c', n, key, depth) == Get(schema, c, n, key, depth)
    ensures Ends(c', n) <==> Ends(c, n)
    decreases depth
  {
    forall steps: nat
      ensures Ancestor(c', n, steps) == Ancestor(c, n, steps)
    {
      LoadKeepsAncestors(c, data, c', n, steps);
    }
    if Ends(c, n) {
      var steps: nat :| Ancestor(c, n, steps).None?;
      assert Ancestor(c', n, steps).None?;
    }
    if depth > 0 && Parent(c[n]).Some? {
      LoadKeepsResolution(schema, c, data, c', Parent(c[n]).value, key, depth - 1);
    }
  }
}
