/** What the name table's transport guarantees from the first context to the guest command. */
module ForwardEnvTransport {
  import opened Prelude
  import opened Text
  import opened ForwardEnv

  const MAX_FORWARDED_ENV_BYTES := 64 * 1024

  /** `t`, then the new names of `xs` in order of first appearance. */
  function Union(t: seq<string>, xs: seq<string>): seq<string>
    decreases |xs|
  {
    if xs == [] then t
    else
      var u := Union(t, xs[..|xs| - 1]);
      if xs[|xs| - 1] in u then u else u + [xs[|xs| - 1]]
  }

  predicate Usable(name: string) {
    ValidName(name) && |name| < MAX_ENV_NAME
  }

  lemma {:induction false} UnionHas(t: seq<string>, xs: seq<string>)
    ensures t <= Union(t, xs)
    ensures forall n :: n in Union(t, xs) <==> n in t || n in xs
    ensures Distinct(t) ==> Distinct(Union(t, xs))
    decreases |xs|
  {
    if xs != [] {
      UnionHas(t, xs[..|xs| - 1]);
      assert xs == xs[..|xs| - 1] + [xs[|xs| - 1]];
    }
  }

  /** Joining a list of names to an inherited one is the same as joining its first appearances. */
  lemma {:induction false} UnionAbsorbs(t: seq<string>, xs: seq<string>)
    ensures Union(t, Union([], xs)) == Union(t, xs)
    decreases |xs|
  {
    if xs != [] {
      var most, last := xs[..|xs| - 1], xs[|xs| - 1];
      var u := Union([], most);
      UnionAbsorbs(t, most);
      UnionHas([], most);
      UnionHas(t, most);
      if last !in u {
        assert (u + [last])[..|u|] == u;
      }
    }
  }

  lemma {:induction false} UnionSplit(t: seq<string>, a: seq<string>, b: seq<string>)
    ensures Union(t, a + b) == Union(Union(t, a), b)
    decreases |b|
  {
    if b == [] {
      assert a + b == a;
    } else {
      UnionSplit(t, a, b[..|b| - 1]);
      assert (a + b)[..|a + b| - 1] == a + b[..|b| - 1];
    }
  }

  lemma UnionGrows(t: seq<string>, a: seq<string>, b: seq<string>)
    ensures |Union(t, a)| <= |Union(t, a + b)|
  {
    UnionSplit(t, a, b);
    UnionHas(Union(t, a), b);
  }

  lemma {:induction false} AddAllSplit(t: seq<string>, a: seq<string>, x: string)
    ensures var (u, rc) := AddAll(t, a);
            AddAll(t, a + [x]) == if rc != Success then (u, rc) else Add(u, x)
    decreases |a|
  {
    if a == [] {
      assert a + [x] == [x];
      assert [x][1..] == [];
    } else {
      assert (a + [x])[1..] == a[1..] + [x];
      AddAllSplit(Add(t, a[0]).0, a[1..], x);
    }
  }

  lemma AddKeepsWellFormed(t: seq<string>, name: string)
    requires WellFormed(t)
    ensures WellFormed(Add(t, name).0)
    ensures Add(t, name).1 == Success <==> Usable(name) && (name in t || |t| < MAX_FORWARD_ENV)
  {
  }

  /**
   Adding names in order succeeds exactly when each is usable and together they fit;
   then the table is their union.
   */
  lemma {:induction false} AddAllIsUnion(t: seq<string>, xs: seq<string>)
    requires WellFormed(t)
    ensures WellFormed(AddAll(t, xs).0)
    ensures AddAll(t, xs).1 == Success <==>
              (forall n | n in xs :: Usable(n)) && |Union(t, xs)| <= MAX_FORWARD_ENV
    ensures AddAll(t, xs).1 == Success ==> AddAll(t, xs).0 == Union(t, xs)
    decreases |xs|
  {
    if xs != [] {
      var most, last := xs[..|xs| - 1], xs[|xs| - 1];
      assert xs == most + [last];
      assert forall n :: n in xs <==> n in most || n == last;
      AddAllIsUnion(t, most);
      AddAllSplit(t, most, last);
      var (u, rc) := AddAll(t, most);
      if rc != Success {
        UnionGrows(t, most, [last]);
      } else {
        AddKeepsWellFormed(u, last);
      }
    }
  }

  lemma NamesHaveNoComma(t: seq<string>)
    requires WellFormed(t)
    ensures forall n | n in t :: ',' !in n
  {
    assert !IsNameChar(',');
  }

  /** A well-formed table always fits the 2048-byte buffer, terminator included, and reads back as its names. */
  lemma PrintedTable(t: seq<string>)
    requires WellFormed(t) && t != []
    ensures 0 < |Join(t, ',')| <= MAX_FORWARD_ENV * (MAX_ENV_NAME - 1) + (MAX_FORWARD_ENV - 1) < MAX_SERIALIZED
    ensures Split(Join(t, ','), ',') == t
  {
    JoinFits(t);
    NamesHaveNoComma(t);
    SplitJoin(t);
    assert t[0] in t;
    assert |Join(t, ',')| >= |t[0]|;
  }

  lemma UnionOfDistinct(xs: seq<string>)
    requires Distinct(xs)
    ensures Union([], xs) == xs
    decreases |xs|
  {
    if xs != [] {
      UnionOfDistinct(xs[..|xs| - 1]);
      assert xs == xs[..|xs| - 1] + [xs[|xs| - 1]];
    }
  }

  /** Round trip: recovering a printed table into any other table restores the same names in the same order. */
  lemma RoundTrip(t: seq<string>, other: seq<string>)
    requires WellFormed(t) && t != []
    ensures Recover(other, Join(t, ','), true) == (t, Success)
  {
    PrintedTable(t);
    AddAllIsUnion([], t);
    UnionOfDistinct(t);
  }

  /** A merge keeps the inherited names first; when the union does not fit it fails with an empty table. */
  lemma MergeIsUnion(inherited: seq<string>, t: seq<string>)
    requires WellFormed(inherited) && inherited != [] && WellFormed(t)
    ensures |Union(inherited, t)| <= MAX_FORWARD_ENV ==>
              Recover(t, Join(inherited, ','), false) == (Union(inherited, t), Success)
    ensures |Union(inherited, t)| > MAX_FORWARD_ENV ==>
              Recover(t, Join(inherited, ','), false).0 == [] && Recover(t, Join(inherited, ','), false).1 != Success
  {
    RecoverAdds(t, inherited);
    AddAllIsUnion(inherited, t);
    forall n | n in t
      ensures Usable(n)
    {
    }
  }

  /** Reading back a printed table gives it back, and then the names already there are added. */
  lemma RecoverAdds(t: seq<string>, inherited: seq<string>)
    requires WellFormed(inherited) && inherited != []
    ensures Recover(t, Join(inherited, ','), false) ==
            if AddAll(inherited, t).1 == Success then AddAll(inherited, t) else ([], AddAll(inherited, t).1)
  {
    PrintedTable(inherited);
    AddAllIsUnion([], inherited);
    UnionOfDistinct(inherited);
  }

  // ---- A chain of Slurm contexts ----------------------------------------------------------

  /** The transport variable after slurm_spank_init_post_opt in a context with its own options. */
  function PostOpt(options: seq<string>, env: Option<string>): Result<Option<string>> {
    var (own, rc) := AddAll([], options);
    if rc != Success then Err
    else
      var (t, rc') := if env.Some? && env.value != "" then Recover(own, env.value, false) else (own, Success);
      if rc' != Success then Err
      else if t == [] then Ok(env)
      else if |Join(t, ',')| < MAX_SERIALIZED then Ok(Some(Join(t, ',')))
      else Err
  }

  /** Allocator first, then each srun inside it. */
  function Chain(contexts: seq<seq<string>>): Result<Option<string>>
    decreases |contexts|
  {
    if contexts == [] then Ok(None)
    else
      match Chain(contexts[..|contexts| - 1])
      case Err => Err
      case Ok(env) => PostOpt(contexts[|contexts| - 1], env)
  }

  function Flat(contexts: seq<seq<string>>): seq<string>
    decreases |contexts|
  {
    if contexts == [] then [] else Flat(contexts[..|contexts| - 1]) + contexts[|contexts| - 1]
  }

  function Carried(t: seq<string>): Option<string> {
    if t == [] then None else Some(Join(t, ','))
  }

  predicate AllUsable(names: seq<string>) {
    forall n | n in names :: Usable(n)
  }

  lemma PostOptIsUnion(inherited: seq<string>, options: seq<string>)
    requires WellFormed(inherited)
    ensures PostOpt(options, Carried(inherited)) ==
            if AllUsable(options) && |Union(inherited, options)| <= MAX_FORWARD_ENV
            then Ok(Carried(Union(inherited, options))) else Err
    ensures PostOpt(options, Carried(inherited)).Ok? ==> WellFormed(Union(inherited, options))
  {
    OwnTable(inherited, options);
    AddAllIsUnion(inherited, options);
    if AddAll([], options).1 == Success {
      if inherited == [] {
        PostOptFirst(options);
      } else {
        PostOptMerges(inherited, options);
      }
    }
  }

  /** The context's own options, by themselves. */
  lemma OwnTable(inherited: seq<string>, options: seq<string>)
    ensures WellFormed(AddAll([], options).0)
    ensures AddAll([], options).1 == Success <==> AllUsable(options) && |Union([], options)| <= MAX_FORWARD_ENV
    ensures AddAll([], options).1 == Success ==> AddAll([], options).0 == Union([], options)
    ensures |Union([], options)| <= |Union(inherited, options)|
  {
    AddAllIsUnion([], options);
    UnionNotLarger(inherited, options);
  }

  lemma PostOptFirst(options: seq<string>)
    requires AddAll([], options) == (Union([], options), Success)
    ensures PostOpt(options, None) == Ok(Carried(Union([], options)))
  {
    AddAllIsUnion([], options);
    if Union([], options) != [] {
      PrintedTable(Union([], options));
    }
  }

  lemma PostOptMerges(inherited: seq<string>, options: seq<string>)
    requires WellFormed(inherited) && inherited != [] && AddAll([], options).1 == Success
    ensures PostOpt(options, Carried(inherited)) ==
            if |Union(inherited, options)| <= MAX_FORWARD_ENV then Ok(Carried(Union(inherited, options))) else Err
  {
    PrintedTable(inherited);
    MergeIfUsable(inherited, options);
    if |Union(inherited, options)| <= MAX_FORWARD_ENV {
      AddAllIsUnion([], options);
      AddAllIsUnion(inherited, options);
      UnionHas(inherited, options);
      PrintedTable(Union(inherited, options));
    }
  }

  lemma MergeIfUsable(inherited: seq<string>, options: seq<string>)
    requires WellFormed(inherited) && inherited != []
    ensures AddAll([], options).1 == Success ==>
              var own := AddAll([], options).0;
              Recover(own, Join(inherited, ','), false).1 == Success <==> |Union(inherited, options)| <= MAX_FORWARD_ENV
    ensures AddAll([], options).1 == Success && |Union(inherited, options)| <= MAX_FORWARD_ENV ==>
              Recover(AddAll([], options).0, Join(inherited, ','), false).0 == Union(inherited, options)
  {
    AddAllIsUnion([], options);
    UnionAbsorbs(inherited, options);
    if AddAll([], options).1 == Success {
      MergeIsUnion(inherited, AddAll([], options).0);
    }
  }

  lemma UnionNotLarger(t: seq<string>, xs: seq<string>)
    ensures |Union([], xs)| <= |Union(t, xs)|
  {
    UnionHas([], xs);
    UnionHas(t, xs);
    DistinctFits(Union([], xs), Union(t, xs));
  }

  lemma {:induction false} DistinctFits(u: seq<string>, w: seq<string>)
    requires Distinct(u) && forall n | n in u :: n in w
    ensures |u| <= |w|
    decreases |u|
  {
    if u != [] {
      var most, last := u[..|u| - 1], u[|u| - 1];
      assert last in u;
      var k :| 0 <= k < |w| && w[k] == last;
      var less := w[..k] + w[k + 1..];
      forall n | n in most
        ensures n in less
      {
        assert n in u;
        var j :| 0 <= j < |w| && w[j] == n;
        assert less[if j < k then j else j - 1] == n;
      }
      DistinctFits(most, less);
    }
  }

  /** Every option usable, and at most sixteen different names in all. */
  predicate Acceptable(contexts: seq<seq<string>>) {
    (forall n | n in Flat(contexts) :: Usable(n)) && |Union([], Flat(contexts))| <= MAX_FORWARD_ENV
  }

  /**
   A chain of contexts succeeds exactly when every option is usable and the
   different names fit; the variable then lists them all, each once, inherited
   ones first.
   */
  lemma {:induction false} ChainIsUnion(contexts: seq<seq<string>>)
    ensures Chain(contexts) ==
            if Acceptable(contexts) then Ok(Carried(Union([], Flat(contexts)))) else Err
    ensures Acceptable(contexts) ==> WellFormed(Union([], Flat(contexts)))
    decreases |contexts|
  {
    if contexts != [] {
      var before, options := contexts[..|contexts| - 1], contexts[|contexts| - 1];
      ChainIsUnion(before);
      UnionSplit([], Flat(before), options);
      UnionGrows([], Flat(before), options);
      assert forall n :: n in Flat(contexts) <==> n in Flat(before) || n in options;
      if Acceptable(before) {
        PostOptIsUnion(Union([], Flat(before)), options);
      }
    }
  }

  /** The names slurm_spank_task_init passes on, whatever options Slurm replayed into its table. */
  function TaskInit(replayed: seq<string>, env: Option<string>): (seq<string>, Rc) {
    if env.Some? then Recover(replayed, env.value, true) else (replayed, Success)
  }

  // ---- Resolution by vmocs run ------------------------------------------------------------

  function Upper(c: char): char {
    if 'a' <= c <= 'z' then (c as int - 'a' as int + 'A' as int) as char else c
  }

  /** What makes two names the same variable in the guest. */
  function Identity(name: string, windows: bool): string {
    if windows then seq(|name|, i requires 0 <= i < |name| => Upper(name[i])) else name
  }

  function Pairs(names: seq<string>, environ: map<string, string>): seq<(string, string)>
    requires forall n | n in names :: n in environ
  {
    seq(|names|, i requires 0 <= i < |names| => (names[i], environ[names[i]]))
  }

  /** What one name must meet, whatever came before it. */
  predicate Fine(name: string, environ: map<string, string>, windows: bool, tooLarge: (string, string) -> bool) {
    ValidName(name) && name in environ && (windows ==> !tooLarge(name, environ[name]))
  }

  predicate NoCaseClash(names: seq<string>, windows: bool) {
    forall m, n | m in names && n in names && Identity(m, windows) == Identity(n, windows) :: m == n
  }

  /** What the names of a request must meet. */
  predicate Selectable(names: seq<string>, environ: map<string, string>, windows: bool,
                       tooLarge: (string, string) -> bool)
  {
    && (forall n | n in names :: Fine(n, environ, windows, tooLarge))
    && NoCaseClash(names, windows)
    && |Union([], names)| <= MAX_FORWARD_ENV
  }

  /** The loop of resolve_forwarded_env over the names alone; `None` is a refusal. */
  function Select(names: seq<string>, environ: map<string, string>, windows: bool,
                  tooLarge: (string, string) -> bool): Option<seq<string>>
    decreases |names|
  {
    if names == [] then Some([])
    else
      var name := names[|names| - 1];
      match Select(names[..|names| - 1], environ, windows, tooLarge)
      case None => None
      case Some(u) =>
        if !ValidName(name) then None
        else if Taken(u, name, windows) then
          (if name in u then Some(u) else None)
        else if |u| >= MAX_FORWARD_ENV || !Fine(name, environ, windows, tooLarge) then None
        else Some(u + [name])
  }

  /** The loop accepts exactly the selectable requests, and keeps each different name once, in order. */
  lemma {:induction false} SelectIsUnion(names: seq<string>, environ: map<string, string>, windows: bool,
                                         tooLarge: (string, string) -> bool)
    ensures Select(names, environ, windows, tooLarge) ==
            if Selectable(names, environ, windows, tooLarge) then Some(Union([], names)) else None
    decreases |names|
  {
    if names != [] {
      var most, name := names[..|names| - 1], names[|names| - 1];
      assert names == most + [name];
      SelectIsUnion(most, environ, windows, tooLarge);
      SelectableMore(most, name, environ, windows, tooLarge);
      UnionHas([], most);
      assert name in Union([], most) ==> Taken(Union([], most), name, windows);
    }
  }

  predicate Taken(u: seq<string>, name: string, windows: bool) {
    exists m | m in u :: Identity(m, windows) == Identity(name, windows)
  }

  /** When one more name keeps a request selectable, and what it adds. */
  lemma SelectableMore(most: seq<string>, name: string, environ: map<string, string>, windows: bool,
                       tooLarge: (string, string) -> bool)
    ensures var names, u := most + [name], Union([], most);
            && Union([], names) == (if name in u then u else u + [name])
            && (Selectable(names, environ, windows, tooLarge) <==>
                  && Selectable(most, environ, windows, tooLarge)
                  && Fine(name, environ, windows, tooLarge)
                  && (name in u || (!Taken(u, name, windows) && |u| < MAX_FORWARD_ENV)))
  {
    assert (most + [name])[..|most|] == most;
    assert forall n :: n in most + [name] <==> n in most || n == name;
    ClashMore(most, name, windows);
    UnionHas([], most);
    TakenSame(Union([], most), most, name, windows);
  }

  lemma TakenSame(u: seq<string>, names: seq<string>, name: string, windows: bool)
    requires forall n :: n in u <==> n in names
    ensures Taken(u, name, windows) <==> Taken(names, name, windows)
  {
    if m :| m in u && Identity(m, windows) == Identity(name, windows) {
      assert m in names;
    }
    if m :| m in names && Identity(m, windows) == Identity(name, windows) {
      assert m in u;
    }
  }

  lemma ClashMore(most: seq<string>, name: string, windows: bool)
    ensures NoCaseClash(most + [name], windows) <==>
              NoCaseClash(most, windows) && (name in most || !Taken(most, name, windows))
  {
    var names := most + [name];
    assert forall n :: n in names <==> n in most || n == name;
    forall m | m in most
      ensures NoCaseClash(names, windows) && Identity(m, windows) == Identity(name, windows) ==> m == name
    {
      assert m in names && name in names;
    }
    if NoCaseClash(most, windows) && name !in most && !Taken(most, name, windows) {
      forall m, n | m in names && n in names && Identity(m, windows) == Identity(n, windows)
        ensures m == n
      {
        assert m == name && n in most ==> Taken(most, name, windows);
        assert n == name && m in most ==> Taken(most, name, windows);
      }
    }
  }

  /** What resolve_forwarded_env accepts; `size` is the length of the serialized record. */
  predicate Resolvable(names: seq<string>, environ: map<string, string>, windows: bool,
                       tooLarge: (string, string) -> bool, size: seq<(string, string)> -> nat)
  {
    && Selectable(names, environ, windows, tooLarge)
    && (UnionHas([], names); size(Pairs(Union([], names), environ)) <= MAX_FORWARDED_ENV_BYTES)
  }

  /** The dictionary of names seen so far has exactly the chosen names, by identity. */
  predicate Indexed(seen: map<string, string>, chosen: seq<string>, windows: bool) {
    && (forall n | n in chosen :: Identity(n, windows) in seen && seen[Identity(n, windows)] == n)
    && (forall id | id in seen :: seen[id] in chosen && Identity(seen[id], windows) == id)
  }

  lemma IndexedMore(seen: map<string, string>, chosen: seq<string>, name: string, windows: bool)
    requires Indexed(seen, chosen, windows)
    ensures Identity(name, windows) in seen <==> Taken(chosen, name, windows)
    ensures Identity(name, windows) in seen ==> (name in chosen <==> seen[Identity(name, windows)] == name)
    ensures Identity(name, windows) !in seen ==>
              Indexed(seen[Identity(name, windows) := name], chosen + [name], windows)
  {
    var id := Identity(name, windows);
    if Taken(chosen, name, windows) {
      var m :| m in chosen && Identity(m, windows) == id;
      assert id in seen;
    }
    if id in seen {
      assert seen[id] in chosen;
    }
    assert forall n :: n in chosen + [name] <==> n in chosen || n == name;
  }

  lemma PairsMore(chosen: seq<string>, name: string, environ: map<string, string>)
    requires name in environ && forall n | n in chosen :: n in environ
    ensures forall n | n in chosen + [name] :: n in environ
    ensures Pairs(chosen + [name], environ) == Pairs(chosen, environ) + [(name, environ[name])]
  {
  }

  /** A refusal at any name refuses the request. */
  lemma Refused(names: seq<string>, i: nat, environ: map<string, string>, windows: bool,
                tooLarge: (string, string) -> bool)
    requires i <= |names|
    ensures Select(names[..i], environ, windows, tooLarge).None? ==> !Selectable(names, environ, windows, tooLarge)
  {
    RefusalStays(names, i, environ, windows, tooLarge);
    SelectIsUnion(names, environ, windows, tooLarge);
  }

  /** One round of the loop: the next name is refused, already chosen, or chosen now. */
  method ResolveOne(name: string, seen: map<string, string>, count: nat, ghost chosen: seq<string>,
                    environ: map<string, string>,
                    windows: bool, tooLarge: (string, string) -> bool)
    returns (r: Option<bool>)
    requires Indexed(seen, chosen, windows) && count == |chosen|
    ensures r.None? <==> !ValidName(name) || (Taken(chosen, name, windows) && name !in chosen)
                         || (!Taken(chosen, name, windows)
                           && (|chosen| >= MAX_FORWARD_ENV || !Fine(name, environ, windows, tooLarge)))
    ensures r.Some? ==> (r.value <==> !Taken(chosen, name, windows))
  {
    IndexedMore(seen, chosen, name, windows);
    if !ValidName(name) {
      return None;
    }
    var identity := Identity(name, windows);
    if identity in seen {
      if windows && seen[identity] != name {
        return None;
      }
      return Some(false);
    }
    if count >= MAX_FORWARD_ENV {
      return None;
    }
    if name !in environ {
      return None;
    }
    if windows && tooLarge(name, environ[name]) {
      return None;
    }
    return Some(true);
  }

  /** It succeeds exactly then, with each different name once, in order, and its value. */
  method ResolveForwardedEnv(names: seq<string>, environ: map<string, string>, windows: bool,
                             tooLarge: (string, string) -> bool, size: seq<(string, string)> -> nat)
    returns (r: Result<seq<(string, string)>>)
    ensures r.Ok? <==> Resolvable(names, environ, windows, tooLarge, size)
    ensures r.Ok? ==> (UnionHas([], names); r.value == Pairs(Union([], names), environ))
  {
    var resolved: seq<(string, string)> := [];
    var seen: map<string, string> := map[];
    ghost var chosen: seq<string> := [];
    for i := 0 to |names|
      invariant Select(names[..i], environ, windows, tooLarge) == Some(chosen)
      invariant Indexed(seen, chosen, windows)
      invariant forall n | n in chosen :: n in environ
      invariant resolved == Pairs(chosen, environ)
    {
      var name := names[i];
      assert names[..i + 1][..i] == names[..i];
      Refused(names, i + 1, environ, windows, tooLarge);
      var isNew := ResolveOne(name, seen, |resolved|, chosen, environ, windows, tooLarge);
      if isNew.None? {
        return Err;
      }
      if isNew.value {
        IndexedMore(seen, chosen, name, windows);
        PairsMore(chosen, name, environ);
        seen := seen[Identity(name, windows) := name];
        chosen := chosen + [name];
        resolved := resolved + [(name, environ[name])];
      }
    }
    assert names[..|names|] == names;
    SelectIsUnion(names, environ, windows, tooLarge);
    if size(resolved) > MAX_FORWARDED_ENV_BYTES {
      return Err;
    }
    r := Ok(resolved);
  }

  lemma {:induction false} RefusalStays(names: seq<string>, i: nat, environ: map<string, string>, windows: bool,
                                        tooLarge: (string, string) -> bool)
    requires i <= |names|
    ensures Select(names[..i], environ, windows, tooLarge).None? ==> Select(names, environ, windows, tooLarge).None?
    decreases |names|
  {
    if i == |names| {
      assert names[..i] == names;
    } else {
      RefusalStays(names[..|names| - 1], i, environ, windows, tooLarge);
      assert names[..|names| - 1][..i] == names[..i];
    }
  }

  /**
   From the first context to the guest: when the chain succeeds and leaves a
   list, a task context recovers exactly the different names, first
   appearances in order, whatever Slurm replayed.  For a POSIX guest these names
   are accepted exactly if all of them are set and the record is within its limit.
   */
  lemma TransportEndToEnd(contexts: seq<seq<string>>, replayed: seq<string>, environ: map<string, string>,
                          tooLarge: (string, string) -> bool, size: seq<(string, string)> -> nat)
    requires Chain(contexts).Ok? && Chain(contexts).value.Some?
    ensures var t := Union([], Flat(contexts));
            && TaskInit(replayed, Chain(contexts).value) == (t, Success)
            && Union([], t) == t
            && (Resolvable(t, environ, false, tooLarge, size) <==>
                  (forall n | n in t :: n in environ) && size(Pairs(t, environ)) <= MAX_FORWARDED_ENV_BYTES)
  {
    ChainIsUnion(contexts);
    var t := Union([], Flat(contexts));
    RoundTrip(t, replayed);
    TableResolves(t, environ, tooLarge, size);
  }

  /** What a POSIX guest is given of a whole table. */
  lemma TableResolves(t: seq<string>, environ: map<string, string>, tooLarge: (string, string) -> bool,
                      size: seq<(string, string)> -> nat)
    requires WellFormed(t)
    ensures Union([], t) == t
    ensures Resolvable(t, environ, false, tooLarge, size) <==>
              (forall n | n in t :: n in environ) && size(Pairs(t, environ)) <= MAX_FORWARDED_ENV_BYTES
  {
    UnionOfDistinct(t);
    assert NoCaseClash(t, false);
  }

  /** `vmocs run` inside a Slurm task: exactly the names of all contexts, with their values in its environment. */
  method RunInTask(contexts: seq<seq<string>>, replayed: seq<string>, environ: map<string, string>,
                   tooLarge: (string, string) -> bool, size: seq<(string, string)> -> nat)
    returns (r: Result<seq<(string, string)>>)
    requires Chain(contexts).Ok? && Chain(contexts).value.Some?
    ensures var t := Union([], Flat(contexts));
            && (r.Ok? <==> (forall n | n in t :: n in environ) && size(Pairs(t, environ)) <= MAX_FORWARDED_ENV_BYTES)
            && (r.Ok? ==> r.value == Pairs(t, environ))
  {
    TransportEndToEnd(contexts, replayed, environ, tooLarge, size);
    r := ResolveForwardedEnv(TaskInit(replayed, Chain(contexts).value).0, environ, false, tooLarge, size);
  }
}
