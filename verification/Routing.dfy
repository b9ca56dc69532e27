/**
 Building routers from a named configuration graph (routing/delegated.go).

 Leaf constructors are a predicate on the configuration entry; everything else, the
 memo table shared by all methods and the visited set fresh for each, is as in the source.
 */
module Routing {
  import opened Wrappers

  datatype Name = Name(text: string)

  datatype Kind = Parallel | Sequential

  datatype Dep = Dep(name: Name, ignoreErrors: bool, timeout: nat, executeAfter: nat)

  datatype RouterCfg =
    | Leaf(params: nat)                          // Reframe and DHT
    | Composite(kind: Kind, deps: seq<Dep>)
    | UnknownType(typ: string)

  datatype Part = Part(router: Router, ignoreErrors: bool, timeout: nat, executeAfter: nat)

  datatype Router =
    | LeafRouter(params: nat)
    | CompositeRouter(kind: Kind, parts: seq<Part>)

  /** How a child is wired in: only parallel routers keep ExecuteAfter. */
  function Wire(kind: Kind, d: Dep, r: Router): Part {
    Part(r, d.ignoreErrors, d.timeout, if kind.Parallel? then d.executeAfter else 0)
  }

  datatype Config = Config(routers: map<Name, RouterCfg>, constructible: nat -> bool)

  /** The plain recursive expansion of a name, without memo table or visited set. */
  ghost predicate Expands(c: Config, name: Name, r: Router)
    decreases r, 1
  {
    && name in c.routers
    && match c.routers[name]
       case Leaf(params) => c.constructible(params) && r == LeafRouter(params)
       case Composite(kind, deps) =>
         r.CompositeRouter? && r.kind == kind && |r.parts| == |deps|
         && forall i :: 0 <= i < |deps| ==> Wired(c, kind, deps[i], r.parts[i])
       case UnknownType(_) => false
  }

  ghost predicate Wired(c: Config, kind: Kind, d: Dep, part: Part)
    decreases part, 0
  {
    && part.ignoreErrors == d.ignoreErrors && part.timeout == d.timeout
    && part.executeAfter == (if kind.Parallel? then d.executeAfter else 0)
    && Expands(c, d.name, part.router)
  }

  ghost predicate WiredAll(c: Config, kind: Kind, deps: seq<Dep>, parts: seq<Part>) {
    |parts| <= |deps| && forall i :: 0 <= i < |parts| ==> Wired(c, kind, deps[i], parts[i])
  }

  lemma WiredSnoc(c: Config, kind: Kind, deps: seq<Dep>, parts: seq<Part>, r: Router)
    requires WiredAll(c, kind, deps, parts) && |parts| < |deps|
    requires Expands(c, deps[|parts|].name, r)
    ensures WiredAll(c, kind, deps, parts + [Wire(kind, deps[|parts|], r)])
  {
  }

  /** A parallel router over two leaves expands to their routers in order, each with its settings. */
  lemma ParallelOfTwo(c: Config, name: Name, d: Dep, e: Dep, p: nat, q: nat, r: Router)
    requires name in c.routers && c.routers[name] == Composite(Parallel, [d, e]) && Expands(c, name, r)
    requires d.name in c.routers && c.routers[d.name] == Leaf(p) && e.name in c.routers && c.routers[e.name] == Leaf(q)
    ensures r == CompositeRouter(Parallel, [Part(LeafRouter(p), d.ignoreErrors, d.timeout, d.executeAfter),
                                            Part(LeafRouter(q), e.ignoreErrors, e.timeout, e.executeAfter)])
  {
    assert Wired(c, Parallel, [d, e][0], r.parts[0]) && Wired(c, Parallel, [d, e][1], r.parts[1]);
    assert Expands(c, d.name, r.parts[0].router) && Expands(c, e.name, r.parts[1].router);
    assert r.parts[0] == Part(LeafRouter(p), d.ignoreErrors, d.timeout, d.executeAfter);
    assert r.parts[1] == Part(LeafRouter(q), e.ignoreErrors, e.timeout, e.executeAfter);
    assert r.parts == [r.parts[0], r.parts[1]];
  }

  // ---------------------------------------------------------------- the dependency graph

  function Names(deps: seq<Dep>): set<Name> {
    set i | 0 <= i < |deps| :: deps[i].name
  }

  lemma NamesSnoc(deps: seq<Dep>, i: nat)
    requires i < |deps|
    ensures Names(deps[..i + 1]) == Names(deps[..i]) + {deps[i].name}
  {
  }

  function DepsOf(c: Config, name: Name): set<Name> {
    if name in c.routers && c.routers[name].Composite? then Names(c.routers[name].deps) else {}
  }

  /** `b` is met `n` dependencies below `a`. */
  ghost predicate Steps(c: Config, a: Name, b: Name, n: nat)
    decreases n
  {
    if n == 0 then a == b else exists d :: d in DepsOf(c, a) && Steps(c, d, b, n - 1)
  }

  ghost predicate Reachable(c: Config, a: Name, b: Name) {
    exists n: nat :: Steps(c, a, b, n)
  }

  /** Reachable in at least one step. */
  ghost predicate DependsOn(c: Config, a: Name, b: Name) {
    exists n: nat :: n > 0 && Steps(c, a, b, n)
  }

  ghost predicate OnCycle(c: Config, a: Name) {
    DependsOn(c, a, a)
  }

  ghost predicate Buildable(c: Config, name: Name) {
    && name in c.routers
    && match c.routers[name]
       case Leaf(params) => c.constructible(params)
       case Composite(_, _) => true
       case UnknownType(_) => false
  }

  /** Every reachable name is configured, of a known type and constructible, and no reachable
      name depends on itself. Says nothing about how a router is built. */
  ghost predicate WellFormed(c: Config, name: Name) {
    forall x :: Reachable(c, name, x) ==> Buildable(c, x) && !OnCycle(c, x)
  }

  lemma ReachSelf(c: Config, a: Name)
    ensures Reachable(c, a, a)
  {
    assert Steps(c, a, a, 0);
  }

  lemma ReachThroughDep(c: Config, a: Name, b: Name)
    requires b in DepsOf(c, a)
    ensures forall x :: Reachable(c, b, x) ==> Reachable(c, a, x)
  {
    forall x | Reachable(c, b, x) ensures Reachable(c, a, x) {
      var n: nat :| Steps(c, b, x, n);
      assert Steps(c, a, x, n + 1);
    }
  }

  lemma {:induction false} StepsSnoc(c: Config, x: Name, a: Name, b: Name, n: nat)
    requires Steps(c, x, a, n) && b in DepsOf(c, a)
    ensures Steps(c, x, b, n + 1)
    decreases n
  {
    if n == 0 {
      assert Steps(c, b, b, 0);
    } else {
      var d :| d in DepsOf(c, x) && Steps(c, d, a, n - 1);
      StepsSnoc(c, d, a, b, n - 1);
    }
  }

  lemma DependsOnDep(c: Config, a: Name, b: Name)
    requires b in DepsOf(c, a)
    ensures DependsOn(c, a, b)
    ensures forall x :: DependsOn(c, x, a) ==> DependsOn(c, x, b)
  {
    StepsSnoc(c, a, a, b, 0);
    forall x | DependsOn(c, x, a) ensures DependsOn(c, x, b) {
      var n: nat :| n > 0 && Steps(c, x, a, n);
      StepsSnoc(c, x, a, b, n);
    }
  }

  lemma WellFormedDep(c: Config, a: Name, b: Name)
    requires b in DepsOf(c, a)
    ensures WellFormed(c, a) ==> WellFormed(c, b)
  {
    ReachThroughDep(c, a, b);
  }

  // ---------------------------------------------------------------- expansion implies well-formedness

  /** A name has at most one expansion, so memoised and repeated builds agree. */
  lemma {:induction false} ExpansionUnique(c: Config, name: Name, r: Router, r': Router)
    requires Expands(c, name, r) && Expands(c, name, r')
    ensures r == r'
    decreases r
  {
    if r.CompositeRouter? {
      forall i | 0 <= i < |r.parts| ensures r.parts[i] == r'.parts[i] {
        assert Wired(c, r.kind, c.routers[name].deps[i], r.parts[i]);
        assert Wired(c, r.kind, c.routers[name].deps[i], r'.parts[i]);
        ExpansionUnique(c, c.routers[name].deps[i].name, r.parts[i].router, r'.parts[i].router);
      }
    }
  }

  /** Below a name with an expansion, expansions exist and get strictly smaller. */
  lemma {:induction false} ExpandsBelow(c: Config, a: Name, b: Name, n: nat, r: Router) returns (rb: Router)
    requires Steps(c, a, b, n) && Expands(c, a, r)
    ensures Expands(c, b, rb)
    ensures if n == 0 then rb == r else rb < r
    decreases n
  {
    rb := r;
    if n > 0 {
      var d :| d in DepsOf(c, a) && Steps(c, d, b, n - 1);
      var i :| 0 <= i < |c.routers[a].deps| && c.routers[a].deps[i].name == d;
      assert Wired(c, r.kind, c.routers[a].deps[i], r.parts[i]);
      rb := ExpandsBelow(c, d, b, n - 1, r.parts[i].router);
    }
  }

  /** A name that has an expansion is well-formed. */
  lemma ExpandsImpliesWellFormed(c: Config, name: Name, r: Router)
    requires Expands(c, name, r)
    ensures WellFormed(c, name)
  {
    forall x | Reachable(c, name, x) ensures Buildable(c, x) && !OnCycle(c, x) {
      var n: nat :| Steps(c, name, x, n);
      var rx := ExpandsBelow(c, name, x, n, r);
      if OnCycle(c, x) {
        var m: nat :| m > 0 && Steps(c, x, x, m);
        var again := ExpandsBelow(c, x, x, m, rx);
        ExpansionUnique(c, x, rx, again);
        assert false;
      }
    }
  }

  // ---------------------------------------------------------------- the builder

  datatype MethodName = PutIPNS | GetIPNS | FindPeers | FindProviders | Provide

  /** Memoised routers are expansions, closed under dependencies, and built once each. */
  ghost predicate ValidMemo(c: Config, created: map<Name, Router>, built: seq<Name>) {
    && (forall n :: n in created ==> Expands(c, n, created[n]) && DepsOf(c, n) <= created.Keys)
    && Elements(built) == created.Keys && Distinct(built)
  }

  lemma MemoInsert(c: Config, created: map<Name, Router>, built: seq<Name>, name: Name, r: Router)
    requires ValidMemo(c, created, built) && name !in created
    requires Expands(c, name, r) && DepsOf(c, name) <= created.Keys
    ensures ValidMemo(c, created[name := r], built + [name])
  {
  }

  /** `chain` holds the names being built: visited, not yet created, and all waiting for `name`. */
  ghost predicate ValidChain(c: Config, created: map<Name, Router>, visited: set<Name>, chain: set<Name>, name: Name) {
    && chain <= visited <= created.Keys + chain
    && chain !! created.Keys
    && chain <= c.routers.Keys
    && (forall n :: n in chain ==> DependsOn(c, n, name))
  }

  /** The memo table only grows, and only by names `name` depends on. */
  ghost predicate Grown(c: Config, name: Name, before: map<Name, Router>, after: map<Name, Router>) {
    && (forall n :: n in before ==> n in after && after[n] == before[n])
    && (forall n :: n in after && n !in before ==> Reachable(c, name, n))
  }

  lemma GrownByItself(c: Config, name: Name, m0: map<Name, Router>, m1: map<Name, Router>, r: Router)
    requires Grown(c, name, m0, m1) && name !in m1
    ensures Grown(c, name, m0, m1[name := r])
  {
    ReachSelf(c, name);
  }

  lemma GrownThroughDep(c: Config, a: Name, b: Name,
                        m0: map<Name, Router>, m1: map<Name, Router>, m2: map<Name, Router>)
    requires b in DepsOf(c, a) && Grown(c, a, m0, m1) && Grown(c, b, m1, m2)
    ensures Grown(c, a, m0, m2)
  {
    ReachThroughDep(c, a, b);
  }

  class Builder {
    const c: Config
    var created: map<Name, Router>
    var visited: set<Name>
    var built: seq<Name>     // the routers constructed so far

    constructor (c: Config)
      ensures this.c == c && created == map[] && visited == {} && built == []
    {
      this.c := c;
      created, visited, built := map[], {}, [];
    }

    /** `parse`: depth-first build with the memo table checked before the loop check. */
    method ParseRouter(name: Name, ghost chain: set<Name>) returns (r: Option<Router>)
      requires ValidMemo(c, created, built) && ValidChain(c, created, visited, chain, name)
      modifies this
      ensures r.Some? <==> WellFormed(c, name)
      ensures ValidMemo(c, created, built)
      ensures r.Some? ==>
                && ValidChain(c, created, visited, chain, name)
                && name in created && created[name] == r.value
      ensures old(visited) <= visited && Grown(c, name, old(created), created)
      decreases c.routers.Keys - visited, 1
    {
      ReachSelf(c, name);
      if name in created {
        ExpandsImpliesWellFormed(c, name, created[name]);
        return Some(created[name]);
      }
      if name in visited {
        assert OnCycle(c, name);
        return None;
      }
      visited := visited + {name};
      if name !in c.routers {
        return None;
      }
      var cfg := c.routers[name];
      match cfg {
        case Leaf(params) =>
          if !c.constructible(params) {
            return None;
          }
          r := Some(LeafRouter(params));
        case Composite(kind, deps) =>
          var parts := ParseDeps(name, kind, deps, chain);
          if parts.None? {
            return None;
          }
          r := Some(CompositeRouter(kind, parts.value));
        case UnknownType(_) =>
          return None;
      }
      assert Expands(c, name, r.value);
      ExpandsImpliesWellFormed(c, name, r.value);
      MemoInsert(c, created, built, name, r.value);
      GrownByItself(c, name, old(created), created, r.value);
      created := created[name := r.value];
      built := built + [name];
    }

    /** The loop over a composite router's dependencies; it stops at the first failure. */
    method ParseDeps(name: Name, kind: Kind, deps: seq<Dep>, ghost chain: set<Name>) returns (r: Option<seq<Part>>)
      requires name in c.routers && c.routers[name] == Composite(kind, deps)
      requires ValidMemo(c, created, built) && ValidChain(c, created, visited - {name}, chain, name)
      requires name in visited && name !in created && name !in chain
      modifies this
      ensures r.None? ==> !WellFormed(c, name)
      ensures ValidMemo(c, created, built)
      ensures r.Some? ==>
                && ValidChain(c, created, visited - {name}, chain, name)
                && name in visited && name !in created
                && Expands(c, name, CompositeRouter(kind, r.value))
                && DepsOf(c, name) <= created.Keys
      ensures old(visited) <= visited && Grown(c, name, old(created), created)
      decreases c.routers.Keys - visited, 2
    {
      var parts: seq<Part> := [];
      for i := 0 to |deps|
        invariant ValidMemo(c, created, built) && ValidChain(c, created, visited - {name}, chain, name)
        invariant name in visited && name !in created
        invariant old(visited) <= visited && Grown(c, name, old(created), created)
        invariant |parts| == i && WiredAll(c, kind, deps, parts)
        invariant Names(deps[..i]) <= created.Keys
      {
        var dep := deps[i].name;
        assert dep in DepsOf(c, name);
        NamesSnoc(deps, i);
        DependsOnDep(c, name, dep);
        ghost var before := created;
        var ri := ParseRouter(dep, chain + {name});
        GrownThroughDep(c, name, dep, old(created), before, created);
        if ri.None? {
          WellFormedDep(c, name, dep);
          return None;
        }
        WiredSnoc(c, kind, deps, parts, ri.value);
        parts := parts + [Wire(kind, deps[i], ri.value)];
      }
      assert deps[..|deps|] == deps;
      return Some(parts);
    }
  }

  // ---------------------------------------------------------------- all methods together

  /** The final router: one field for each method name, unset when absent. */
  type Composer = map<MethodName, Router>

  /** `comp` holds, for each configured method and no other, the expansion of its router name. */
  ghost predicate Composes(c: Config, methods: map<MethodName, Name>, comp: Composer) {
    comp.Keys == methods.Keys && forall m :: m in comp ==> Expands(c, methods[m], comp[m])
  }

  ghost predicate AnyReaches(c: Config, methods: map<MethodName, Name>, n: Name) {
    exists m :: m in methods && Reachable(c, methods[m], n)
  }

  /** The constructed names are those some method reaches. */
  ghost predicate BuiltExactly(c: Config, methods: map<MethodName, Name>, built: seq<Name>) {
    forall n {:trigger AnyReaches(c, methods, n)} :: n in built <==> AnyReaches(c, methods, n)
  }

  /** Where the loop over the methods stands. */
  ghost predicate Progress(c: Config, methods: map<MethodName, Name>,
                           created: map<Name, Router>, comp: Composer) {
    && comp.Keys <= methods.Keys
    && (forall m :: m in comp ==> methods[m] in created && comp[m] == created[methods[m]])
    && (forall n {:trigger AnyReaches(c, methods, n)} :: n in created ==> AnyReaches(c, methods, n))
  }

  lemma ProgressStep(c: Config, methods: map<MethodName, Name>,
                     before: map<Name, Router>, created: map<Name, Router>, comp: Composer, mn: MethodName)
    requires Progress(c, methods, before, comp) && mn in methods
    requires Grown(c, methods[mn], before, created) && methods[mn] in created
    ensures Progress(c, methods, created, comp[mn := created[methods[mn]]])
  {
  }

  lemma AllWellFormed(c: Config, methods: map<MethodName, Name>, created: map<Name, Router>, comp: Composer)
    requires Progress(c, methods, created, comp) && comp.Keys == methods.Keys
    requires forall n :: n in created ==> Expands(c, n, created[n])
    ensures Composes(c, methods, comp)
    ensures forall m :: m in methods ==> WellFormed(c, methods[m])
  {
    forall m | m in methods ensures WellFormed(c, methods[m]) {
      ExpandsImpliesWellFormed(c, methods[m], comp[m]);
    }
  }

  lemma AllReachableBuilt(c: Config, methods: map<MethodName, Name>, created: map<Name, Router>, built: seq<Name>)
    requires ValidMemo(c, created, built)
    requires forall m :: m in methods ==> methods[m] in created
    requires forall n {:trigger AnyReaches(c, methods, n)} :: n in created ==> AnyReaches(c, methods, n)
    ensures BuiltExactly(c, methods, built)
  {
    forall n | AnyReaches(c, methods, n) ensures n in created {
      var m :| m in methods && Reachable(c, methods[m], n);
      CreatedReachable(c, created, built, methods[m], n);
    }
  }

  lemma CreatedReachable(c: Config, created: map<Name, Router>, built: seq<Name>, a: Name, b: Name)
    requires ValidMemo(c, created, built) && a in created && Reachable(c, a, b)
    ensures b in created
  {
    var n: nat :| Steps(c, a, b, n);
    CreatedBelow(c, created, built, a, b, n);
  }

  /** `Parse`; the method map is iterated in an arbitrary order. It succeeds exactly when every
      method's router name is well-formed; the result is the plain expansion; and exactly the
      reachable names are constructed, each of them once across all methods. */
  method Parse(c: Config, methods: map<MethodName, Name>, checked: bool) returns (r: Option<Composer>, built: seq<Name>)
    ensures r.Some? <==> checked && forall m :: m in methods ==> WellFormed(c, methods[m])
    ensures r.Some? ==> Composes(c, methods, r.value)
    ensures Distinct(built)
    ensures r.Some? ==> BuiltExactly(c, methods, built)
  {
    if !checked {
      return None, [];
    }
    var b := new Builder(c);
    var comp: Composer := map[];
    var todo := methods.Keys;
    while todo != {}
      invariant fresh(b) && b.c == c && ValidMemo(c, b.created, b.built)
      invariant todo <= methods.Keys && comp.Keys == methods.Keys - todo
      invariant Progress(c, methods, b.created, comp)
      decreases todo
    {
      var mn :| mn in todo;
      todo := todo - {mn};
      ghost var before := b.created;
      b.visited := {};
      var router := b.ParseRouter(methods[mn], {});
      if router.None? {
        return None, b.built;
      }
      ProgressStep(c, methods, before, b.created, comp, mn);
      comp := comp[mn := router.value];
    }
    AllWellFormed(c, methods, b.created, comp);
    AllReachableBuilt(c, methods, b.created, b.built);
    return Some(comp), b.built;
  }

  lemma {:induction false} CreatedBelow(c: Config, created: map<Name, Router>, built: seq<Name>,
                                        a: Name, b: Name, n: nat)
    requires ValidMemo(c, created, built) && a in created && Steps(c, a, b, n)
    ensures b in created
    decreases n
  {
    if n > 0 {
      var d :| d in DepsOf(c, a) && Steps(c, d, b, n - 1);
      CreatedBelow(c, created, built, d, b, n - 1);
    }
  }

  /** Whatever orders two runs use, they produce the same composer. */
  lemma ComposerUnique(c: Config, methods: map<MethodName, Name>, a: Composer, b: Composer)
    requires Composes(c, methods, a) && Composes(c, methods, b)
    ensures a == b
  {
    forall m | m in methods ensures a[m] == b[m] {
      ExpansionUnique(c, methods[m], a[m], b[m]);
    }
  }
}
