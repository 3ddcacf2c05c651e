/** What registering routes puts into the router's `routes` array, and how
    a packet's path is looked up in it (Router.register, registerBulk, findRoute). */
module Registry {
  import opened Values
  import opened Routes

  /** `route.getRoutePath() === key`: strict equality with the route's path string. */
  predicate Matches(route: InternalRoute, key: Value) {
    key == Str(route.config.path)
  }

  /** The index of the earliest route matching `key`, if any. */
  function FirstMatch(routes: seq<InternalRoute>, key: Value): (r: Option<nat>)
    ensures r.Some? ==> r.value < |routes| && Matches(routes[r.value], key)
    ensures r.Some? ==> forall j :: 0 <= j < r.value ==> !Matches(routes[j], key)
    ensures r.None? <==> forall j :: 0 <= j < |routes| ==> !Matches(routes[j], key)
  {
    if |routes| == 0 then None
    else if Matches(routes[0], key) then Some(0)
    else
      match FirstMatch(routes[1..], key)
      case None => None
      case Some(i) => Some(i + 1)
  }

  /** The route findRoute answers, or None for `null`. */
  function Resolve(routes: seq<InternalRoute>, key: Value): Option<InternalRoute> {
    match FirstMatch(routes, key)
    case None => None
    case Some(i) => Some(routes[i])
  }

  /** Routes registered later never change a lookup that already succeeds. */
  lemma FirstMatchAppend(routes: seq<InternalRoute>, later: seq<InternalRoute>, key: Value)
    requires FirstMatch(routes, key).Some?
    ensures FirstMatch(routes + later, key) == FirstMatch(routes, key)
    ensures Resolve(routes + later, key) == Resolve(routes, key)
  {
    var i := FirstMatch(routes, key).value;
    assert (routes + later)[i] == routes[i];
    forall j | 0 <= j < i ensures (routes + later)[j] == routes[j] {
    }
  }

  /** A lookup that fails on `routes` is decided by the routes registered later. */
  lemma FirstMatchAppendMiss(routes: seq<InternalRoute>, later: seq<InternalRoute>, key: Value)
    requires FirstMatch(routes, key).None?
    ensures FirstMatch(routes + later, key) ==
      match FirstMatch(later, key)
      case None => None
      case Some(i) => Some(|routes| + i)
  {
    var all := routes + later;
    forall j | 0 <= j < |routes| ensures !Matches(all[j], key) {
      assert all[j] == routes[j];
    }
    match FirstMatch(later, key)
    case None =>
      forall j | |routes| <= j < |all| ensures !Matches(all[j], key) {
        assert all[j] == later[j - |routes|];
      }
    case Some(i) =>
      assert all[|routes| + i] == later[i];
      forall j | |routes| <= j < |routes| + i ensures !Matches(all[j], key) {
        assert all[j] == later[j - |routes|];
      }
  }

  // ---- Registration

  /** `routeConfig || this.getRouteConfig(route)`: the given configuration
      wins over the declared one. */
  function ChosenConfig(routeConfig: Option<RouteConfig>, rt: RouteType): Option<RouteConfig> {
    if routeConfig.Some? then routeConfig else rt.declared
  }

  /** The configuration a nested route is registered with: its metadata
      with the parent's resolved path put in front of its own path. */
  function Nest(n: NestedRoute, parentPath: string): RouteConfig {
    n.config.(path := parentPath + n.config.path)
  }

  /** The entries `register(rt, config)` pushes, in push order: the
      entries of every nested route, in declaration order, then the route itself. */
  function Expand(rt: RouteType, config: RouteConfig): (r: seq<InternalRoute>)
    ensures |r| >= 1 && r[|r| - 1] == InternalRoute(config, rt.handler)
    ensures forall k :: 0 <= k < |r| ==> config.path <= r[k].config.path
    decreases rt, |rt.nested| + 1
  {
    NestedEntries(rt, config.path, |rt.nested|) + [InternalRoute(config, rt.handler)]
  }

  /** The entries pushed by registering the first n nested routes of rt under parentPath. */
  function NestedEntries(rt: RouteType, parentPath: string, n: nat): (r: seq<InternalRoute>)
    requires n <= |rt.nested|
    ensures forall k :: 0 <= k < |r| ==> parentPath <= r[k].config.path
    decreases rt, n
  {
    if n == 0 then []
    else
      var child := Nest(rt.nested[n - 1], parentPath);
      var r := NestedEntries(rt, parentPath, n - 1) + Expand(rt.nested[n - 1].route, child);
      assert parentPath <= child.path;
      r
  }

  /** The number of routes in a route-class tree: the class and all classes nested in it. */
  function Size(rt: RouteType): nat
    decreases rt, |rt.nested| + 1
  {
    1 + NestedSize(rt, |rt.nested|)
  }

  function NestedSize(rt: RouteType, n: nat): nat
    requires n <= |rt.nested|
    decreases rt, n
  {
    if n == 0 then 0 else NestedSize(rt, n - 1) + Size(rt.nested[n - 1].route)
  }

  /** register pushes exactly one entry per route of the tree, whatever the configurations. */
  lemma {:induction false} ExpandSize(rt: RouteType, config: RouteConfig)
    ensures |Expand(rt, config)| == Size(rt)
    decreases rt, |rt.nested| + 1
  {
    NestedEntriesSize(rt, config.path, |rt.nested|);
  }

  lemma {:induction false} NestedEntriesSize(rt: RouteType, parentPath: string, n: nat)
    requires n <= |rt.nested|
    ensures |NestedEntries(rt, parentPath, n)| == NestedSize(rt, n)
    decreases rt, n
  {
    if n > 0 {
      NestedEntriesSize(rt, parentPath, n - 1);
      ExpandSize(rt.nested[n - 1].route, Nest(rt.nested[n - 1], parentPath));
    }
  }

  /** The route itself is pushed last, with the chosen configuration, after all its nested routes. */
  lemma ParentPushedLast(rt: RouteType, config: RouteConfig)
    ensures |Expand(rt, config)| >= 1
    ensures Expand(rt, config)[|Expand(rt, config)| - 1] == InternalRoute(config, rt.handler)
    ensures Expand(rt, config)[..|Expand(rt, config)| - 1] == NestedEntries(rt, config.path, |rt.nested|)
  {
  }

  // ---- Nesting at any depth

  /** A chain of nested-route positions leading from rt down its tree. */
  ghost predicate ValidChain(rt: RouteType, chain: seq<nat>)
    decreases chain
  {
    chain == [] || (chain[0] < |rt.nested| && ValidChain(rt.nested[chain[0]].route, chain[1..]))
  }

  /** The entry register(rt, config) makes for the route at the end of chain. */
  function EntryAt(rt: RouteType, config: RouteConfig, chain: seq<nat>): InternalRoute
    requires ValidChain(rt, chain)
    decreases chain
  {
    if chain == [] then InternalRoute(config, rt.handler)
    else
      var n := rt.nested[chain[0]];
      EntryAt(n.route, Nest(n, config.path), chain[1..])
  }

  /** The declared paths along chain, concatenated. */
  function DeclaredPath(rt: RouteType, chain: seq<nat>): string
    requires ValidChain(rt, chain)
    decreases chain
  {
    if chain == [] then ""
    else
      var n := rt.nested[chain[0]];
      n.config.path + DeclaredPath(n.route, chain[1..])
  }

  /** A nested route's stored path is the root's path followed by every
      declared path on the way down, at any depth. */
  lemma {:induction false} EntryPathIsConcatenation(rt: RouteType, config: RouteConfig, chain: seq<nat>)
    requires ValidChain(rt, chain)
    ensures EntryAt(rt, config, chain).config.path == config.path + DeclaredPath(rt, chain)
    decreases chain
  {
    if chain != [] {
      var n := rt.nested[chain[0]];
      EntryPathIsConcatenation(n.route, Nest(n, config.path), chain[1..]);
      assert config.path + n.config.path + DeclaredPath(n.route, chain[1..])
          == config.path + (n.config.path + DeclaredPath(n.route, chain[1..]));
    }
  }

  /** The entries of the k-th nested route are among the nested entries. */
  lemma {:induction false} NestedEntriesContain(rt: RouteType, parentPath: string, n: nat, k: nat, e: InternalRoute)
    requires k < n <= |rt.nested|
    requires e in Expand(rt.nested[k].route, Nest(rt.nested[k], parentPath))
    ensures e in NestedEntries(rt, parentPath, n)
    decreases n
  {
    if k < n - 1 {
      NestedEntriesContain(rt, parentPath, n - 1, k, e);
    }
  }

  /** Every nested entry comes from one of the nested routes. */
  lemma {:induction false} NestedEntriesMember(rt: RouteType, parentPath: string, n: nat, e: InternalRoute)
    requires n <= |rt.nested|
    requires e in NestedEntries(rt, parentPath, n)
    ensures exists k :: 0 <= k < n && e in Expand(rt.nested[k].route, Nest(rt.nested[k], parentPath))
    decreases n
  {
    var last := Expand(rt.nested[n - 1].route, Nest(rt.nested[n - 1], parentPath));
    if e !in last {
      NestedEntriesMember(rt, parentPath, n - 1, e);
    }
  }

  /** Every route of the tree, down to any depth, is registered. */
  lemma {:induction false} ChainEntryRegistered(rt: RouteType, config: RouteConfig, chain: seq<nat>)
    requires ValidChain(rt, chain)
    ensures EntryAt(rt, config, chain) in Expand(rt, config)
    ensures chain != [] ==> EntryAt(rt, config, chain) in NestedEntries(rt, config.path, |rt.nested|)
    decreases chain
  {
    if chain != [] {
      var k := chain[0];
      var n := rt.nested[k];
      ChainEntryRegistered(n.route, Nest(n, config.path), chain[1..]);
      NestedEntriesContain(rt, config.path, |rt.nested|, k, EntryAt(rt, config, chain));
    }
  }

  /** Nothing but the routes of the tree is registered. */
  lemma {:induction false} RegisteredEntryHasChain(rt: RouteType, config: RouteConfig, e: InternalRoute)
    requires e in Expand(rt, config)
    ensures exists chain :: ValidChain(rt, chain) && EntryAt(rt, config, chain) == e
    decreases rt
  {
    if e == InternalRoute(config, rt.handler) {
      assert ValidChain(rt, []) && EntryAt(rt, config, []) == e;
    } else {
      NestedEntriesMember(rt, config.path, |rt.nested|, e);
      var k :| 0 <= k < |rt.nested| && e in Expand(rt.nested[k].route, Nest(rt.nested[k], config.path));
      var n := rt.nested[k];
      RegisteredEntryHasChain(n.route, Nest(n, config.path), e);
      var c :| ValidChain(n.route, c) && EntryAt(n.route, Nest(n, config.path), c) == e;
      var chain := [k] + c;
      assert chain[0] == k && chain[1..] == c;
      assert ValidChain(rt, chain) && EntryAt(rt, config, chain) == e;
    }
  }

  /** A nested route (at any depth) whose resolved path equals its root's
      path shadows the root: findRoute never reaches the root's entry,
      because the nested entry is pushed first. */
  lemma NestedShadowsParent(earlier: seq<InternalRoute>, rt: RouteType, config: RouteConfig, chain: seq<nat>)
    requires ValidChain(rt, chain) && chain != []
    requires EntryAt(rt, config, chain).config.path == config.path
    ensures FirstMatch(earlier + Expand(rt, config), Str(config.path)).Some?
    ensures FirstMatch(earlier + Expand(rt, config), Str(config.path)).value < |earlier + Expand(rt, config)| - 1
  {
    var routes := earlier + Expand(rt, config);
    var nested := NestedEntries(rt, config.path, |rt.nested|);
    var e := EntryAt(rt, config, chain);
    ChainEntryRegistered(rt, config, chain);
    var j :| 0 <= j < |nested| && nested[j] == e;
    ParentPushedLast(rt, config);
    assert routes[|earlier| + j] == Expand(rt, config)[j] == e;
    assert Matches(routes[|earlier| + j], Str(config.path));
  }

  // ---- Bulk registration

  /** Every route class in rts up to and including position j declares a configuration. */
  predicate DeclaredUpTo(rts: seq<RouteType>, j: nat)
    requires j < |rts|
  {
    forall i :: 0 <= i <= j ==> rts[i].declared.Some?
  }

  /** The entries `registerBulk(...rts)` pushes: each route class with its
      declared configuration, in argument order, up to the first one that
      declares none (whose registration throws). */
  function BulkEntries(rts: seq<RouteType>): (r: seq<InternalRoute>)
    ensures forall e :: e in r ==>
      exists j :: 0 <= j < |rts| && DeclaredUpTo(rts, j) && e in Expand(rts[j], rts[j].declared.value)
    ensures forall j, e :: 0 <= j < |rts| && DeclaredUpTo(rts, j) && e in Expand(rts[j], rts[j].declared.value) ==> e in r
  {
    if rts == [] || rts[0].declared.None? then []
    else
      var head := Expand(rts[0], rts[0].declared.value);
      var r := head + BulkEntries(rts[1..]);
      assert forall j :: 1 <= j < |rts| ==> rts[1..][j - 1] == rts[j] && (DeclaredUpTo(rts, j) <==> DeclaredUpTo(rts[1..], j - 1));
      r
  }

  /** Registering two batches one after the other registers their concatenation. */
  lemma {:induction false} BulkEntriesAppend(first: seq<RouteType>, second: seq<RouteType>)
    requires forall k :: 0 <= k < |first| ==> first[k].declared.Some?
    ensures BulkEntries(first + second) == BulkEntries(first) + BulkEntries(second)
  {
    if first != [] {
      assert (first + second)[0] == first[0];
      assert (first + second)[1..] == first[1..] + second;
      BulkEntriesAppend(first[1..], second);
    } else {
      assert first + second == second;
    }
  }
}
