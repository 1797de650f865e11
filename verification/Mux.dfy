/**
  The task router: handlers registered by task type, found by the longest registered
  prefix, wrapped in global and per-route middleware. A handler is any value of type
  `H`; a middleware maps handlers to handlers.
 */
module Mux {
  import opened Prelude

  // ---- What the router means ----

  /** `mws` applied around `h`, the first one outermost. */
  function Wrap<H>(mws: seq<H -> H>, h: H): H {
    if mws == [] then h else mws[0](Wrap(mws[1..], h))
  }

  function Chain<H>(mws: seq<H -> H>): H -> H {
    h => Wrap(mws, h)
  }

  lemma {:induction false} WrapConcat<H>(a: seq<H -> H>, b: seq<H -> H>, h: H)
    ensures Wrap(a + b, h) == Wrap(a, Wrap(b, h))
  {
    if a == [] {
      assert a + b == b;
    } else {
      WrapConcat(a[1..], b, h);
      assert (a + b)[1..] == a[1..] + b;
    }
  }

  /** Bundling consecutive middleware with `Chain` gives the same handler. */
  lemma ChainIsTransparent<H>(a: seq<H -> H>, b: seq<H -> H>, c: seq<H -> H>, h: H)
    ensures Wrap(a + [Chain(b)] + c, h) == Wrap(a + b + c, h)
  {
    var one := [Chain(b)];
    WrapConcat(a + one, c, h);
    WrapConcat(a, one, Wrap(c, h));
    WrapConcat(a + b, c, h);
    WrapConcat(a, b, Wrap(c, h));
    assert one[1..] == [];
    assert Wrap(one, Wrap(c, h)) == Chain(b)(Wrap(one[1..], Wrap(c, h)));
  }

  datatype Route<!H> = Route(h: H, mws: seq<H -> H>)

  datatype Table<!H> = Table(routes: map<string, Route<H>>, globals: seq<H -> H>)

  function Full<H>(globals: seq<H -> H>, r: Route<H>): H {
    Wrap(globals, Wrap(r.mws, r.h))
  }

  /** `h` wrapped in `mws` one by one: each handler is what a middleware makes of the next. */
  ghost predicate Layers<H>(hs: seq<H>, mws: seq<H -> H>, h: H) {
    && |hs| == |mws| + 1 && hs[|mws|] == h
    && forall i :: 0 <= i < |mws| ==> hs[i] == mws[i](hs[i + 1])
  }

  /** The full chain is the outermost layer of one pass over all global middleware, in order,
      followed by the route's, around the handler; there is no other such layering. */
  lemma FullMeans<H>(globals: seq<H -> H>, r: Route<H>) returns (hs: seq<H>)
    ensures Layers(hs, globals + r.mws, r.h) && hs[0] == Full(globals, r)
  {
    hs := WrapLayers(globals + r.mws, r.h);
    WrapConcat(globals, r.mws, r.h);
  }

  lemma {:induction false} WrapLayers<H>(mws: seq<H -> H>, h: H) returns (hs: seq<H>)
    ensures Layers(hs, mws, h) && hs[0] == Wrap(mws, h)
  {
    if mws == [] {
      hs := [h];
    } else {
      var rest := WrapLayers(mws[1..], h);
      hs := [Wrap(mws, h)] + rest;
      forall i | 0 <= i < |mws| ensures hs[i] == mws[i](hs[i + 1]) {
        if i > 0 { assert mws[1..][i - 1] == mws[i]; }
      }
    }
  }

  lemma {:induction false} LayersAreUnique<H>(hs: seq<H>, hs': seq<H>, mws: seq<H -> H>, h: H, i: nat)
    requires Layers(hs, mws, h) && Layers(hs', mws, h) && i <= |mws|
    ensures hs[i] == hs'[i]
    decreases |mws| - i
  {
    if i < |mws| { LayersAreUnique(hs, hs', mws, h, i + 1); }
  }

  ghost predicate LongestPrefix(keys: set<string>, ttype: string, k: string) {
    k in keys && k <= ttype && forall j :: j in keys && j <= ttype ==> |j| <= |k|
  }

  lemma LongestPrefixIsUnique(keys: set<string>, ttype: string, j: string, k: string)
    requires LongestPrefix(keys, ttype, j) && LongestPrefix(keys, ttype, k)
    ensures j == k
  {
    assert j == ttype[..|j|] && k == ttype[..|k|];
  }

  /** What dispatching a task of this type must run, if anything. */
  ghost predicate Dispatches<H(!new)>(t: Table<H>, ttype: string, found: Option<H>) {
    match found
    case Some(h) => exists k :: LongestPrefix(t.routes.Keys, ttype, k) && h == Full(t.globals, t.routes[k])
    case None => forall k :: k in t.routes ==> !(k <= ttype)
  }

  function Registered<H>(t: Table<H>, ttype: string, r: Route<H>): Table<H> {
    t.(routes := t.routes[ttype := r])
  }

  function Using<H>(t: Table<H>, mws: seq<H -> H>): Table<H> {
    t.(globals := t.globals + mws)
  }

  /** Dispatch is a function of the table, so of the registrations alone. */
  lemma DispatchIsDetermined<H(!new)>(t: Table<H>, ttype: string, a: Option<H>, b: Option<H>)
    requires Dispatches(t, ttype, a) && Dispatches(t, ttype, b)
    ensures a == b
  {
    if a.Some? && b.Some? {
      var j :| LongestPrefix(t.routes.Keys, ttype, j) && a.value == Full(t.globals, t.routes[j]);
      var k :| LongestPrefix(t.routes.Keys, ttype, k) && b.value == Full(t.globals, t.routes[k]);
      LongestPrefixIsUnique(t.routes.Keys, ttype, j, k);
    }
  }

  // ---- Registration histories ----

  datatype Operation<!H> = Register(ttype: string, route: Route<H>) | AddMiddleware(mws: seq<H -> H>)

  /** The table after a history of accepted calls; a second registration is refused. */
  function Built<H>(ops: seq<Operation<H>>): Table<H> {
    if ops == [] then Table(map[], [])
    else
      var t := Built(ops[..|ops| - 1]);
      match ops[|ops| - 1]
      case Register(ttype, r) => if ttype in t.routes then t else Registered(t, ttype, r)
      case AddMiddleware(mws) => Using(t, mws)
  }

  /** All global middleware, in the order it was added. */
  function Added<H>(ops: seq<Operation<H>>): seq<H -> H> {
    if ops == [] then []
    else Added(ops[..|ops| - 1]) + (if ops[|ops| - 1].AddMiddleware? then ops[|ops| - 1].mws else [])
  }

  /** The first registration of this type is for this route. */
  ghost predicate Registers<H>(ops: seq<Operation<H>>, k: string, r: Route<H>) {
    exists i :: FirstOf(ops, k, r, i)
  }

  ghost predicate FirstOf<H>(ops: seq<Operation<H>>, k: string, r: Route<H>, i: nat) {
    && i < |ops| && ops[i] == Register(k, r)
    && forall j :: 0 <= j < i && ops[j].Register? ==> ops[j].ttype != k
  }

  lemma FirstIsFirst<H>(ops: seq<Operation<H>>, k: string, r: Route<H>, r': Route<H>)
    requires Registers(ops, k, r) && Registers(ops, k, r')
    ensures r == r'
  {
    var i :| FirstOf(ops, k, r, i);
    var j :| FirstOf(ops, k, r', j);
    assert i == j;
  }

  /** The first registration of a type wins, later ones are refused; global middleware adds
      up in order. */
  lemma {:induction false} BuiltMeans<H(!new)>(ops: seq<Operation<H>>, k: string)
    ensures k in Built(ops).routes <==> exists i :: 0 <= i < |ops| && ops[i].Register? && ops[i].ttype == k
    ensures k in Built(ops).routes ==> Registers(ops, k, Built(ops).routes[k])
    ensures Built(ops).globals == Added(ops)
  {
    if ops != [] {
      var init, last := ops[..|ops| - 1], ops[|ops| - 1];
      BuiltMeans(init, k);
      if k in Built(init).routes {
        var i: nat :| FirstOf(init, k, Built(init).routes[k], i);
        assert FirstOf(ops, k, Built(init).routes[k], i);
        assert ops[i].Register? && ops[i].ttype == k;
      } else {
        assert forall j :: 0 <= j < |init| && init[j].Register? ==> init[j].ttype != k;
        assert forall j :: 0 <= j < |init| ==> ops[j] == init[j];
        if last.Register? && last.ttype == k { assert FirstOf(ops, k, last.route, |ops| - 1); }
      }
    }
  }

  lemma BuiltHas<H(!new)>(ops: seq<Operation<H>>, k: string, r: Route<H>)
    ensures (k in Built(ops).routes && Built(ops).routes[k] == r) <==> Registers(ops, k, r)
  {
    BuiltMeans(ops, k);
    if Registers(ops, k, r) {
      var i :| FirstOf(ops, k, r, i);
      assert k in Built(ops).routes;
      FirstIsFirst(ops, k, r, Built(ops).routes[k]);
    }
  }

  /** Two histories whose first registrations agree, in whatever order they come, and that
      add the same middleware, before or after, build the same table and so dispatch alike. */
  lemma OrderIsIrrelevant<H(!new)>(a: seq<Operation<H>>, b: seq<Operation<H>>)
    requires Added(a) == Added(b)
    requires forall k, r :: Registers(a, k, r) <==> Registers(b, k, r)
    ensures Built(a) == Built(b)
  {
    forall k ensures k in Built(a).routes ==> k in Built(b).routes && Built(a).routes[k] == Built(b).routes[k]
      ensures k in Built(b).routes ==> k in Built(a).routes
    {
      if k in Built(a).routes { SameRoute(a, b, k); }
      if k in Built(b).routes { SameRoute(b, a, k); }
    }
    BuiltMeans(a, "");
    BuiltMeans(b, "");
    assert Built(a).routes == Built(b).routes;
  }

  lemma SameRoute<H(!new)>(a: seq<Operation<H>>, b: seq<Operation<H>>, k: string)
    requires k in Built(a).routes && forall r :: Registers(a, k, r) <==> Registers(b, k, r)
    ensures k in Built(b).routes && Built(b).routes[k] == Built(a).routes[k]
  {
    BuiltHas(a, k, Built(a).routes[k]);
    BuiltHas(b, k, Built(a).routes[k]);
  }

  // ---- The router as it is kept ----

  class EntryHandler<H> {
    const ttype: string
    const route: Route<H>
    /** The handler with all middleware applied, rebuilt whenever middleware is added. */
    var combined: H

    constructor (ttype: string, route: Route<H>, combined: H)
      ensures this.ttype == ttype && this.route == route && this.combined == combined
    {
      this.ttype, this.route, this.combined := ttype, route, combined;
    }
  }

  ghost predicate ByLength<H>(s: seq<EntryHandler<H>>) {
    forall i, j :: 0 <= i < j < |s| ==> |s[i].ttype| >= |s[j].ttype|
  }

  function Inserted<H>(s: seq<EntryHandler<H>>, e: EntryHandler<H>): seq<EntryHandler<H>> {
    if s == [] || |s[0].ttype| < |e.ttype| then [e] + s else [s[0]] + Inserted(s[1..], e)
  }

  lemma {:induction false} InsertionIsPermutation<H>(s: seq<EntryHandler<H>>, e: EntryHandler<H>)
    ensures multiset(Inserted(s, e)) == multiset(s) + multiset{e}
  {
    if s != [] && |s[0].ttype| >= |e.ttype| {
      InsertionIsPermutation(s[1..], e);
      assert s == [s[0]] + s[1..];
    }
  }

  lemma {:induction false} InsertionIsSorted<H>(s: seq<EntryHandler<H>>, e: EntryHandler<H>, bound: nat)
    requires ByLength(s) && (forall i :: 0 <= i < |s| ==> |s[i].ttype| <= bound) && |e.ttype| <= bound
    ensures ByLength(Inserted(s, e)) && forall i :: 0 <= i < |Inserted(s, e)| ==> |Inserted(s, e)[i].ttype| <= bound
  {
    if s != [] && |s[0].ttype| >= |e.ttype| {
      InsertionIsSorted(s[1..], e, |s[0].ttype|);
    }
  }

  /** Sorting by descending length; the order of equally long types is not promised. */
  method SortByLength<H>(s: seq<EntryHandler<H>>) returns (r: seq<EntryHandler<H>>)
    ensures multiset(r) == multiset(s) && ByLength(r)
  {
    r := [];
    for k := 0 to |s|
      invariant multiset(r) == multiset(s[..k]) && ByLength(r)
    {
      assert s[..k + 1] == s[..k] + [s[k]];
      InsertionIsPermutation(r, s[k]);
      InsertionIsSorted(r, s[k], if r != [] && |r[0].ttype| > |s[k].ttype| then |r[0].ttype| else |s[k].ttype|);
      r := Inserted(r, s[k]);
    }
    assert s[..|s|] == s;
  }

  lemma SameMembers<T>(a: seq<T>, b: seq<T>, e: T)
    requires multiset(a) == multiset(b + [e])
    ensures forall x :: x in a <==> x in b || x == e
  {
    forall x ensures x in a <==> x in b || x == e {
      assert x in a <==> x in multiset(a);
      assert x in b + [e] <==> x in multiset(b + [e]);
    }
  }

  /** Map and list hold the same entries, each under its own type, the list sorted. */
  ghost predicate Indexed<H>(hf: map<string, EntryHandler<H>>, ehf: seq<EntryHandler<H>>) {
    && ByLength(ehf)
    && (forall k :: k in hf ==> hf[k].ttype == k && hf[k] in ehf)
    && (forall i :: 0 <= i < |ehf| ==> ehf[i].ttype in hf && hf[ehf[i].ttype] == ehf[i])
  }

  lemma IndexGrows<H>(hf: map<string, EntryHandler<H>>, ehf: seq<EntryHandler<H>>, e: EntryHandler<H>,
      sorted: seq<EntryHandler<H>>)
    requires Indexed(hf, ehf) && e.ttype !in hf
    requires multiset(sorted) == multiset(ehf + [e]) && ByLength(sorted)
    ensures Indexed(hf[e.ttype := e], sorted)
    ensures forall i :: 0 <= i < |sorted| ==> sorted[i] in ehf || sorted[i] == e
  {
    SameMembers(sorted, ehf, e);
    forall i | 0 <= i < |sorted|
      ensures sorted[i].ttype in hf[e.ttype := e] && hf[e.ttype := e][sorted[i].ttype] == sorted[i]
    {
      assert sorted[i] in sorted;
      if sorted[i] != e {
        var j :| 0 <= j < |ehf| && ehf[j] == sorted[i];
      }
    }
  }

  ghost function RoutesOf<H>(hf: map<string, EntryHandler<H>>): map<string, Route<H>> {
    map k | k in hf :: hf[k].route
  }

  lemma RoutesGrow<H>(hf: map<string, EntryHandler<H>>, e: EntryHandler<H>)
    ensures RoutesOf(hf[e.ttype := e]) == RoutesOf(hf)[e.ttype := e.route]
  {
  }

  datatype RegisterError = NoError | InvalidMiddleware | DuplicateHandler

  predicate AnyNil<H>(mws: seq<Option<H -> H>>) {
    exists i :: 0 <= i < |mws| && mws[i].None?
  }

  method HasNil<H>(mws: seq<Option<H -> H>>) returns (bad: bool)
    ensures bad == AnyNil(mws)
  {
    for i := 0 to |mws|
      invariant forall j :: 0 <= j < i ==> mws[j].Some?
    {
      if mws[i].None? {
        return true;
      }
    }
    bad := false;
  }

  function Values<H>(mws: seq<Option<H -> H>>): (r: seq<H -> H>)
    requires !AnyNil(mws)
    ensures |r| == |mws| && forall i :: 0 <= i < |mws| ==> mws[i] == Some(r[i])
  {
    seq(|mws|, i requires 0 <= i < |mws| => mws[i].value)
  }

  class Router<H(!new)> {
    var hf: map<string, EntryHandler<H>>
    var ehf: seq<EntryHandler<H>>
    var mws: seq<H -> H>

    /** Map and list share the same entries, the list is sorted by descending length of
        type, and every cached chain is the full chain of its entry. */
    ghost predicate Valid()
      reads this, ehf
    {
      && Indexed(hf, ehf)
      && (forall i :: 0 <= i < |ehf| ==> ehf[i].combined == Full(mws, ehf[i].route))
    }

    ghost function View(): Table<H>
      reads this
    {
      Table(RoutesOf(hf), mws)
    }

    constructor ()
      ensures Valid() && View() == Table(map[], []) && ehf == []
    {
      hf, ehf, mws := map[], [], [];
    }

    /** `buildChain`: route middleware innermost, then the global middleware. */
    method BuildChain(r: Route<H>) returns (h: H)
      ensures h == Full(mws, r)
      ensures exists hs :: Layers(hs, mws + r.mws, r.h) && hs[0] == h
    {
      ghost var layers := FullMeans(mws, r);
      h := r.h;
      var i := |r.mws|;
      while i > 0
        invariant 0 <= i <= |r.mws|
        invariant h == Wrap(r.mws[i..], r.h)
      {
        i := i - 1;
        assert r.mws[i..][1..] == r.mws[i + 1..];
        h := r.mws[i](h);
      }
      assert r.mws[0..] == r.mws;
      i := |mws|;
      while i > 0
        invariant 0 <= i <= |mws|
        invariant h == Wrap(mws[i..], Wrap(r.mws, r.h))
      {
        i := i - 1;
        assert mws[i..][1..] == mws[i + 1..];
        h := mws[i](h);
      }
      assert mws[0..] == mws;
    }

    /** Exact match first, then the first prefix in the list: together the longest
        registered prefix, or nothing exactly when no registered type is a prefix. */
    method Handler(ttype: string) returns (found: Option<H>)
      requires Valid()
      ensures Dispatches(View(), ttype, found)
    {
      ghost var keys := View().routes.Keys;
      if ttype in hf {
        assert LongestPrefix(keys, ttype, ttype);
        return Some(hf[ttype].combined);
      }
      for i := 0 to |ehf|
        invariant forall j :: 0 <= j < i ==> !(ehf[j].ttype <= ttype)
      {
        if ehf[i].ttype <= ttype {
          assert LongestPrefix(keys, ttype, ehf[i].ttype) by {
            forall k | k in keys && k <= ttype ensures |k| <= |ehf[i].ttype| {
              var j :| 0 <= j < |ehf| && ehf[j] == hf[k];
            }
          }
          return Some(ehf[i].combined);
        }
      }
      found := None;
      forall k | k in View().routes ensures !(k <= ttype) {
        var j :| 0 <= j < |ehf| && ehf[j] == hf[k];
      }
    }

    /** Every cached chain built again, in whatever order the map is gone through. */
    method Rewrap()
      requires Indexed(hf, ehf)
      modifies ehf
      ensures Valid()
    {
      var todo := hf.Keys;
      while todo != {}
        invariant todo <= hf.Keys
        invariant forall i :: 0 <= i < |ehf| && ehf[i].ttype !in todo ==> ehf[i].combined == Full(mws, ehf[i].route)
        decreases todo
      {
        var k :| k in todo;
        var h := BuildChain(hf[k].route);
        hf[k].combined := h;
        todo := todo - {k};
      }
    }

    method Use(more: seq<Option<H -> H>>) returns (err: RegisterError)
      requires Valid()
      modifies this`mws, ehf
      ensures Valid() && ehf == old(ehf)
      ensures err == if AnyNil(more) then InvalidMiddleware else NoError
      ensures View() == if AnyNil(more) then old(View()) else Using(old(View()), Values(more))
    {
      var bad := HasNil(more);
      if bad {
        return InvalidMiddleware;
      }
      err := NoError;
      mws := mws + Values(more);
      Rewrap();
    }

    method HandleFunc(ttype: string, h: H, more: seq<Option<H -> H>>) returns (err: RegisterError)
      requires Valid()
      modifies this`hf, this`ehf
      ensures Valid() && mws == old(mws) && forall e :: e in ehf ==> e in old(ehf) || fresh(e)
      ensures err == if AnyNil(more) then InvalidMiddleware else if ttype in old(hf) then DuplicateHandler else NoError
      ensures View() == if err.NoError? then Registered(old(View()), ttype, Route(h, Values(more))) else old(View())
    {
      var bad := HasNil(more);
      if bad {
        return InvalidMiddleware;
      }
      if ttype in hf {
        return DuplicateHandler;
      }
      var route := Route(h, Values(more));
      var combined := BuildChain(route);
      var e := new EntryHandler(ttype, route, combined);
      var sorted := SortByLength(ehf + [e]);
      IndexGrows(hf, ehf, e, sorted);
      RoutesGrow(hf, e);
      hf := hf[ttype := e];
      ehf := sorted;
      err := NoError;
    }
  }

  function Present<H>(mws: seq<H -> H>): (r: seq<Option<H -> H>>)
    ensures !AnyNil(r) && Values(r) == mws
  {
    seq(|mws|, i requires 0 <= i < |mws| => Some(mws[i]))
  }

  /** A router on which a history of calls was made, refused ones included, routes as the
      table built from that history. */
  method Replay<H(!new)>(ops: seq<Operation<H>>) returns (m: Router<H>)
    ensures fresh(m) && m.Valid() && m.View() == Built(ops)
  {
    m := new Router();
    for i := 0 to |ops|
      invariant fresh(m) && fresh(m.ehf) && m.Valid() && m.View() == Built(ops[..i])
    {
      assert ops[..i + 1][..i] == ops[..i];
      match ops[i] {
        case Register(ttype, r) => var _ := m.HandleFunc(ttype, r.h, Present(r.mws));
        case AddMiddleware(mws) => var _ := m.Use(Present(mws));
      }
    }
    assert ops[..|ops|] == ops;
  }
}
