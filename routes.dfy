/**
 * How Express picks the handler for a GET request on the catalog: the
 * routes are tried in the order app.js registers them and the first whose
 * pattern matches the path handles the request. A path is given as its
 * segments ("/products/7" is ["products", "7"]).
 */
module Routes {
  import opened Wrappers

  /** A pattern segment: a literal, or a parameter such as `:id` that matches any segment. */
  datatype Segment = Lit(text: string) | Param

  datatype Endpoint = ListProducts | ProductById | FilterProducts

  datatype Route = Route(pattern: seq<Segment>, endpoint: Endpoint)

  predicate Matches(pattern: seq<Segment>, path: seq<string>)
  {
    |pattern| == |path| && forall i :: 0 <= i < |path| && pattern[i].Lit? ==> pattern[i].text == path[i]
  }

  /** Route `i` is the first of `routes` whose pattern matches `path`. */
  predicate FirstMatch(routes: seq<Route>, path: seq<string>, i: int)
  {
    0 <= i < |routes| && Matches(routes[i].pattern, path) &&
    forall j :: 0 <= j < i ==> !Matches(routes[j].pattern, path)
  }

  /** The endpoint that handles `path`; `None` when no route matches. */
  function Dispatch(routes: seq<Route>, path: seq<string>): (r: Option<Endpoint>)
    ensures r.Some? ==> exists i :: FirstMatch(routes, path, i) && routes[i].endpoint == r.value
    ensures r.None? ==> forall i :: 0 <= i < |routes| ==> !Matches(routes[i].pattern, path)
    decreases |routes|
  {
    if |routes| == 0 then None
    else if Matches(routes[0].pattern, path) then
      assert FirstMatch(routes, path, 0);
      Some(routes[0].endpoint)
    else
      var r := Dispatch(routes[1..], path);
      if r.Some? then
        var i :| FirstMatch(routes[1..], path, i) && routes[1..][i].endpoint == r.value;
        assert FirstMatch(routes, path, i + 1);
        r
      else r
  }

  const ListRoute := Route([Lit("products")], ListProducts)
  const ByIdRoute := Route([Lit("products"), Param], ProductById)
  const FilterRoute := Route([Lit("products"), Lit("filter")], FilterProducts)

  /** The GET routes in the order app.js registers them. */
  const Registered: seq<Route> := [ListRoute, ByIdRoute, FilterRoute]

  /** The same routes with the literal filter path registered before the `:id` pattern. */
  const Reordered: seq<Route> := [ListRoute, FilterRoute, ByIdRoute]

  /** Only one path matches the literal filter pattern. */
  lemma MatchesFilterRoute(path: seq<string>)
    ensures Matches(FilterRoute.pattern, path) <==> path == ["products", "filter"]
  {
    if Matches(FilterRoute.pattern, path) {
      assert path[0] == "products" && path[1] == "filter";
    }
  }

  /** As registered, no path ever reaches the filter handler: `:id` takes every two-segment path first. */
  lemma FilterUnreachableAsRegistered(path: seq<string>)
    ensures Dispatch(Registered, path) != Some(FilterProducts)
  {
    assert Registered[1..] == [ByIdRoute, FilterRoute];
    assert Registered[1..][1..] == [FilterRoute];
    if !Matches(ListRoute.pattern, path) && !Matches(ByIdRoute.pattern, path) {
      assert !Matches(FilterRoute.pattern, path);
    }
  }

  /** The documented filter URL is handled as a product lookup with id "filter". */
  lemma FilterPathGoesToLookup()
    ensures Dispatch(Registered, ["products", "filter"]) == Some(ProductById)
  {
    var path := ["products", "filter"];
    assert !Matches(ListRoute.pattern, path);
    assert Registered[1..] == [ByIdRoute, FilterRoute];
  }

  /** Reordered, the filter URL reaches the filter handler. */
  lemma ReorderedReachesFilter()
    ensures Dispatch(Reordered, ["products", "filter"]) == Some(FilterProducts)
  {
    var path := ["products", "filter"];
    assert !Matches(ListRoute.pattern, path);
    assert Reordered[1..] == [FilterRoute, ByIdRoute];
  }

  /** Reordering changes the handler of no other path. */
  lemma ReorderedKeepsOtherPaths(path: seq<string>)
    requires path != ["products", "filter"]
    ensures Dispatch(Reordered, path) == Dispatch(Registered, path)
  {
    MatchesFilterRoute(path);
    assert Registered[1..] == [ByIdRoute, FilterRoute];
    assert Registered[1..][1..] == [FilterRoute];
    assert Reordered[1..] == [FilterRoute, ByIdRoute];
    assert Reordered[1..][1..] == [ByIdRoute];
  }

  lemma MatchesListRoute(path: seq<string>)
    ensures Matches(ListRoute.pattern, path) <==> path == ["products"]
  {
    if Matches(ListRoute.pattern, path) {
      assert path[0] == "products";
    }
  }

  lemma MatchesByIdRoute(path: seq<string>)
    ensures Matches(ByIdRoute.pattern, path) <==> |path| == 2 && path[0] == "products"
  {
  }

  /** The reordered table in full: each catalog URL reaches its own handler. */
  lemma ReorderedDispatch(path: seq<string>)
    ensures Dispatch(Reordered, path) ==
      if path == ["products"] then Some(ListProducts)
      else if path == ["products", "filter"] then Some(FilterProducts)
      else if |path| == 2 && path[0] == "products" then Some(ProductById)
      else None
  {
    MatchesListRoute(path);
    MatchesFilterRoute(path);
    MatchesByIdRoute(path);
    var rest := Reordered[1..];
    assert rest == [FilterRoute, ByIdRoute];
    assert rest[1..] == [ByIdRoute];
    assert rest[1..][1..] == [];
    if path == ["products"] {
      assert Dispatch(Reordered, path) == Some(ListProducts);
    } else {
      assert Dispatch(Reordered, path) == Dispatch(rest, path);
      if path == ["products", "filter"] {
        assert Dispatch(rest, path) == Some(FilterProducts);
      } else {
        assert Dispatch(rest, path) == Dispatch(rest[1..], path);
      }
    }
  }
}
