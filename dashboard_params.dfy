/** The `params` state of each app's dashboard component and the handlers
    that update it.

    `App.jsx`, `AppFinal.jsx` and `AppSimple.jsx` merge the toolbar's fields into
    the previous object (`{ ...prev, gte, lte, bbox, q }`); `AppWithAuth.jsx`
    replaces the object with exactly those four keys; every app merges a new
    `bbox` when the map stops moving; `SimpleApp.jsx` has no query at all and
    merges its two date inputs. */
module DashboardParams {
  import opened Wrappers
  import opened JsObject
  import opened QueryString
  import opened EndpointUrls
  import SearchQuery

  /** The object each app's `useState({...})` starts from. */
  function InitialParams(app: AppVariant): seq<(string, JsValue)> {
    match app
    case AppFinal =>
      [("gte", Str("2015-01-01")), ("lte", Str("2015-12-31")), ("bbox", Str("-180,-90,180,90")), ("q", Str(""))]
    case SimpleApp =>
      [("gte", Str("2015-02-23")), ("lte", Str("2015-02-25")), ("bbox", Str("70,15,135,55"))]
    case _ =>
      [("gte", Str("2015-02-23")), ("lte", Str("2015-02-25")), ("bbox", Str("70,15,135,55")), ("q", Str(""))]
  }

  /** The object literal `{ gte, lte, bbox, q }`. */
  function SearchEntries(gte: string, lte: string, bbox: string, q: string): seq<(string, JsValue)> {
    [("gte", Str(gte)), ("lte", Str(lte)), ("bbox", Str(bbox)), ("q", Str(q))]
  }

  /** `prev => ({ ...prev, gte, lte, bbox, q })`. */
  function MergeSearch(prev: seq<(string, JsValue)>, gte: string, lte: string, bbox: string, q: string): seq<(string, JsValue)> {
    Spread(prev, SearchEntries(gte, lte, bbox, q))
  }

  /** `prev => ({ ...prev, [k]: v })`: the map move (`bbox`) and the date inputs. */
  function With(prev: seq<(string, JsValue)>, k: string, v: string): seq<(string, JsValue)> {
    Spread(prev, [(k, Str(v))])
  }

  class Dashboard {
    const app: AppVariant
    var params: seq<(string, JsValue)>

    /** The params object is an object (one entry per key), and `SimpleApp`
        never has a `q`. */
    ghost predicate Valid()
      reads this
    {
      DistinctKeys(params) && (app == SimpleApp ==> "q" !in Keys(params))
    }

    constructor (app: AppVariant)
      ensures this.app == app && params == InitialParams(app)
      ensures Valid()
    {
      this.app := app;
      params := InitialParams(app);
    }

    /** The toolbar's `handleSearch` in `App.jsx`, `AppFinal.jsx` and `AppSimple.jsx`. */
    method HandleSearch(gte: string, lte: string, bbox: string,
                        searchType: string, searchValue: string, country: string, actor: string)
      returns (q: string)
      requires Valid() && (app == App || app == AppFinal || app == AppSimple)
      modifies this
      ensures q == SearchQuery.Query(searchType, searchValue, country, actor)
      ensures params == MergeSearch(old(params), gte, lte, bbox, q)
      ensures Valid()
    {
      q := SearchQuery.BuildQuery(searchType, searchValue, country, actor);
      SpreadDistinct(params, SearchEntries(gte, lte, bbox, q));
      params := Spread(params, [("gte", Str(gte)), ("lte", Str(lte)), ("bbox", Str(bbox)), ("q", Str(q))]);
    }

    /** The toolbar's `handleSearch` in `AppWithAuth.jsx`: one clause, then a
        fresh object. */
    method AuthHandleSearch(gte: string, lte: string, bbox: string,
                            searchType: string, searchValue: string, country: string, actor: string)
      requires Valid() && app == AppWithAuth
      modifies this
      ensures params == SearchEntries(gte, lte, bbox, SearchQuery.AuthQuery(searchType, searchValue, country, actor))
      ensures Valid()
    {
      var searchQuery := "";
      if searchType == "theme" && searchValue != "" {
        searchQuery := searchValue;
      } else if searchType == "country" && country != "" {
        searchQuery := "country:" + country;
      } else if searchType == "actor" && actor != "" {
        searchQuery := "actor:" + actor;
      }
      params := [("gte", Str(gte)), ("lte", Str(lte)), ("bbox", Str(bbox)), ("q", Str(searchQuery))];
    }

    /** `handleMapMove` (and `SimpleApp`'s inline `MapMoveHandler` callback). */
    method HandleMapMove(bbox: string)
      requires Valid()
      modifies this
      ensures params == With(old(params), "bbox", bbox)
      ensures Valid()
    {
      SpreadDistinct(params, [("bbox", Str(bbox))]);
      params := Spread(params, [("bbox", Str(bbox))]);
    }

    /** `SimpleApp`'s Start Date input. */
    method SetStartDate(value: string)
      requires Valid() && app == SimpleApp
      modifies this
      ensures params == With(old(params), "gte", value)
      ensures Valid()
    {
      SpreadDistinct(params, [("gte", Str(value))]);
      params := Spread(params, [("gte", Str(value))]);
    }

    /** `SimpleApp`'s End Date input. */
    method SetEndDate(value: string)
      requires Valid() && app == SimpleApp
      modifies this
      ensures params == With(old(params), "lte", value)
      ensures Valid()
    {
      SpreadDistinct(params, [("lte", Str(value))]);
      params := Spread(params, [("lte", Str(value))]);
    }
  }

  // ---------------------------------------------------------------------
  // What the updates keep and change

  /** A search sets the four toolbar keys and leaves every other key as it was. */
  lemma MergeSearchGet(prev: seq<(string, JsValue)>, gte: string, lte: string, bbox: string, q: string, k: string)
    ensures Get(MergeSearch(prev, gte, lte, bbox, q), k) ==
      if k == "gte" then Some(Str(gte))
      else if k == "lte" then Some(Str(lte))
      else if k == "bbox" then Some(Str(bbox))
      else if k == "q" then Some(Str(q))
      else Get(prev, k)
  {
    SearchEntriesShape(gte, lte, bbox, q, k);
    SpreadGet(prev, SearchEntries(gte, lte, bbox, q), k);
  }

  lemma SearchEntriesShape(gte: string, lte: string, bbox: string, q: string, k: string)
    ensures Keys(SearchEntries(gte, lte, bbox, q)) == ["gte", "lte", "bbox", "q"]
    ensures DistinctKeys(SearchEntries(gte, lte, bbox, q))
    ensures Get(SearchEntries(gte, lte, bbox, q), k) ==
      if k == "gte" then Some(Str(gte))
      else if k == "lte" then Some(Str(lte))
      else if k == "bbox" then Some(Str(bbox))
      else if k == "q" then Some(Str(q))
      else None
  {
    var e := SearchEntries(gte, lte, bbox, q);
    assert Keys(e) == ["gte", "lte", "bbox", "q"];
    assert e[1..] == [("lte", Str(lte)), ("bbox", Str(bbox)), ("q", Str(q))];
    assert e[2..] == [("bbox", Str(bbox)), ("q", Str(q))];
    assert e[3..] == [("q", Str(q))];
    assert e[4..] == [];
    assert Get(e[3..], k) == if k == "q" then Some(Str(q)) else None;
    assert Get(e[2..], k) == if k == "bbox" then Some(Str(bbox)) else Get(e[3..], k);
    assert Get(e[1..], k) == if k == "lte" then Some(Str(lte)) else Get(e[2..], k);
  }

  /** A search on an object that already holds the four keys adds none and
      keeps the key order. */
  lemma MergeSearchKeys(prev: seq<(string, JsValue)>, gte: string, lte: string, bbox: string, q: string)
    requires DistinctKeys(prev)
    requires "gte" in Keys(prev) && "lte" in Keys(prev) && "bbox" in Keys(prev) && "q" in Keys(prev)
    ensures Keys(MergeSearch(prev, gte, lte, bbox, q)) == Keys(prev)
  {
    SearchEntriesShape(gte, lte, bbox, q, "");
    SpreadExistingKeys(prev, SearchEntries(gte, lte, bbox, q));
  }

  /** On an object with exactly the keys `gte`, `lte`, `bbox`, `q` (the initial
      params of every app but `SimpleApp`), merging and `AppWithAuth`'s
      replacement give the same object. */
  lemma MergeAgreesWithReplace(prev: seq<(string, JsValue)>, gte: string, lte: string, bbox: string, q: string)
    requires Keys(prev) == ["gte", "lte", "bbox", "q"]
    ensures MergeSearch(prev, gte, lte, bbox, q) == SearchEntries(gte, lte, bbox, q)
  {
    var m, e := MergeSearch(prev, gte, lte, bbox, q), SearchEntries(gte, lte, bbox, q);
    assert DistinctKeys(m) && DistinctKeys(e) && Keys(m) == Keys(e) by {
      SearchEntriesShape(gte, lte, bbox, q, "");
      assert DistinctKeys(prev);
      MergeSearchKeys(prev, gte, lte, bbox, q);
      SpreadDistinct(prev, e);
    }
    forall k ensures Get(m, k) == Get(e, k) {
      MergeReplaceGet(prev, gte, lte, bbox, q, k);
    }
    EntriesEqual(m, e);
  }

  lemma MergeReplaceGet(prev: seq<(string, JsValue)>, gte: string, lte: string, bbox: string, q: string, k: string)
    requires Keys(prev) == ["gte", "lte", "bbox", "q"]
    ensures Get(MergeSearch(prev, gte, lte, bbox, q), k) == Get(SearchEntries(gte, lte, bbox, q), k)
  {
    MergeSearchGet(prev, gte, lte, bbox, q, k);
    SearchEntriesShape(gte, lte, bbox, q, k);
    if k != "gte" && k != "lte" && k != "bbox" && k != "q" {
      assert k !in Keys(prev);
      GetNone(prev, k);
    }
  }

  /** Only the last of several map moves (or date edits) counts. */
  lemma WithTwice(prev: seq<(string, JsValue)>, k: string, a: string, b: string)
    requires DistinctKeys(prev)
    ensures With(With(prev, k, a), k, b) == With(prev, k, b)
  {
    SpreadOne(prev, k, Str(a));
    SpreadOne(With(prev, k, a), k, Str(b));
    SpreadOne(prev, k, Str(b));
    AssignTwice(prev, k, Str(a), Str(b));
  }

  /** A map move changes `bbox` and nothing else. */
  lemma WithGet(prev: seq<(string, JsValue)>, k: string, v: string, j: string)
    ensures Get(With(prev, k, v), j) == if j == k then Some(Str(v)) else Get(prev, j)
  {
    SpreadOne(prev, k, Str(v));
    AssignGet(prev, k, Str(v), j);
  }

  // ---------------------------------------------------------------------
  // What reaches the URLs

  /** `SimpleApp` never sends `q`: its params have none and no handler adds one. */
  lemma SimpleAppSendsNoQuery(d: Dashboard, e: Endpoint)
    requires d.Valid() && d.app == SimpleApp
    ensures Get(EndpointQuery(d.params, FixedSize(SimpleApp, e)), "q") == None
  {
    EndpointQueryGet(d.params, FixedSize(SimpleApp, e), "q");
    GetNone(d.params, "q");
  }

  /** The initial `q: ""` is falsy, so no app sends `q` before the first search. */
  lemma InitialUrlsHaveNoQuery(app: AppVariant, e: Endpoint)
    ensures Get(EndpointQuery(InitialParams(app), FixedSize(app, e)), "q") == None
  {
    var p := InitialParams(app);
    assert DistinctKeys(p);
    EndpointQueryGet(p, FixedSize(app, e), "q");
    if app == SimpleApp {
      assert Keys(p) == ["gte", "lte", "bbox"];
      GetNone(p, "q");
    } else {
      GetAt(p, 3);
    }
  }

  /** The truthy entries of `App.jsx`'s initial params: all but the empty `q`. */
  lemma InitialKept()
    ensures Kept(InitialParams(App), Truthy) == [("gte", "2015-02-23"), ("lte", "2015-02-25"), ("bbox", "70,15,135,55")]
  {
    var p := InitialParams(App);
    var kept := [("gte", "2015-02-23"), ("lte", "2015-02-25"), ("bbox", "70,15,135,55")];
    var p1 := p[1..];
    var p2 := p1[1..];
    var p3 := p2[1..];
    assert p3 == [("q", Str(""))] && p3[1..] == [];
    assert Kept(p3, Truthy) == [];
    assert Kept(p2, Truthy) == kept[2..];
    assert Kept(p1, Truthy) == kept[1..];
  }

  /** The first map URL of `App.jsx`: the three initial keys, then the size. */
  lemma InitialMapQuery()
    ensures EndpointQuery(InitialParams(App), FixedSize(App, MapEndpoint)) ==
      [("gte", "2015-02-23"), ("lte", "2015-02-25"), ("bbox", "70,15,135,55"), ("size", "500")]
  {
    var p := InitialParams(App);
    InitialKept();
    assert Keys(p) == ["gte", "lte", "bbox", "q"];
    SizeIsLast(p, "500");
  }

  /** A search with no applicable clause stores `q: ""`, which the URLs then drop;
      any applicable clause is sent as `q`. */
  lemma SearchQueryReachesUrl(prev: seq<(string, JsValue)>, app: AppVariant, e: Endpoint,
                              gte: string, lte: string, bbox: string,
                              searchType: string, searchValue: string, country: string, actor: string)
    requires DistinctKeys(prev)
    ensures var q := SearchQuery.Query(searchType, searchValue, country, actor);
      var sent := Get(EndpointQuery(MergeSearch(prev, gte, lte, bbox, q), FixedSize(app, e)), "q");
      (sent == None <==> (searchType == "" || searchValue == "") && country == "" && actor == "") &&
      (sent != None ==> sent == Some(q))
  {
    var q := SearchQuery.Query(searchType, searchValue, country, actor);
    var m := MergeSearch(prev, gte, lte, bbox, q);
    SpreadDistinct(prev, SearchEntries(gte, lte, bbox, q));
    EndpointQueryGet(m, FixedSize(app, e), "q");
    MergeSearchGet(prev, gte, lte, bbox, q, "q");
    SearchQuery.QueryEmptyIff(searchType, searchValue, country, actor);
  }
}
