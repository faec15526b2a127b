/** The URL builders of the five app entry files (`mapUrl`, `statsUrl`,
    `searchUrl` in `App.jsx`, `AppFinal.jsx`, `AppSimple.jsx`, `AppWithAuth.jsx`
    and `SimpleApp.jsx`).

    Each one starts from `new URL(API_BASE + path)`, sets every parameter whose
    value is truthy, then sets a fixed `size` for `/map` and `/search` (none for
    `/stats`). Unlike `buildQs`, the truthiness test also drops `0` and `false`. */
module EndpointUrls {
  import opened Wrappers
  import opened JsObject
  import opened QueryString

  datatype AppVariant = App | AppFinal | AppSimple | AppWithAuth | SimpleApp

  datatype Endpoint = MapEndpoint | StatsEndpoint | SearchEndpoint

  function PathOf(e: Endpoint): string {
    match e
    case MapEndpoint => "/map"
    case StatsEndpoint => "/stats"
    case SearchEndpoint => "/search"
  }

  /** The `size` each app forces on each endpoint. */
  function FixedSize(app: AppVariant, e: Endpoint): Option<string> {
    match e
    case StatsEndpoint => None
    case MapEndpoint => if app == AppFinal then Some("5000") else Some("500")
    case SearchEndpoint => if app == AppFinal then Some("500") else Some("10")
  }

  /** The pairs of `url.searchParams` once the builder has run. */
  function EndpointQuery(params: seq<(string, JsValue)>, size: Option<string>): seq<(string, string)> {
    var copied := Spread([], Kept(params, Truthy));
    match size
    case Some(s) => Assign(copied, "size", s)
    case None => copied
  }

  /** One `useMemo` builder: the truthy copy loop, then `set('size', …)`. */
  method DeriveQuery(params: seq<(string, JsValue)>, size: Option<string>) returns (q: seq<(string, string)>)
    ensures q == EndpointQuery(params, size)
  {
    q := SetKept(params, Truthy);
    if size.Some? {
      q := Assign(q, "size", size.value);
    }
  }

  /** `url.toString()`: the `?` is written only when the query is not empty. */
  function UrlString(base: string, path: string, q: seq<(string, string)>): string {
    base + path + (if q == [] then "" else "?" + Serialize(q))
  }

  function EndpointUrl(app: AppVariant, e: Endpoint, base: string, params: seq<(string, JsValue)>): string {
    UrlString(base, PathOf(e), EndpointQuery(params, FixedSize(app, e)))
  }

  // ---------------------------------------------------------------------

  /** A parameter reaches the URL exactly when its value is truthy, as `String(v)`;
      `size` is the fixed value whatever the parameters hold. */
  lemma EndpointQueryGet(params: seq<(string, JsValue)>, size: Option<string>, k: string)
    requires DistinctKeys(params)
    ensures DistinctKeys(EndpointQuery(params, size))
    ensures size.Some? && k == "size" ==> Get(EndpointQuery(params, size), k) == size
    ensures size.None? || k != "size" ==> Get(EndpointQuery(params, size), k) == Selected(Get(params, k), Truthy)
  {
    var kept := Kept(params, Truthy);
    KeptDistinct(params, Truthy);
    SpreadOntoEmpty(kept);
    KeptGet(params, k, Truthy);
    if size.Some? {
      AssignGet(kept, "size", size.value, k);
      AssignKeys(kept, "size", size.value);
    }
  }

  /** When the parameters have no `size` key, `size` is the last pair of the query. */
  lemma SizeIsLast(params: seq<(string, JsValue)>, s: string)
    requires DistinctKeys(params) && "size" !in Keys(params)
    ensures EndpointQuery(params, Some(s)) == Kept(params, Truthy) + [("size", s)]
  {
    var kept := Kept(params, Truthy);
    KeptDistinct(params, Truthy);
    KeptKeys(params, Truthy);
    SpreadOntoEmpty(kept);
    AppendNew(kept, "size", s);
  }

  /** The two query builders disagree on zero: `buildQs` keeps `toneMin: 0`, the
      app builders drop it. */
  lemma ZeroDroppedByApps(k: string)
    requires k != "size"
    ensures Get(EndpointQuery([(k, Num(0))], Some("500")), k) == None
    ensures Get(QsPairs([(k, Num(0))]), k) == Some("0")
  {
    EndpointQueryGet([(k, Num(0))], Some("500"), k);
    ZeroIsKept(k);
  }

  /** With only falsy parameters the stats URL has no `?` at all, while
      `buildStatsUrl` of `src/api/index.ts` still ends in `?`. */
  lemma FalsyParamsStatsUrl(app: AppVariant, base: string, params: seq<(string, JsValue)>)
    requires forall i :: 0 <= i < |params| ==> !Truthy(params[i].1)
    ensures EndpointUrl(app, StatsEndpoint, base, params) == base + "/stats"
  {
    KeptEmpty(params, Truthy);
  }

  /** Each app's map and search URLs carry its fixed size; stats carries none
      unless the parameters themselves hold a truthy `size`. */
  lemma AppSizes(params: seq<(string, JsValue)>)
    requires DistinctKeys(params)
    ensures Get(EndpointQuery(params, FixedSize(AppFinal, MapEndpoint)), "size") == Some("5000")
    ensures Get(EndpointQuery(params, FixedSize(AppFinal, SearchEndpoint)), "size") == Some("500")
    ensures forall app :: app != AppFinal ==>
      Get(EndpointQuery(params, FixedSize(app, MapEndpoint)), "size") == Some("500") &&
      Get(EndpointQuery(params, FixedSize(app, SearchEndpoint)), "size") == Some("10")
    ensures "size" !in Keys(params) ==>
      forall app :: "size" !in Keys(EndpointQuery(params, FixedSize(app, StatsEndpoint)))
  {
    EndpointQueryGet(params, Some("5000"), "size");
    EndpointQueryGet(params, Some("500"), "size");
    EndpointQueryGet(params, Some("10"), "size");
    EndpointQueryGet(params, None, "size");
    GetNone(params, "size");
    GetNone(EndpointQuery(params, None), "size");
  }
}
