/**
 * The L2 data-mapping API client (src/services/l2Api.ts): the application-id check
 * made when the client is built, the decoding of estimate and search responses, and
 * the estimate-then-search flow with its cache short-circuits and limit cap.
 *
 * HTTP is a parameter `server` from request to reply; the shared cache is the
 * client's `cache`; `Date.now()` is the parameter `now`; `JSON.stringify` is the
 * parameter `stringify`.
 */
module L2Api {
  import opened Wrappers
  import opened JsonValue
  import Cache

  const DefaultApp: string := "COM_US"
  /** Estimates are cached for ten minutes, search results (and empty results) for five. */
  const EstimateTtl: int := 10 * 60 * 1000
  const SearchTtl: int := 5 * 60 * 1000
  /** The largest `limit` the JSON search format accepts. */
  const MaxJsonLimit: int := 500
  /** How long the search endpoint is asked to wait, in milliseconds. */
  const WaitMs: int := 30000

  datatype Config = Config(customer: string, apiKey: string, app: string)

  /** The errors the client throws; message formatting is not modelled, only what goes into it. */
  datatype L2Error =
    | InvalidApp(app: string)                // the constructor's check
    | MissingConfig                          // customer, key or app is empty
    | ApiFail(message: Json, code: Json)     // a body with `result: "fail"`
    | RequestFailed(status: int, statusText: string)
    | InvalidEstimate(data: Json)            // no numeric total in the estimate body
    | Network                                // an error without a response, rethrown as is

  // ---- configuration -----------------------------------------------------

  /** `s.includes(sub)`. */
  predicate Includes(s: string, sub: string)
    decreases |s|
  {
    (|sub| <= |s| && s[..|sub|] == sub) || (|s| > 0 && Includes(s[1..], sub))
  }

  /** `sub` occurs in `s` at offset `i`. */
  predicate OccursAt(s: string, sub: string, i: int) {
    0 <= i && i + |sub| <= |s| && s[i..i + |sub|] == sub
  }

  lemma {:induction false} IncludesIffOccurs(s: string, sub: string)
    ensures Includes(s, sub) <==> exists i :: OccursAt(s, sub, i)
    decreases |s|
  {
    if |s| > 0 {
      IncludesIffOccurs(s[1..], sub);
      if exists i :: OccursAt(s, sub, i) {
        var i :| OccursAt(s, sub, i);
        if i > 0 {
          assert OccursAt(s[1..], sub, i - 1);
        }
      }
      if exists i :: OccursAt(s[1..], sub, i) {
        var i :| OccursAt(s[1..], sub, i);
        assert OccursAt(s, sub, i + 1);
      }
      if |sub| <= |s| && s[..|sub|] == sub {
        assert OccursAt(s, sub, 0);
      }
    } else if |sub| == 0 {
      assert OccursAt(s, sub, 0);
    }
  }

  lemma {:induction false} TooLongNotIncluded(s: string, sub: string)
    requires |sub| > |s|
    ensures !Includes(s, sub)
    decreases |s|
  {
    if |s| > 0 {
      TooLongNotIncluded(s[1..], sub);
    }
  }

  /** An application id that looks like a URL or names the API host. */
  predicate LooksLikeUrl(app: string) {
    Includes(app, "http://") || Includes(app, "https://") || Includes(app, "api.l2datamapping.com")
  }

  /** `import.meta.env.X || fallback`: an unset or empty variable gives the fallback. */
  function EnvOr(v: Option<string>, fallback: string): (s: string)
    ensures v.Some? && v.value != "" ==> s == v.value
    ensures v.None? || v.value == "" ==> s == fallback
  {
    if v.Some? && v.value != "" then v.value else fallback
  }

  /** The constructor: the application id defaults to COM_US and must not be a URL. */
  function LoadConfig(envApp: Option<string>, envCustomer: Option<string>, envKey: Option<string>): (r: Result<Config, L2Error>)
    ensures r.Failure? <==> LooksLikeUrl(EnvOr(envApp, DefaultApp))
    ensures r.Failure? ==> r.error == InvalidApp(EnvOr(envApp, DefaultApp))
    ensures r.Success? ==> r.value == Config(EnvOr(envCustomer, ""), EnvOr(envKey, ""), EnvOr(envApp, DefaultApp))
  {
    var app := EnvOr(envApp, DefaultApp);
    if LooksLikeUrl(app) then Failure(InvalidApp(app))
    else Success(Config(EnvOr(envCustomer, ""), EnvOr(envKey, ""), app))
  }

  /** With no application id configured the client uses COM_US. */
  lemma DefaultAppAccepted(envCustomer: Option<string>, envKey: Option<string>)
    ensures LoadConfig(None, envCustomer, envKey).Success?
    ensures LoadConfig(None, envCustomer, envKey).value.app == DefaultApp
    ensures LoadConfig(Some(""), envCustomer, envKey) == LoadConfig(None, envCustomer, envKey)
  {
    TooLongNotIncluded(DefaultApp, "http://");
    TooLongNotIncluded(DefaultApp, "https://");
    TooLongNotIncluded(DefaultApp, "api.l2datamapping.com");
  }

  /** Any application id containing the API's base URL is refused, wherever it occurs. */
  lemma UrlAppRejected(prefix: string, suffix: string, envCustomer: Option<string>, envKey: Option<string>)
    ensures LoadConfig(Some(prefix + "https://api.l2datamapping.com" + suffix), envCustomer, envKey).Failure?
  {
    var host := "https://api.l2datamapping.com";
    var app := prefix + host + suffix;
    assert app == prefix + (host + suffix);
    assert app[|prefix|..] == host + suffix;
    assert app[|prefix|..|prefix| + 8] == (host + suffix)[..8] == host[..8] == "https://";
    assert OccursAt(app, "https://", |prefix|);
    IncludesIffOccurs(app, "https://");
  }

  /** All three settings are non-empty (the check both operations make before any request). */
  predicate ConfigComplete(c: Config) {
    c.customer != "" && c.apiKey != "" && c.app != ""
  }

  // ---- response decoding -------------------------------------------------

  /** `data && data.result === 'fail'`. */
  predicate IsFail(data: Json) {
    Truthy(data) && Get(data, "result") == Str("fail")
  }

  /** The error thrown for a `fail` body of a successful reply. */
  function FailError(data: Json): L2Error {
    ApiFail(OrChain([Get(data, "message"), Str("Unknown API error")]), OrChain([Get(data, "code"), Str("unknown")]))
  }

  /** The four top-level names tried, in order, when `results.count` is not a number. */
  const TotalKeys: seq<string> := ["total", "count", "estimated", "estimate"]

  /** The value the source assigns to `total` (Null when it stays undefined). */
  function EstimateTotal(data: Json): Json {
    if IsNumber(data) then data
    else if Truthy(data) && (data.Obj? || data.Arr?) then
      var results := Get(data, "results");
      if Truthy(results) && IsNumber(Get(results, "count")) then Get(results, "count")
      else Coalesce([Get(data, TotalKeys[0]), Get(data, TotalKeys[1]), Get(data, TotalKeys[2]), Get(data, TotalKeys[3])])
    else Null
  }

  /** The estimate decoded from a successful reply's body. */
  function DecodeEstimate(data: Json): (r: Result<real, L2Error>)
    ensures IsFail(data) ==> r == Failure(FailError(data))
    ensures !IsFail(data) && r.Failure? ==> r.error == InvalidEstimate(data)
    ensures r.Success? ==> !IsFail(data) && EstimateTotal(data) == Num(r.value)
  {
    if IsFail(data) then Failure(FailError(data))
    else
      var total := EstimateTotal(data);
      if total.Num? then Success(total.n) else Failure(InvalidEstimate(data))
  }

  /** A body that is itself a number is the total; NaN is refused. */
  lemma NumericBodyIsTotal(n: real)
    ensures DecodeEstimate(Num(n)) == Success(n)
    ensures DecodeEstimate(NaN) == Failure(InvalidEstimate(NaN))
  {
  }

  /** A numeric `results.count` wins over every top-level name. */
  lemma ResultsCountTakesPrecedence(data: Json, c: real)
    requires data.Obj? && !IsFail(data)
    requires Truthy(Get(data, "results")) && Get(Get(data, "results"), "count") == Num(c)
    ensures DecodeEstimate(data) == Success(c)
  {
  }

  /**
   * Otherwise the first of total, count, estimated, estimate that is not null decides:
   * a number is the total, anything else (a numeric string, say) is refused even when a
   * later name holds a number.
   */
  lemma FirstPresentTotalDecides(data: Json, i: nat)
    requires data.Obj? && !IsFail(data)
    requires !(Truthy(Get(data, "results")) && IsNumber(Get(Get(data, "results"), "count")))
    requires i < |TotalKeys| && Get(data, TotalKeys[i]) != Null
    requires forall j :: 0 <= j < i ==> Get(data, TotalKeys[j]) == Null
    ensures Get(data, TotalKeys[i]).Num? ==> DecodeEstimate(data) == Success(Get(data, TotalKeys[i]).n)
    ensures !Get(data, TotalKeys[i]).Num? ==> DecodeEstimate(data) == Failure(InvalidEstimate(data))
  {
    var vals := [Get(data, TotalKeys[0]), Get(data, TotalKeys[1]), Get(data, TotalKeys[2]), Get(data, TotalKeys[3])];
    assert vals[i] == Get(data, TotalKeys[i]);
    assert forall j :: 0 <= j < i ==> vals[j] == Null;
    assert Coalesce(vals) == vals[i];
  }

  /** An object body with none of the names is refused. */
  lemma NoTotalRefused(data: Json)
    requires data.Obj? && !IsFail(data)
    requires !(Truthy(Get(data, "results")) && IsNumber(Get(Get(data, "results"), "count")))
    requires forall j :: 0 <= j < |TotalKeys| ==> Get(data, TotalKeys[j]) == Null
    ensures DecodeEstimate(data) == Failure(InvalidEstimate(data))
  {
    var vals := [Get(data, TotalKeys[0]), Get(data, TotalKeys[1]), Get(data, TotalKeys[2]), Get(data, TotalKeys[3])];
    assert forall j :: 0 <= j < |vals| ==> vals[j] == Null;
  }

  /** Property `i` holds an array and no earlier property does. */
  predicate IsFirstArray(fields: seq<(string, Json)>, i: nat) {
    i < |fields| && fields[i].1.Arr? && forall j :: 0 <= j < i ==> !fields[j].1.Arr?
  }

  /** `Object.keys(data).filter(key => Array.isArray(data[key]))[0]`, as its array's items. */
  function FirstArrayField(fields: seq<(string, Json)>): (r: Option<seq<Json>>)
    ensures r.Some? ==> exists i :: 0 <= i < |fields| && fields[i].1 == Arr(r.value) && IsFirstArray(fields, i)
    ensures r.None? <==> forall i :: 0 <= i < |fields| ==> !fields[i].1.Arr?
  {
    if fields == [] then None
    else if fields[0].1.Arr? then
      assert IsFirstArray(fields, 0);
      Some(fields[0].1.items)
    else
      var rest := FirstArrayField(fields[1..]);
      if rest.Some? then
        var i :| 0 <= i < |fields[1..]| && fields[1..][i].1 == Arr(rest.value) && IsFirstArray(fields[1..], i);
        assert fields[i + 1].1 == Arr(rest.value);
        assert forall j :: 1 <= j < i + 1 ==> fields[j].1 == fields[1..][j - 1].1;
        assert IsFirstArray(fields, i + 1);
        rest
      else
        assert forall i :: 1 <= i < |fields| ==> fields[i].1 == fields[1..][i - 1].1;
        rest
  }

  /** The records array found in a search body, following the source's chain of checks. */
  function SearchRecords(data: Json): seq<Json> {
    if Truthy(data) && Get(data, "result") == Str("ok") then
      var results := Get(data, "results");
      if Truthy(results) && results.Arr? then results.items
      else if Truthy(results) && Get(results, "data").Arr? then Get(results, "data").items
      else if Truthy(results) && Get(results, "records").Arr? then Get(results, "records").items
      else if Truthy(Get(data, "data")) && Get(data, "data").Arr? then Get(data, "data").items
      else if results.Arr? then results.items
      else []
    else if data.Arr? then data.items
    else if Truthy(data) && Get(data, "data").Arr? then Get(data, "data").items
    else if Truthy(data) && Get(data, "records").Arr? then Get(data, "records").items
    else if Truthy(data) && Get(data, "results").Arr? then Get(data, "results").items
    else if Truthy(data) && data.Obj? then
      var found := FirstArrayField(data.fields);
      if found.Some? then found.value else []
    else []
  }

  /** The items of the array at the first path that leads to one. */
  function FirstArrayAt(data: Json, paths: seq<seq<string>>): Option<seq<Json>> {
    if paths == [] then None
    else if At(data, paths[0]).Arr? then Some(At(data, paths[0]).items)
    else FirstArrayAt(data, paths[1..])
  }

  /** The places an `ok` body is searched, in order. */
  const OkPaths: seq<seq<string>> := [["results"], ["results", "data"], ["results", "records"], ["data"]]
  /** The places any other body is searched, in order, before its first array-valued property. */
  const PlainPaths: seq<seq<string>> := [[], ["data"], ["records"], ["results"]]

  function OrEmpty(o: Option<seq<Json>>): seq<Json> {
    if o.Some? then o.value else []
  }

  /** Against the table of paths: with `result: "ok"` the records are the first array along OkPaths, or none. */
  lemma OkBodyRecords(data: Json)
    requires Truthy(data) && Get(data, "result") == Str("ok")
    ensures SearchRecords(data) == OrEmpty(FirstArrayAt(data, OkPaths))
  {
    var results := Get(data, "results");
    var p := OkPaths;
    assert p[0] == ["results"] && p[1..][0] == ["results", "data"] && p[1..][1..][0] == ["results", "records"];
    assert p[1..][1..][1..][0] == ["data"] && p[1..][1..][1..][1..] == [];
    assert At(data, ["results"]) == results by {
      assert At(Get(data, "results"), []) == results;
    }
    assert At(data, ["results", "data"]) == Get(results, "data") by {
      assert ["results", "data"][1..] == ["data"];
      assert At(results, ["data"]) == At(Get(results, "data"), []);
    }
    assert At(data, ["results", "records"]) == Get(results, "records") by {
      assert ["results", "records"][1..] == ["records"];
      assert At(results, ["records"]) == At(Get(results, "records"), []);
    }
    assert At(data, ["data"]) == Get(data, "data") by {
      assert At(Get(data, "data"), []) == Get(data, "data");
    }
    assert FirstArrayAt(data, p[1..][1..][1..][1..]) == None;
    assert FirstArrayAt(data, p[1..][1..][1..]) == if Get(data, "data").Arr? then Some(Get(data, "data").items) else None;
    assert FirstArrayAt(data, p[1..][1..]) ==
      if Get(results, "records").Arr? then Some(Get(results, "records").items) else FirstArrayAt(data, p[1..][1..][1..]);
    assert FirstArrayAt(data, p[1..]) ==
      if Get(results, "data").Arr? then Some(Get(results, "data").items) else FirstArrayAt(data, p[1..][1..]);
    assert FirstArrayAt(data, p) == if results.Arr? then Some(results.items) else FirstArrayAt(data, p[1..]);
  }

  /** Otherwise the body itself, then data, records, results, then the first array-valued property. */
  lemma PlainBodyRecords(data: Json)
    requires !(Truthy(data) && Get(data, "result") == Str("ok"))
    ensures FirstArrayAt(data, PlainPaths).Some? ==> SearchRecords(data) == FirstArrayAt(data, PlainPaths).value
    ensures FirstArrayAt(data, PlainPaths).None? && data.Obj? ==> SearchRecords(data) == OrEmpty(FirstArrayField(data.fields))
    ensures FirstArrayAt(data, PlainPaths).None? && !data.Obj? ==> SearchRecords(data) == []
  {
    var p := PlainPaths;
    assert p[0] == [] && p[1..][0] == ["data"] && p[1..][1..][0] == ["records"];
    assert p[1..][1..][1..][0] == ["results"] && p[1..][1..][1..][1..] == [];
    assert At(data, []) == data;
    assert At(data, ["data"]) == Get(data, "data") by {
      assert At(Get(data, "data"), []) == Get(data, "data");
    }
    assert At(data, ["records"]) == Get(data, "records") by {
      assert At(Get(data, "records"), []) == Get(data, "records");
    }
    assert At(data, ["results"]) == Get(data, "results") by {
      assert At(Get(data, "results"), []) == Get(data, "results");
    }
    assert FirstArrayAt(data, p[1..][1..][1..][1..]) == None;
    assert FirstArrayAt(data, p[1..][1..][1..]) ==
      if Get(data, "results").Arr? then Some(Get(data, "results").items) else None;
    assert FirstArrayAt(data, p[1..][1..]) ==
      if Get(data, "records").Arr? then Some(Get(data, "records").items) else FirstArrayAt(data, p[1..][1..][1..]);
    assert FirstArrayAt(data, p[1..]) ==
      if Get(data, "data").Arr? then Some(Get(data, "data").items) else FirstArrayAt(data, p[1..][1..]);
    assert FirstArrayAt(data, p) == if data.Arr? then Some(data.items) else FirstArrayAt(data, p[1..]);
  }

  /** An `ok` body whose records sit under any other name yields no records. */
  lemma OkBodyElsewhereIsEmpty(items: seq<Json>)
    ensures SearchRecords(Obj([("result", Str("ok")), ("people", Arr(items))])) == []
  {
  }

  /** `Math.min(limit, 500)`. */
  function CappedLimit(limit: int): (n: int)
    ensures n <= MaxJsonLimit && n <= limit
    ensures n == limit || n == MaxJsonLimit
  {
    if limit < MaxJsonLimit then limit else MaxJsonLimit
  }

  // ---- requests and replies ----------------------------------------------

  datatype Endpoint = EstimateEndpoint | SearchEndpoint

  /** A POST to one of the two endpoints for the configured customer and application. */
  datatype Request = Request(endpoint: Endpoint, customer: string, app: string, body: Json)

  /** What axios yields: a 2xx body, an error carrying a response, or an error without one. */
  datatype Reply =
    | Ok(data: Json)
    | HttpError(status: int, statusText: string, data: Json)
    | NoResponse

  type Server = Request -> Reply

  /** `{ filters, ...(circleFilter && { circle_filter: circleFilter }) }`. */
  function FilterFields(filters: Json, circle: Json): seq<(string, Json)> {
    [("filters", filters)] + (if Truthy(circle) then [("circle_filter", circle)] else [])
  }

  function EstimateRequest(config: Config, filters: Json, circle: Json): Request {
    Request(EstimateEndpoint, config.customer, config.app, Obj(FilterFields(filters, circle)))
  }

  function SearchRequest(config: Config, filters: Json, circle: Json, limit: int): Request {
    Request(SearchEndpoint, config.customer, config.app,
      Obj(FilterFields(filters, circle) + [("format", Str("json")), ("fieldset", Str("EXTENDED")),
        ("limit", Num(CappedLimit(limit) as real)), ("wait", Num(WaitMs as real))]))
  }

  /** The `catch` block: an error with a response is rewritten, any other is rethrown. */
  function ReplyError(reply: Reply): L2Error
    requires !reply.Ok?
  {
    match reply
    case NoResponse => Network
    case HttpError(status, statusText, data) =>
      if IsFail(data) then ApiFail(OrChain([Get(data, "message"), Str("Unknown error")]), OrChain([Get(data, "code"), Num(status as real)]))
      else RequestFailed(status, statusText)
  }

  function EstimateKey(filters: Json, circle: Json, stringify: Option<Json> -> string): string {
    Cache.GenerateKey("l2_estimate", [("filters", filters), ("circleFilter", circle)], stringify)
  }

  function SearchKey(filters: Json, circle: Json, limit: int, stringify: Option<Json> -> string): string {
    Cache.GenerateKey("l2_search", [("filters", filters), ("circleFilter", circle), ("limit", Num(limit as real))], stringify)
  }

  /** `cached !== null`: a live entry whose data is not null. */
  function CacheHit(cached: Option<Json>): Option<Json> {
    if cached.Some? && cached.value != Null then cached else None
  }

  type Entries = map<string, Cache.CacheEntry<Json>>

  /** What a call returns, which requests it sent, and the cache afterwards. */
  datatype Outcome = Outcome(result: Result<Json, L2Error>, sent: seq<Request>, entries: Entries)

  /** `estimateSearch(filters, circleFilter)` as a function of the cache before the call and of the cache key `key` (`EstimateKey`). */
  function EstimateFlow(config: Config, entries: Entries, key: string, filters: Json, circle: Json, now: int,
                        server: Server): Outcome
  {
    var cached := CacheHit(Cache.Lookup(entries, key, now));
    var entries1 := Cache.AfterGet(entries, key, now);
    if cached.Some? then Outcome(Success(cached.value), [], entries1)
    else if !ConfigComplete(config) then Outcome(Failure(MissingConfig), [], entries1)
    else
      var req := EstimateRequest(config, filters, circle);
      var reply := server(req);
      if !reply.Ok? then Outcome(Failure(ReplyError(reply)), [req], entries1)
      else
        var decoded := DecodeEstimate(reply.data);
        if decoded.Failure? then Outcome(Failure(decoded.error), [req], entries1)
        else Outcome(Success(Num(decoded.value)), [req], Cache.Stored(entries1, key, Num(decoded.value), Some(EstimateTtl), now))
  }

  /**
   * `searchPeople(filters, circleFilter, limit)` as a function of the cache before the call,
   * of its own cache key `key` (`SearchKey`) and of the estimate's `estimateKey` (`EstimateKey`).
   */
  function SearchFlow(config: Config, entries: Entries, key: string, estimateKey: string,
                      filters: Json, circle: Json, limit: int, now: int, server: Server): Outcome
  {
    var cached := CacheHit(Cache.Lookup(entries, key, now));
    var entries1 := Cache.AfterGet(entries, key, now);
    if cached.Some? then Outcome(Success(cached.value), [], entries1)
    else if !ConfigComplete(config) then Outcome(Failure(MissingConfig), [], entries1)
    else
      var est := EstimateFlow(config, entries1, estimateKey, filters, circle, now, server);
      if est.result.Failure? then est
      else if !Truthy(est.result.value) then
        Outcome(Success(Arr([])), est.sent, Cache.Stored(est.entries, key, Arr([]), Some(SearchTtl), now))
      else
        var req := SearchRequest(config, filters, circle, limit);
        var reply := server(req);
        if !reply.Ok? then Outcome(Failure(ReplyError(reply)), est.sent + [req], est.entries)
        else if IsFail(reply.data) then Outcome(Failure(FailError(reply.data)), est.sent + [req], est.entries)
        else
          var records := SearchRecords(reply.data);
          Outcome(Success(Arr(records)), est.sent + [req], Cache.Stored(est.entries, key, Arr(records), Some(SearchTtl), now))
  }

  class L2ApiClient {
    const config: Config
    /** The shared response cache (the module-level `apiCache`). */
    const cache: Cache.ApiCache<Json>

    constructor(config: Config, cache: Cache.ApiCache<Json>)
      requires !LooksLikeUrl(config.app)
      ensures this.config == config && this.cache == cache
    {
      this.config := config;
      this.cache := cache;
    }

    /** `new L2ApiClient()`: throws when the configured application id looks like a URL. */
    static method Create(envApp: Option<string>, envCustomer: Option<string>, envKey: Option<string>, cache: Cache.ApiCache<Json>)
      returns (r: Result<L2ApiClient, L2Error>)
      ensures r.Failure? <==> LoadConfig(envApp, envCustomer, envKey).Failure?
      ensures r.Failure? ==> r.error == LoadConfig(envApp, envCustomer, envKey).error
      ensures r.Success? ==> r.value.config == LoadConfig(envApp, envCustomer, envKey).value && r.value.cache == cache
    {
      var loaded := LoadConfig(envApp, envCustomer, envKey);
      if loaded.Failure? {
        return Failure(loaded.error);
      }
      var client := new L2ApiClient(loaded.value, cache);
      return Success(client);
    }

    /** `estimateSearch(filters, circleFilter)`. */
    method EstimateSearch(filters: Json, circle: Json, now: int, server: Server, stringify: Option<Json> -> string)
      returns (result: Result<Json, L2Error>, sent: seq<Request>)
      modifies cache
      ensures Outcome(result, sent, cache.entries) ==
        EstimateFlow(config, old(cache.entries), EstimateKey(filters, circle, stringify), filters, circle, now, server)
    {
      var key := EstimateKey(filters, circle, stringify);
      var got := cache.Get(key, now);
      var cached := CacheHit(got);
      if cached.Some? {
        return Success(cached.value), [];
      }
      if !ConfigComplete(config) {
        return Failure(MissingConfig), [];
      }
      var req := EstimateRequest(config, filters, circle);
      sent := [req];
      var reply := server(req);
      if !reply.Ok? {
        return Failure(ReplyError(reply)), sent;
      }
      var decoded := DecodeEstimate(reply.data);
      if decoded.Failure? {
        return Failure(decoded.error), sent;
      }
      cache.Set(key, Num(decoded.value), Some(EstimateTtl), now);
      result := Success(Num(decoded.value));
    }

    /** `searchPeople(filters, circleFilter, limit)`. */
    method SearchPeople(filters: Json, circle: Json, limit: int, now: int, server: Server, stringify: Option<Json> -> string)
      returns (result: Result<Json, L2Error>, sent: seq<Request>)
      modifies cache
      ensures Outcome(result, sent, cache.entries) ==
        SearchFlow(config, old(cache.entries), SearchKey(filters, circle, limit, stringify), EstimateKey(filters, circle, stringify),
                   filters, circle, limit, now, server)
    {
      var key := SearchKey(filters, circle, limit, stringify);
      var got := cache.Get(key, now);
      var cached := CacheHit(got);
      if cached.Some? {
        return Success(cached.value), [];
      }
      if !ConfigComplete(config) {
        return Failure(MissingConfig), [];
      }
      var estimate;
      estimate, sent := EstimateSearch(filters, circle, now, server, stringify);
      if estimate.Failure? {
        return estimate, sent;
      }
      if !Truthy(estimate.value) {
        cache.Set(key, Arr([]), Some(SearchTtl), now);
        return Success(Arr([])), sent;
      }
      var req := SearchRequest(config, filters, circle, limit);
      sent := sent + [req];
      var reply := server(req);
      if !reply.Ok? {
        return Failure(ReplyError(reply)), sent;
      }
      if IsFail(reply.data) {
        return Failure(FailError(reply.data)), sent;
      }
      var records := SearchRecords(reply.data);
      cache.Set(key, Arr(records), Some(SearchTtl), now);
      result := Success(Arr(records));
    }
  }

  // ---- properties of the flows -------------------------------------------

  /** An estimate found in the cache is returned as is: no configuration check, no request, no new entry. */
  lemma EstimateCacheHit(config: Config, entries: Entries, filters: Json, circle: Json, now: int,
                         key: string, server: Server)
    ensures var v := Cache.Lookup(entries, key, now);
      v.Some? && v.value != Null ==>
        EstimateFlow(config, entries, key, filters, circle, now, server) == Outcome(Success(v.value), [], entries)
  {
  }

  /** Search results found in the cache are returned as is: no configuration check, no request, no new entry. */
  lemma SearchCacheHit(config: Config, entries: Entries, filters: Json, circle: Json, limit: int, now: int,
                       searchKey: string, estimateKey: string, server: Server)
    ensures var v := Cache.Lookup(entries, searchKey, now);
      v.Some? && v.value != Null ==>
        SearchFlow(config, entries, searchKey, estimateKey, filters, circle, limit, now, server) == Outcome(Success(v.value), [], entries)
  {
  }

  /** Without a complete configuration the estimate sends nothing and, on a miss, throws. */
  lemma EstimateNeedsConfig(config: Config, entries: Entries, filters: Json, circle: Json, now: int,
                            key: string, server: Server)
    requires !ConfigComplete(config)
    ensures EstimateFlow(config, entries, key, filters, circle, now, server).sent == []
    ensures CacheHit(Cache.Lookup(entries, key, now)).None? ==>
      EstimateFlow(config, entries, key, filters, circle, now, server).result == Failure(MissingConfig)
  {
  }

  /** Without a complete configuration the search sends nothing and, on a miss, throws. */
  lemma SearchNeedsConfig(config: Config, entries: Entries, filters: Json, circle: Json, limit: int, now: int,
                          searchKey: string, estimateKey: string, server: Server)
    requires !ConfigComplete(config)
    ensures SearchFlow(config, entries, searchKey, estimateKey, filters, circle, limit, now, server).sent == []
    ensures CacheHit(Cache.Lookup(entries, searchKey, now)).None? ==>
      SearchFlow(config, entries, searchKey, estimateKey, filters, circle, limit, now, server).result == Failure(MissingConfig)
  {
  }

  /**
   * A fetched estimate is a number and is cached under its key for ten minutes;
   * a failed estimate is not cached.
   */
  lemma EstimateCachedOnlyOnSuccess(config: Config, entries: Entries, filters: Json, circle: Json, now: int,
                                    key: string, server: Server)
    ensures var out := EstimateFlow(config, entries, key, filters, circle, now, server);
      out.sent != [] ==>
        if out.result.Success? then
          out.result.value.Num? && key in out.entries &&
          out.entries[key] == Cache.CacheEntry(out.result.value, now, now + EstimateTtl) &&
          Cache.Lookup(out.entries, key, now) == Some(out.result.value)
        else out.entries == Cache.AfterGet(entries, key, now)
  {
  }

  /**
   * A zero or otherwise falsy estimate ends the search: it returns and caches an
   * empty list and sends no search request.
   */
  lemma FalsyEstimateShortCircuits(config: Config, entries: Entries, filters: Json, circle: Json, limit: int, now: int,
                                   searchKey: string, estimateKey: string, server: Server)
    requires ConfigComplete(config)
    requires CacheHit(Cache.Lookup(entries, searchKey, now)).None?
    requires var est := EstimateFlow(config, Cache.AfterGet(entries, searchKey, now), estimateKey,
                                     filters, circle, now, server);
      est.result.Success? && !Truthy(est.result.value)
    ensures var out := SearchFlow(config, entries, searchKey, estimateKey, filters, circle, limit, now, server);
      out.result == Success(Arr([])) &&
      (forall r :: r in out.sent ==> r.endpoint == EstimateEndpoint) &&
      Cache.Lookup(out.entries, searchKey, now) == Some(Arr([]))
  {
  }

  /**
   * A search request goes out only after a truthy estimate, at most one goes out, it
   * is the last request sent, and its limit is `min(limit, 500)`.
   */
  lemma SearchRequestShape(config: Config, entries: Entries, filters: Json, circle: Json, limit: int, now: int,
                           searchKey: string, estimateKey: string, server: Server)
    ensures var out := SearchFlow(config, entries, searchKey, estimateKey, filters, circle, limit, now, server);
      |out.sent| <= 2 &&
      forall i :: 0 <= i < |out.sent| && out.sent[i].endpoint == SearchEndpoint ==>
        i == |out.sent| - 1 &&
        out.sent[i] == SearchRequest(config, filters, circle, limit) &&
        Get(out.sent[i].body, "limit") == Num(CappedLimit(limit) as real) &&
        var est := EstimateFlow(config, Cache.AfterGet(entries, searchKey, now), estimateKey,
                                filters, circle, now, server);
        est.result.Success? && Truthy(est.result.value)
  {
    var est := EstimateFlow(config, Cache.AfterGet(entries, searchKey, now), estimateKey, filters, circle, now, server);
    var out := SearchFlow(config, entries, searchKey, estimateKey, filters, circle, limit, now, server);
    EstimateSendsOneEstimate(config, Cache.AfterGet(entries, searchKey, now), filters, circle, now, estimateKey, server);
    SearchRequestLimit(config, filters, circle, limit);
    SearchSentCases(config, entries, filters, circle, limit, now, searchKey, estimateKey, server);
    assert forall r :: r in est.sent ==> r.endpoint == EstimateEndpoint;
  }

  /** The search flow sends nothing, only what the estimate flow sent, or that followed by its search request. */
  lemma SearchSentCases(config: Config, entries: Entries, filters: Json, circle: Json, limit: int, now: int,
                        searchKey: string, estimateKey: string, server: Server)
    ensures var est := EstimateFlow(config, Cache.AfterGet(entries, searchKey, now), estimateKey,
                                    filters, circle, now, server);
      var out := SearchFlow(config, entries, searchKey, estimateKey, filters, circle, limit, now, server);
      out.sent == [] || out.sent == est.sent ||
      (out.sent == est.sent + [SearchRequest(config, filters, circle, limit)] && est.result.Success? && Truthy(est.result.value))
  {
    var est := EstimateFlow(config, Cache.AfterGet(entries, searchKey, now), estimateKey, filters, circle, now, server);
    var out := SearchFlow(config, entries, searchKey, estimateKey, filters, circle, limit, now, server);
    if CacheHit(Cache.Lookup(entries, searchKey, now)).Some? || !ConfigComplete(config) {
      assert out.sent == [];
    } else if est.result.Failure? || !Truthy(est.result.value) {
      assert out.sent == est.sent;
    } else {
      assert out.sent == est.sent + [SearchRequest(config, filters, circle, limit)];
    }
  }

  /** The estimate flow sends nothing or exactly its estimate request. */
  lemma EstimateSendsOneEstimate(config: Config, entries: Entries, filters: Json, circle: Json, now: int,
                                 key: string, server: Server)
    ensures var out := EstimateFlow(config, entries, key, filters, circle, now, server);
      out.sent == [] || out.sent == [EstimateRequest(config, filters, circle)]
  {
  }

  /** The body of the search request carries the capped limit. */
  lemma SearchRequestLimit(config: Config, filters: Json, circle: Json, limit: int)
    ensures Get(SearchRequest(config, filters, circle, limit).body, "limit") == Num(CappedLimit(limit) as real)
  {
    var fs := SearchRequest(config, filters, circle, limit).body.fields;
    var k := |FilterFields(filters, circle)|;
    assert forall j :: 0 <= j < k ==> fs[j].0 != "limit" by {
      assert forall j :: 0 <= j < k ==> fs[j] == FilterFields(filters, circle)[j];
    }
    assert fs[k] == ("format", Str("json")) && fs[k + 1] == ("fieldset", Str("EXTENDED"));
    assert fs[k + 2] == ("limit", Num(CappedLimit(limit) as real));
    LookupFirstMatch(fs, "limit", k + 2);
  }

  /** The lookup answers with the first property of that name. */
  lemma {:induction false} LookupFirstMatch(fields: seq<(string, Json)>, key: string, i: nat)
    requires i < |fields| && fields[i].0 == key
    requires forall j :: 0 <= j < i ==> fields[j].0 != key
    ensures Lookup(fields, key) == fields[i].1
  {
    if i > 0 {
      LookupFirstMatch(fields[1..], key, i - 1);
    }
  }
}
