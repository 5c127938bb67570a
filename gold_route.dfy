/** The gold endpoint of src/app/api/gold/route.ts: defaults the query parameters, builds the
    client (which may throw), then dispatches on `type`. It never consults the cache. */
module GoldRoute {
  import opened Wrappers
  import opened GoldTypes
  import opened GoldApi
  import Strings

  /** The query string: a parameter that is absent is `null` for `searchParams.get`. */
  type Query = map<string, string>

  /** The two environment variables the client may read its key from. */
  datatype Env = Env(goldApiKey: Option<string>, publicGoldApiKey: Option<string>)

  /** The JSON envelope and HTTP status of the route's answer. */
  datatype GoldReply =
    | DataReply(data: Quote, cached: bool, timestamp: int)
    | BadRequest(error: string)
    | ServerError(error: string, timestamp: int)
  {
    function Status(): nat {
      if DataReply? then 200 else if BadRequest? then 400 else 500
    }

    function Success(): bool {
      DataReply?
    }
  }

  /** `searchParams.get(name) || fallback`. */
  function Param(q: Query, name: string, fallback: string): (v: string)
    ensures name in q && q[name] != "" ==> v == q[name]
    ensures name !in q || q[name] == "" ==> v == fallback
  {
    if name in q && q[name] != "" then q[name] else fallback
  }

  /** `error.message || "Failed to fetch gold prices"`. */
  function GoldErrorText(message: string): string {
    if message == "" then "Failed to fetch gold prices" else message
  }

  /** A data fetch answered: the data with `cached: false`, or the catch block's 500. */
  function Answered(r: Result<Quote, string>, now: int): GoldReply {
    match r
    case Ok(data) => DataReply(data, false, now)
    case Err(message) => ServerError(GoldErrorText(message), now)
  }

  /** `GET /api/gold`. */
  function HandleGet(q: Query, env: Env, net: Network, now: int): (r: GoldReply)
    ensures r.DataReply? ==> !r.cached && r.timestamp == now
    ensures r.Success() ==>
      && SelectApiKey(env.goldApiKey, env.publicGoldApiKey).Ok?
      && Param(q, "type", "current") in {"current", "historical"}
  {
    var metal := Param(q, "metal", "XAU");
    var currency := Param(q, "currency", "USD");
    var kind := Param(q, "type", "current");
    match SelectApiKey(env.goldApiKey, env.publicGoldApiKey)
    case Err(message) => ServerError(GoldErrorText(message), now)
    case Ok(client) =>
      if kind == "current" then
        Answered(GetCurrentPrice(net, client, metal, currency), now)
      else if kind == "historical" then
        if "date" !in q || q["date"] == "" then BadRequest("Date parameter is required")
        else Answered(GetHistoricalPrice(net, client, metal, currency, q["date"]), now)
      else BadRequest("Invalid type parameter")
  }

  /** The key the route's client is built with, when there is one. */
  function KeyOf(env: Env): string
    requires SelectApiKey(env.goldApiKey, env.publicGoldApiKey).Ok?
  {
    SelectApiKey(env.goldApiKey, env.publicGoldApiKey).value.apiKey
  }

  /** Absent or empty `metal`, `currency` and `type` mean XAU, USD and current: the route then
      fetches the XAU/USD current price and answers it with `cached: false`. */
  lemma DefaultsToCurrentXauUsd(env: Env, net: Network, now: int)
    requires SelectApiKey(env.goldApiKey, env.publicGoldApiKey).Ok?
    ensures HandleGet(map[], env, net, now) ==
      Answered(FetchApi(net, Client(KeyOf(env)), "/XAU/USD"), now)
    ensures HandleGet(map["metal" := "", "currency" := "", "type" := ""], env, net, now) ==
      HandleGet(map[], env, net, now)
  {
    assert CurrentPricePath("XAU", "USD") == "/XAU/USD";
  }

  /** `type=current` answers the client's current price for the requested metal and currency,
      or 500 with the client's error. */
  lemma CurrentDispatch(q: Query, env: Env, net: Network, now: int)
    requires SelectApiKey(env.goldApiKey, env.publicGoldApiKey).Ok?
    requires "type" in q && q["type"] == "current"
    ensures
      var r := GetCurrentPrice(net, Client(KeyOf(env)), Param(q, "metal", "XAU"), Param(q, "currency", "USD"));
      && (r.Ok? ==> HandleGet(q, env, net, now) == DataReply(r.value, false, now))
      && (r.Err? ==>
            HandleGet(q, env, net, now) ==
            ServerError(if r.error == "" then "Failed to fetch gold prices" else r.error, now))
  {
  }

  /** `type=historical` without a usable date is a 400 that does not depend on the network:
      the historical fetch is never made. */
  lemma HistoricalNeedsDate(q: Query, env: Env, net1: Network, net2: Network, now: int)
    requires SelectApiKey(env.goldApiKey, env.publicGoldApiKey).Ok?
    requires "type" in q && q["type"] == "historical"
    requires "date" !in q || q["date"] == ""
    ensures HandleGet(q, env, net1, now) == BadRequest("Date parameter is required")
    ensures HandleGet(q, env, net1, now) == HandleGet(q, env, net2, now)
  {
  }

  /** `type=historical` with a date fetches `/metal/currency/date`. */
  lemma HistoricalDispatch(q: Query, env: Env, net: Network, now: int)
    requires SelectApiKey(env.goldApiKey, env.publicGoldApiKey).Ok?
    requires "type" in q && q["type"] == "historical"
    requires "date" in q && q["date"] != ""
    ensures HandleGet(q, env, net, now) ==
      Answered(FetchApi(net, Client(KeyOf(env)),
        "/" + Param(q, "metal", "XAU") + "/" + Param(q, "currency", "USD") + "/" + q["date"]), now)
  {
  }

  /** Any other non-empty type is a 400 that makes no fetch. */
  lemma InvalidType(q: Query, env: Env, net: Network, now: int)
    requires SelectApiKey(env.goldApiKey, env.publicGoldApiKey).Ok?
    requires "type" in q && q["type"] !in {"", "current", "historical"}
    ensures HandleGet(q, env, net, now) == BadRequest("Invalid type parameter")
  {
  }

  /** The client is built before dispatch: with no usable key every request is a 500,
      even one with an invalid type or a missing date. */
  lemma MissingKeyBeatsDispatch(q: Query, env: Env, net: Network, now: int)
    requires !Strings.Truthy(env.goldApiKey) && !Strings.Truthy(env.publicGoldApiKey)
    ensures HandleGet(q, env, net, now) == ServerError("GOLD_API_KEY is not configured", now)
  {
  }

  /** The catch block answers a provider error with its message, or with the default message
      when that is empty. */
  lemma EmptyMessageDefault(m: string, now: int)
    ensures Answered(Err(""), now) == ServerError("Failed to fetch gold prices", now)
    ensures m != "" ==> Answered(Err(m), now) == ServerError(m, now)
  {
  }

  /** The CORS preflight answer of `OPTIONS`: status and headers, no body. */
  datatype Preflight = Preflight(status: nat, allowOrigin: string, allowMethods: string, allowHeaders: string)

  function HandleOptions(): (r: Preflight)
    ensures r.status == 200 && r.allowOrigin == "*"
  {
    Preflight(200, "*", "GET, OPTIONS", "Content-Type")
  }
}
