/** The price client of src/lib/goldapi.ts. The HTTP call is a `Network`: a total function
    from the URL and the access token to what came back. The two conversion helpers the
    client imports are parameters: their definitions are not part of this model. */
module GoldApi {
  import opened Wrappers
  import opened GoldTypes
  import Strings

  const GoldApiBase: string := "https://www.goldapi.io/api"

  /** What one request to the provider produced: an HTTP answer, or a thrown error. */
  datatype Upstream =
    | Answer(status: nat, statusText: string, body: Quote)
    | Unreachable(message: string)

  /** The provider as seen from the client: URL and `x-access-token` header to outcome. */
  type Network = (string, string) -> Upstream

  /** `GoldAPIClient`: it holds only its key, which it never changes. */
  datatype Client = Client(apiKey: string)

  /** A quote after `getPriceWithConversion`: the quote's fields plus `unit`. */
  datatype PricedQuote = PricedQuote(quote: Quote, unit: string)

  /** `response.ok` of the Fetch standard: a 2xx status. */
  predicate IsOk(status: nat) {
    200 <= status <= 299
  }

  function CurrentPricePath(metal: string, currency: string): string {
    "/" + metal + "/" + currency
  }

  function HistoricalPricePath(metal: string, currency: string, date: string): string {
    "/" + metal + "/" + currency + "/" + date
  }

  /** `fetchAPI`: a non-ok answer becomes an error carrying status and status text;
      a thrown error passes through. */
  function FetchApi(net: Network, client: Client, endpoint: string): (r: Result<Quote, string>)
    ensures r.Ok? <==> net(GoldApiBase + endpoint, client.apiKey).Answer? && IsOk(net(GoldApiBase + endpoint, client.apiKey).status)
    ensures r.Ok? ==> r.value == net(GoldApiBase + endpoint, client.apiKey).body
  {
    match net(GoldApiBase + endpoint, client.apiKey)
    case Unreachable(message) => Err(message)
    case Answer(status, statusText, body) =>
      if IsOk(status) then Ok(body)
      else Err("GoldAPI Error: " + Strings.NatToString(status) + " " + statusText)
  }

  function GetCurrentPrice(net: Network, client: Client, metal: string, currency: string): Result<Quote, string> {
    FetchApi(net, client, CurrentPricePath(metal, currency))
  }

  function GetHistoricalPrice(net: Network, client: Client, metal: string, currency: string, date: string): Result<Quote, string> {
    FetchApi(net, client, HistoricalPricePath(metal, currency, date))
  }

  /** The currencies `getMultiCurrencyPrice` asks for, in this order. */
  const MultiCurrencies: seq<string> := ["USD", "EUR", "GBP"]

  /** One result after `filter(Boolean)`: its quote, or nothing for a failure. */
  function Kept(r: Result<Quote, string>): seq<Quote> {
    if r.Ok? then [r.value] else []
  }

  /** `.catch(() => null)` followed by `filter(Boolean)`: the successful values, in order. */
  function Successes(rs: seq<Result<Quote, string>>): (qs: seq<Quote>)
    ensures |qs| <= |rs|
    decreases |rs|
  {
    if rs == [] then [] else Kept(rs[0]) + Successes(rs[1..])
  }

  function GetMultiCurrencyPrice(net: Network, client: Client, metal: string): seq<Quote> {
    Successes(seq(|MultiCurrencies|, i requires 0 <= i < |MultiCurrencies| =>
      GetCurrentPrice(net, client, metal, MultiCurrencies[i])))
  }

  /** At most three quotes: those for USD, EUR and GBP that succeeded, in that order. */
  lemma MultiCurrencyKeepsOrder(net: Network, client: Client, metal: string)
    ensures GetMultiCurrencyPrice(net, client, metal) ==
      Kept(GetCurrentPrice(net, client, metal, "USD")) +
      Kept(GetCurrentPrice(net, client, metal, "EUR")) +
      Kept(GetCurrentPrice(net, client, metal, "GBP"))
    ensures |GetMultiCurrencyPrice(net, client, metal)| <= 3
  {
    var rs := seq(|MultiCurrencies|, i requires 0 <= i < |MultiCurrencies| =>
      GetCurrentPrice(net, client, metal, MultiCurrencies[i]));
    assert rs == [GetCurrentPrice(net, client, metal, "USD"), GetCurrentPrice(net, client, metal, "EUR"),
                  GetCurrentPrice(net, client, metal, "GBP")];
    assert Successes(rs[2..]) == Kept(rs[2]) + Successes([]) by {
      assert rs[2..][1..] == [];
    }
    assert Successes(rs[1..]) == Kept(rs[1]) + Successes(rs[2..]) by {
      assert rs[1..][1..] == rs[2..];
    }
  }

  /** Every quote in a list of results that all succeeded is kept. */
  lemma {:induction false} SuccessesOfAllOk(rs: seq<Result<Quote, string>>)
    requires forall i :: 0 <= i < |rs| ==> rs[i].Ok?
    ensures |Successes(rs)| == |rs|
    ensures forall i :: 0 <= i < |rs| ==> Successes(rs)[i] == rs[i].value
    decreases |rs|
  {
    if rs != [] {
      SuccessesOfAllOk(rs[1..]);
    }
  }

  /** `convertPriceToCurrency` applied only when the currencies differ. */
  function CurrencyStep(x: real, base: string, target: string, toCurrency: (real, string, string) -> real): real {
    if base != target then toCurrency(x, base, target) else x
  }

  /** `convertPriceToUnit` applied only when the unit is not the troy ounce. */
  function UnitStep(x: real, unit: string, toUnit: (real, string) -> real): real {
    if unit != "oz" then toUnit(x, unit) else x
  }

  /** `getPriceWithConversion`: currency conversion, then unit conversion, of price, ask,
      bid and ch; all other fields come from the fetched quote unchanged. */
  method GetPriceWithConversion(
    net: Network, client: Client, metal: string, baseCurrency: string, targetCurrency: string, unit: string,
    toCurrency: (real, string, string) -> real, toUnit: (real, string) -> real)
    returns (r: Result<PricedQuote, string>)
    ensures GetCurrentPrice(net, client, metal, baseCurrency).Err? ==>
      r == Err(GetCurrentPrice(net, client, metal, baseCurrency).error)
    ensures GetCurrentPrice(net, client, metal, baseCurrency).Ok? ==>
      var q := GetCurrentPrice(net, client, metal, baseCurrency).value;
      && r.Ok? && r.value.unit == unit
      && r.value.quote == q.(
        price := UnitStep(CurrencyStep(q.price, baseCurrency, targetCurrency, toCurrency), unit, toUnit),
        ask := UnitStep(CurrencyStep(q.ask, baseCurrency, targetCurrency, toCurrency), unit, toUnit),
        bid := UnitStep(CurrencyStep(q.bid, baseCurrency, targetCurrency, toCurrency), unit, toUnit),
        ch := UnitStep(CurrencyStep(q.ch, baseCurrency, targetCurrency, toCurrency), unit, toUnit),
        currency := targetCurrency)
  {
    var fetched := GetCurrentPrice(net, client, metal, baseCurrency);
    if fetched.Err? {
      return Err(fetched.error);
    }
    var data := fetched.value;
    var convertedPrice := data.price;
    var convertedAsk := data.ask;
    var convertedBid := data.bid;
    var convertedCh := data.ch;
    if baseCurrency != targetCurrency {
      convertedPrice := toCurrency(data.price, baseCurrency, targetCurrency);
      convertedAsk := toCurrency(data.ask, baseCurrency, targetCurrency);
      convertedBid := toCurrency(data.bid, baseCurrency, targetCurrency);
      convertedCh := toCurrency(data.ch, baseCurrency, targetCurrency);
    }
    if unit != "oz" {
      convertedPrice := toUnit(convertedPrice, unit);
      convertedAsk := toUnit(convertedAsk, unit);
      convertedBid := toUnit(convertedBid, unit);
      convertedCh := toUnit(convertedCh, unit);
    }
    r := Ok(PricedQuote(data.(price := convertedPrice, ask := convertedAsk, bid := convertedBid,
                              ch := convertedCh, currency := targetCurrency), unit));
  }

  /** With the same currency and the troy ounce, conversion changes nothing but the labels. */
  lemma NoConversionIsIdentity(x: real, c: string, toCurrency: (real, string, string) -> real, toUnit: (real, string) -> real)
    ensures UnitStep(CurrencyStep(x, c, c, toCurrency), "oz", toUnit) == x
  {
  }

  /** Otherwise the currency is converted first and the unit second. */
  lemma ConversionOrder(x: real, base: string, target: string, unit: string,
                        toCurrency: (real, string, string) -> real, toUnit: (real, string) -> real)
    requires base != target && unit != "oz"
    ensures UnitStep(CurrencyStep(x, base, target, toCurrency), unit, toUnit) == toUnit(toCurrency(x, base, target), unit)
  {
  }

  /** `getGoldAPIClient`: GOLD_API_KEY when set and non-empty, else NEXT_PUBLIC_GOLD_API_KEY;
      with neither usable it throws. */
  function SelectApiKey(goldApiKey: Option<string>, publicGoldApiKey: Option<string>): (r: Result<Client, string>)
    ensures r.Ok? <==> Strings.Truthy(goldApiKey) || Strings.Truthy(publicGoldApiKey)
    ensures Strings.Truthy(goldApiKey) ==> r == Ok(Client(goldApiKey.value))
    ensures !Strings.Truthy(goldApiKey) && Strings.Truthy(publicGoldApiKey) ==> r == Ok(Client(publicGoldApiKey.value))
    ensures r.Err? ==> r.error == "GOLD_API_KEY is not configured"
  {
    var apiKey := if Strings.Truthy(goldApiKey) then goldApiKey else publicGoldApiKey;
    if !Strings.Truthy(apiKey) then Err("GOLD_API_KEY is not configured") else Ok(Client(apiKey.value))
  }

  /** The segments of a path between '/' characters. */
  function Segments(s: string): seq<string>
    decreases |s|
  {
    if s == [] then [""]
    else if s[0] == '/' then [""] + Segments(s[1..])
    else
      var rest := Segments(s[1..]);
      [[s[0]] + rest[0]] + rest[1..]
  }

  predicate NoSlash(s: string) {
    forall i :: 0 <= i < |s| ==> s[i] != '/'
  }

  lemma {:induction false} SegmentsOfWord(w: string, rest: string)
    requires NoSlash(w)
    ensures Segments(w + "/" + rest) == [w] + Segments(rest)
    ensures Segments(w) == [w]
    decreases |w|
  {
    if w == [] {
      assert w + "/" + rest == "/" + rest;
    } else {
      SegmentsOfWord(w[1..], rest);
      assert (w + "/" + rest)[1..] == w[1..] + "/" + rest;
      assert [w[0]] + w[1..] == w;
    }
  }

  lemma {:induction false} SegmentsAfterSlash(rest: string)
    ensures Segments("/" + rest) == [""] + Segments(rest)
  {
    assert ("/" + rest)[1..] == rest;
  }

  /** The current-price path can be read back: for a metal and a currency free of '/', its
      segments are the empty root, the metal and the currency. */
  lemma CurrentPathRoundTrip(metal: string, currency: string)
    requires NoSlash(metal) && NoSlash(currency)
    ensures Segments(CurrentPricePath(metal, currency)) == ["", metal, currency]
  {
    assert CurrentPricePath(metal, currency) == "/" + (metal + "/" + currency);
    SegmentsAfterSlash(metal + "/" + currency);
    SegmentsOfWord(metal, currency);
    SegmentsOfWord(currency, "");
  }

  /** The historical path is the current-price path with the date as a further segment. */
  lemma HistoricalPathRoundTrip(metal: string, currency: string, date: string)
    requires NoSlash(metal) && NoSlash(currency) && NoSlash(date)
    ensures HistoricalPricePath(metal, currency, date) == CurrentPricePath(metal, currency) + "/" + date
    ensures Segments(HistoricalPricePath(metal, currency, date)) == ["", metal, currency, date]
  {
    var rest := currency + "/" + date;
    assert HistoricalPricePath(metal, currency, date) == "/" + (metal + "/" + rest);
    SegmentsAfterSlash(metal + "/" + rest);
    SegmentsOfWord(metal, rest);
    SegmentsOfWord(currency, date);
    SegmentsOfWord(date, "");
  }
}
