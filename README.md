# Gold prices dashboard — a Dafny model of its core

The gold-prices dashboard is a Next.js application. It shows the live gold price, a price
history, a market-sentiment gauge, price alerts and a news feed. This project models its core
logic in Dafny and proves properties of that model:

- **The server-side TTL cache** (`Cache.ServerCache`). It maps keys to entries that carry a
  write time and an expiry time. A read evicts an entry that has expired.
- **The `/api/news` route** (`NewsRoute`). It uses the cache cache-aside, under the key
  `gold_news`, for one hour. On a miss it needs an API key and a successful upstream answer.
  Each upstream article becomes `{title, url, source, publishedAt, description}`.
- **The GoldAPI client** (`GoldApi`):
  - the request pipeline, where a non-2xx answer becomes `GoldAPI Error: <status> <text>`;
  - the current and historical price paths;
  - the three-currency fan-out that drops failures;
  - the currency-then-unit conversion;
  - the choice of API key from the two environment variables.
- **The `/api/gold` route** (`GoldRoute`). It reads the `metal`, `currency`, `type` and `date`
  parameters, applies their defaults, checks the API key first and then dispatches. It also
  answers the CORS preflight.
- **The price-alert panel** (`PriceAlerts`):
  - the check pass that deactivates every alert the current price has crossed;
  - adding and removing alerts;
  - the active and triggered lists.
- **The market-sentiment classifier** (`MarketSentiment`):
  - the trend over the history;
  - the 30/70 weighting with the 24-hour change;
  - the five bands with their gauges;
  - the gauge colour.
- **The news panel** (`GoldNews`). It renders an age label ("Just now", "Nh ago", "Nd ago", or
  a date). When the API cannot be used, it falls back to three mock articles.
- **The home page's derivations** (`HomePage`):
  - the chart series;
  - the history with day-on-day percentage changes;
  - the delay until the next midnight in WIB (UTC+7).
- **The price-history table** (`PriceHistory`). It renders the first ten history items in
  reverse order, with an up or down badge for each nonzero change.

How the model is built:

- **Mutable state becomes classes.** State that the source updates in place is a Dafny
  `class` whose methods are proved against pure specification functions. These are the cache,
  the alert panel's React state and the news panel's state.
- **Pure logic becomes functions and lemmas.**
- **The outside world becomes parameters.** Time is a millisecond `int`. The GoldAPI server is
  a function from (URL, token) to an answer. The news upstream is an abstract outcome. The
  conversion helpers, `Number()` parsing, `toISOString` and `toLocaleDateString` are also
  parameters.
- **JavaScript's semantics are written out.** Truthiness of environment strings is
  `Strings.Truthy`. `Math.floor` of a nonnegative quotient is Dafny's `/`. The `||` defaults
  are explicit.

## Model

| member | source | states |
|---|---|---|
| Cache.Stored | src/lib/cache.ts:12-19 | writing a key stores exactly `{data, timestamp: now, expiresAt: now + ttl}` under it and leaves every other key as it was |
| Cache.Lookup | src/lib/cache.ts:21-35 | a read yields a value iff the key is present and `now <= expiresAt`, and then yields the stored data |
| Cache.AfterLookup | src/lib/cache.ts:27-30 | after a read the key survives iff it had not expired; all other keys are unchanged |
| Cache.Age | src/lib/cache.ts:50-54 | the age is defined iff the key is present, expired or not, and equals `now - timestamp` |
| Cache.TimeUntilExpiry | src/lib/cache.ts:57-62 | the remaining time is defined iff the key is present and `now < expiresAt`; it is then positive and reaches `expiresAt` |
| Cache.Expired | src/lib/cache.ts:29 | defines expiry as `now > expiresAt`; `Lookup`, `SetThenGetFresh` and `SetThenGetExpired` state its consequences |
| Cache.ServerCache.constructor | src/lib/cache.ts:10 | a new cache is empty |
| Cache.ServerCache.Set | src/lib/cache.ts:12-19 | the new store is `Stored` of the old one |
| Cache.ServerCache.SetWithDefaultTtl | src/lib/cache.ts:12 | the omitted TTL is 24 hours |
| Cache.ServerCache.Get | src/lib/cache.ts:21-35 | returns `Lookup` of the old store and evicts as `AfterLookup` says |
| Cache.ServerCache.Has | src/lib/cache.ts:37-39 | true iff a read would yield a value; it evicts like a read |
| Cache.ServerCache.Delete | src/lib/cache.ts:41-43 | removes exactly that key |
| Cache.ServerCache.Clear | src/lib/cache.ts:45-47 | empties the store |
| Cache.ServerCache.GetAge | src/lib/cache.ts:50-54 | equals `Age` and changes nothing (it does not evict) |
| Cache.ServerCache.GetTimeUntilExpiry | src/lib/cache.ts:57-62 | equals `TimeUntilExpiry` and changes nothing |
| Cache.SetThenGetFresh | src/lib/cache.ts:12-35 | a value read back up to and including its expiry instant is the value written, and the read evicts nothing |
| Cache.SetThenGetExpired | src/lib/cache.ts:21-30 | after the expiry instant the read misses and removes exactly that key |
| Cache.SecondSetWins | src/lib/cache.ts:12-19 | a second write to a key replaces the first entirely, including its timestamp and expiry |
| Cache.LookupIdempotent | src/lib/cache.ts:21-35 | reading twice at the same time gives the same answer and the same store as reading once |
| Cache.AgeOfExpiredEntry | src/lib/cache.ts:50-62 | an expired entry still reports its age but no remaining time until a read evicts it; then it reports neither |
| Cache.FreshEntryDiagnostics | src/lib/cache.ts:12-19 | an entry just written has age 0 and remaining time equal to its TTL |
| Cache.DeleteRemovesOnlyKey | src/lib/cache.ts:41-43 | after a delete the key misses and every other key reads as before |
| NewsRoute.MapArticles | src/app/api/news/route.ts:44-51 | one output article per upstream article, in order, with `source` taken from `source.name`; a missing list gives `[]` |
| NewsRoute.Normalise | src/app/api/news/route.ts:45-51 | defines the mapping of one upstream article; `MapArticles` states it element by element |
| NewsRoute.NewsErrorText | src/app/api/news/route.ts:66 | defines `error.message \|\| "Failed to fetch news"`; `Respond` and `UpstreamFailureWritesNothing` state the 500 it goes with |
| NewsRoute.FloorSeconds | src/app/api/news/route.ts:20-21 | the cache diagnostics in seconds are the floor of the milliseconds, and 0 when absent |
| NewsRoute.Respond | src/app/api/news/route.ts:6-71 | the reply succeeds iff the cache hits, or the key is configured and the upstream delivered; it is a cached reply iff the cache hits; only a fresh success changes the cache beyond the read's eviction; every failure has status 500 |
| NewsRoute.Get | src/app/api/news/route.ts:6-71 | the route's reply and the cache's new contents are exactly those `Respond` gives for the old contents |
| NewsRoute.HitIgnoresKeyAndFetch | src/app/api/news/route.ts:11-23 | on a hit the answer depends on neither the key nor the upstream, the cache is unchanged, and the cached articles are returned |
| NewsRoute.EmptyListIsHit | src/app/api/news/route.ts:11-12 | a cached empty list counts as a hit, because an empty array is truthy |
| NewsRoute.MissWithoutKey | src/app/api/news/route.ts:25-32 | a miss without a configured key answers 500 "API key not configured" and writes nothing |
| NewsRoute.UpstreamFailureWritesNothing | src/app/api/news/route.ts:34-40 | a thrown fetch or a non-ok answer gives a 500 and does not write the cache |
| NewsRoute.SuccessfulMissStores | src/app/api/news/route.ts:42-60 | a successful miss returns the mapped articles and stores them for one hour under `gold_news` |
| NewsRoute.SecondCallHits | src/app/api/news/route.ts:11-60 | within the hour after a successful miss, any later call is served the same articles from the cache |
| NewsRoute.ImmediateRepeat | src/app/api/news/route.ts:11-21 | a repeat at the same instant reports age 0 s and 3600 s left |
| GoldApi.FetchApi | src/lib/goldapi.ts:14-30 | the request succeeds iff the server answers with a 2xx status, and then yields its body |
| GoldApi.CurrentPricePath | src/lib/goldapi.ts:36 | defines the path `/{metal}/{currency}`; `CurrentPathRoundTrip` proves it splits back into its parts |
| GoldApi.HistoricalPricePath | src/lib/goldapi.ts:44 | defines the path `/{metal}/{currency}/{date}`; `HistoricalPathRoundTrip` proves it splits back into its parts |
| GoldApi.GetCurrentPrice | src/lib/goldapi.ts:32-37 | defines the current-price request through `FetchApi`; `GoldRoute.CurrentDispatch` and `MultiCurrencyKeepsOrder` state its use |
| GoldApi.GetHistoricalPrice | src/lib/goldapi.ts:39-45 | defines the historical-price request through `FetchApi`; `GoldRoute.HistoricalDispatch` states its use |
| GoldApi.Successes | src/lib/goldapi.ts:54-55 | the successful results are never more than the attempts |
| GoldApi.Kept | src/lib/goldapi.ts:51-55 | defines what one `.catch(() => null)` result leaves after `filter(Boolean)` |
| GoldApi.GetMultiCurrencyPrice | src/lib/goldapi.ts:47-56 | defines the three-currency fan-out; `MultiCurrencyKeepsOrder` and `SuccessesOfAllOk` state its result |
| GoldApi.MultiCurrencyKeepsOrder | src/lib/goldapi.ts:47-56 | the fan-out is the USD, EUR and GBP results that succeeded, in that order, and at most three |
| GoldApi.SuccessesOfAllOk | src/lib/goldapi.ts:54-55 | when every request succeeds, all the quotes are kept in request order |
| GoldApi.GetPriceWithConversion | src/lib/goldapi.ts:58-114 | an upstream error passes through; otherwise price, ask, bid and change are converted currency first, then unit, the currency becomes the target and the unit is reported |
| GoldApi.CurrencyStep | src/lib/goldapi.ts:72-94 | defines the currency conversion, skipped when base and target agree; `NoConversionIsIdentity` and `ConversionOrder` state it |
| GoldApi.UnitStep | src/lib/goldapi.ts:96-103 | defines the unit conversion, skipped for "oz"; `NoConversionIsIdentity` and `ConversionOrder` state it |
| GoldApi.NoConversionIsIdentity | src/lib/goldapi.ts:72-103 | with the same currency and unit "oz", no helper is called and the value is unchanged |
| GoldApi.ConversionOrder | src/lib/goldapi.ts:72-103 | with both conversions active, the unit helper is applied to the currency helper's result |
| GoldApi.SelectApiKey | src/lib/goldapi.ts:118-127 | a client exists iff either variable is non-empty; `GOLD_API_KEY` wins over `NEXT_PUBLIC_GOLD_API_KEY`; otherwise the error is "GOLD_API_KEY is not configured" |
| GoldApi.SegmentsOfWord | src/lib/goldapi.ts:36 | splitting a slash-free word followed by `/` yields that word and then the rest |
| GoldApi.SegmentsAfterSlash | src/lib/goldapi.ts:36 | a leading slash yields an empty first segment |
| GoldApi.CurrentPathRoundTrip | src/lib/goldapi.ts:32-37 | the current-price path `/{metal}/{currency}` splits back into exactly its metal and currency |
| GoldApi.HistoricalPathRoundTrip | src/lib/goldapi.ts:39-45 | the historical path extends the current path by `/{date}` and splits back into metal, currency and date |
| GoldRoute.Param | src/app/api/gold/route.ts:13-15 | a parameter that is absent or empty takes its default |
| GoldRoute.HandleGet | src/app/api/gold/route.ts:10-65 | every data reply has `cached: false` and the request time; success requires a configured key and a type of `current` or `historical` |
| GoldRoute.GoldErrorText | src/app/api/gold/route.ts:59 | defines `error.message \|\| "Failed to fetch gold prices"`; `EmptyMessageDefault` states both halves |
| GoldRoute.Answered | src/app/api/gold/route.ts:19-64 | defines the answer to a fetch: the data with `cached: false`, or the catch block's 500; `CurrentDispatch` and `EmptyMessageDefault` state it |
| GoldRoute.DefaultsToCurrentXauUsd | src/app/api/gold/route.ts:13-28 | a request without parameters, or with empty ones, asks for the current XAU price in USD |
| GoldRoute.CurrentDispatch | src/app/api/gold/route.ts:19-64 | `type=current` answers the current-price request for the given metal and currency; a provider error answers 500 with its message, or "Failed to fetch gold prices" when that is empty |
| GoldRoute.HistoricalNeedsDate | src/app/api/gold/route.ts:30-37 | `type=historical` without a date is a 400 "Date parameter is required" and does not call the server |
| GoldRoute.HistoricalDispatch | src/app/api/gold/route.ts:38-47 | `type=historical` with a date answers the historical request for it |
| GoldRoute.InvalidType | src/app/api/gold/route.ts:49-52 | any other type is a 400 "Invalid type parameter" |
| GoldRoute.MissingKeyBeatsDispatch | src/app/api/gold/route.ts:17 | without a key every request, whatever its parameters, is a 500 whose error is the key message |
| GoldRoute.EmptyMessageDefault | src/app/api/gold/route.ts:53-64 | the catch block reports a non-empty error message as it is, and an empty one as "Failed to fetch gold prices" |
| GoldRoute.HandleOptions | src/app/api/gold/route.ts:68-77 | the preflight answers 200 and allows every origin |
| PriceAlerts.Deactivate | src/components/PriceAlerts.tsx:62-64 | deactivating by id keeps the list's length |
| PriceAlerts.DeactivateAll | src/components/PriceAlerts.tsx:62-64 | deactivating a set of ids keeps the list's length |
| PriceAlerts.Fires | src/components/PriceAlerts.tsx:53-57 | defines when an alert fires (active, same currency, price crossed in its direction); `InactiveNeverFires` and `CheckPassEffect` state its consequences |
| PriceAlerts.FiredIds | src/components/PriceAlerts.tsx:52-64 | defines the ids the pass deactivates; `FiredIdsSnoc` and `CheckPassEffect` state it |
| PriceAlerts.AfterCheck | src/components/PriceAlerts.tsx:49-68 | defines the list after a pass; `CheckPass` computes it and `CheckPassEffect`, `ZeroPriceDoesNothing` and `SecondPassFiresNothing` state its properties |
| PriceAlerts.FiredAlerts | src/components/PriceAlerts.tsx:52-59 | defines the alerts a pass notifies about; `CheckPass` computes it and `SecondPassFiresNothing` states it is empty on a repeat |
| PriceAlerts.Without | src/components/PriceAlerts.tsx:111 | defines `alerts.filter(a => a.id !== id)`; `RemoveDropsExactlyId` states what it keeps and `WithoutSnoc` that it keeps their order |
| PriceAlerts.ActiveAlerts | src/components/PriceAlerts.tsx:114 | defines the active list of a currency; `ActiveTriggeredPartition` states how it splits the alerts |
| PriceAlerts.TriggeredAlerts | src/components/PriceAlerts.tsx:115 | defines the triggered list of a currency; `ActiveTriggeredPartition` states how it splits the alerts |
| PriceAlerts.NewAlert | src/components/PriceAlerts.tsx:92-99 | defines the appended alert, with the clock reading as id; `AddedAlertIsLastAndActive` and `Strings.NatToStringInjective` state its properties |
| PriceAlerts.DeactivateAllNothing | src/components/PriceAlerts.tsx:62-64 | deactivating no ids leaves the list as it is |
| PriceAlerts.DeactivateAllAdd | src/components/PriceAlerts.tsx:62-64 | successive per-alert updates amount to deactivating the union of their ids |
| PriceAlerts.FiredIdsSnoc | src/components/PriceAlerts.tsx:52-57 | the ids fired by a prefix grow by one alert's id exactly when that alert fires |
| PriceAlerts.CheckPass | src/components/PriceAlerts.tsx:49-68 | the loop over the snapshot yields the deactivated list and the alerts triggered, exactly as the specification functions define them |
| PriceAlerts.AlertPanel.constructor | src/components/PriceAlerts.tsx:22-26 | the panel starts with no alerts, an empty target, condition "above" and the form closed |
| PriceAlerts.AlertPanel.SetTargetPrice | src/components/PriceAlerts.tsx:155 | the input sets the target text and nothing else |
| PriceAlerts.AlertPanel.SetCondition | src/components/PriceAlerts.tsx:161 | the select sets the condition and nothing else |
| PriceAlerts.AlertPanel.CheckAlerts | src/components/PriceAlerts.tsx:49-68 | the effect replaces the alerts by the checked list and leaves the form state alone |
| PriceAlerts.AlertPanel.AddAlert | src/components/PriceAlerts.tsx:89-108 | an empty target, or one that `Number` parses to NaN, changes nothing; otherwise a new active alert is appended, the target is cleared and the form closes |
| PriceAlerts.AlertPanel.RemoveAlert | src/components/PriceAlerts.tsx:110-112 | removing keeps the alerts whose id differs |
| PriceAlerts.CheckPassEffect | src/components/PriceAlerts.tsx:49-68 | for a nonzero price, an alert ends inactive iff it was inactive or some alert with its id fired; no other field changes |
| PriceAlerts.ZeroPriceDoesNothing | src/components/PriceAlerts.tsx:51 | a zero price changes nothing and fires nothing |
| PriceAlerts.InactiveNeverFires | src/components/PriceAlerts.tsx:53 | an inactive alert never fires |
| PriceAlerts.SecondPassFiresNothing | src/components/PriceAlerts.tsx:49-68 | a second pass at the same price fires nothing and changes nothing |
| PriceAlerts.AddedAlertIsLastAndActive | src/components/PriceAlerts.tsx:92-101 | the added alert is last, active, has the parsed target, the form's condition, the panel's currency and the clock reading as id; the earlier alerts are kept and the active list grows by exactly that alert |
| PriceAlerts.RemoveDropsExactlyId | src/components/PriceAlerts.tsx:110-112 | removal keeps exactly the alerts with another id, and nothing is lost or invented |
| PriceAlerts.WithoutSnoc | src/components/PriceAlerts.tsx:110-112 | removal keeps the remaining alerts in their original order: an alert appended to the list is kept, at the end, iff its id differs |
| PriceAlerts.ActiveTriggeredPartition | src/components/PriceAlerts.tsx:114-115 | the active and triggered lists split the alerts of the currency between them, with no alert in both |
| MarketSentiment.Classify | src/components/MarketSentiment.tsx:41-91 | the five bands are the intervals (2, ∞), (0.5, 2], [-0.5, 0.5], [-2, -0.5) and (-∞, -2) |
| MarketSentiment.SentimentOf | src/components/MarketSentiment.tsx:41-91 | each sentiment carries the band it was built for |
| MarketSentiment.CalculateTrend | src/components/MarketSentiment.tsx:19-29 | defines the trend over the history; `TrendValue` states its value, `TrendDegenerate` its zero cases and `TrendSign` its sign |
| MarketSentiment.CombinedChange | src/components/MarketSentiment.tsx:34 | defines the 30/70 weighting; `SentimentUsesWeightedChange` states its use |
| MarketSentiment.ChangeToUse | src/components/MarketSentiment.tsx:38-39 | defines the value classified; `ZeroCombinedUsesDailyChange` states its fallback |
| MarketSentiment.GetSentiment | src/components/MarketSentiment.tsx:36-92 | defines the sentiment shown; `SentimentUsesWeightedChange` and `GaugeMonotone` state it |
| MarketSentiment.ColourOf | src/components/MarketSentiment.tsx:137-143 | defines the gauge colour rule; `GaugeColourMatchesBand` states it per band |
| MarketSentiment.TrendDegenerate | src/components/MarketSentiment.tsx:19-28 | fewer than two points, or a zero oldest price, give trend 0 |
| MarketSentiment.TrendValue | src/components/MarketSentiment.tsx:24-28 | with a nonzero oldest price, the oldest price times (1 + trend/100) is the newest price |
| MarketSentiment.TrendSign | src/components/MarketSentiment.tsx:19-29 | with a positive oldest price, the trend's sign is the sign of newest minus oldest |
| MarketSentiment.ZeroCombinedUsesDailyChange | src/components/MarketSentiment.tsx:38-39 | a zero combined value falls back to the 24-hour change |
| MarketSentiment.SentimentUsesWeightedChange | src/components/MarketSentiment.tsx:31-39 | the band is the classification of `0.3·change + 0.7·trend`, or of the change alone when that is 0 |
| MarketSentiment.BoundariesAreNeutral | src/components/MarketSentiment.tsx:41-91 | ±0.5 are neutral, 2 is bullish and -2 bearish (the comparisons are strict) |
| MarketSentiment.GaugeMonotone | src/components/MarketSentiment.tsx:41-91 | the gauge never decreases as the classified value grows |
| MarketSentiment.GaugeColourMatchesBand | src/components/MarketSentiment.tsx:137-143 | the bar is green iff the band is bullish, red iff bearish, and grey iff neutral |
| GoldNews.AgeOf | src/components/GoldNews.tsx:73-84 | the four age buckets are the intervals below 1 h, [1 h, 24 h), [1 d, 7 d) and beyond; hours lie in 1..23 and days in 1..6, each being the floor of the age |
| GoldNews.FormatDate | src/components/GoldNews.tsx:73-84 | defines the age label; `UnderAnHourIsJustNow`, `HoursLabel`, `DaysLabel` and `OlderShowsDate` state each case |
| GoldNews.FloorOfFloor | src/components/GoldNews.tsx:77-78 | the floor of the hours over 24 is the floor of the days |
| GoldNews.UnderAnHourIsJustNow | src/components/GoldNews.tsx:80 | an age under an hour reads "Just now" |
| GoldNews.HoursLabel | src/components/GoldNews.tsx:81 | an age under a day reads "{h}h ago" with h in 1..23 |
| GoldNews.DaysLabel | src/components/GoldNews.tsx:82 | an age under a week reads "{d}d ago" with d in 1..6 |
| GoldNews.OlderShowsDate | src/components/GoldNews.tsx:83 | an older article shows its locale date |
| GoldNews.MockNews | src/components/GoldNews.tsx:49-71 | the fallback has three articles |
| GoldNews.ChosenNews | src/components/GoldNews.tsx:27-41 | defines the articles the panel shows; `NewsFallback` states both cases |
| GoldNews.NewsFallback | src/components/GoldNews.tsx:21-44 | the panel shows the API's articles iff the answer was ok with `success` and an article list, and otherwise the mock articles |
| GoldNews.NewsPanel.constructor | src/components/GoldNews.tsx:17-18 | the panel starts empty and loading |
| GoldNews.NewsPanel.FetchNews | src/components/GoldNews.tsx:21-44 | the fetch sets the shown news to the chosen articles and clears loading |
| HomePage.PriceHistoryData | src/app/page.tsx:96-103 | one item per day with date and price kept and a change set; the first day's change is 0 |
| HomePage.PercentChange | src/app/page.tsx:98-99 | defines the day-on-day percentage change; `ChangeMeansMove` states its inverse and sign |
| HomePage.ChangeMeansMove | src/app/page.tsx:96-103 | the change of a later day turns the previous price into the day's price, and with a positive previous price it has the sign of the move |
| HomePage.ChartData | src/app/page.tsx:89-93 | the chart series keeps every day's date and price |
| HomePage.MidnightDelay | src/app/page.tsx:53-62 | the delay lies in (0, 24 h], equals 24 h exactly at a WIB midnight, does not depend on the browser's time zone, ends on a WIB midnight and skips none |
| HomePage.TimeUntilMidnightWib | src/app/page.tsx:53-62 | defines the delay computation step by step; `MidnightDelay` states its range, its independence of the time zone and where it ends |
| HomePage.NoMultipleStrictlyBetween | src/app/page.tsx:53-62 | no multiple of a day lies strictly between two consecutive ones |
| HomePage.RecentPricesAreOldestDays | src/app/page.tsx:96-103 | the table fed with the page's history lists its first ten days, most recent of them first |
| PriceHistory.RecentItemsAt | src/components/PriceHistory.tsx:42-45 | the table shows min(10, n) items, the k-th being item min(10, n) - 1 - k |
| PriceHistory.RecentItems | src/components/PriceHistory.tsx:42-44 | defines `slice(0, 10).reverse()`; `RecentItemsAt` states it element by element |
| PriceHistory.ChangeOf | src/components/PriceHistory.tsx:46 | defines `item.change \|\| 0`; `RowOf` states the badge it leads to |
| PriceHistory.RowOf | src/components/PriceHistory.tsx:46-94 | a row keeps date and price and shows a badge iff the change is present and nonzero, upward iff it is positive |
| PriceHistory.Render | src/components/PriceHistory.tsx:23-32 | the placeholder is shown iff the data is absent or empty |
| PriceHistory.RenderedRows | src/components/PriceHistory.tsx:23-94 | nonempty data renders min(10, n) rows, the k-th being the row of item min(10, n) - 1 - k |
| Strings.NatToString | src/components/PriceAlerts.tsx:93 | a decimal rendering is a nonempty digit string with a leading zero only for 0 |
| Strings.ParseNatToString | src/components/PriceAlerts.tsx:93 | parsing a rendered number gives the number back, so ids from distinct clock readings differ |
| Strings.NatToStringInjective | src/components/PriceAlerts.tsx:93 | distinct numbers render differently |
| Strings.Truthy | src/lib/goldapi.ts:119-122 | defines JavaScript truthiness of an optional string; `GoldApi.SelectApiKey` and `NewsRoute.Respond` state its use |

## Left out

- HTTP plumbing: `NextResponse`, headers, `next.revalidate` and `fetch` options are not
  modelled. A reply is its status and its JSON fields.
- `Date.now()` is read once per request. The source reads it separately in `get`, `getAge` and
  `getTimeUntilExpiry`, so a few milliseconds can pass between those reads.
- Concurrent requests, and the `cache` singleton shared between them, are out of scope. The
  model is sequential.
- The news upstream is an abstract outcome (thrown, not-ok or a body). An upstream article
  without a `source` object throws a TypeError in the source and ends in the 500 branch. The
  model always has a `source.name`.
- The news body is an abstract value. A JSON body that is not an object is not modelled.
- `convertPriceToCurrency` and `convertPriceToUnit` are not part of this model. They are
  arrow-typed parameters assumed not to throw. A helper that throws or rejects makes
  `getPriceWithConversion` itself reject; total Dafny functions cannot express that.
- `GoldApi.GetMultiCurrencyPrice`: `Promise.all` is modelled as the three requests in order.
  Interleaving is not visible in the result. `filter(Boolean)` drops only failures, because
  a successful body is always an object.
- Cache.ServerCache.Has: stored values are assumed non-null. In the source a fresh entry whose
  data is `null` reads as a miss (`get` returns the `null`, and `has` compares with `null`);
  the model reports it as a hit. The only caller stores an array (src/app/api/news/route.ts:44-54).
- Numbers are exact `real`s. IEEE rounding, `NaN` and `Infinity` are not modelled. In
  `AddAlert`, `Number()` parsing is a parameter whose `None` stands for `NaN`.
- `HomePage.PriceHistoryData`: requires every price before the last to be nonzero, because
  in the source a zero previous price gives `Infinity` or `NaN`, which `real` cannot represent.
- `triggerAlert`, `Notification`, `alert()` and the notification-permission request are side
  effects outside the model. Only the list of fired alerts is kept.
- `localStorage` persistence of the alerts is not modelled.
- The `showForm` toggle button is not modelled.
- `new Date().toISOString()`, `toLocaleDateString` and `new Date(publishedAt)` are
  parameters. An unparseable date (`NaN` age) is not modelled.
- `HomePage.MidnightDelay`: assumes the browser's time-zone offset is the same at both
  instants. Daylight-saving changes are not modelled.
- `generateMockHistoricalData` in src/lib/utils.ts uses randomness and is not part of this
  model. The history is a parameter.
- Purely presentational parts are not modelled: JSX layout, icons, Tailwind class strings
  other than the gauge colour, the text colours of each band, `GoldChart`, `GoldPriceCard`,
  `Header`, `FAQ`, `ContactEmail` and `ColabDataDisplay`.
