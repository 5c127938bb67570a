/** The news endpoint of src/app/api/news/route.ts: cache-aside over the shared `ServerCache`.
    A fresh entry under "gold_news" is answered from the cache; otherwise the route needs the
    GNews key, fetches, normalises the articles and stores them for one hour. The upstream call
    is an abstract `NewsFetch` outcome. */
module NewsRoute {
  import opened Wrappers
  import opened Cache
  import Strings

  const NewsCacheKey: string := "gold_news"

  /** News is cached for one hour. */
  const NewsTtlMs: int := 60 * 60 * 1000

  /** An article as GNews returns it; `sourceName` is its `source.name`. */
  datatype RawArticle = RawArticle(
    title: string, url: string, sourceName: string, publishedAt: string,
    description: string, content: string, image: string)

  /** The normalised article the route sends (and caches). */
  datatype Article = Article(title: string, url: string, source: string, publishedAt: string, description: string)

  /** What the upstream call produced: it threw (network failure, unreadable JSON), answered
      with a non-ok status, or delivered a body whose `articles` field may be missing. */
  datatype NewsFetch =
    | FetchThrew(message: string)
    | NotOk(status: nat)
    | Delivered(articles: Option<seq<RawArticle>>)

  /** The JSON envelope and HTTP status of the route's answer. */
  datatype NewsReply =
    | CachedReply(articles: seq<Article>, cacheAge: int, expiresIn: int)
    | FreshReply(articles: seq<Article>)
    | ErrorReply(status: nat, error: string)
  {
    function Status(): nat {
      if ErrorReply? then status else 200
    }

    function Success(): bool {
      !ErrorReply?
    }
  }

  function Normalise(a: RawArticle): Article {
    Article(a.title, a.url, a.sourceName, a.publishedAt, a.description)
  }

  /** `data.articles?.map(...) || []`. */
  function MapArticles(articles: Option<seq<RawArticle>>): (r: seq<Article>)
    ensures articles.None? ==> r == []
    ensures articles.Some? ==> |r| == |articles.value|
    ensures articles.Some? ==> forall i :: 0 <= i < |r| ==>
      var a := articles.value[i];
      r[i] == Article(a.title, a.url, a.sourceName, a.publishedAt, a.description)
  {
    match articles
    case None => []
    case Some(s) => seq(|s|, i requires 0 <= i < |s| => Normalise(s[i]))
  }

  /** `Math.floor((ms || 0) / 1000)`: an absent duration counts as zero. */
  function FloorSeconds(ms: Option<int>): (r: int)
    ensures ms.Some? ==> r * 1000 <= ms.value < r * 1000 + 1000
    ensures ms.None? ==> r == 0
  {
    if ms.Some? then ms.value / 1000 else 0
  }

  /** `error.message || "Failed to fetch news"`. */
  function NewsErrorText(message: string): string {
    if message == "" then "Failed to fetch news" else message
  }

  /** The route as a function of the store before the request: the reply, and the store after. */
  function Respond(m: Store<seq<Article>>, apiKey: Option<string>, fetch: NewsFetch, now: int): (r: (NewsReply, Store<seq<Article>>))
    ensures r.0.Success() <==> Lookup(m, NewsCacheKey, now).Some? || (Strings.Truthy(apiKey) && fetch.Delivered?)
    ensures r.0.CachedReply? <==> Lookup(m, NewsCacheKey, now).Some?
    ensures !r.0.FreshReply? ==> r.1 == AfterLookup(m, NewsCacheKey, now)
    ensures !r.0.Success() ==> r.0.Status() == 500
  {
    var hit := Lookup(m, NewsCacheKey, now);
    var m1 := AfterLookup(m, NewsCacheKey, now);
    if hit.Some? then
      (CachedReply(hit.value,
                   FloorSeconds(Age(m1, NewsCacheKey, now)),
                   FloorSeconds(TimeUntilExpiry(m1, NewsCacheKey, now))), m1)
    else if !Strings.Truthy(apiKey) then
      (ErrorReply(500, "API key not configured"), m1)
    else
      match fetch
      case FetchThrew(message) => (ErrorReply(500, NewsErrorText(message)), m1)
      case NotOk(status) => (ErrorReply(500, "GNews API error: " + Strings.NatToString(status)), m1)
      case Delivered(raw) =>
        var articles := MapArticles(raw);
        (FreshReply(articles), Stored(m1, NewsCacheKey, articles, NewsTtlMs, now))
  }

  /** `GET /api/news`, step by step against the shared cache. */
  method Get(cache: ServerCache<seq<Article>>, apiKey: Option<string>, fetch: NewsFetch, now: int)
    returns (reply: NewsReply)
    modifies cache
    ensures (reply, cache.entries) == Respond(old(cache.entries), apiKey, fetch, now)
  {
    var cachedNews := cache.Get(NewsCacheKey, now);
    if cachedNews.Some? {
      var cacheAge := cache.GetAge(NewsCacheKey, now);
      var timeUntilExpiry := cache.GetTimeUntilExpiry(NewsCacheKey, now);
      return CachedReply(cachedNews.value, FloorSeconds(cacheAge), FloorSeconds(timeUntilExpiry));
    }
    if !Strings.Truthy(apiKey) {
      return ErrorReply(500, "API key not configured");
    }
    match fetch
    case FetchThrew(message) =>
      reply := ErrorReply(500, NewsErrorText(message));
    case NotOk(status) =>
      reply := ErrorReply(500, "GNews API error: " + Strings.NatToString(status));
    case Delivered(raw) =>
      var articles := MapArticles(raw);
      cache.Set(NewsCacheKey, articles, NewsTtlMs, now);
      reply := FreshReply(articles);
  }

  /** A fresh entry is answered from the cache with `cached: true`, whatever the key and the
      upstream would have done, and the store is left as it was. */
  lemma HitIgnoresKeyAndFetch(m: Store<seq<Article>>, k1: Option<string>, f1: NewsFetch,
                              k2: Option<string>, f2: NewsFetch, now: int)
    requires NewsCacheKey in m && now <= m[NewsCacheKey].expiresAt
    ensures Respond(m, k1, f1, now) == Respond(m, k2, f2, now)
    ensures Respond(m, k1, f1, now).1 == m
    ensures Respond(m, k1, f1, now).0.CachedReply?
    ensures Respond(m, k1, f1, now).0.articles == m[NewsCacheKey].data
  {
  }

  /** A hit is decided by presence, not by content: a cached empty list is still a hit. */
  lemma EmptyListIsHit(m: Store<seq<Article>>, apiKey: Option<string>, fetch: NewsFetch, now: int)
    requires NewsCacheKey in m && m[NewsCacheKey].data == [] && now <= m[NewsCacheKey].expiresAt
    ensures Respond(m, apiKey, fetch, now).0 == CachedReply([],
      (now - m[NewsCacheKey].timestamp) / 1000,
      if now < m[NewsCacheKey].expiresAt then (m[NewsCacheKey].expiresAt - now) / 1000 else 0)
  {
  }

  /** On a miss without an API key the route answers 500 and writes nothing; the only change
      to the store is the eviction done by the read. */
  lemma MissWithoutKey(m: Store<seq<Article>>, apiKey: Option<string>, fetch: NewsFetch, now: int)
    requires Lookup(m, NewsCacheKey, now).None?
    requires !Strings.Truthy(apiKey)
    ensures Respond(m, apiKey, fetch, now) == (ErrorReply(500, "API key not configured"), AfterLookup(m, NewsCacheKey, now))
  {
  }

  /** An upstream failure (thrown or non-ok) answers 500 and performs no cache write. */
  lemma UpstreamFailureWritesNothing(m: Store<seq<Article>>, apiKey: Option<string>, fetch: NewsFetch, now: int)
    requires Lookup(m, NewsCacheKey, now).None?
    requires !fetch.Delivered?
    ensures Respond(m, apiKey, fetch, now).0.Status() == 500
    ensures !Respond(m, apiKey, fetch, now).0.Success()
    ensures Respond(m, apiKey, fetch, now).1 == AfterLookup(m, NewsCacheKey, now)
  {
  }

  /** A successful miss stores the normalised articles for one hour and answers `cached: false`. */
  lemma SuccessfulMissStores(m: Store<seq<Article>>, apiKey: Option<string>, raw: Option<seq<RawArticle>>, now: int)
    requires Lookup(m, NewsCacheKey, now).None?
    requires Strings.Truthy(apiKey)
    ensures Respond(m, apiKey, Delivered(raw), now).0 == FreshReply(MapArticles(raw))
    ensures Respond(m, apiKey, Delivered(raw), now).1 ==
      AfterLookup(m, NewsCacheKey, now)[NewsCacheKey := CacheEntry(MapArticles(raw), now, now + 3600000)]
  {
  }

  /** After a successful miss at `t`, any call within the hour is a hit on the stored articles,
      reporting the age and the time left in whole seconds. */
  lemma SecondCallHits(m: Store<seq<Article>>, apiKey: Option<string>, raw: Option<seq<RawArticle>>,
                       t: int, key2: Option<string>, fetch2: NewsFetch, t2: int)
    requires Lookup(m, NewsCacheKey, t).None?
    requires Strings.Truthy(apiKey)
    requires t <= t2 <= t + NewsTtlMs
    ensures
      var m' := Respond(m, apiKey, Delivered(raw), t).1;
      Respond(m', key2, fetch2, t2) ==
        (CachedReply(MapArticles(raw), (t2 - t) / 1000, (t + 3600000 - t2) / 1000), m')
  {
  }

  /** The immediate repeat reports age 0 and 3600 seconds to go. */
  lemma ImmediateRepeat(m: Store<seq<Article>>, apiKey: Option<string>, raw: Option<seq<RawArticle>>,
                        t: int, key2: Option<string>, fetch2: NewsFetch)
    requires Lookup(m, NewsCacheKey, t).None?
    requires Strings.Truthy(apiKey)
    ensures Respond(Respond(m, apiKey, Delivered(raw), t).1, key2, fetch2, t).0 ==
      CachedReply(MapArticles(raw), 0, 3600)
  {
    SecondCallHits(m, apiKey, raw, t, key2, fetch2, t);
  }
}
