/** The news panel of src/components/GoldNews.tsx: the choice between the endpoint's articles
    and three built-in ones, and the relative-time label of each article. Dates are given as
    millisecond differences; locale and ISO formatting are parameters. */
module GoldNews {
  import opened Wrappers
  import Strings
  import NewsRoute

  const HourMs: int := 1000 * 60 * 60
  const DayMs: int := 24 * HourMs

  /** The age buckets of `formatDate`. */
  datatype Age = JustNow | HoursAgo(hours: int) | DaysAgo(days: int) | OlderThanAWeek

  /** `formatDate`'s arithmetic: `Math.floor` of hours, then of days. */
  function AgeOf(diffMs: int): (a: Age)
    ensures a == JustNow <==> diffMs < HourMs
    ensures a.HoursAgo? <==> HourMs <= diffMs < DayMs
    ensures a.DaysAgo? <==> DayMs <= diffMs < 7 * DayMs
    ensures a == OlderThanAWeek <==> diffMs >= 7 * DayMs
    ensures a.HoursAgo? ==> 1 <= a.hours <= 23 && a.hours * HourMs <= diffMs < (a.hours + 1) * HourMs
    ensures a.DaysAgo? ==> 1 <= a.days <= 6 && a.days * DayMs <= diffMs < (a.days + 1) * DayMs
  {
    var diffHours := diffMs / HourMs;
    var diffDays := diffHours / 24;
    FloorOfFloor(diffMs);
    if diffHours < 1 then JustNow
    else if diffHours < 24 then HoursAgo(diffHours)
    else if diffDays < 7 then DaysAgo(diffDays)
    else OlderThanAWeek
  }

  /** Flooring to hours and then to days is flooring to days. */
  lemma FloorOfFloor(diffMs: int)
    ensures (diffMs / HourMs) / 24 == diffMs / DayMs
    ensures (diffMs / HourMs) * HourMs <= diffMs < (diffMs / HourMs + 1) * HourMs
    ensures (diffMs / DayMs) * DayMs <= diffMs < (diffMs / DayMs + 1) * DayMs
  {
    var h := diffMs / HourMs;
    var d := h / 24;
    assert h * HourMs <= diffMs < h * HourMs + HourMs;
    assert d * 24 <= h < d * 24 + 24;
    assert d * DayMs <= diffMs < d * DayMs + DayMs by {
      assert d * DayMs == (d * 24) * HourMs;
      assert (d * 24) * HourMs <= h * HourMs;
      assert (h + 1) * HourMs <= (d * 24 + 24) * HourMs;
    }
  }

  /** `formatDate`: `localeDate` stands for `date.toLocaleDateString()`. */
  function FormatDate(diffMs: int, localeDate: string): string {
    match AgeOf(diffMs)
    case JustNow => "Just now"
    case HoursAgo(h) => Strings.NatToString(h) + "h ago"
    case DaysAgo(d) => Strings.NatToString(d) + "d ago"
    case OlderThanAWeek => localeDate
  }

  /** Under an hour, including a publication date in the future, is "Just now". */
  lemma UnderAnHourIsJustNow(diffMs: int, localeDate: string)
    requires diffMs < HourMs
    ensures FormatDate(diffMs, localeDate) == "Just now"
  {
  }

  /** From one hour to a day: "<h>h ago" with h the whole hours elapsed. */
  lemma HoursLabel(diffMs: int, localeDate: string)
    requires HourMs <= diffMs < DayMs
    ensures 1 <= diffMs / HourMs <= 23
    ensures FormatDate(diffMs, localeDate) == Strings.NatToString(diffMs / HourMs) + "h ago"
  {
    FloorOfFloor(diffMs);
  }

  /** From one day to a week: "<d>d ago" with d the whole days elapsed. */
  lemma DaysLabel(diffMs: int, localeDate: string)
    requires DayMs <= diffMs < 7 * DayMs
    ensures 1 <= diffMs / DayMs <= 6
    ensures FormatDate(diffMs, localeDate) == Strings.NatToString(diffMs / DayMs) + "d ago"
  {
    FloorOfFloor(diffMs);
  }

  /** A week or more shows the absolute date. */
  lemma OlderShowsDate(diffMs: int, localeDate: string)
    requires diffMs >= 7 * DayMs
    ensures FormatDate(diffMs, localeDate) == localeDate
  {
  }

  /** The parsed body of `/api/news`. */
  datatype NewsBody = NewsBody(success: bool, articles: Option<seq<NewsRoute.Article>>)

  /** What the panel's fetch produced: it threw, answered non-ok, or answered ok with a body
      that could not be parsed (`None`) or could. */
  datatype NewsFetchOutcome =
    | Threw
    | HttpNotOk
    | HttpOk(body: Option<NewsBody>)

  /** `getMockNews()`; `isoAt(t)` stands for `new Date(t).toISOString()`. */
  function MockNews(now: int, isoAt: int -> string): (r: seq<NewsRoute.Article>)
    ensures |r| == 3
  {
    [ NewsRoute.Article("Gold Prices Rise Amid Economic Uncertainty", "#", "Financial Times", isoAt(now),
        "Gold sees gains as investors seek safe haven assets"),
      NewsRoute.Article("Central Banks Increase Gold Reserves", "#", "Bloomberg", isoAt(now - 86400000),
        "Global central banks continue accumulating gold"),
      NewsRoute.Article("Gold Market Analysis: What's Next?", "#", "Reuters", isoAt(now - 172800000),
        "Analysts predict continued volatility in precious metals") ]
  }

  predicate UsesApiArticles(outcome: NewsFetchOutcome) {
    outcome.HttpOk? && outcome.body.Some? && outcome.body.value.success && outcome.body.value.articles.Some?
  }

  /** The list `fetchNews` puts into the `news` state. */
  function ChosenNews(outcome: NewsFetchOutcome, now: int, isoAt: int -> string): seq<NewsRoute.Article> {
    match outcome
    case HttpOk(Some(NewsBody(true, Some(articles)))) => articles
    case _ => MockNews(now, isoAt)
  }

  /** The panel shows the endpoint's articles exactly when the answer was ok, parsed, had
      `success` set and carried `articles` (an empty list included); otherwise the three
      built-in articles. */
  lemma NewsFallback(outcome: NewsFetchOutcome, now: int, isoAt: int -> string)
    ensures UsesApiArticles(outcome) ==> ChosenNews(outcome, now, isoAt) == outcome.body.value.articles.value
    ensures !UsesApiArticles(outcome) ==> ChosenNews(outcome, now, isoAt) == MockNews(now, isoAt)
  {
  }

  /** The component's state. */
  class NewsPanel {
    var news: seq<NewsRoute.Article>
    var loading: bool

    constructor ()
      ensures news == [] && loading
    {
      news, loading := [], true;
    }

    /** `fetchNews`: sets `news` from the outcome and ends with `loading` false. */
    method FetchNews(outcome: NewsFetchOutcome, now: int, isoAt: int -> string)
      modifies this
      ensures news == ChosenNews(outcome, now, isoAt)
      ensures !loading
    {
      loading := true;
      if outcome.HttpOk? {
        if outcome.body.Some? && outcome.body.value.success && outcome.body.value.articles.Some? {
          news := outcome.body.value.articles.value;
        } else {
          news := MockNews(now, isoAt);
        }
      } else {
        news := MockNews(now, isoAt);
      }
      loading := false;
    }
  }
}
