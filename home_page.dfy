/** The derivations of src/app/page.tsx: the chart series, the history with day-on-day
    changes, and the delay until the next midnight in WIB (UTC+7). */
module HomePage {
  import opened Wrappers
  import opened GoldTypes
  import Seqs
  import PriceHistory

  /** `((price - prevPrice) / prevPrice) * 100`. */
  function PercentChange(prev: real, price: real): real
    requires prev != 0.0
  {
    (price - prev) / prev * 100.0
  }

  /** Every price that serves as a previous price is non-zero. */
  predicate DivisorsNonZero(h: seq<PricePoint>) {
    forall i :: 0 <= i < |h| - 1 ==> h[i].price != 0.0
  }

  /** `priceHistoryData`: each point with its change from the point before; the first has 0. */
  function PriceHistoryData(h: seq<PricePoint>): (r: seq<HistoryPoint>)
    requires DivisorsNonZero(h)
    ensures |r| == |h|
    ensures forall i :: 0 <= i < |h| ==> r[i].date == h[i].date && r[i].price == h[i].price && r[i].change.Some?
    ensures |h| > 0 ==> r[0].change == Some(0.0)
  {
    seq(|h|, i requires 0 <= i < |h| =>
      HistoryPoint(h[i].date, h[i].price, Some(if i > 0 then PercentChange(h[i - 1].price, h[i].price) else 0.0)))
  }

  /** The change of point `i > 0` undoes to its price: the previous price grown by the change
      percentage is the current price, and with a positive previous price its sign is the
      direction of the move. */
  lemma ChangeMeansMove(h: seq<PricePoint>, i: nat)
    requires DivisorsNonZero(h) && 0 < i < |h|
    ensures
      var c := PriceHistoryData(h)[i].change.value;
      && c == PercentChange(h[i - 1].price, h[i].price)
      && h[i - 1].price * (1.0 + c / 100.0) == h[i].price
      && (h[i - 1].price > 0.0 ==>
            (c > 0.0 <==> h[i].price > h[i - 1].price) && (c < 0.0 <==> h[i].price < h[i - 1].price))
  {
    var p, x := h[i - 1].price, h[i].price;
    var q := (x - p) / p;
    assert q * p == x - p;
    assert PercentChange(p, x) / 100.0 == q;
    if p > 0.0 {
      if x > p {
        assert q > 0.0;
      } else if x < p {
        assert q < 0.0;
      } else {
        assert q == 0.0;
      }
    }
  }

  /** `chartData`: date and price of each point, same order. */
  function ChartData(h: seq<PricePoint>): (r: seq<PricePoint>)
    ensures |r| == |h|
    ensures forall i :: 0 <= i < |h| ==> r[i].date == h[i].date && r[i].price == h[i].price
  {
    seq(|h|, i requires 0 <= i < |h| => PricePoint(h[i].date, h[i].price))
  }

  const MinuteMs: int := 60000
  const HourMs: int := 3600000
  const DayMs: int := 24 * HourMs
  const WibOffsetMs: int := 7 * HourMs

  /** A `Date`'s local wall-clock reading, for a time zone whose `getTimezoneOffset()` is
      `offsetMinutes` (UTC minus local time). */
  function LocalWallClock(epochMs: int, offsetMinutes: int): int {
    epochMs - offsetMinutes * MinuteMs
  }

  function EpochOfWallClock(wallMs: int, offsetMinutes: int): int {
    wallMs + offsetMinutes * MinuteMs
  }

  /** `getTimeUntilMidnightWIB`: shift the clock to WIB, move to the next local midnight with
      `setHours(24, 0, 0, 0)` and take the difference. */
  function TimeUntilMidnightWib(nowMs: int, offsetMinutes: int): int {
    var nowUtc := nowMs + offsetMinutes * MinuteMs;
    var nowWib := nowUtc + WibOffsetMs;
    var wall := LocalWallClock(nowWib, offsetMinutes);
    var midnightWall := wall - wall % DayMs + DayMs;
    EpochOfWallClock(midnightWall, offsetMinutes) - nowWib
  }

  predicate IsWibMidnight(t: int) {
    (t + WibOffsetMs) % DayMs == 0
  }

  /** The delay lies in (0, 24 h], is a full day exactly at a WIB midnight, does not depend on
      the browser's time zone, and ends at the first WIB midnight after now. */
  lemma MidnightDelay(nowMs: int, offsetMinutes: int, otherOffset: int)
    ensures 0 < TimeUntilMidnightWib(nowMs, offsetMinutes) <= DayMs
    ensures TimeUntilMidnightWib(nowMs, offsetMinutes) == DayMs <==> IsWibMidnight(nowMs)
    ensures TimeUntilMidnightWib(nowMs, offsetMinutes) == TimeUntilMidnightWib(nowMs, otherOffset)
    ensures IsWibMidnight(nowMs + TimeUntilMidnightWib(nowMs, offsetMinutes))
    ensures forall t :: nowMs < t < nowMs + TimeUntilMidnightWib(nowMs, offsetMinutes) ==> !IsWibMidnight(t)
  {
    var w := nowMs + WibOffsetMs;
    var r := w % DayMs;
    assert TimeUntilMidnightWib(nowMs, offsetMinutes) == DayMs - r;
    assert TimeUntilMidnightWib(nowMs, otherOffset) == DayMs - r;
    var q := w / DayMs;
    assert w == q * DayMs + r;
    assert nowMs + (DayMs - r) + WibOffsetMs == (q + 1) * DayMs;
    forall t | nowMs < t < nowMs + (DayMs - r)
      ensures !IsWibMidnight(t)
    {
      var u := t + WibOffsetMs;
      assert q * DayMs < u < (q + 1) * DayMs;
      NoMultipleStrictlyBetween(u, q);
    }
  }

  lemma NoMultipleStrictlyBetween(u: int, q: int)
    requires q * DayMs < u < (q + 1) * DayMs
    ensures u % DayMs != 0
  {
    var k := u / DayMs;
    assert u == k * DayMs + u % DayMs && 0 <= u % DayMs < DayMs;
    assert k == q;
    assert u % DayMs == u - q * DayMs;
  }

  /** What the page shows under "Recent Prices": its history is oldest-first, so the list
      holds the first (oldest) `min(10, n)` days, the latest of them on top, each with the
      change computed for it. */
  lemma RecentPricesAreOldestDays(h: seq<PricePoint>, k: nat)
    requires DivisorsNonZero(h) && h != [] && k < Seqs.Min(10, |h|)
    ensures
      var v := PriceHistory.Render(Some(PriceHistoryData(h)));
      && v.Rows? && |v.rows| == Seqs.Min(10, |h|)
      && v.rows[k].date == h[Seqs.Min(10, |h|) - 1 - k].date
      && v.rows[k].price == h[Seqs.Min(10, |h|) - 1 - k].price
  {
    PriceHistory.RenderedRows(PriceHistoryData(h), k);
  }
}
