/** The "Recent Prices" list of src/components/PriceHistory.tsx: `data.slice(0, 10).reverse()`
    rendered row by row, with a change badge when the change is non-zero. */
module PriceHistory {
  import opened Wrappers
  import opened GoldTypes
  import Seqs

  const MaxRows: int := 10

  /** `data.slice(0, 10).reverse()`: a copy, so the input itself is never reordered. */
  function RecentItems(data: seq<HistoryPoint>): seq<HistoryPoint> {
    Seqs.Reverse(data[..Seqs.Min(MaxRows, |data|)])
  }

  /** The rows are the first `min(10, n)` items, last of them first. */
  lemma RecentItemsAt(data: seq<HistoryPoint>, k: nat)
    requires k < Seqs.Min(MaxRows, |data|)
    ensures |RecentItems(data)| == Seqs.Min(MaxRows, |data|)
    ensures RecentItems(data)[k] == data[Seqs.Min(MaxRows, |data|) - 1 - k]
  {
    Seqs.ReverseAt(data[..Seqs.Min(MaxRows, |data|)], k);
  }

  /** The change badge: its colour and icon follow `positive`, which is `change >= 0`. */
  datatype Badge = Badge(positive: bool, change: real)

  datatype Row = Row(date: string, price: real, badge: Option<Badge>)

  datatype View = Placeholder | Rows(rows: seq<Row>)

  /** `item.change || 0`: a missing change counts as 0. */
  function ChangeOf(item: HistoryPoint): real {
    if item.change.Some? then item.change.value else 0.0
  }

  function RowOf(item: HistoryPoint): (r: Row)
    ensures r.date == item.date && r.price == item.price
    ensures r.badge.Some? <==> item.change.Some? && item.change.value != 0.0
    ensures r.badge.Some? ==> r.badge.value.change == item.change.value
    ensures r.badge.Some? ==> (r.badge.value.positive <==> item.change.value > 0.0)
  {
    var change := ChangeOf(item);
    var isPositive := change >= 0.0;
    Row(item.date, item.price, if change != 0.0 then Some(Badge(isPositive, change)) else None)
  }

  /** The component: a placeholder for missing or empty data, otherwise one row per recent item. */
  function Render(data: Option<seq<HistoryPoint>>): (v: View)
    ensures v.Placeholder? <==> data.None? || data.value == []
  {
    if data.None? || |data.value| == 0 then Placeholder
    else
      var items := RecentItems(data.value);
      Rows(seq(|items|, i requires 0 <= i < |items| => RowOf(items[i])))
  }

  /** The rendered rows: `min(10, n)` of them, row `k` showing item `min(10, n) - 1 - k`. */
  lemma RenderedRows(data: seq<HistoryPoint>, k: nat)
    requires data != [] && k < Seqs.Min(MaxRows, |data|)
    ensures Render(Some(data)).Rows?
    ensures |Render(Some(data)).rows| == Seqs.Min(MaxRows, |data|)
    ensures Render(Some(data)).rows[k] == RowOf(data[Seqs.Min(MaxRows, |data|) - 1 - k])
  {
    RecentItemsAt(data, k);
  }
}
