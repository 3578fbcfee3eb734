/** What the list, the detail panel and the history chart are fed (app.js:97-128,
    172-188, 247-252), without the markup itself. */
module Views {
  import opened Wrappers
  import opened Metrics
  import opened Filters

  /** The list shows at most this many items. */
  const MaxRows: int := 50

  /** The history chart shows at most this many daily points. */
  const HistoryPoints: int := 30

  function Min(a: int, b: int): int {
    if a <= b then a else b
  }

  // ---------------------------------------------------------------------------
  // Magnitude abbreviation (`simplify`)
  // ---------------------------------------------------------------------------

  /** A number as `simplify` shows it: `scaled` followed by `suffix`. How `toFixed(1)`
      and `toLocaleString` turn `scaled` into digits is not modelled. */
  datatype Abbrev = Abbrev(scaled: real, suffix: string)

  /** The factor a suffix stands for. */
  function Unit(suffix: string): real {
    if suffix == "b" then 1_000_000_000.0
    else if suffix == "m" then 1_000_000.0
    else if suffix == "k" then 1_000.0
    else 1.0
  }

  /** `simplify`: the first of the thresholds 1e9, 1e6 and 1e3 that `num` reaches
      picks the suffix; below them all the number is shown as it is. */
  function Simplify(num: int): (a: Abbrev)
    ensures a.suffix == "b" <==> num >= 1_000_000_000
    ensures a.suffix == "m" <==> 1_000_000 <= num < 1_000_000_000
    ensures a.suffix == "k" <==> 1_000 <= num < 1_000_000
    ensures a.suffix == "" <==> num < 1_000
    ensures a.scaled * Unit(a.suffix) == num as real
    ensures a.suffix != "" ==> a.scaled >= 1.0
    ensures a.suffix != "b" ==> a.scaled < 1000.0
  {
    if num >= 1_000_000_000 then Abbrev(num as real / 1_000_000_000.0, "b")
    else if num >= 1_000_000 then Abbrev(num as real / 1_000_000.0, "m")
    else if num >= 1_000 then Abbrev(num as real / 1_000.0, "k")
    else Abbrev(num as real, "")
  }

  /** Negative numbers (a losing flip) are never abbreviated. */
  lemma NegativeIsPlain(num: int)
    requires num < 0
    ensures Simplify(num) == Abbrev(num as real, "")
  {
  }

  lemma SimplifyExamples()
    ensures Simplify(1_500_000_000) == Abbrev(1.5, "b")
    ensures Simplify(2_300_000) == Abbrev(2.3, "m")
    ensures Simplify(4_500) == Abbrev(4.5, "k")
    ensures Simplify(999) == Abbrev(999.0, "")
  {
  }

  // ---------------------------------------------------------------------------
  // The list (`renderList`)
  // ---------------------------------------------------------------------------

  /** One card of the list: selecting it opens the detail view of `id`. */
  datatype Row = Row(id: int, name: string, profit: Abbrev, roi: real, volume: Abbrev)

  /** Either the "no items found" notice or the cards, in order. */
  datatype Listing = NoResults | Rows(rows: seq<Row>)

  function RowOf(it: Item): Row {
    Row(it.id, it.name, Simplify(it.profit), it.roi, Simplify(it.volume))
  }

  /** `renderList`: the first `MaxRows` items, or the notice when there are none. */
  function RenderList(items: seq<Item>): (r: Listing)
    ensures r.NoResults? <==> |items| == 0
    ensures r.Rows? ==> |r.rows| == Min(MaxRows, |items|)
    ensures r.Rows? ==> forall i :: 0 <= i < |r.rows| ==> r.rows[i] == RowOf(items[i])
  {
    var shown := if |items| <= MaxRows then items else items[..MaxRows];
    if |shown| == 0 then NoResults
    else Rows(seq(|shown|, i requires 0 <= i < |shown| => RowOf(shown[i])))
  }

  /** The list after a filter pass shows the most profitable matches: every item cut
      off by the cap earns no more than any item shown. */
  lemma ShownAreMostProfitable(items: seq<Item>, raw: RawCriteria, now: int, i: int, j: int)
    requires 0 <= i < MaxRows <= j < |ApplyFilters(items, raw, now)|
    ensures RenderList(ApplyFilters(items, raw, now)).Rows?
    ensures RenderList(ApplyFilters(items, raw, now)).rows[i].id == ApplyFilters(items, raw, now)[i].id
    ensures ApplyFilters(items, raw, now)[i].profit >= ApplyFilters(items, raw, now)[j].profit
  {
    var r := ApplyFilters(items, raw, now);
    assert SortedByProfit(r);
  }

  /** A worked example end to end: the Rune axe (profit 90) is hidden by a minimum
      profit of 100 and is the only card under a minimum profit of 50. */
  lemma RuneAxeEndToEnd(now: int)
    ensures
      var mapping := [MappingEntry(1, "Rune axe", Some(100))];
      var latest := map[1 := LatestPrice(Some(1000), Some(900), now, now)];
      var volumes := map[1 := DayVolume(Some(50), Some(50))];
      var items := LoadItems(mapping, latest, volumes);
      && RenderList(ApplyFilters(items, RawCriteria(Some(100), None, None, None, ""), now)) == NoResults
      && RenderList(ApplyFilters(items, RawCriteria(Some(50), None, None, None, ""), now))
           == Rows([Row(1, "Rune axe", Abbrev(90.0, ""), 10.0, Abbrev(100.0, ""))])
  {
    var mapping := [MappingEntry(1, "Rune axe", Some(100))];
    var latest := map[1 := LatestPrice(Some(1000), Some(900), now, now)];
    var volumes := map[1 := DayVolume(Some(50), Some(50))];
    var axe := Item(1, "Rune axe", 1000, 900, 100, now, Some(100), 10, 90, 10.0, 9000);
    RuneAxeExample(now);
    assert LoadItems(mapping, latest, volumes) == [axe];
    EmptySearchMatchesAll("Rune axe");
    var strict, lenient := RawCriteria(Some(100), None, None, None, ""), RawCriteria(Some(50), None, None, None, "");
    assert !Passes(axe, Resolve(strict), now);
    assert Passes(axe, Resolve(lenient), now);
    SelectSingle(axe, Resolve(strict), now);
    SelectSingle(axe, Resolve(lenient), now);
    SortSorted([axe]);
    assert ApplyFilters([axe], strict, now) == [];
    assert ApplyFilters([axe], lenient, now) == [axe];
  }

  // ---------------------------------------------------------------------------
  // The detail view (`showDetails`)
  // ---------------------------------------------------------------------------

  /** `allItems.find(i => i.id === id)`: the first item with that id. */
  function FindById(items: seq<Item>, id: int): (r: Option<Item>)
    ensures r.None? <==> forall k :: 0 <= k < |items| ==> items[k].id != id
    ensures r.Some? ==> exists k :: 0 <= k < |items| && items[k] == r.value && r.value.id == id
                                 && forall j :: 0 <= j < k ==> items[j].id != id
  {
    if items == [] then None
    else if items[0].id == id then Some(items[0])
    else
      var r := FindById(items[1..], id);
      assert forall k :: 1 <= k < |items| ==> items[k] == items[1..][k - 1];
      assert r.Some? ==> exists k :: 0 <= k < |items| && items[k] == r.value && r.value.id == id
                                   && forall j :: 0 <= j < k ==> items[j].id != id by {
        if r.Some? {
          var k :| 0 <= k < |items[1..]| && items[1..][k] == r.value && r.value.id == id
                   && forall j :: 0 <= j < k ==> items[1..][j].id != id;
          assert items[k + 1] == r.value;
          forall j | 0 <= j < k + 1 ensures items[j].id != id {
            if j > 0 { assert items[j] == items[1..][j - 1]; }
          }
        }
      }
      r
  }

  /** The six-card panel with its title: the potential is `None` (shown as `?`) when
      the buy limit is unknown. */
  datatype Detail = Detail(
    title: string,
    limit: Option<int>,
    netProfit: int,
    roi: real,
    taxPaid: int,
    buyPrice: int,
    sellPrice: int,
    potential: Option<Abbrev>)

  /** The panel of one item: the limit shows only when truthy ("Unknown" otherwise),
      and the potential only when the limit is truthy ("?" otherwise). */
  function Panel(it: Item): Detail {
    Detail(
      title := it.name,
      limit := if Truthy(it.limit) then it.limit else None,
      netProfit := it.profit,
      roi := it.roi,
      taxPaid := it.tax,
      buyPrice := it.priceLow,
      sellPrice := it.priceHigh,
      potential := if Truthy(it.limit) then Some(Simplify(it.potential)) else None)
  }

  /** `showDetails`: nothing happens (`None`) when no item has the id. */
  function ShowDetails(items: seq<Item>, id: int): (r: Option<Detail>)
    ensures r.None? <==> forall k :: 0 <= k < |items| ==> items[k].id != id
    ensures r.Some? ==> exists k :: (
      && 0 <= k < |items| && items[k].id == id
      && (forall j :: 0 <= j < k ==> items[j].id != id)
      && r.value.title == items[k].name
      && r.value.netProfit == items[k].profit
      && r.value.taxPaid == items[k].tax
      && r.value.buyPrice == items[k].priceLow
      && r.value.sellPrice == items[k].priceHigh
      && r.value.roi == items[k].roi
      && r.value.limit == (if Truthy(items[k].limit) then items[k].limit else None)
      && (r.value.potential.None? <==> !Truthy(items[k].limit))
      && (Truthy(items[k].limit) ==> r.value.potential == Some(Simplify(items[k].potential))))
  {
    match FindById(items, id)
    case None => None
    case Some(it) => Some(Panel(it))
  }

  /** The lookup reads the whole collection, not the filtered list: when ids are
      distinct, every item of the collection, listed or hidden by the filter, opens
      its own panel. */
  lemma DetailsOfItem(items: seq<Item>, it: Item)
    requires it in items
    requires forall i, j :: 0 <= i < j < |items| ==> items[i].id != items[j].id
    ensures ShowDetails(items, it.id) == Some(Panel(it))
  {
    var k :| 0 <= k < |items| && items[k] == it;
  }

  // ---------------------------------------------------------------------------
  // The history chart (`fetchHistory`)
  // ---------------------------------------------------------------------------

  /** One daily point of the `/timeseries` payload. */
  datatype HistoryPoint = HistoryPoint(timestamp: int, avgHighPrice: Option<int>, avgLowPrice: Option<int>)

  /** What the chart is given: the instants (milliseconds) the date labels are made
      from, and the average instant-buy prices. */
  datatype ChartSeries = ChartSeries(instants: seq<int>, prices: seq<Option<int>>)

  /** `data.slice(-30)`: the most recent points, all of them when there are fewer. */
  function LastPoints(data: seq<HistoryPoint>): (r: seq<HistoryPoint>)
    ensures |r| == Min(HistoryPoints, |data|)
    ensures forall i :: 0 <= i < |r| ==> r[i] == data[|data| - |r| + i]
  {
    if |data| <= HistoryPoints then data else data[|data| - HistoryPoints..]
  }

  /** Older points before the last thirty never reach the chart. */
  lemma HistoryIgnoresOlder(older: seq<HistoryPoint>, recent: seq<HistoryPoint>)
    requires |recent| >= HistoryPoints
    ensures LastPoints(older + recent) == LastPoints(recent)
  {
    var a, b := LastPoints(older + recent), LastPoints(recent);
    assert |a| == |b|;
    forall i | 0 <= i < |a| ensures a[i] == b[i] {
      assert (older + recent)[|older + recent| - |a| + i] == recent[|recent| - |b| + i];
    }
  }

  /** `fetchHistory` after the response: `None` when the request or its JSON failed
      (the chart is left as it was), otherwise the series of the last points. */
  function HistorySeries(response: Option<seq<HistoryPoint>>): (r: Option<ChartSeries>)
    ensures r.None? <==> response.None?
    ensures r.Some? ==>
      var data := response.value;
      && |r.value.instants| == |r.value.prices| == Min(HistoryPoints, |data|)
      && forall i :: 0 <= i < |r.value.prices| ==>
           && r.value.prices[i] == data[|data| - |r.value.prices| + i].avgHighPrice
           && r.value.instants[i] == data[|data| - |r.value.prices| + i].timestamp * 1000
  {
    match response
    case None => None
    case Some(data) =>
      var points := LastPoints(data);
      Some(ChartSeries(
        seq(|points|, i requires 0 <= i < |points| => points[i].timestamp * 1000),
        seq(|points|, i requires 0 <= i < |points| => points[i].avgHighPrice)))
  }
}
