/** The item-building step of the dashboard's loader (app.js:25-54): each entry of the
    item mapping is joined by id with its latest-price record and its 24-hour volume
    record, and the flipping metrics are derived from them. */
module Metrics {
  import opened Wrappers

  /** One entry of the `/mapping` payload; `limit` is the Grand Exchange buy limit. */
  datatype MappingEntry = MappingEntry(id: int, name: string, limit: Option<int>)

  /** One record of the `/latest` payload: instant-buy (`high`) and instant-sell (`low`)
      prices and the Unix times, in seconds, at which they were observed. */
  datatype LatestPrice = LatestPrice(high: Option<int>, low: Option<int>, highTime: int, lowTime: int)

  /** One record of the `/24h` payload: trade counts over the last day. */
  datatype DayVolume = DayVolume(highPriceVolume: Option<int>, lowPriceVolume: Option<int>)

  /** The derived record the rest of the dashboard works on. */
  datatype Item = Item(
    id: int,
    name: string,
    priceHigh: int,
    priceLow: int,
    volume: int,
    highTime: int,
    limit: Option<int>,
    tax: int,
    profit: int,
    roi: real,
    potential: int)

  /** The tax cap, in coins. */
  const MaxTax: int := 5_000_000

  /** The lowest price at which the 1% tax reaches the cap. */
  const TaxCapPrice: int := 500_000_000

  /** JavaScript truthiness of a number that may be absent: absent and 0 are falsy. */
  predicate Truthy(n: Option<int>) {
    n.Some? && n.value != 0
  }

  /** The tax paid on selling at `high`: 1% of it rounded down, but never more than
      the cap. `high / 100` is floor division, as `Math.floor(high * 0.01)` is. */
  function Tax(high: int): (t: int)
    ensures t <= MaxTax
    ensures 100 * t <= high
    ensures t == MaxTax || high < 100 * (t + 1)
  {
    if high / 100 < MaxTax then high / 100 else MaxTax
  }

  /** For a non-negative price the tax lies between 0 and the cap, and it is the cap
      exactly from `TaxCapPrice` upwards. */
  lemma TaxBounds(high: int)
    requires high >= 0
    ensures 0 <= Tax(high) <= MaxTax
    ensures Tax(high) == MaxTax <==> high >= TaxCapPrice
  {
  }

  /** The invariants every derived item keeps: the tax rule, the profit and ROI
      formulas, non-zero prices, and a limit that is either absent or non-zero with
      the potential profit following it. */
  ghost predicate Consistent(it: Item) {
    && it.priceHigh != 0
    && it.priceLow != 0
    && it.tax == Tax(it.priceHigh)
    && it.profit == it.priceHigh - it.priceLow - it.tax
    && it.roi * (it.priceLow as real) == (it.profit as real) * 100.0
    && (it.limit.Some? ==> it.limit.value != 0)
    && it.potential == (if it.limit.Some? then it.profit * it.limit.value else 0)
  }

  /** Whether the entry is dropped for missing data: no price record, a falsy `high`
      or `low`, or no volume record. */
  predicate MissingData(id: int, latest: map<int, LatestPrice>, volumes: map<int, DayVolume>) {
    || id !in latest
    || !Truthy(latest[id].high)
    || !Truthy(latest[id].low)
    || id !in volumes
  }

  /** The mapping callback: `None` plays the part of the callback's `null`. */
  function BuildItem(entry: MappingEntry, latest: map<int, LatestPrice>, volumes: map<int, DayVolume>): (r: Option<Item>)
    ensures r.None? <==> MissingData(entry.id, latest, volumes)
    ensures r.Some? ==>
      && Consistent(r.value)
      && r.value.id == entry.id
      && r.value.name == entry.name
      && r.value.priceHigh == latest[entry.id].high.value
      && r.value.priceLow == latest[entry.id].low.value
      && r.value.highTime == latest[entry.id].highTime
      && r.value.volume == volumes[entry.id].highPriceVolume.GetOr(0) + volumes[entry.id].lowPriceVolume.GetOr(0)
      && r.value.limit == (if Truthy(entry.limit) then entry.limit else None)
  {
    if entry.id !in latest then None
    else
      var live := latest[entry.id];
      if !Truthy(live.high) || !Truthy(live.low) || entry.id !in volumes then None
      else
        var day := volumes[entry.id];
        var margin := live.high.value - live.low.value;
        var tax := Tax(live.high.value);
        var profit := margin - tax;
        var roi := (profit as real) / (live.low.value as real) * 100.0;
        var volume := day.highPriceVolume.GetOr(0) + day.lowPriceVolume.GetOr(0);
        Some(Item(
          id := entry.id,
          name := entry.name,
          priceHigh := live.high.value,
          priceLow := live.low.value,
          volume := volume,
          highTime := live.highTime,
          limit := if Truthy(entry.limit) then entry.limit else None,
          tax := tax,
          profit := profit,
          roi := roi,
          potential := if Truthy(entry.limit) then profit * entry.limit.value else 0))
  }

  /** `mapping.map(BuildItem).filter(item => item !== null)`: the item collection. */
  function LoadItems(mapping: seq<MappingEntry>, latest: map<int, LatestPrice>, volumes: map<int, DayVolume>): (r: seq<Item>)
    ensures |r| <= |mapping|
    ensures forall it :: it in r ==> Consistent(it)
    ensures forall it :: it in r <==> exists e :: e in mapping && BuildItem(e, latest, volumes) == Some(it)
  {
    if mapping == [] then []
    else
      var rest := LoadItems(mapping[1..], latest, volumes);
      assert forall e :: e in mapping <==> e == mapping[0] || e in mapping[1..];
      match BuildItem(mapping[0], latest, volumes)
      case Some(it) => [it] + rest
      case None => rest
  }

  /** Entries are processed independently and in order: loading a concatenation of
      mappings gives the concatenation of the loaded pieces. */
  lemma {:induction false} LoadItemsAppend(a: seq<MappingEntry>, b: seq<MappingEntry>,
                                          latest: map<int, LatestPrice>, volumes: map<int, DayVolume>)
    ensures LoadItems(a + b, latest, volumes) == LoadItems(a, latest, volumes) + LoadItems(b, latest, volumes)
  {
    if a == [] {
      assert a + b == b;
    } else {
      assert (a + b)[0] == a[0];
      assert (a + b)[1..] == a[1..] + b;
      LoadItemsAppend(a[1..], b, latest, volumes);
    }
  }

  /** An entry whose records are all present yields an item; the collection then holds
      exactly one item per entry when no entry lacks data. */
  lemma {:induction false} LoadItemsKeepsAll(mapping: seq<MappingEntry>, latest: map<int, LatestPrice>, volumes: map<int, DayVolume>)
    requires forall e :: e in mapping ==> !MissingData(e.id, latest, volumes)
    ensures |LoadItems(mapping, latest, volumes)| == |mapping|
  {
    if mapping != [] {
      assert mapping[0] in mapping;
      assert forall e :: e in mapping[1..] ==> e in mapping;
      LoadItemsKeepsAll(mapping[1..], latest, volumes);
    }
  }

  /** A worked example: a Rune axe bought at 900 and sold at 1000 with a buy limit
      of 100 and 100 trades a day. */
  lemma RuneAxeExample(now: int)
    ensures
      var latest := map[1 := LatestPrice(Some(1000), Some(900), now, now)];
      var volumes := map[1 := DayVolume(Some(50), Some(50))];
      BuildItem(MappingEntry(1, "Rune axe", Some(100)), latest, volumes)
        == Some(Item(1, "Rune axe", 1000, 900, 100, now, Some(100), 10, 90, 10.0, 9000))
  {
  }
}
