# OSRS flip-finder dashboard: the data pipeline

The dashboard (`app.js`) loads three payloads from the Old School RuneScape price
API: the latest instant-buy/instant-sell prices, the 24-hour trade volumes and the
item mapping. It joins them by item id into item records with flipping metrics
(tax, profit, ROI, volume, potential profit per buy-limit window). It then filters
those records against the user's thresholds and a search text, sorts them by
profit, and shows the first fifty. Selecting an item opens a detail panel and a
30-day price chart.

This project models the pure part of that pipeline as Dafny functions over
`seq<Item>` and proves its properties as lemmas:

- `Wrappers.dfy`: `Option`, standing for JavaScript's `null`/`undefined` and for
  the `NaN` of a failed parse.
- `Metrics.dfy`: the raw payload records, the `Item` record, the tax rule, the
  mapping callback (`BuildItem`) and the item collection (`LoadItems`).
- `Filters.dfy`: the filter inputs and their fallbacks, the lower-casing and
  substring search, the predicate chain (`Passes`), the `filter` (`Select`), the
  stable sort by descending profit (`SortByProfit`, an insertion sort), and
  `applyFilters` (`ApplyFilters`).
- `Views.dfy`: `simplify` (tier and suffix), `renderList` (the 50-item cap and the
  "no items found" notice), `showDetails` (the lookup by id and the six-card panel)
  and `fetchHistory` (the last 30 points handed to the chart).

Modelling choices:

- Prices, volumes, limits and times are `int`. `Math.floor(high * 0.01)` is
  `high / 100`. Dafny's `/` with a positive divisor is floor division, so this
  matches for negative prices too.
- ROI is an exact `real`.
- The clock (`Math.floor(Date.now() / 1000)`) is the parameter `now`.
- JavaScript truthiness of a number that may be missing (`x || 0`, `!live.high`,
  `item.limit ? … : 0`) is "present and not 0" (`Truthy`, `OrDefault`).
- The numeric inputs enter as what `parseInt`/`parseFloat` produced (`None` for `NaN`).
- An entry is dropped only when `high` or `low` is absent or 0: app.js:30 tests
  truthiness, not sign, so a negative price yields an item (`BuildItem`).

## Model

| member | source | states |
|---|---|---|
| `Metrics.Tax` | app.js:34-35 | the tax is at most 5,000,000, at most 1% of the price, and when below the cap it is the largest such whole amount (floor of 1%) |
| `Metrics.TaxBounds` | app.js:35 | for a non-negative price, 0 <= tax <= 5,000,000, and the tax equals the cap exactly when the price is at least 500,000,000 |
| `Metrics.BuildItem` | app.js:25-53 | no item exactly when the price record is missing, `high` or `low` is absent or 0, or the volume record is missing; otherwise id, name, prices and `highTime` are copied, volume is the sum of the two counts (missing as 0), the limit is kept only when truthy, and the item satisfies the tax, profit, ROI (roi * low == profit * 100) and potential invariants |
| `Metrics.LoadItems` | app.js:25-54 | the collection holds exactly the items the callback built for some mapping entry (the nulls are dropped), every item keeps the invariants, and there are no more items than entries |
| `Metrics.LoadItemsAppend` | app.js:25-54 | entries are processed independently and in order: loading `a + b` gives the items of `a` followed by the items of `b` |
| `Metrics.LoadItemsKeepsAll` | app.js:29-30 | when no entry lacks data, the collection has one item per mapping entry |
| `Metrics.RuneAxeExample` | app.js:33-52 | high 1000, low 900, limit 100 and 50+50 trades give tax 10, profit 90, ROI 10.0, volume 100 and potential 9000 |
| `Filters.OrDefault` | app.js:68-71 | the `parseInt` fallback: a parsed non-zero value is kept, NaN or 0 gives the default |
| `Filters.OrZeroReal` | app.js:69 | the `parseFloat` fallback: a parsed value is kept (0 stays 0), NaN gives 0 |
| `Filters.ZeroIsDefault` | app.js:68-71 | a maximum price of 0 behaves as no input at all (2,147,000,000), while negative minimum profit and volume pass through unchanged |
| `Filters.Resolve` | app.js:68-72 | minimum profit and volume fall back to 0, minimum ROI to 0 and maximum price to 2,147,000,000 when the input is NaN or 0 (so the maximum price is never 0); the search term is the lower-cased input |
| `Filters.Lower` | app.js:72 | lower-casing keeps the length and maps every character on its own |
| `Filters.LowerIdempotent` | app.js:72 | lower-casing an already lower-cased text changes nothing |
| `Filters.Includes` | app.js:79 | `includes` is true exactly when the term occurs in the name at some position |
| `Filters.EmptySearchMatchesAll` | app.js:72-79 | an empty search text matches every name |
| `Filters.SearchCaseInsensitive` | app.js:72-79 | two search texts that agree after lower-casing give the same filter output |
| `Filters.Select` | app.js:77-90 | the filter keeps exactly the collection items that pass the predicate chain, each with as many copies as the collection has, and no others |
| `Filters.SelectAppend` | app.js:77-90 | the filter keeps the collection's order: filtering `a + b` gives the filtered `a` followed by the filtered `b` |
| `Filters.SelectSingle` | app.js:77-90 | a single item is kept exactly when it passes the predicate chain |
| `Filters.SortByProfit` | app.js:91 | the sorted output is a permutation of its input, ordered by non-increasing profit |
| `Filters.SortStable` | app.js:91 | for every profit value, the items with that profit appear in the sorted output in their input order |
| `Filters.SortSorted` | app.js:91 | sorting an already ordered sequence leaves it unchanged |
| `Filters.FilterResolved` | app.js:77-91 | the output is ordered by non-increasing profit and is a permutation of the items that pass |
| `Filters.ApplyFilters` | app.js:66-91 | every adjacent pair of the output has `profit[i] >= profit[i+1]`, and the output is a sub-multiset of the collection |
| `Filters.FilterMembership` | app.js:68-90 | an item is in the output if and only if it is in the collection, its lower-cased name contains the lower-cased search text, and profit, ROI, maximum price, volume (after the fallbacks) and the 7200-second staleness rule all pass |
| `Filters.StaleExcluded` | app.js:88 | an item with `now - highTime > 7200` is never in the output, whatever the other criteria |
| `Filters.FilterStable` | app.js:77-91 | items of equal profit appear in the output in their collection order: for each profit, the output's items are the filter applied to the collection's items of that profit |
| `Filters.SelectMonotone` | app.js:82 | raising the minimum profit keeps a sub-multiset of the filter's selection |
| `Filters.MinProfitMonotone` | app.js:68-91 | raising the minimum-profit input never adds an item to the output of `applyFilters` and never makes it longer |
| `Filters.FilterIdempotent` | app.js:66-91 | running `applyFilters` again on its own output with the same inputs gives the same ordered output |
| `Views.Simplify` | app.js:247-252 | suffix `b`, `m`, `k` or none exactly as the number reaches 1e9, 1e6, 1e3 or none of them; the shown value times its suffix's factor is the number; an abbreviated value is at least 1 and, below billions, under 1000 |
| `Views.NegativeIsPlain` | app.js:247-251 | every negative number falls into the no-suffix branch |
| `Views.SimplifyExamples` | app.js:247-251 | 1,500,000,000 is 1.5b, 2,300,000 is 2.3m, 4,500 is 4.5k and 999 stays 999 |
| `Views.RenderList` | app.js:97-108 | the "no items found" notice exactly when there are no items; otherwise the first `min(50, n)` items, one card each, in order |
| `Views.ShownAreMostProfitable` | app.js:91-101 | after a filter pass, each shown card is the item at the same position, and no item cut off by the cap earns more than a shown one |
| `Views.RuneAxeEndToEnd` | app.js:25-108 | the Rune axe (profit 90) is hidden under a minimum profit of 100 and is the only card under a minimum profit of 50 |
| `Views.FindById` | app.js:127 | `find` gives nothing exactly when no item has the id, and otherwise the first item with it |
| `Views.ShowDetails` | app.js:126-165 | nothing happens when no item has the id; otherwise the panel shows the first such item's name, profit, ROI, tax, buy (low) and sell (high) prices, its limit only when truthy, and its potential only when the limit is truthy (otherwise "?") |
| `Views.DetailsOfItem` | app.js:126-165 | the lookup reads the whole collection: with distinct ids, every item, whether listed or hidden by the filter, opens the panel of its own fields |
| `Views.LastPoints` | app.js:178 | `slice(-30)` keeps `min(30, n)` points: the most recent ones, in order |
| `Views.HistoryIgnoresOlder` | app.js:178 | points older than the last thirty never reach the chart |
| `Views.HistorySeries` | app.js:172-186 | a failed request leaves no series; otherwise the chart gets the last `min(30, n)` points' timestamps (in milliseconds) and average instant-buy prices, in order |

## Left out

- The three network requests, `Promise.all`, the JSON parsing and the timeseries
  request (app.js:14-22, 174-175): the parsed payloads are inputs, and a failed
  history request is the `None` given to `HistorySeries`.
- The global `allItems` assignment and the `try`/`catch` around loading
  (app.js:25, 59-62): the model computes the collection; the error notice is UI.
- DOM writes, the icon URLs and the event listeners (app.js:10, 60, 104, 108-122,
  131-165, 256-259): presentation only. The cards and the panel are modelled as
  the values they show (`Row`, `Detail`), not as HTML.
- `renderChart` and the `myChart` handle (app.js:190-244): a wrapper around the
  Chart.js library, which is not part of this model.
- The digits of `toFixed`, `toLocaleString` and `toLocaleDateString`: they depend
  on locale and floating-point rounding. `Simplify` gives the value and its suffix
  only; for example `simplify(999950)` prints "1000.0k" after rounding, which the
  model does not show. History dates are the millisecond instants they come from.
- Floating point: ROI is an exact real, and prices and products such as
  `profit * limit` are exact integers. JavaScript numbers are exact for these
  below 2^53, which prices up to 2,147,000,000 and buy limits keep.
- `parseInt`/`parseFloat` themselves: the model takes their results.
- `Filters.Lower`: only A-Z are lower-cased; the Unicode case mapping of
  `toLowerCase` is not modelled.
- Map keys: the payload maps are keyed by the numeric id. The JSON object's
  string keys are not modelled.
- Records with `null` fields other than `high`, `low`, the volumes and the limit
  are not modelled: `highTime` is always a number here.
- Any "last selection wins" rule for history requests: `fetchHistory` carries no
  token, so a late response for an earlier selection still reaches the chart.
  Concurrency is not modelled.
