/** The filter engine (app.js:66-91): the filter inputs, each with its fallback, a chain
    of predicates over the item collection, and a sort by descending profit. */
module Filters {
  import opened Wrappers
  import opened Metrics

  /** Items whose instant-buy price is older than this many seconds are hidden. */
  const StaleAfter: int := 7200

  /** The maximum price used when the input gives none. */
  const DefaultMaxPrice: int := 2_147_000_000

  /** What `parseInt`/`parseFloat` made of each numeric input (`None` for `NaN`), and
      the raw search text. */
  datatype RawCriteria = RawCriteria(
    minProfit: Option<int>,
    minRoi: Option<real>,
    maxPrice: Option<int>,
    minVolume: Option<int>,
    search: string)

  /** The thresholds after the `|| default` fallbacks, with the search term lower-cased. */
  datatype Criteria = Criteria(minProfit: int, minRoi: real, maxPrice: int, minVolume: int, term: string)

  /** `n || d` for a parsed integer: `NaN` and 0 fall back to `d`. */
  function OrDefault(n: Option<int>, d: int): (r: int)
    ensures n.Some? && n.value != 0 ==> r == n.value
    ensures n.None? || n.value == 0 ==> r == d
  {
    if n.Some? && n.value != 0 then n.value else d
  }

  /** `x || 0` for a parsed real. */
  function OrZeroReal(x: Option<real>): (r: real)
    ensures x.Some? ==> r == x.value
    ensures x.None? ==> r == 0.0
  {
    if x.Some? && x.value != 0.0 then x.value else 0.0
  }

  function LowerChar(c: char): char {
    if 'A' <= c <= 'Z' then (c as int - 'A' as int + 'a' as int) as char else c
  }

  /** `toLowerCase`, on the ASCII letters. */
  function Lower(s: string): (r: string)
    ensures |r| == |s|
    ensures forall i :: 0 <= i < |s| ==> r[i] == LowerChar(s[i])
  {
    if s == [] then [] else [LowerChar(s[0])] + Lower(s[1..])
  }

  /** Lower-casing twice changes nothing more than lower-casing once. */
  lemma LowerIdempotent(s: string)
    ensures Lower(Lower(s)) == Lower(s)
  {
  }

  /** `t` occurs in `s` at position `i`. */
  predicate OccursAt(s: string, t: string, i: nat) {
    i + |t| <= |s| && s[i..i + |t|] == t
  }

  /** `s.includes(t)`, by scanning the start positions of `s` in turn. */
  function Includes(s: string, t: string): (b: bool)
    ensures b <==> exists i: nat :: OccursAt(s, t, i)
  {
    if |t| > |s| then false
    else if s[..|t|] == t then assert OccursAt(s, t, 0); true
    else
      var b := Includes(s[1..], t);
      assert forall j: nat :: OccursAt(s[1..], t, j) <==> OccursAt(s, t, j + 1) by {
        forall j: nat ensures OccursAt(s[1..], t, j) <==> OccursAt(s, t, j + 1) {
          if j + 1 + |t| <= |s| {
            assert s[1..][j..j + |t|] == s[j + 1..j + 1 + |t|];
          }
        }
      }
      assert !OccursAt(s, t, 0);
      assert (exists i: nat :: OccursAt(s, t, i)) ==> exists j: nat :: OccursAt(s[1..], t, j) by {
        if exists i: nat :: OccursAt(s, t, i) {
          var i: nat :| OccursAt(s, t, i);
          assert OccursAt(s[1..], t, i - 1);
        }
      }
      b
  }

  /** The fallbacks of the four numeric inputs: 0, 0, `DefaultMaxPrice` and 0. */
  function Resolve(raw: RawCriteria): (c: Criteria)
    ensures c.term == Lower(raw.search)
    ensures c.minProfit == OrDefault(raw.minProfit, 0)
    ensures c.minRoi == OrZeroReal(raw.minRoi)
    ensures c.maxPrice == OrDefault(raw.maxPrice, DefaultMaxPrice) && c.maxPrice != 0
    ensures c.minVolume == OrDefault(raw.minVolume, 0)
  {
    Criteria(
      minProfit := OrDefault(raw.minProfit, 0),
      minRoi := OrZeroReal(raw.minRoi),
      maxPrice := OrDefault(raw.maxPrice, DefaultMaxPrice),
      minVolume := OrDefault(raw.minVolume, 0),
      term := Lower(raw.search))
  }

  /** An input of 0 is as good as an empty one: a maximum price of 0 means the
      default maximum, not "nothing", while negative thresholds are kept. */
  lemma ZeroIsDefault(raw: RawCriteria, n: int)
    requires raw.maxPrice == Some(0) && n < 0
    ensures Resolve(raw) == Resolve(raw.(maxPrice := None))
    ensures Resolve(raw).maxPrice == DefaultMaxPrice
    ensures Resolve(raw.(minProfit := Some(n))).minProfit == n
    ensures Resolve(raw.(minVolume := Some(n))).minVolume == n
  {
  }

  /** The predicate chain of the `filter` callback, in the source's order. */
  predicate Passes(it: Item, c: Criteria, now: int) {
    if !Includes(Lower(it.name), c.term) then false
    else if it.profit < c.minProfit then false
    else if it.roi < c.minRoi then false
    else if it.priceHigh > c.maxPrice then false
    else if it.volume < c.minVolume then false
    else if now - it.highTime > StaleAfter then false
    else true
  }

  /** `items.filter(...)`: the passing items, in their original order. */
  function Select(items: seq<Item>, c: Criteria, now: int): (r: seq<Item>)
    ensures |r| <= |items|
    ensures multiset(r) <= multiset(items)
    ensures forall it :: multiset(r)[it] == if Passes(it, c, now) then multiset(items)[it] else 0
    ensures forall it :: it in r <==> it in items && Passes(it, c, now)
  {
    if items == [] then []
    else
      var rest := Select(items[1..], c, now);
      assert items == [items[0]] + items[1..];
      if Passes(items[0], c, now) then [items[0]] + rest else rest
  }

  /** The filter keeps the collection's order: filtering a concatenation
      concatenates the filtered pieces. */
  lemma {:induction false} SelectAppend(a: seq<Item>, b: seq<Item>, c: Criteria, now: int)
    ensures Select(a + b, c, now) == Select(a, c, now) + Select(b, c, now)
  {
    if a == [] {
      assert a + b == b;
    } else {
      var ab := a + b;
      assert ab[0] == a[0] && ab[1..] == a[1..] + b;
      SelectAppend(a[1..], b, c, now);
    }
  }

  /** The filter looks at each item on its own: one item is kept exactly when it
      passes. */
  lemma SelectSingle(x: Item, c: Criteria, now: int)
    ensures Select([x], c, now) == if Passes(x, c, now) then [x] else []
  {
    assert [x][1..] == [];
  }

  /** Ordered by non-increasing profit. */
  ghost predicate SortedByProfit(s: seq<Item>) {
    forall i, j :: 0 <= i < j < |s| ==> s[i].profit >= s[j].profit
  }

  /** The items of `s` whose profit is `p`, in order: a stable sort by profit must
      leave every such sub-sequence as it was. */
  function WithProfit(s: seq<Item>, p: int): (r: seq<Item>)
    ensures forall it :: it in r <==> it in s && it.profit == p
  {
    if s == [] then []
    else
      assert s == [s[0]] + s[1..];
      if s[0].profit == p then [s[0]] + WithProfit(s[1..], p) else WithProfit(s[1..], p)
  }

  /** Puts `x` in front of the first element whose profit does not exceed its own. */
  function Insert(x: Item, s: seq<Item>): (r: seq<Item>)
    requires SortedByProfit(s)
    ensures SortedByProfit(r)
    ensures multiset(r) == multiset(s) + multiset{x}
  {
    if s == [] || s[0].profit <= x.profit then [x] + s
    else
      var rest := Insert(x, s[1..]);
      assert s == [s[0]] + s[1..];
      forall k | 0 <= k < |rest| ensures rest[k].profit <= s[0].profit {
        assert rest[k] in multiset(rest);
        if rest[k] != x {
          assert rest[k] in multiset(s[1..]);
          var j :| 0 <= j < |s[1..]| && s[1..][j] == rest[k];
          assert s[j + 1] == rest[k];
        }
      }
      [s[0]] + rest
  }

  /** `.sort((a, b) => b.profit - a.profit)`: a stable sort, as JavaScript's is. */
  function SortByProfit(s: seq<Item>): (r: seq<Item>)
    ensures SortedByProfit(r)
    ensures multiset(r) == multiset(s)
  {
    if s == [] then []
    else
      assert s == [s[0]] + s[1..];
      Insert(s[0], SortByProfit(s[1..]))
  }

  lemma {:induction false} InsertWithProfit(x: Item, s: seq<Item>, p: int)
    requires SortedByProfit(s)
    ensures WithProfit(Insert(x, s), p) == WithProfit([x] + s, p)
  {
    if s == [] || s[0].profit <= x.profit {
    } else {
      InsertWithProfit(x, s[1..], p);
      assert ([x] + s)[1..] == s;
      assert ([s[0]] + Insert(x, s[1..]))[1..] == Insert(x, s[1..]);
      assert ([x] + s[1..])[1..] == s[1..];
      assert s == [s[0]] + s[1..];
    }
  }

  /** Stability: items of equal profit keep their relative order. */
  lemma {:induction false} SortStable(s: seq<Item>, p: int)
    ensures WithProfit(SortByProfit(s), p) == WithProfit(s, p)
  {
    if s != [] {
      SortStable(s[1..], p);
      InsertWithProfit(s[0], SortByProfit(s[1..]), p);
      assert ([s[0]] + SortByProfit(s[1..]))[1..] == SortByProfit(s[1..]);
      assert s == [s[0]] + s[1..];
    }
  }

  /** Sorting a sequence that is already in order leaves it unchanged. */
  lemma {:induction false} SortSorted(s: seq<Item>)
    requires SortedByProfit(s)
    ensures SortByProfit(s) == s
  {
    if s != [] {
      SortSorted(s[1..]);
      assert s == [s[0]] + s[1..];
    }
  }

  /** The filter pass over already-resolved criteria. */
  function FilterResolved(items: seq<Item>, c: Criteria, now: int): (r: seq<Item>)
    ensures SortedByProfit(r)
    ensures multiset(r) == multiset(Select(items, c, now))
  {
    SortByProfit(Select(items, c, now))
  }

  /** `applyFilters`, with the clock reading `now = floor(Date.now() / 1000)` as a
      parameter. */
  function ApplyFilters(items: seq<Item>, raw: RawCriteria, now: int): (r: seq<Item>)
    ensures forall i :: 0 <= i < |r| - 1 ==> r[i].profit >= r[i + 1].profit
    ensures multiset(r) <= multiset(items)
  {
    FilterResolved(items, Resolve(raw), now)
  }

  /** Membership: an item is shown by the filter exactly when it is in the collection
      and passes every test of the chain. */
  lemma FilterMembership(items: seq<Item>, raw: RawCriteria, now: int, it: Item)
    ensures it in ApplyFilters(items, raw, now) <==>
      && it in items
      && Includes(Lower(it.name), Lower(raw.search))
      && it.profit >= OrDefault(raw.minProfit, 0)
      && it.roi >= OrZeroReal(raw.minRoi)
      && it.priceHigh <= OrDefault(raw.maxPrice, DefaultMaxPrice)
      && it.volume >= OrDefault(raw.minVolume, 0)
      && now - it.highTime <= StaleAfter
  {
    var c := Resolve(raw);
    var sel := Select(items, c, now);
    assert it in ApplyFilters(items, raw, now) <==> it in sel by {
      assert it in ApplyFilters(items, raw, now) <==> it in multiset(sel);
    }
    assert c == Criteria(OrDefault(raw.minProfit, 0), OrZeroReal(raw.minRoi),
                         OrDefault(raw.maxPrice, DefaultMaxPrice), OrDefault(raw.minVolume, 0), Lower(raw.search));
  }

  /** Stale items never pass, whatever the other criteria. */
  lemma StaleExcluded(items: seq<Item>, raw: RawCriteria, now: int, it: Item)
    requires now - it.highTime > StaleAfter
    ensures it !in ApplyFilters(items, raw, now)
  {
    FilterMembership(items, raw, now, it);
  }

  /** An empty search term matches every name. */
  lemma EmptySearchMatchesAll(name: string)
    ensures Includes(Lower(name), Lower(""))
  {
    assert Lower(name)[0..0] == [];
  }

  /** Searching is case-insensitive: search texts that agree after lower-casing
      select the same items. */
  lemma SearchCaseInsensitive(items: seq<Item>, raw: RawCriteria, search: string, now: int)
    requires Lower(search) == Lower(raw.search)
    ensures ApplyFilters(items, raw.(search := search), now) == ApplyFilters(items, raw, now)
  {
  }

  /** Selection of equal-profit items commutes with the filter itself. */
  lemma {:induction false} SelectWithProfit(s: seq<Item>, c: Criteria, now: int, p: int)
    ensures WithProfit(Select(s, c, now), p) == Select(WithProfit(s, p), c, now)
  {
    if s != [] {
      SelectWithProfit(s[1..], c, now, p);
    }
  }

  /** The filter output keeps, for each profit, the passing items in their collection
      order: the sort is stable. */
  lemma FilterStable(items: seq<Item>, raw: RawCriteria, now: int, p: int)
    ensures WithProfit(ApplyFilters(items, raw, now), p) == Select(WithProfit(items, p), Resolve(raw), now)
  {
    SortStable(Select(items, Resolve(raw), now), p);
    SelectWithProfit(items, Resolve(raw), now, p);
  }

  /** Raising the minimum profit never adds an item. */
  lemma {:induction false} SelectMonotone(items: seq<Item>, c1: Criteria, c2: Criteria, now: int)
    requires c2 == c1.(minProfit := c2.minProfit) && c1.minProfit <= c2.minProfit
    ensures multiset(Select(items, c2, now)) <= multiset(Select(items, c1, now))
  {
    if items != [] {
      SelectMonotone(items[1..], c1, c2, now);
    }
  }

  /** Raising the minimum-profit input never adds an item to what the dashboard
      lists, nor makes the list longer. */
  lemma MinProfitMonotone(items: seq<Item>, raw: RawCriteria, p1: int, p2: int, now: int)
    requires p1 <= p2
    ensures multiset(ApplyFilters(items, raw.(minProfit := Some(p2)), now))
         <= multiset(ApplyFilters(items, raw.(minProfit := Some(p1)), now))
    ensures |ApplyFilters(items, raw.(minProfit := Some(p2)), now)|
         <= |ApplyFilters(items, raw.(minProfit := Some(p1)), now)|
  {
    var c1, c2 := Resolve(raw.(minProfit := Some(p1))), Resolve(raw.(minProfit := Some(p2)));
    SelectMonotone(items, c1, c2, now);
    var a, b := ApplyFilters(items, raw.(minProfit := Some(p2)), now), ApplyFilters(items, raw.(minProfit := Some(p1)), now);
    assert multiset(b) == multiset(a) + (multiset(b) - multiset(a));
  }

  /** The whole filter pass selects only passing items. */
  lemma {:induction false} SelectAllPass(items: seq<Item>, c: Criteria, now: int)
    requires forall it :: it in items ==> Passes(it, c, now)
    ensures Select(items, c, now) == items
  {
    if items != [] {
      SelectAllPass(items[1..], c, now);
      assert items == [items[0]] + items[1..];
    }
  }

  /** Filtering the filter's output again with the same inputs changes nothing. */
  lemma FilterIdempotent(items: seq<Item>, raw: RawCriteria, now: int)
    ensures ApplyFilters(ApplyFilters(items, raw, now), raw, now) == ApplyFilters(items, raw, now)
  {
    var c := Resolve(raw);
    var r := ApplyFilters(items, raw, now);
    forall it | it in r ensures Passes(it, c, now) {
      assert it in multiset(Select(items, c, now));
    }
    SelectAllPass(r, c, now);
    SortSorted(r);
  }
}
