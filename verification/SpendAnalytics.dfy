/** Spend grouped by key, the items that make up a target share of it, and its A, B and C bands. */
module SpendAnalytics {
  import opened Rounding

  datatype Row = Row(key: string, caption: string, amount: real)

  datatype SpendItem = SpendItem(key: string, caption: string, amount: real)

  datatype AbcClass = A | B | C

  datatype AbcResult = AbcResult(item: SpendItem, cumulativePct: real, classification: AbcClass)

  // ---------------------------------------------------------------------------
  // Grouping.
  // ---------------------------------------------------------------------------

  /** The keys of the first n rows, in the order they first appear. */
  function KeysSeen(rows: seq<Row>, n: nat): (keys: seq<string>)
    requires n <= |rows|
  {
    if n == 0 then []
    else
      var before := KeysSeen(rows, n - 1);
      if rows[n - 1].key in before then before else before + [rows[n - 1].key]
  }

  /** What the first n rows add up to under one key. */
  function TotalOf(rows: seq<Row>, key: string, n: nat): real
    requires n <= |rows|
  {
    if n == 0 then 0.0
    else TotalOf(rows, key, n - 1) + (if rows[n - 1].key == key then rows[n - 1].amount else 0.0)
  }

  /** The caption most recently given to the key. */
  function CaptionOf(rows: seq<Row>, key: string, n: nat): string
    requires n <= |rows|
  {
    if n == 0 then "" else if rows[n - 1].key == key then rows[n - 1].caption else CaptionOf(rows, key, n - 1)
  }

  function ItemFor(rows: seq<Row>, key: string): SpendItem {
    SpendItem(key, CaptionOf(rows, key, |rows|), RoundCurrency(TotalOf(rows, key, |rows|)))
  }

  function ItemsFor(rows: seq<Row>, keys: seq<string>): (items: seq<SpendItem>)
    ensures |items| == |keys| && forall i :: 0 <= i < |keys| ==> items[i] == ItemFor(rows, keys[i])
  {
    if keys == [] then [] else ItemsFor(rows, keys[..|keys| - 1]) + [ItemFor(rows, keys[|keys| - 1])]
  }

  ghost predicate Descending(items: seq<SpendItem>) {
    forall i, j :: 0 <= i < j < |items| ==> items[i].amount >= items[j].amount
  }

  /** The item put behind every item that is at least as large. */
  function Insert(items: seq<SpendItem>, x: SpendItem): (r: seq<SpendItem>)
    ensures multiset(r) == multiset(items) + multiset{x}
  {
    if items == [] then [x]
    else
      var last := items[|items| - 1];
      assert items == items[..|items| - 1] + [last];
      if last.amount >= x.amount then items + [x] else Insert(items[..|items| - 1], x) + [last]
  }

  /** sorted(items, key=-amount): largest first, ties in their given order. */
  function Ranked(items: seq<SpendItem>): (r: seq<SpendItem>)
    ensures multiset(r) == multiset(items)
  {
    if items == [] then []
    else
      assert items == items[..|items| - 1] + [items[|items| - 1]];
      Insert(Ranked(items[..|items| - 1]), items[|items| - 1])
  }

  /** The two dictionaries of aggregate_spend, with their common insertion order. */
  method GroupRows(rows: seq<Row>)
    returns (order: seq<string>, totals: map<string, real>, captions: map<string, string>)
    ensures order == KeysSeen(rows, |rows|)
    ensures forall k :: k in order ==> k in totals && totals[k] == TotalOf(rows, k, |rows|)
    ensures forall k :: k in order ==> k in captions && captions[k] == CaptionOf(rows, k, |rows|)
  {
    order, totals, captions := [], map[], map[];
    for i := 0 to |rows|
      invariant order == KeysSeen(rows, i)
      invariant forall k :: k in order <==> k in totals
      invariant forall k :: k in order ==> totals[k] == TotalOf(rows, k, i)
      invariant forall k :: k in order ==> k in captions && captions[k] == CaptionOf(rows, k, i)
    {
      var row := rows[i];
      if row.key !in totals {
        NeverSeen(rows, row.key, i);
        order := order + [row.key];
        totals := totals[row.key := 0.0];
      }
      totals := totals[row.key := totals[row.key] + row.amount];
      captions := captions[row.key := row.caption];
    }
  }

  /** aggregate_spend */
  method AggregateSpend(rows: seq<Row>) returns (items: seq<SpendItem>)
    ensures items == Ranked(ItemsFor(rows, KeysSeen(rows, |rows|)))
  {
    var order, totals, captions := GroupRows(rows);
    items := [];
    for j := 0 to |order|
      invariant items == ItemsFor(rows, order[..j])
    {
      var k := order[j];
      assert order[..j + 1][..j] == order[..j];
      items := items + [SpendItem(k, captions[k], RoundCurrency(totals[k]))];
    }
    assert order[..|order|] == order;
    items := Ranked(items);
  }

  ghost predicate AllDiffer(keys: seq<string>) { forall i, j :: 0 <= i < j < |keys| ==> keys[i] != keys[j] }

  /** Each key of the first n rows is listed once, and nothing else is. */
  lemma {:induction false} KeysAreDistinct(rows: seq<Row>, n: nat)
    requires n <= |rows|
    ensures AllDiffer(KeysSeen(rows, n))
    ensures forall k :: k in KeysSeen(rows, n) <==> exists i :: 0 <= i < n && rows[i].key == k
  {
    if n > 0 { KeysAreDistinct(rows, n - 1); }
  }

  lemma {:induction false} NeverSeen(rows: seq<Row>, key: string, n: nat)
    requires n <= |rows| && key !in KeysSeen(rows, n)
    ensures TotalOf(rows, key, n) == 0.0
  {
    if n > 0 {
      NeverSeen(rows, key, n - 1);
    }
  }

  lemma {:induction false} InsertIsDescending(items: seq<SpendItem>, x: SpendItem)
    requires Descending(items)
    ensures Descending(Insert(items, x))
  {
    if items != [] {
      var init, last := items[..|items| - 1], items[|items| - 1];
      if last.amount < x.amount {
        InsertIsDescending(init, x);
        forall y | y in Insert(init, x) ensures y.amount >= last.amount {
          assert y in multiset(Insert(init, x));
          assert y == x || y in init;
        }
      }
    }
  }

  lemma {:induction false} RankedIsDescending(items: seq<SpendItem>)
    ensures Descending(Ranked(items))
  {
    if items != [] {
      RankedIsDescending(items[..|items| - 1]);
      InsertIsDescending(Ranked(items[..|items| - 1]), items[|items| - 1]);
    }
  }

  /** The items of one amount, in order. */
  function Worth(items: seq<SpendItem>, amount: real): seq<SpendItem> {
    if items == [] then []
    else
      var last := items[|items| - 1];
      Worth(items[..|items| - 1], amount) + (if last.amount == amount then [last] else [])
  }

  lemma WorthOfMore(items: seq<SpendItem>, x: SpendItem, amount: real)
    ensures Worth(items + [x], amount) == Worth(items, amount) + (if x.amount == amount then [x] else [])
  {
    assert (items + [x])[..|items|] == items;
  }

  lemma {:induction false} InsertKeepsTies(items: seq<SpendItem>, x: SpendItem, amount: real)
    requires Descending(items)
    ensures Worth(Insert(items, x), amount) == Worth(items, amount) + (if x.amount == amount then [x] else [])
  {
    if items == [] {
      WorthOfMore([], x, amount);
      assert [] + [x] == [x];
    } else {
      var init, last := items[..|items| - 1], items[|items| - 1];
      if last.amount >= x.amount {
        WorthOfMore(items, x, amount);
      } else {
        InsertKeepsTies(init, x, amount);
        WorthOfMore(Insert(init, x), last, amount);
        if last.amount == amount {
          assert Worth(init, amount) + [] == Worth(init, amount);
        } else {
          assert Worth(items, amount) + [] == Worth(items, amount) == Worth(init, amount);
        }
      }
    }
  }

  /** Ranking keeps the given order of equal amounts. */
  lemma {:induction false} RankingIsStable(items: seq<SpendItem>, amount: real)
    ensures Worth(Ranked(items), amount) == Worth(items, amount)
  {
    if items != [] {
      var init := items[..|items| - 1];
      RankingIsStable(init, amount);
      RankedIsDescending(init);
      InsertKeepsTies(Ranked(init), items[|items| - 1], amount);
    }
  }

  /** The sum of the first n amounts. */
  function First(items: seq<SpendItem>, n: nat): real
    requires n <= |items|
  {
    if n == 0 then 0.0 else First(items, n - 1) + items[n - 1].amount
  }

  function Total(items: seq<SpendItem>): real { First(items, |items|) }

  function RowTotal(rows: seq<Row>, n: nat): real
    requires n <= |rows|
  {
    if n == 0 then 0.0 else RowTotal(rows, n - 1) + rows[n - 1].amount
  }

  /** What the first n rows add up to under any of the keys. */
  function TotalOver(rows: seq<Row>, keys: seq<string>, n: nat): real
    requires n <= |rows|
  {
    if keys == [] then 0.0
    else TotalOver(rows, keys[..|keys| - 1], n) + TotalOf(rows, keys[|keys| - 1], n)
  }

  lemma {:induction false} OneRowOneKey(rows: seq<Row>, keys: seq<string>, n: nat)
    requires n < |rows|
    requires AllDiffer(keys)
    ensures TotalOver(rows, keys, n + 1) ==
            TotalOver(rows, keys, n) + (if rows[n].key in keys then rows[n].amount else 0.0)
  {
    if keys != [] {
      OneRowOneKey(rows, keys[..|keys| - 1], n);
      assert keys == keys[..|keys| - 1] + [keys[|keys| - 1]];
    }
  }

  lemma FirstRowOfKey(rows: seq<Row>, n: nat)
    requires n < |rows| && rows[n].key !in KeysSeen(rows, n)
    ensures TotalOver(rows, KeysSeen(rows, n + 1), n) == TotalOver(rows, KeysSeen(rows, n), n)
  {
    var keys := KeysSeen(rows, n);
    NeverSeen(rows, rows[n].key, n);
    assert (keys + [rows[n].key])[..|keys|] == keys;
  }

  /** Grouping loses nothing: the keys' totals add up to the rows. */
  lemma {:induction false} GroupingConserves(rows: seq<Row>, n: nat)
    requires n <= |rows|
    ensures TotalOver(rows, KeysSeen(rows, n), n) == RowTotal(rows, n)
  {
    if n > 0 {
      GroupingConserves(rows, n - 1);
      if rows[n - 1].key !in KeysSeen(rows, n - 1) { FirstRowOfKey(rows, n - 1); }
      assert AllDiffer(KeysSeen(rows, n)) by { KeysAreDistinct(rows, n); }
      OneRowOneKey(rows, KeysSeen(rows, n), n - 1);
    }
  }

  lemma {:induction false} FirstOfPrefix(items: seq<SpendItem>, k: nat, n: nat)
    requires n <= k <= |items|
    ensures First(items[..k], n) == First(items, n)
  {
    if n > 0 { FirstOfPrefix(items, k, n - 1); }
  }

  /** x and y differ by at most n half-units of the last place. */
  predicate WithinHalfUnits(x: real, y: real, n: nat) {
    -0.5 * n as real <= Times(x - y, CURRENCY) <= 0.5 * n as real
  }

  lemma {:induction false} RoundingDrifts(rows: seq<Row>, keys: seq<string>)
    ensures WithinHalfUnits(Total(ItemsFor(rows, keys)), TotalOver(rows, keys, |rows|), |keys|)
  {
    if keys != [] {
      var n := |keys| - 1;
      RoundingDrifts(rows, keys[..n]);
      var items := ItemsFor(rows, keys);
      FirstOfPrefix(items, n, n);
      assert items[..n] == ItemsFor(rows, keys[..n]);
      QuantizeIsNear(TotalOf(rows, keys[n], |rows|), CURRENCY);
    }
  }

  lemma {:induction false} InsertAdds(items: seq<SpendItem>, x: SpendItem)
    ensures Total(Insert(items, x)) == Total(items) + x.amount
  {
    if items == [] {
      assert First([x], 1) == First([x], 0) + x.amount;
    } else {
      var init, last := items[..|items| - 1], items[|items| - 1];
      FirstOfPrefix(items, |init|, |init|);
      if last.amount >= x.amount {
        FirstOfPrefix(items + [x], |items|, |items|);
        assert (items + [x])[..|items|] == items;
      } else {
        InsertAdds(init, x);
        var r := Insert(init, x);
        FirstOfPrefix(r + [last], |r|, |r|);
        assert (r + [last])[..|r|] == r;
      }
    }
  }

  lemma {:induction false} RankingKeepsTotal(items: seq<SpendItem>)
    ensures Total(Ranked(items)) == Total(items)
  {
    if items != [] {
      var init := items[..|items| - 1];
      RankingKeepsTotal(init);
      InsertAdds(Ranked(init), items[|items| - 1]);
      FirstOfPrefix(items, |init|, |init|);
    }
  }

  /** The ranked table: every key's rounded total once, largest first, ties in order of first appearance. */
  lemma AggregateMeans(rows: seq<Row>)
    ensures var keys := KeysSeen(rows, |rows|);
            var items := Ranked(ItemsFor(rows, keys));
            && Descending(items)
            && multiset(items) == multiset(ItemsFor(rows, keys))
            && forall amount :: Worth(items, amount) == Worth(ItemsFor(rows, keys), amount)
  {
    var items := ItemsFor(rows, KeysSeen(rows, |rows|));
    RankedIsDescending(items);
    forall amount ensures Worth(Ranked(items), amount) == Worth(items, amount) { RankingIsStable(items, amount); }
  }

  /** The table adds up to the rows, to within half a unit of the last place for each key. */
  lemma AggregateConserves(rows: seq<Row>)
    ensures var keys := KeysSeen(rows, |rows|);
            WithinHalfUnits(Total(Ranked(ItemsFor(rows, keys))), RowTotal(rows, |rows|), |keys|)
  {
    var keys := KeysSeen(rows, |rows|);
    var items := ItemsFor(rows, keys);
    RoundingDrifts(rows, keys);
    assert TotalOver(rows, keys, |rows|) == RowTotal(rows, |rows|) by { GroupingConserves(rows, |rows|); }
    assert Total(Ranked(items)) == Total(items) by { RankingKeepsTotal(items); }
  }

  // ---------------------------------------------------------------------------
  // Pareto.
  // ---------------------------------------------------------------------------

  function Share(items: seq<SpendItem>, n: nat): real
    requires n <= |items| && Total(items) != 0.0
  {
    Over(First(items, n), Total(items))
  }

  function Percentage(items: seq<SpendItem>, n: nat): real
    requires n <= |items| && Total(items) != 0.0
  {
    Hundredths(Share(items, n))
  }

  /** A share as a percentage of four decimals, again as a fraction. */
  function Hundredths(share: real): real { Over(RoundCurrency(Times(share, 100.0)), 100.0) }

  /** The items are taken until they first reach the target, and at least one is taken. */
  ghost predicate Cut(items: seq<SpendItem>, target: real, n: nat)
    requires Total(items) != 0.0
  {
    && 1 <= n <= |items| && (n < |items| ==> Share(items, n) >= target)
    && forall k :: 1 <= k < n ==> Share(items, k) < target
  }

  /** calculate_pareto_contributors */
  method ParetoContributors(items: seq<SpendItem>, target: real) returns (contributors: seq<SpendItem>, covered: real)
    ensures Total(items) == 0.0 ==> contributors == [] && covered == 0.0
    ensures Total(items) != 0.0 ==>
              Cut(items, target, |contributors|) && contributors == items[..|contributors|]
              && covered == Percentage(items, |contributors|)
  {
    var total := 0.0;
    for i := 0 to |items|
      invariant total == First(items, i)
    {
      total := total + items[i].amount;
    }
    if total == 0.0 {
      return [], 0.0;
    }
    contributors := [];
    var running := 0.0;
    for i := 0 to |items|
      invariant contributors == items[..i] && running == First(items, i)
      invariant forall k :: 1 <= k <= i ==> Share(items, k) < target
    {
      contributors := contributors + [items[i]];
      running := running + items[i].amount;
      if Over(running, total) >= target {
        assert running == First(items, i + 1);
        break;
      }
    }
    covered := Hundredths(Over(running, total));
  }

  /** A choice of items, one flag an item. */
  function Chosen(pick: seq<bool>, n: nat): (c: nat)
    requires n <= |pick|
    ensures c <= n
  {
    if n == 0 then 0 else Chosen(pick, n - 1) + (if pick[n - 1] then 1 else 0)
  }

  function Picked(items: seq<SpendItem>, pick: seq<bool>, n: nat): real
    requires |pick| == |items| && n <= |items|
  {
    if n == 0 then 0.0 else Picked(items, pick, n - 1) + (if pick[n - 1] then items[n - 1].amount else 0.0)
  }

  /** No choice of k ranked items is worth more than the first k. */
  lemma {:induction false} FirstAreWorthMost(items: seq<SpendItem>, pick: seq<bool>, n: nat)
    requires Descending(items) && |pick| == |items| && n <= |items|
    ensures Picked(items, pick, n) <= First(items, Chosen(pick, n))
  {
    if n > 0 {
      FirstAreWorthMost(items, pick, n - 1);
      if pick[n - 1] {
        var c := Chosen(pick, n - 1);
        assert items[c].amount >= items[n - 1].amount;
        assert First(items, c + 1) == First(items, c) + items[c].amount;
      }
    }
  }

  /** The contributors reach any target that is at most the whole. */
  lemma ContributorsReachTarget(items: seq<SpendItem>, target: real, n: nat)
    requires Total(items) != 0.0 && Cut(items, target, n) && target <= 1.0
    ensures Share(items, n) >= target
  {
    if n == |items| { assert Share(items, n) == 1.0; }
  }

  /** The contributor count is the smallest number of items, however chosen, that reaches the target. */
  lemma ParetoIsMinimal(items: seq<SpendItem>, target: real, n: nat, pick: seq<bool>)
    requires Descending(items) && Total(items) > 0.0 && Cut(items, target, n) && |pick| == |items|
    requires Over(Picked(items, pick, |items|), Total(items)) >= target
    requires target > 0.0 || Chosen(pick, |items|) > 0
    ensures n <= Chosen(pick, |items|)
  {
    var c := Chosen(pick, |items|);
    FirstAreWorthMost(items, pick, |items|);
    OverMonotone(Picked(items, pick, |items|), First(items, c), Total(items));
    assert Share(items, c) >= target;
    assert Share(items, 0) == 0.0;
  }

  /** The sum of the last k amounts. */
  function Last(items: seq<SpendItem>, k: nat): real
    requires k <= |items|
  {
    Total(items) - First(items, |items| - k)
  }

  /** No choice of k ranked items is worth less than the last k. */
  lemma {:induction false} LastAreWorthLeast(items: seq<SpendItem>, pick: seq<bool>, n: nat)
    requires Descending(items) && |pick| == |items| && n <= |items|
    ensures Picked(items, pick, n) >= First(items, n) - First(items, n - Chosen(pick, n))
  {
    if n > 0 {
      LastAreWorthLeast(items, pick, n - 1);
      var c := Chosen(pick, n - 1);
      if !pick[n - 1] && c > 0 {
        assert items[n - 1 - c].amount >= items[n - 1].amount;
        assert First(items, n - c) == First(items, n - 1 - c) + items[n - 1 - c].amount;
      }
    }
  }

  function LastOnly(size: nat, k: nat): (pick: seq<bool>)
    ensures |pick| == size
  {
    seq(size, i => i >= size - k)
  }

  lemma {:induction false} LastOnlyIsLast(items: seq<SpendItem>, k: nat, n: nat)
    requires k <= |items| && n <= |items|
    ensures var pick := LastOnly(|items|, k);
            var rest := |items| - k;
            if n <= rest then Chosen(pick, n) == 0 && Picked(items, pick, n) == 0.0
            else Chosen(pick, n) == n - rest && Picked(items, pick, n) == First(items, n) - First(items, rest)
  {
    if n > 0 { LastOnlyIsLast(items, k, n - 1); }
  }

  /** Is n the smallest size of a choice that reaches the target? */
  ghost predicate IsMinimal(items: seq<SpendItem>, target: real, n: nat)
    requires Total(items) != 0.0
  {
    forall pick: seq<bool> :: |pick| == |items| && Over(Picked(items, pick, |items|), Total(items)) >= target ==>
      n <= Chosen(pick, |items|)
  }

  lemma ShareFalls(x: real, y: real, total: real)
    requires x <= y && total < 0.0
    ensures Over(y, total) <= Over(x, total)
  {
    OverMonotone(-y, -x, -total);
    assert Over(-y, -total) == Over(y, total) && Over(-x, -total) == Over(x, total);
  }

  /** With a negative total the greedy count is the smallest exactly when no fewer items, taken from the other
      end of the ranking, reach the target. */
  lemma NegativeTotalMinimalExactly(items: seq<SpendItem>, target: real, n: nat)
    requires Descending(items) && Total(items) < 0.0 && target > 0.0 && Cut(items, target, n)
    ensures IsMinimal(items, target, n) <==> forall k :: 1 <= k < n ==> Over(Last(items, k), Total(items)) < target
  {
    var total := Total(items);
    if IsMinimal(items, target, n) {
      forall k | 1 <= k < n ensures Over(Last(items, k), total) < target {
        LastOnlyIsLast(items, k, |items|);
        assert Chosen(LastOnly(|items|, k), |items|) == k;
      }
    }
    if forall k :: 1 <= k < n ==> Over(Last(items, k), total) < target {
      forall pick: seq<bool> | |pick| == |items| && Over(Picked(items, pick, |items|), total) >= target
        ensures n <= Chosen(pick, |items|)
      {
        var c := Chosen(pick, |items|);
        LastAreWorthLeast(items, pick, |items|);
        ShareFalls(Last(items, c), Picked(items, pick, |items|), total);
        assert Over(Last(items, 0), total) == 0.0;
        assert Over(Last(items, c), total) >= target;
      }
    }
  }

  /** It can fail: here one credit does what the greedy prefix needs two items for. */
  lemma NegativeTotalIsNotMinimal()
    ensures var items := [SpendItem("a", "", 1.0), SpendItem("b", "", -2.0)];
            && Descending(items) && Total(items) == -1.0 && Cut(items, 0.8, 2)
            && Over(Picked(items, [false, true], 2), Total(items)) >= 0.8 && Chosen([false, true], 2) == 1
  {
    var items := [SpendItem("a", "", 1.0), SpendItem("b", "", -2.0)];
    assert First(items, 1) == 1.0;
    assert First(items, 2) == -1.0;
    assert Chosen([false, true], 1) == 0;
    assert Picked(items, [false, true], 1) == 0.0;
  }

  // ---------------------------------------------------------------------------
  // Bands.
  // ---------------------------------------------------------------------------

  function Class(pct: real, aThreshold: real, bThreshold: real): AbcClass {
    if pct <= aThreshold then A else if pct <= bThreshold then B else C
  }

  function AbcRow(items: seq<SpendItem>, i: nat, aThreshold: real, bThreshold: real): AbcResult
    requires i < |items|
  {
    if Total(items) == 0.0 then AbcResult(items[i], 0.0, C)
    else
      var pct := Percentage(items, i + 1);
      AbcResult(items[i], pct, Class(pct, aThreshold, bThreshold))
  }

  /** calculate_abc_classification */
  method AbcClassification(items: seq<SpendItem>, aThreshold: real, bThreshold: real) returns (results: seq<AbcResult>)
    ensures |results| == |items|
    ensures forall i :: 0 <= i < |items| ==> results[i] == AbcRow(items, i, aThreshold, bThreshold)
  {
    var total := 0.0;
    for i := 0 to |items|
      invariant total == First(items, i)
    {
      total := total + items[i].amount;
    }
    if total == 0.0 {
      return seq(|items|, i requires 0 <= i < |items| => AbcResult(items[i], 0.0, C));
    }
    results := [];
    var running := 0.0;
    for i := 0 to |items|
      invariant |results| == i && running == First(items, i)
      invariant forall k :: 0 <= k < i ==> results[k] == AbcRow(items, k, aThreshold, bThreshold)
    {
      running := running + items[i].amount;
      assert running == First(items, i + 1);
      var pct := Hundredths(Over(running, total));
      var classification := if pct <= aThreshold then A else if pct <= bThreshold then B else C;
      results := results + [AbcResult(items[i], pct, classification)];
    }
  }

  function Rank(c: AbcClass): nat { match c case A => 0 case B => 1 case C => 2 }

  lemma HundredthsMonotone(x: real, y: real)
    requires x <= y
    ensures Hundredths(x) <= Hundredths(y)
  {
    OverMonotone(x, y, 100.0);
    QuantizeMonotone(Times(x, 100.0), Times(y, 100.0), CURRENCY);
    OverMonotone(RoundCurrency(Times(x, 100.0)), RoundCurrency(Times(y, 100.0)), 100.0);
  }

  lemma WholeHundredths(n: int)
    ensures Hundredths(n as real) == n as real
  {
    assert Times(n as real, 100.0) == Over((1000000 * n) as real, CURRENCY);
    QuantizeOfGrid(1000000 * n, CURRENCY);
  }

  /** In a ranked list the sums grow as long as the items are no credits ... */
  lemma {:induction false} SumsGrow(items: seq<SpendItem>, m: nat, n: nat)
    requires Descending(items) && m <= n <= |items| && (n > 0 ==> items[n - 1].amount >= 0.0)
    ensures First(items, m) <= First(items, n)
  {
    if m < n {
      assert n > 1 ==> items[n - 2].amount >= items[n - 1].amount;
      SumsGrow(items, m, n - 1);
    }
  }

  /** ... and from the first credit on they fall. */
  lemma {:induction false} SumsFall(items: seq<SpendItem>, m: nat, n: nat)
    requires Descending(items) && m <= n <= |items| && (m < |items| ==> items[m].amount <= 0.0)
    ensures First(items, m) >= First(items, n)
  {
    if m < n {
      SumsFall(items, m, n - 1);
      assert m < n - 1 ==> items[m].amount >= items[n - 1].amount;
    }
  }

  lemma RankGrows(p: real, q: real, a: real, b: real)
    requires p <= q
    ensures Rank(Class(p, a, b)) <= Rank(Class(q, a, b))
  {
  }

  lemma PercentageGrows(items: seq<SpendItem>, m: nat, n: nat)
    requires m <= n <= |items| && Total(items) > 0.0 && First(items, m) <= First(items, n)
    ensures Percentage(items, m) <= Percentage(items, n)
  {
    OverMonotone(First(items, m), First(items, n), Total(items));
    HundredthsMonotone(Share(items, m), Share(items, n));
  }

  lemma PercentageFalls(items: seq<SpendItem>, m: nat, n: nat)
    requires m <= n <= |items| && Total(items) < 0.0 && First(items, m) >= First(items, n)
    ensures Percentage(items, m) <= Percentage(items, n)
  {
    ShareFalls(First(items, n), First(items, m), Total(items));
    HundredthsMonotone(Share(items, m), Share(items, n));
  }

  lemma WholePercentage(items: seq<SpendItem>)
    requires Total(items) != 0.0
    ensures Percentage(items, |items|) == 1.0 && Percentage(items, 0) == 0.0
  {
    assert Share(items, |items|) == 1.0 && Share(items, 0) == 0.0;
    WholeHundredths(1);
    WholeHundredths(0);
  }

  /** A credit in a list with a positive total is listed at the whole or more. */
  lemma CreditIsPastTheWhole(items: seq<SpendItem>, j: nat)
    requires Descending(items) && j < |items| && Total(items) > 0.0 && items[j].amount < 0.0
    ensures Percentage(items, j + 1) >= 1.0
  {
    assert j + 1 < |items| ==> items[j].amount >= items[j + 1].amount;
    SumsFall(items, j + 1, |items|);
    WholePercentage(items);
    OverMonotone(Total(items), First(items, j + 1), Total(items));
    HundredthsMonotone(Share(items, |items|), Share(items, j + 1));
  }

  /** No item's percentage is smaller than that of an item before it, unless both lie outside 0 to 1. */
  lemma PercentagesGrow(items: seq<SpendItem>, i: nat, j: nat)
    requires Descending(items) && i <= j < |items| && Total(items) != 0.0
    ensures Percentage(items, i + 1) <= Percentage(items, j + 1)
            || Percentage(items, i + 1) <= 0.0 || Percentage(items, j + 1) >= 1.0
  {
    if Total(items) > 0.0 {
      if items[j].amount < 0.0 {
        CreditIsPastTheWhole(items, j);
      } else {
        SumsGrow(items, i + 1, j + 1);
        PercentageGrows(items, i + 1, j + 1);
      }
    } else if items[i].amount < 0.0 {
      assert i + 1 < |items| ==> items[i].amount >= items[i + 1].amount;
      SumsFall(items, i + 1, j + 1);
      PercentageFalls(items, i + 1, j + 1);
    } else {
      SumsGrow(items, 0, i + 1);
      ShareFalls(First(items, 0), First(items, i + 1), Total(items));
      WholePercentage(items);
      HundredthsMonotone(Share(items, i + 1), Share(items, 0));
    }
  }

  /** On a ranked list, credits or not, no item is in an earlier band than an item listed before it, as long as
      both bands end below the whole. */
  lemma BandsAreContiguous(items: seq<SpendItem>, a: real, b: real, i: nat, j: nat)
    requires Descending(items) && i <= j < |items| && 0.0 <= a < 1.0 && b < 1.0
    ensures Rank(AbcRow(items, i, a, b).classification) <= Rank(AbcRow(items, j, a, b).classification)
  {
    if Total(items) != 0.0 {
      PercentagesGrow(items, i, j);
      var p, q := Percentage(items, i + 1), Percentage(items, j + 1);
      if p <= q { RankGrows(p, q, a, b); }
    }
  }

  ghost predicate Contiguous(items: seq<SpendItem>, a: real, b: real) {
    forall i, j :: 0 <= i <= j < |items| ==>
      Rank(AbcRow(items, i, a, b).classification) <= Rank(AbcRow(items, j, a, b).classification)
  }

  function Overshoot(p: int): (items: seq<SpendItem>)
    ensures |items| == 2
  {
    [SpendItem("a", "", p as real), SpendItem("b", "", 1.0 - p as real)]
  }

  lemma OvershootPercentages(p: int)
    ensures Total(Overshoot(p)) == 1.0 && Percentage(Overshoot(p), 1) == p as real && Percentage(Overshoot(p), 2) == 1.0
  {
    var items := Overshoot(p);
    assert First(items, 1) == First(items, 0) + p as real;
    assert First(items, 2) == First(items, 1) + (1.0 - p as real);
    assert Share(items, 1) == p as real;
    WholeHundredths(p);
    WholePercentage(items);
  }

  lemma PairIsBroken(items: seq<SpendItem>, a: real, b: real)
    requires |items| == 2 && Total(items) != 0.0 && a < 1.0 <= b < Percentage(items, 1) && Percentage(items, 2) == 1.0
    ensures !Contiguous(items, a, b)
  {
    assert Rank(AbcRow(items, 0, a, b).classification) == 2;
    assert Rank(AbcRow(items, 1, a, b).classification) == 1;
  }

  /** A credit brings the total back into a band that ends above the whole. */
  lemma WideBandIsBroken(a: real, b: real, p: int)
    requires a < 1.0 <= b < p as real
    ensures Descending(Overshoot(p)) && !Contiguous(Overshoot(p), a, b)
  {
    assert !Contiguous(Overshoot(p), a, b) by {
      OvershootPercentages(p);
      PairIsBroken(Overshoot(p), a, b);
    }
    assert Overshoot(p)[0].amount >= Overshoot(p)[1].amount;
  }

  /** The bands of every ranked list are contiguous exactly when the second one ends below the whole. */
  lemma BandsAreContiguousExactly(a: real, b: real)
    requires 0.0 <= a < 1.0
    ensures (forall items :: Descending(items) ==> Contiguous(items, a, b)) <==> b < 1.0
  {
    if b < 1.0 {
      forall items: seq<SpendItem>, i, j | Descending(items) && 0 <= i <= j < |items|
        ensures Rank(AbcRow(items, i, a, b).classification) <= Rank(AbcRow(items, j, a, b).classification)
      {
        BandsAreContiguous(items, a, b, i, j);
      }
    } else {
      WideBandIsBroken(a, b, b.Floor + 1);
    }
  }

  /** Every contributor but the last is in class A when the band and the target are the same figure with
      at most six decimals, as both defaults of 0.80 are. */
  lemma ContributorsAreClassA(items: seq<SpendItem>, units: int, bThreshold: real, n: nat, i: nat)
    requires Total(items) != 0.0 && i + 1 < n <= |items|
    requires Cut(items, Over(Over(units as real, CURRENCY), 100.0), n)
    ensures AbcRow(items, i, Over(Over(units as real, CURRENCY), 100.0), bThreshold).classification == A
  {
    var hundredfold := Over(units as real, CURRENCY);
    var target := Over(hundredfold, 100.0);
    assert Share(items, i + 1) < target;
    OverMonotone(Share(items, i + 1), target, 100.0);
    OverTimes(hundredfold, 100.0);
    QuantizeMonotone(Times(Share(items, i + 1), 100.0), hundredfold, CURRENCY);
    QuantizeOfGrid(units, CURRENCY);
    OverMonotone(RoundCurrency(Times(Share(items, i + 1), 100.0)), hundredfold, 100.0);
  }
}
