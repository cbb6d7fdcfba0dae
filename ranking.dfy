/** The top-5 ranker over ad rows, and the sortable breakdown table. */
module Ranking {
  import opened Wrappers
  import opened Sequences
  import opened Metrics
  import opened Rows

  /** A value on the ascending scale, where 0 counts as larger than any number. */
  datatype Rank = Finite(x: real) | Infinite

  function AscRank(r: CanonicalRow, k: MetricKey): (v: Rank)
    ensures v == Infinite <==> Field(r, k) == 0.0
  {
    if Field(r, k) == 0.0 then Infinite else Finite(Field(r, k))
  }

  /** `a` may come before `b` under the top-5 comparator: ascending treats 0
      as infinite (two such rows tie), descending compares raw values. */
  predicate RankPrecedes(sk: SortKey, a: CanonicalRow, b: CanonicalRow) {
    match sk.dir
    case Asc =>
      (match (AscRank(a, sk.metric), AscRank(b, sk.metric))
       case (_, Infinite) => true
       case (Infinite, Finite(_)) => false
       case (Finite(x), Finite(y)) => x <= y)
    case Desc => Field(a, sk.metric) >= Field(b, sk.metric)
  }

  function Precedes(sk: SortKey): (CanonicalRow, CanonicalRow) -> bool {
    (a: CanonicalRow, b: CanonicalRow) => RankPrecedes(sk, a, b)
  }

  /** The top-5 comparator is a total preorder, so a stable sort by it is
      well defined. */
  lemma PrecedesIsTotalPreorder(sk: SortKey)
    ensures TotalPreorder(Precedes(sk))
  {
  }

  predicate HasSpend(r: CanonicalRow) {
    r.spend > 0.0
  }

  /** The ads with positive spend, in their order. */
  function Spending(rows: seq<CanonicalRow>): seq<CanonicalRow> {
    Keep(rows, HasSpend)
  }

  /** `sortedAds`: the spending ads, stably sorted by the chosen ranking, first
      five. No ads loaded gives no rows. */
  function SortedAds(ads: Option<seq<CanonicalRow>>, sk: SortKey): (top: seq<CanonicalRow>)
    ensures ads.None? ==> top == []
    ensures ads.Some? ==> |top| == if |Spending(ads.value)| < 5 then |Spending(ads.value)| else 5
    ensures ads.Some? ==> multiset(top) <= multiset(Spending(ads.value))
    ensures ads.Some? ==> top == Sort(Spending(ads.value), Precedes(sk))[..|top|]
  {
    if ads.None? then []
    else
      var ranked := Sort(Spending(ads.value), Precedes(sk));
      var n := if |ranked| < 5 then |ranked| else 5;
      assert ranked == ranked[..n] + ranked[n..];
      ranked[..n]
  }

  /** At most five rows, each a loaded ad with positive spend; five whenever
      at least five ads spent. */
  lemma TopFiveDrawnFromSpending(ads: seq<CanonicalRow>, sk: SortKey)
    ensures var top := SortedAds(Some(ads), sk);
      && |top| == (if |Spending(ads)| < 5 then |Spending(ads)| else 5)
      && multiset(top) <= multiset(Spending(ads))
      && (forall i :: 0 <= i < |top| ==> top[i] in ads && top[i].spend > 0.0)
  {
    var top := SortedAds(Some(ads), sk);
    var ranked := Sort(Spending(ads), Precedes(sk));
    forall i | 0 <= i < |top|
      ensures top[i] in ads && top[i].spend > 0.0
    {
      assert top[i] == ranked[i];
      assert ranked[i] in multiset(Spending(ads));
    }
  }

  /** A prefix of a sorted sequence is sorted. */
  lemma PrefixSorted<T>(s: seq<T>, n: nat, le: (T, T) -> bool)
    requires Sorted(s, le) && n <= |s|
    ensures Sorted(s[..n], le)
  {
    forall i, j | 0 <= i < j < n
      ensures le(s[..n][i], s[..n][j])
    {
      assert s[..n][i] == s[i] && s[..n][j] == s[j];
    }
  }

  /** In a sorted sequence, an element of the first `n` may precede any element left out of them. */
  lemma PrefixBeatsRest<T>(s: seq<T>, n: nat, le: (T, T) -> bool, i: nat, x: T)
    requires Sorted(s, le) && i < n <= |s|
    requires x in s && x !in s[..n]
    ensures le(s[i], x)
  {
    var j :| 0 <= j < |s| && s[j] == x;
    PrefixIndex(s, n, j);
  }

  lemma PrefixIndex<T>(s: seq<T>, n: nat, j: nat)
    requires n <= |s| && j < |s|
    ensures j < n ==> s[j] in s[..n]
  {
    if j < n {
      assert s[..n][j] == s[j];
    }
  }

  /** The rows shown are in ranking order, and no spending ad left out ranks
      strictly ahead of a row shown. */
  lemma TopFiveAreTheBest(ads: seq<CanonicalRow>, sk: SortKey)
    ensures var top := SortedAds(Some(ads), sk);
      && Sorted(top, Precedes(sk))
      && (forall i, a :: 0 <= i < |top| && a in Spending(ads) && a !in top ==> RankPrecedes(sk, top[i], a))
  {
    var ranked := Sort(Spending(ads), Precedes(sk));
    var n := if |ranked| < 5 then |ranked| else 5;
    var top := ranked[..n];
    assert SortedAds(Some(ads), sk) == top;
    PrecedesIsTotalPreorder(sk);
    SortSorted(Spending(ads), Precedes(sk));
    PrefixSorted(ranked, n, Precedes(sk));
    forall i, a | 0 <= i < |top| && a in Spending(ads) && a !in top
      ensures RankPrecedes(sk, top[i], a)
    {
      assert a in multiset(ranked);
      PrefixBeatsRest(ranked, n, Precedes(sk), i, a);
      assert top[i] == ranked[i];
    }
  }

  /** Ascending: a row whose value is 0 is shown after every row with a
      non-zero value, and the non-zero values rise. */
  lemma AscendingSinksZeros(ads: seq<CanonicalRow>, k: MetricKey)
    ensures var top := SortedAds(Some(ads), SortKey(k, Asc));
      forall i, j :: 0 <= i < j < |top| ==>
        && !(Field(top[i], k) == 0.0 && Field(top[j], k) != 0.0)
        && (Field(top[i], k) != 0.0 && Field(top[j], k) != 0.0 ==> Field(top[i], k) <= Field(top[j], k))
  {
    TopFiveAreTheBest(ads, SortKey(k, Asc));
  }

  /** Descending: the values do not rise. */
  lemma DescendingNonIncreasing(ads: seq<CanonicalRow>, k: MetricKey)
    ensures var top := SortedAds(Some(ads), SortKey(k, Desc));
      forall i, j :: 0 <= i < j < |top| ==> Field(top[i], k) >= Field(top[j], k)
  {
    TopFiveAreTheBest(ads, SortKey(k, Desc));
  }

  /** Rows that tie under the ranking keep their loaded order. */
  lemma RankingIsStable(ads: seq<CanonicalRow>, sk: SortKey, v: CanonicalRow)
    ensures var ranked := Sort(Spending(ads), Precedes(sk));
      TiedWith(ranked, v, Precedes(sk)) == TiedWith(Spending(ads), v, Precedes(sk))
  {
    PrecedesIsTotalPreorder(sk);
    SortIsStable(Spending(ads), v, Precedes(sk));
  }

  /** Two rows ranked by `le` where the second must come first. */
  lemma SortTwoSwapped(a: CanonicalRow, b: CanonicalRow, le: (CanonicalRow, CanonicalRow) -> bool)
    requires !le(a, b)
    ensures Sort([a, b], le) == [b, a]
  {
    assert [a, b][1..] == [b] && [b][1..] == [];
    assert Sort([b], le) == [b];
    assert Insert(a, [b], le) == [b] + Insert(a, [], le);
  }

  /** Lowest cost first: a spending ad at cost 0 ranks after a spending ad
      with a positive cost, and an ad with no spend is dropped. */
  lemma LowestCostExample(free: CanonicalRow, paid: CanonicalRow, off: CanonicalRow)
    requires free.spend > 0.0 && free.conversionCost == 0.0
    requires paid.spend > 0.0 && paid.conversionCost > 0.0
    requires off.spend == 0.0
    ensures SortedAds(Some([free, paid, off]), SortKey(ConversionCost, Asc)) == [paid, free]
  {
    SpendingExample(free, paid, off);
    var le := Precedes(SortKey(ConversionCost, Asc));
    assert !RankPrecedes(SortKey(ConversionCost, Asc), free, paid);
    SortTwoSwapped(free, paid, le);
  }

  lemma SpendingExample(a: CanonicalRow, b: CanonicalRow, c: CanonicalRow)
    requires a.spend > 0.0 && b.spend > 0.0 && c.spend == 0.0
    ensures Spending([a, b, c]) == [a, b]
  {
    assert [a, b, c][1..] == [b, c] && [b, c][1..] == [c] && [c][1..] == [];
    assert Keep([c], HasSpend) == [];
    assert Keep([b, c], HasSpend) == [b];
  }

  /** The breakdown table's comparator: raw values, no special case for 0. */
  predicate TablePrecedes(sk: SortKey, a: CanonicalRow, b: CanonicalRow) {
    match sk.dir
    case Desc => Field(a, sk.metric) >= Field(b, sk.metric)
    case Asc => Field(a, sk.metric) <= Field(b, sk.metric)
  }

  function TableOrder(sk: SortKey): (CanonicalRow, CanonicalRow) -> bool {
    (a: CanonicalRow, b: CanonicalRow) => TablePrecedes(sk, a, b)
  }

  lemma TableOrderIsTotalPreorder(sk: SortKey)
    ensures TotalPreorder(TableOrder(sk))
  {
  }

  /** The sort state after a header is clicked: the same column flips its
      direction; another column becomes the sort column, descending. */
  function Toggled(sk: SortKey, k: MetricKey): (next: SortKey)
    ensures next.metric == k
    ensures sk.metric != k ==> next.dir == Desc
    ensures sk.metric == k ==> next.dir != sk.dir
  {
    if sk.metric == k then SortKey(k, if sk.dir == Desc then Asc else Desc)
    else SortKey(k, Desc)
  }

  /** Clicking the sort column twice restores its direction; clicking a new
      column twice leaves it ascending. */
  lemma ToggleTwice(sk: SortKey, k: MetricKey)
    ensures sk.metric == k ==> Toggled(Toggled(sk, k), k) == sk
    ensures sk.metric != k ==> Toggled(Toggled(sk, k), k) == SortKey(k, Asc)
  {
  }

  /** `BreakdownTable`: its rows and its sort state. */
  class BreakdownTable {
    const rows: seq<CanonicalRow>
    var sortBy: MetricKey
    var sortDir: Direction

    /** A new table sorts by spend, descending. */
    constructor (rows: seq<CanonicalRow>)
      ensures this.rows == rows && sortBy == Spend && sortDir == Desc
    {
      this.rows := rows;
      sortBy := Spend;
      sortDir := Desc;
    }

    function State(): SortKey
      reads this
    {
      SortKey(sortBy, sortDir)
    }

    /** `toggleSort(key)`. */
    method ToggleSort(k: MetricKey)
      modifies this
      ensures State() == Toggled(old(State()), k)
    {
      if sortBy == k {
        sortDir := if sortDir == Desc then Asc else Desc;
      } else {
        sortBy := k;
        sortDir := Desc;
      }
    }

    /** `sorted`: the rows, stably sorted by the current column and direction. */
    function SortedRows(): (s: seq<CanonicalRow>)
      reads this
      ensures multiset(s) == multiset(rows)
    {
      Sort(rows, TableOrder(State()))
    }

    /** Descending shows the column's values non-increasing, ascending
        non-decreasing. */
    lemma SortedRowsOrdered()
      ensures var s := SortedRows();
        forall i, j :: 0 <= i < j < |s| ==>
          if sortDir == Desc then Field(s[i], sortBy) >= Field(s[j], sortBy)
          else Field(s[i], sortBy) <= Field(s[j], sortBy)
    {
      TableOrderIsTotalPreorder(State());
      SortSorted(rows, TableOrder(State()));
    }
  }
}
