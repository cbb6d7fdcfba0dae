/** The totals aggregator: one summary record for a list of canonical rows,
    with a different rule per metric. */
module Totals {
  import opened Wrappers
  import opened Sequences
  import opened Metrics
  import opened Rows

  /** The summary record; it has one number per metric key. */
  datatype Totals = Totals(
    spend: real, conversions: real, conversionCost: real, impressions: real, reach: real,
    cpm: real, cpc: real, ctr: real, linkClicks: real, addToCart: real, checkouts: real,
    revenue: real, roas: real)

  /** `totals[key]`. */
  function TotalsField(t: Totals, k: MetricKey): real {
    match k
    case Spend => t.spend
    case Conversions => t.conversions
    case ConversionCost => t.conversionCost
    case Impressions => t.impressions
    case Reach => t.reach
    case Cpm => t.cpm
    case Cpc => t.cpc
    case Ctr => t.ctr
    case LinkClicks => t.linkClicks
    case AddToCart => t.addToCart
    case Checkouts => t.checkouts
    case Revenue => t.revenue
    case Roas => t.roas
  }

  /** The sum of one metric over the rows, added up in row order. */
  function Sum(rows: seq<CanonicalRow>, k: MetricKey): real {
    if |rows| == 0 then 0.0 else Sum(rows[..|rows| - 1], k) + Field(rows[|rows| - 1], k)
  }

  /** The number of rows with a positive CPC. */
  function CountPositiveCpc(rows: seq<CanonicalRow>): nat {
    if |rows| == 0 then 0
    else CountPositiveCpc(rows[..|rows| - 1]) + (if rows[|rows| - 1].cpc > 0.0 then 1 else 0)
  }

  /** A quotient that is 0 when its denominator is not positive. */
  function Ratio(num: real, den: real): real {
    if den > 0.0 then num / den else 0.0
  }

  /** The summary of `rows`: the additive metrics are sums; CPM, cost per
      conversion and ROAS are ratios of sums; CTR is the mean over all rows;
      CPC is the sum of every row's CPC over the number of rows whose CPC is
      positive. */
  function TotalsOf(rows: seq<CanonicalRow>): Totals {
    var spend := Sum(rows, Spend);
    var conversions := Sum(rows, Conversions);
    var impressions := Sum(rows, Impressions);
    var revenue := Sum(rows, Revenue);
    Totals(
      spend := spend,
      conversions := conversions,
      conversionCost := Ratio(spend, conversions),
      impressions := impressions,
      reach := Sum(rows, Reach),
      cpm := Ratio(spend, impressions) * 1000.0,
      cpc := Ratio(Sum(rows, Cpc), CountPositiveCpc(rows) as real),
      ctr := Ratio(Sum(rows, Ctr), |rows| as real),
      linkClicks := Sum(rows, LinkClicks),
      addToCart := Sum(rows, AddToCart),
      checkouts := Sum(rows, Checkouts),
      revenue := revenue,
      roas := Ratio(revenue, spend))
  }

  /** The metrics that are summed row by row. */
  predicate IsSummed(k: MetricKey) {
    k in {Spend, Conversions, Impressions, Reach, LinkClicks, AddToCart, Checkouts, Revenue}
  }

  /** `computeTotals(rows)`: one pass accumulating the sums and the CPC count,
      then the derived fields. */
  method ComputeTotals(rows: seq<CanonicalRow>) returns (t: Totals)
    ensures t == TotalsOf(rows)
  {
    var spend, conversions, impressions, reach := 0.0, 0.0, 0.0, 0.0;
    var linkClicks, addToCart, checkouts, revenue := 0.0, 0.0, 0.0, 0.0;
    var ctrSum, cpcSum, cpcCount := 0.0, 0.0, 0;
    var i := 0;
    while i < |rows|
      invariant 0 <= i <= |rows|
      invariant spend == Sum(rows[..i], Spend) && conversions == Sum(rows[..i], Conversions)
      invariant impressions == Sum(rows[..i], Impressions) && reach == Sum(rows[..i], Reach)
      invariant linkClicks == Sum(rows[..i], LinkClicks) && addToCart == Sum(rows[..i], AddToCart)
      invariant checkouts == Sum(rows[..i], Checkouts) && revenue == Sum(rows[..i], Revenue)
      invariant ctrSum == Sum(rows[..i], Ctr) && cpcSum == Sum(rows[..i], Cpc)
      invariant cpcCount == CountPositiveCpc(rows[..i])
    {
      var r := rows[i];
      assert rows[..i + 1][..i] == rows[..i];
      spend, conversions := spend + r.spend, conversions + r.conversions;
      impressions, reach := impressions + r.impressions, reach + r.reach;
      linkClicks, addToCart := linkClicks + r.linkClicks, addToCart + r.addToCart;
      checkouts, revenue := checkouts + r.checkouts, revenue + r.revenue;
      ctrSum, cpcSum := ctrSum + r.ctr, cpcSum + r.cpc;
      cpcCount := cpcCount + if r.cpc > 0.0 then 1 else 0;
      i := i + 1;
    }
    assert rows[..i] == rows;
    var cpm := if impressions > 0.0 then (spend / impressions) * 1000.0 else 0.0;
    var cpc := if cpcCount > 0 then cpcSum / cpcCount as real else 0.0;
    var ctr := if |rows| > 0 then ctrSum / |rows| as real else 0.0;
    var conversionCost := if conversions > 0.0 then spend / conversions else 0.0;
    var roas := if spend > 0.0 then revenue / spend else 0.0;
    t := Totals(spend, conversions, conversionCost, impressions, reach, cpm, cpc, ctr,
                linkClicks, addToCart, checkouts, revenue, roas);
  }

  /** Sums split over a concatenation. */
  lemma {:induction false} SumAppend(a: seq<CanonicalRow>, b: seq<CanonicalRow>, k: MetricKey)
    ensures Sum(a + b, k) == Sum(a, k) + Sum(b, k)
  {
    if |b| == 0 {
      assert a + b == a;
    } else {
      var c := a + b;
      assert c[..|c| - 1] == a + b[..|b| - 1];
      SumAppend(a, b[..|b| - 1], k);
    }
  }

  /** Counts split over a concatenation. */
  lemma {:induction false} CountAppend(a: seq<CanonicalRow>, b: seq<CanonicalRow>)
    ensures CountPositiveCpc(a + b) == CountPositiveCpc(a) + CountPositiveCpc(b)
  {
    if |b| == 0 {
      assert a + b == a;
    } else {
      var c := a + b;
      assert c[..|c| - 1] == a + b[..|b| - 1];
      CountAppend(a, b[..|b| - 1]);
    }
  }

  /** Removing the element at position j from a sequence. */
  function Without<T>(s: seq<T>, j: nat): (r: seq<T>)
    requires j < |s|
    ensures |r| == |s| - 1
    ensures multiset(r) == multiset(s) - multiset{s[j]}
  {
    assert s == s[..j] + [s[j]] + s[j + 1..];
    s[..j] + s[j + 1..]
  }

  lemma SumOne(x: CanonicalRow, k: MetricKey)
    ensures Sum([x], k) == Field(x, k)
  {
    assert [x][..0] == [];
  }

  lemma CountOne(x: CanonicalRow)
    ensures CountPositiveCpc([x]) == if x.cpc > 0.0 then 1 else 0
  {
    assert [x][..0] == [];
  }

  /** Taking one row out of a sum. */
  lemma SumWithout(b: seq<CanonicalRow>, j: nat, k: MetricKey)
    requires j < |b|
    ensures Sum(b, k) == Sum(Without(b, j), k) + Field(b[j], k)
  {
    var p, x, q := b[..j], b[j], b[j + 1..];
    assert b == (p + [x]) + q;
    assert Without(b, j) == p + q;
    SumAppend(p + [x], q, k);
    SumAppend(p, [x], k);
    SumAppend(p, q, k);
    SumOne(x, k);
  }

  /** Taking one row out of the CPC count. */
  lemma CountWithout(b: seq<CanonicalRow>, j: nat)
    requires j < |b|
    ensures CountPositiveCpc(b) == CountPositiveCpc(Without(b, j)) + (if b[j].cpc > 0.0 then 1 else 0)
  {
    var p, x, q := b[..j], b[j], b[j + 1..];
    assert b == (p + [x]) + q;
    assert Without(b, j) == p + q;
    CountAppend(p + [x], q);
    CountAppend(p, [x]);
    CountAppend(p, q);
    CountOne(x);
  }

  /** Taking the last element of `a` out of `a`, and the same element out of
      `b` at a position where it occurs, keeps the two multisets equal. */
  lemma RemoveLast<T>(a: seq<T>, b: seq<T>) returns (j: nat)
    requires multiset(a) == multiset(b) && |a| > 0
    ensures j < |b| && b[j] == a[|a| - 1]
    ensures multiset(a[..|a| - 1]) == multiset(Without(b, j))
  {
    assert a == a[..|a| - 1] + [a[|a| - 1]];
    assert a[|a| - 1] in multiset(b);
    j :| 0 <= j < |b| && b[j] == a[|a| - 1];
  }

  /** A sum does not depend on the order of the rows. */
  lemma {:induction false} SumPermutation(a: seq<CanonicalRow>, b: seq<CanonicalRow>, k: MetricKey)
    requires multiset(a) == multiset(b)
    ensures Sum(a, k) == Sum(b, k)
  {
    if |a| == 0 {
      assert |b| == |multiset(b)| == 0;
    } else {
      var j := RemoveLast(a, b);
      SumPermutation(a[..|a| - 1], Without(b, j), k);
      SumWithout(b, j, k);
    }
  }

  /** The CPC count does not depend on the order of the rows. */
  lemma {:induction false} CountPermutation(a: seq<CanonicalRow>, b: seq<CanonicalRow>)
    requires multiset(a) == multiset(b)
    ensures CountPositiveCpc(a) == CountPositiveCpc(b)
  {
    if |a| == 0 {
      assert |b| == |multiset(b)| == 0;
    } else {
      var j := RemoveLast(a, b);
      CountPermutation(a[..|a| - 1], Without(b, j));
      CountWithout(b, j);
    }
  }

  /** The totals do not depend on the order of the rows. */
  lemma TotalsPermutation(a: seq<CanonicalRow>, b: seq<CanonicalRow>)
    requires multiset(a) == multiset(b)
    ensures TotalsOf(a) == TotalsOf(b)
  {
    assert |a| == |multiset(a)| == |multiset(b)| == |b|;
    forall k: MetricKey
      ensures Sum(a, k) == Sum(b, k)
    {
      SumPermutation(a, b, k);
    }
    CountPermutation(a, b);
  }

  /** The additive totals of two row lists put together are the sums of their
      totals. */
  lemma TotalsAppend(a: seq<CanonicalRow>, b: seq<CanonicalRow>, k: MetricKey)
    requires IsSummed(k)
    ensures TotalsField(TotalsOf(a + b), k) == TotalsField(TotalsOf(a), k) + TotalsField(TotalsOf(b), k)
  {
    SumAppend(a, b, k);
  }

  /** No rows: every field of the totals is 0. */
  lemma EmptyTotalsAreZero()
    ensures TotalsOf([]) == Totals(0.0, 0.0, 0.0, 0.0, 0.0, 0.0, 0.0, 0.0, 0.0, 0.0, 0.0, 0.0, 0.0)
  {
  }

  /** Each summed field is the sum of that metric; the derived fields are
      ratios of those sums (0 when the denominator is 0); CTR is the mean over
      all rows. */
  lemma TotalsMeaning(rows: seq<CanonicalRow>)
    ensures forall k :: IsSummed(k) ==> TotalsField(TotalsOf(rows), k) == Sum(rows, k)
    ensures var t := TotalsOf(rows);
      && (t.impressions > 0.0 ==> t.cpm * t.impressions == t.spend * 1000.0)
      && (t.impressions <= 0.0 ==> t.cpm == 0.0)
      && (t.conversions > 0.0 ==> t.conversionCost * t.conversions == t.spend)
      && (t.conversions <= 0.0 ==> t.conversionCost == 0.0)
      && (t.spend > 0.0 ==> t.roas * t.spend == t.revenue)
      && (t.spend <= 0.0 ==> t.roas == 0.0)
      && (|rows| > 0 ==> t.ctr * |rows| as real == Sum(rows, Ctr))
      && (|rows| == 0 ==> t.ctr == 0.0)
  {
  }

  /** The rows whose CPC is positive, in their order. */
  function PositiveCpcRows(rows: seq<CanonicalRow>): (pos: seq<CanonicalRow>)
    ensures |pos| <= |rows|
  {
    if |rows| == 0 then []
    else PositiveCpcRows(rows[..|rows| - 1]) + if rows[|rows| - 1].cpc > 0.0 then [rows[|rows| - 1]] else []
  }

  /** The positive-CPC rows are exactly the input rows whose CPC is positive. */
  lemma {:induction false} PositiveCpcRowsMembers(rows: seq<CanonicalRow>)
    ensures forall r :: r in PositiveCpcRows(rows) <==> r in rows && r.cpc > 0.0
  {
    if |rows| > 0 {
      var init := rows[..|rows| - 1];
      assert rows == init + [rows[|rows| - 1]];
      PositiveCpcRowsMembers(init);
    }
  }

  /** When no CPC is negative, summing CPC over the positive rows or over all
      rows is the same, and the positive rows are the ones counted. */
  lemma {:induction false} PositiveCpcSum(rows: seq<CanonicalRow>)
    requires forall i :: 0 <= i < |rows| ==> rows[i].cpc >= 0.0
    ensures Sum(PositiveCpcRows(rows), Cpc) == Sum(rows, Cpc)
    ensures |PositiveCpcRows(rows)| == CountPositiveCpc(rows)
  {
    if |rows| > 0 {
      var init := rows[..|rows| - 1];
      var last := rows[|rows| - 1];
      PositiveCpcSum(init);
      if last.cpc > 0.0 {
        var pos := PositiveCpcRows(init) + [last];
        assert pos[..|pos| - 1] == PositiveCpcRows(init);
      } else {
        assert last.cpc == 0.0;
        assert PositiveCpcRows(rows) == PositiveCpcRows(init) + [];
        assert PositiveCpcRows(init) + [] == PositiveCpcRows(init);
      }
    }
  }

  /** How the total CPC is formed. */
  lemma TotalsCpc(rows: seq<CanonicalRow>)
    ensures TotalsOf(rows).cpc == Ratio(Sum(rows, Cpc), CountPositiveCpc(rows) as real)
  {
  }

  /** The mean of a metric over some rows (0 for no rows). */
  function Mean(rows: seq<CanonicalRow>, k: MetricKey): real {
    Ratio(Sum(rows, k), |rows| as real)
  }

  /** CTR is the mean over all rows, and, when no row has a negative CPC, CPC
      is the mean over the rows whose CPC is positive: rows with CPC 0 take no
      part in it. */
  lemma RatesAreMeans(rows: seq<CanonicalRow>)
    requires forall i :: 0 <= i < |rows| ==> rows[i].cpc >= 0.0
    ensures TotalsOf(rows).ctr == Mean(rows, Ctr)
    ensures TotalsOf(rows).cpc == Mean(PositiveCpcRows(rows), Cpc)
  {
    PositiveCpcSum(rows);
    TotalsCpc(rows);
  }

  /** A daily app row with only spend, conversions and the upstream cost per
      install filled in. */
  function AppDay(date: string, spend: real, conversions: real, cost: real): CanonicalRow {
    CanonicalRow(None, "", "", "", Some(date), spend, conversions, cost,
                 0.0, 0.0, 0.0, 0.0, 0.0, 0.0, 0.0, 0.0, 0.0, 0.0)
  }

  /** Three days spending 10, 20, 30 with 1, 2, 3 installs total 60 spent and
      6 installs, whatever cost per install the rows carried. */
  lemma ThreeDayExample(c1: real, c2: real, c3: real)
    ensures var t := TotalsOf([AppDay("2024-01-01", 10.0, 1.0, c1), AppDay("2024-01-02", 20.0, 2.0, c2),
                               AppDay("2024-01-03", 30.0, 3.0, c3)]);
      t.spend == 60.0 && t.conversions == 6.0 && t.conversionCost == 10.0
  {
    var rows := [AppDay("2024-01-01", 10.0, 1.0, c1), AppDay("2024-01-02", 20.0, 2.0, c2),
                 AppDay("2024-01-03", 30.0, 3.0, c3)];
    assert rows[..2][..1] == rows[..1];
    assert rows[..1][..0] == [];
    assert Sum(rows[..1], Spend) == 10.0 && Sum(rows[..2], Spend) == 30.0;
    assert Sum(rows[..1], Conversions) == 1.0 && Sum(rows[..2], Conversions) == 3.0;
  }
}
