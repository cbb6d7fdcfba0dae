/** The period comparator: the range immediately before the chosen one, and
    the per-metric change between the two ranges' totals. Dates are day
    ordinals (consecutive days differ by 1). */
module Period {
  import opened Wrappers
  import opened Metrics
  import opened Totals

  /** An inclusive range of days. */
  datatype DateRange = DateRange(start: int, end: int)

  /** The number of days in a range (`dayDiff`). */
  function DayCount(r: DateRange): int {
    r.end - r.start + 1
  }

  predicate InRange(d: int, r: DateRange) {
    r.start <= d <= r.end
  }

  /** The comparison range: it ends the day before `r` starts and has as many
      days as `r`. */
  function PreviousRange(r: DateRange): (p: DateRange)
    ensures p.end == r.start - 1
    ensures DayCount(p) == DayCount(r)
  {
    var prevEnd := r.start - 1;
    DateRange(prevEnd - (DayCount(r) - 1), prevEnd)
  }

  /** The range that starts the day after `p` ends and has as many days. */
  function NextRange(p: DateRange): (r: DateRange)
    ensures r.start == p.end + 1
    ensures DayCount(r) == DayCount(p)
  {
    DateRange(p.end + 1, p.end + DayCount(p))
  }

  /** Stepping back a period and forward again returns to the same range, and
      the other way round. */
  lemma PreviousNextRoundTrip(r: DateRange)
    ensures NextRange(PreviousRange(r)) == r
    ensures PreviousRange(NextRange(r)) == r
  {
  }

  /** For a well-formed range, the comparison range is well formed, shares no
      day with it, and together they cover the span from the earlier start to
      the later end without a gap. */
  lemma PreviousRangeAdjoins(r: DateRange, d: int)
    requires r.start <= r.end
    ensures var p := PreviousRange(r);
      && p.start <= p.end
      && !(InRange(d, p) && InRange(d, r))
      && (p.start <= d <= r.end ==> InRange(d, p) || InRange(d, r))
  {
  }

  /** The day ordinal of a proleptic Gregorian date (0 is 1970-01-01). */
  function DayOrdinal(y: int, m: int, d: int): int
    requires 1 <= m <= 12
  {
    var yy := if m <= 2 then y - 1 else y;
    var era := yy / 400;
    var yoe := yy - era * 400;
    var mp := (m + 9) % 12;
    var doy := (153 * mp + 2) / 5 + d - 1;
    var doe := yoe * 365 + yoe / 4 - yoe / 100 + doy;
    era * 146097 + doe - 719468
  }

  /** 2024-01-08..2024-01-14 is compared with 2024-01-01..2024-01-07, and
      2024-03-01..2024-03-07 with 2024-02-23..2024-02-29 (a leap year). */
  lemma PreviousRangeExamples()
    ensures PreviousRange(DateRange(DayOrdinal(2024, 1, 8), DayOrdinal(2024, 1, 14)))
         == DateRange(DayOrdinal(2024, 1, 1), DayOrdinal(2024, 1, 7))
    ensures PreviousRange(DateRange(DayOrdinal(2024, 3, 1), DayOrdinal(2024, 3, 7)))
         == DateRange(DayOrdinal(2024, 2, 23), DayOrdinal(2024, 2, 29))
  {
    assert DayOrdinal(2024, 1, 1) == 19723;
    assert DayOrdinal(2024, 1, 8) == 19730;
    assert DayOrdinal(2024, 2, 23) == 19776;
    assert DayOrdinal(2024, 3, 1) == 19783;
  }

  /** The metrics for which a fall is an improvement. */
  predicate LowerIsBetter(k: MetricKey) {
    k == ConversionCost || k == Cpm || k == Cpc
  }

  /** The percent change from `prev` to `curr`; absent unless comparing and
      the previous value is positive. */
  function PercentDelta(compare: bool, curr: real, prev: real): (pct: Option<real>)
    ensures pct.Some? <==> compare && prev > 0.0
    ensures pct.Some? ==> pct.value * prev == (curr - prev) * 100.0
  {
    if compare && prev > 0.0 then Some(((curr - prev) / prev) * 100.0) else None
  }

  /** Whether a change is an improvement; absent when there is no change. */
  function IsGood(k: MetricKey, pct: Option<real>): (good: Option<bool>)
    ensures good.Some? <==> pct.Some?
  {
    match pct
    case None => None
    case Some(p) => Some(if LowerIsBetter(k) then p < 0.0 else p > 0.0)
  }

  /** One KPI card: current value, previous value, change and its reading. */
  datatype Kpi = Kpi(curr: real, prev: real, pct: Option<real>, isGood: Option<bool>)

  /** The card for metric `k`; without previous totals the previous value is 0. */
  function KpiFor(k: MetricKey, totals: Totals, prevTotals: Option<Totals>, compare: bool): (c: Kpi)
    ensures c.curr == TotalsField(totals, k)
    ensures prevTotals.None? ==> c.prev == 0.0 && c.pct.None?
  {
    var curr := TotalsField(totals, k);
    var prev := if prevTotals.Some? then TotalsField(prevTotals.value, k) else 0.0;
    var pct := PercentDelta(compare, curr, prev);
    Kpi(curr, prev, pct, IsGood(k, pct))
  }

  /** A card reads "good" exactly when comparing against a positive previous
      value and the metric moved the right way: down for the cost metrics, up
      for every other; an unchanged value is never good. */
  lemma {:induction false} GoodMeansImproved(k: MetricKey, totals: Totals, prevTotals: Option<Totals>, compare: bool)
    ensures var c := KpiFor(k, totals, prevTotals, compare);
      && (c.isGood == Some(true) <==>
            compare && c.prev > 0.0 && (if LowerIsBetter(k) then c.curr < c.prev else c.curr > c.prev))
      && (c.isGood == Some(false) <==>
            compare && c.prev > 0.0 && (if LowerIsBetter(k) then c.curr >= c.prev else c.curr <= c.prev))
  {
    var c := KpiFor(k, totals, prevTotals, compare);
    if c.pct.Some? {
      var p := c.pct.value;
      assert p * c.prev == (c.curr - c.prev) * 100.0;
      assert p < 0.0 <==> c.curr < c.prev by {
        if p < 0.0 { assert p * c.prev < 0.0; }
        if c.curr < c.prev { assert p * c.prev < 0.0; }
      }
      assert p > 0.0 <==> c.curr > c.prev by {
        if p > 0.0 { assert p * c.prev > 0.0; }
        if c.curr > c.prev { assert p * c.prev > 0.0; }
      }
    }
  }

  /** A previous value of 0 leaves the change absent, not 0 and not infinite. */
  lemma NoDeltaFromZero(k: MetricKey, totals: Totals, prev: Totals, compare: bool)
    requires TotalsField(prev, k) == 0.0
    ensures KpiFor(k, totals, Some(prev), compare).pct.None?
    ensures KpiFor(k, totals, Some(prev), compare).isGood.None?
  {
  }
}
