/** The text of the CSV export: a header line and one line per row, fields
    joined with commas and lines with newlines, with no quoting. */
module Csv {
  import opened Wrappers
  import opened Text
  import opened Metrics
  import opened Rows

  /** A missing date is written as an empty field. */
  function DateCell(d: Option<string>): (cell: string)
    ensures d.Some? ==> cell == d.value
    ensures d.None? ==> cell == ""
  {
    if d.Some? then d.value else ""
  }

  /** `["Date", ...metrics.map(m => m.label)]`. */
  function HeaderFields(ms: seq<MetricDef>): (h: seq<string>)
    ensures |h| == |ms| + 1 && h[0] == "Date"
    ensures forall i :: 0 <= i < |ms| ==> h[i + 1] == ms[i].title
  {
    ["Date"] + seq(|ms|, i requires 0 <= i < |ms| => ms[i].title)
  }

  /** One data line's fields: the date, then each metric's value as text. */
  function RowFields(r: CanonicalRow, ms: seq<MetricDef>, show: real -> string): (f: seq<string>)
    ensures |f| == |ms| + 1 && f[0] == DateCell(r.date)
    ensures forall i :: 0 <= i < |ms| ==> f[i + 1] == show(Field(r, ms[i].key))
  {
    [DateCell(r.date)] + seq(|ms|, i requires 0 <= i < |ms| => show(Field(r, ms[i].key)))
  }

  /** The lines of the file, header first. */
  function Lines(rows: seq<CanonicalRow>, ms: seq<MetricDef>, show: real -> string): (ls: seq<string>)
    ensures |ls| == |rows| + 1
    ensures ls[0] == Join(HeaderFields(ms), ',')
    ensures forall i :: 0 <= i < |rows| ==> ls[i + 1] == Join(RowFields(rows[i], ms, show), ',')
  {
    [Join(HeaderFields(ms), ',')] + seq(|rows|, i requires 0 <= i < |rows| => Join(RowFields(rows[i], ms, show), ','))
  }

  /** The exported text. Numbers are written with `show`. */
  function ExportCsvText(rows: seq<CanonicalRow>, ms: seq<MetricDef>, show: real -> string): string {
    Join(Lines(rows, ms, show), '\n')
  }

  /** No field of the file holds a comma or a newline. */
  ghost predicate PlainCells(rows: seq<CanonicalRow>, ms: seq<MetricDef>, show: real -> string) {
    && PlainTitles(ms)
    && (forall i :: 0 <= i < |rows| ==> ',' !in DateCell(rows[i].date) && '\n' !in DateCell(rows[i].date))
    && (forall x :: ',' !in show(x) && '\n' !in show(x))
  }

  lemma HeaderPlain(ms: seq<MetricDef>)
    requires PlainTitles(ms)
    ensures forall j :: 0 <= j < |HeaderFields(ms)| ==> ',' !in HeaderFields(ms)[j] && '\n' !in HeaderFields(ms)[j]
  {
    var h := HeaderFields(ms);
    forall j | 0 <= j < |h|
      ensures ',' !in h[j] && '\n' !in h[j]
    {
      if j > 0 {
        assert h[j] == ms[j - 1].title;
      }
    }
  }

  lemma RowPlain(r: CanonicalRow, ms: seq<MetricDef>, show: real -> string)
    requires ',' !in DateCell(r.date) && '\n' !in DateCell(r.date)
    requires forall x :: ',' !in show(x) && '\n' !in show(x)
    ensures forall j :: 0 <= j < |RowFields(r, ms, show)| ==>
      ',' !in RowFields(r, ms, show)[j] && '\n' !in RowFields(r, ms, show)[j]
  {
    var f := RowFields(r, ms, show);
    forall j | 0 <= j < |f|
      ensures ',' !in f[j] && '\n' !in f[j]
    {
      if j > 0 {
        assert f[j] == show(Field(r, ms[j - 1].key));
      }
    }
  }

  /** With plain fields, splitting the file on newlines gives back its lines. */
  lemma SplitLines(rows: seq<CanonicalRow>, ms: seq<MetricDef>, show: real -> string)
    requires PlainCells(rows, ms, show)
    ensures Split(ExportCsvText(rows, ms, show), '\n') == Lines(rows, ms, show)
  {
    var ls := Lines(rows, ms, show);
    forall k | 0 <= k < |ls|
      ensures '\n' !in ls[k]
    {
      if k == 0 {
        HeaderPlain(ms);
        JoinAvoids(HeaderFields(ms), ',', '\n');
      } else {
        RowPlain(rows[k - 1], ms, show);
        JoinAvoids(RowFields(rows[k - 1], ms, show), ',', '\n');
      }
    }
    SplitJoin(ls, '\n');
  }

  /** Re-reading the export: it has one line more than there are rows, the
      first line splits back into "Date" and the metric labels in order, and
      each later line into its row's date and values. */
  lemma CsvRoundTrip(rows: seq<CanonicalRow>, ms: seq<MetricDef>, show: real -> string)
    requires PlainCells(rows, ms, show)
    ensures var ls := Split(ExportCsvText(rows, ms, show), '\n');
      && |ls| == |rows| + 1
      && Split(ls[0], ',') == HeaderFields(ms)
      && forall i :: 0 <= i < |rows| ==> Split(ls[i + 1], ',') == RowFields(rows[i], ms, show)
  {
    SplitLines(rows, ms, show);
    HeaderPlain(ms);
    SplitJoin(HeaderFields(ms), ',');
    forall i | 0 <= i < |rows|
      ensures Split(Lines(rows, ms, show)[i + 1], ',') == RowFields(rows[i], ms, show)
    {
      RowPlain(rows[i], ms, show);
      SplitJoin(RowFields(rows[i], ms, show), ',');
    }
  }

  /** The dashboard's own metric list: exporting rows with plain dates and
      values gives a header that reads back as "Date" and the labels of
      `getMetrics`, and one line per row. */
  lemma DashboardExportRoundTrip(rows: seq<CanonicalRow>, v: Vertical, convEvent: string, show: real -> string)
    requires forall i :: 0 <= i < |rows| ==> ',' !in DateCell(rows[i].date) && '\n' !in DateCell(rows[i].date)
    requires forall x :: ',' !in show(x) && '\n' !in show(x)
    ensures var ls := Split(ExportCsvText(rows, GetMetrics(v, convEvent), show), '\n');
      && |ls| == |rows| + 1
      && Split(ls[0], ',') == HeaderFields(GetMetrics(v, convEvent))
  {
    LabelsArePlain(v, convEvent);
    CsvRoundTrip(rows, GetMetrics(v, convEvent), show);
  }
}
