/**
 * The three chart payloads that `update_charts` returns. Each payload's data
 * trace is two columns of the filtered rows, taken in row order, plus the
 * trace type string the figure declares. Figure layouts (titles, axis flags,
 * colours, hover templates) are constant and are not modelled.
 */
module Charts {
  import opened CaseTable

  /** One data trace of a figure: parallel x and y series and the declared type. */
  datatype Trace<X, Y> = Trace(x: seq<X>, y: seq<Y>, kind: string)

  /** The three figures, in the order the callback returns them. */
  datatype Figures = Figures(
    priceChart: Trace<Day, int>,       // case date against age
    volumeChart: Trace<Day, string>,   // case date against sex
    barChart: Trace<string, string>)   // case status against sex

  /** One column of a run of rows, in row order. */
  function Column<T>(rows: seq<CaseRecord>, field: CaseRecord -> T): (col: seq<T>)
    ensures |col| == |rows|
    ensures forall i :: 0 <= i < |rows| ==> col[i] == field(rows[i])
  {
    if rows == [] then [] else [field(rows[0])] + Column(rows[1..], field)
  }

  /** A trace whose i-th (x, y) pair holds the two projected fields of rows[i]. */
  ghost predicate AlignedWith<X, Y>(t: Trace<X, Y>, rows: seq<CaseRecord>, fx: CaseRecord -> X, fy: CaseRecord -> Y)
  {
    && |t.x| == |rows|
    && |t.y| == |rows|
    && forall i :: 0 <= i < |rows| ==> t.x[i] == fx(rows[i]) && t.y[i] == fy(rows[i])
  }

  /** Two columns of the same rows, as the x and y series of one trace. */
  function Project<X, Y>(rows: seq<CaseRecord>, fx: CaseRecord -> X, fy: CaseRecord -> Y, kind: string): (t: Trace<X, Y>)
    ensures AlignedWith(t, rows, fx, fy)
    ensures t.kind == kind
  {
    Trace(Column(rows, fx), Column(rows, fy), kind)
  }

  // The columns the three traces read.
  function DateOf(r: CaseRecord): Day { r.caseDate }
  function AgeOf(r: CaseRecord): int { r.age }
  function SexOf(r: CaseRecord): string { r.sex }
  function StatusOf(r: CaseRecord): string { r.caseStatus }

  /** The callback: filter the table, then project the three traces. */
  function UpdateCharts(table: seq<CaseRecord>, county: string, subCounty: string, startDate: Day, endDate: Day): (figs: Figures)
    ensures var rows := Filter(table, county, subCounty, startDate, endDate);
            && AlignedWith(figs.priceChart, rows, DateOf, AgeOf)
            && AlignedWith(figs.volumeChart, rows, DateOf, SexOf)
            && AlignedWith(figs.barChart, rows, StatusOf, SexOf)
    ensures figs.priceChart.kind == "lines" && figs.volumeChart.kind == "line" && figs.barChart.kind == "bar"
  {
    var rows := Filter(table, county, subCounty, startDate, endDate);
    Figures(
      Project(rows, DateOf, AgeOf, "lines"),
      Project(rows, DateOf, SexOf, "line"),
      Project(rows, StatusOf, SexOf, "bar"))
  }

  /** Every point of every trace comes from a table row that passes the filter:
      dates lie within the inclusive range, and each pair is one such row's fields. */
  lemma PointsComeFromMatchingRows(table: seq<CaseRecord>, county: string, subCounty: string, startDate: Day, endDate: Day, i: int)
    requires 0 <= i < |UpdateCharts(table, county, subCounty, startDate, endDate).priceChart.x|
    ensures var figs := UpdateCharts(table, county, subCounty, startDate, endDate);
            exists r :: r in table && Matches(r, county, subCounty, startDate, endDate)
              && figs.priceChart.x[i] == r.caseDate && figs.priceChart.y[i] == r.age
              && figs.volumeChart.x[i] == r.caseDate && figs.volumeChart.y[i] == r.sex
              && figs.barChart.x[i] == r.caseStatus && figs.barChart.y[i] == r.sex
    ensures var figs := UpdateCharts(table, county, subCounty, startDate, endDate);
            startDate <= figs.priceChart.x[i] <= endDate
  {
  }

  /** On a date-sorted table the time axis of both line charts is ascending. */
  lemma TimeAxisAscending(table: seq<CaseRecord>, county: string, subCounty: string, startDate: Day, endDate: Day)
    requires SortedByDate(table)
    ensures var figs := UpdateCharts(table, county, subCounty, startDate, endDate);
            && (forall k, l :: 0 <= k < l < |figs.priceChart.x| ==> figs.priceChart.x[k] <= figs.priceChart.x[l])
            && (forall k, l :: 0 <= k < l < |figs.volumeChart.x| ==> figs.volumeChart.x[k] <= figs.volumeChart.x[l])
  {
    FilterPreservesDateOrder(table, county, subCounty, startDate, endDate);
  }

  /** A range whose start lies after its end gives three blank charts. */
  lemma EmptyRangeBlankCharts(table: seq<CaseRecord>, county: string, subCounty: string, startDate: Day, endDate: Day)
    requires startDate > endDate
    ensures var figs := UpdateCharts(table, county, subCounty, startDate, endDate);
            && figs.priceChart.x == [] && figs.priceChart.y == []
            && figs.volumeChart.x == [] && figs.volumeChart.y == []
            && figs.barChart.x == [] && figs.barChart.y == []
  {
    EmptyDateRange(table, county, subCounty, startDate, endDate);
  }

  /** Rows that do not pass the filter have no effect on any chart. */
  lemma NonMatchingRowsIrrelevant(table: seq<CaseRecord>, extra: seq<CaseRecord>, county: string, subCounty: string, startDate: Day, endDate: Day)
    requires forall r :: r in extra ==> !Matches(r, county, subCounty, startDate, endDate)
    ensures UpdateCharts(table + extra, county, subCounty, startDate, endDate)
         == UpdateCharts(table, county, subCounty, startDate, endDate)
  {
    FilterAppend(table, extra, county, subCounty, startDate, endDate);
    SelectNone(extra, Mask(extra, county, subCounty, startDate, endDate));
    assert Filter(table, county, subCounty, startDate, endDate) + [] == Filter(table, county, subCounty, startDate, endDate);
  }

  /** Redrawing from the filtered rows alone gives the same charts. */
  lemma ChartsDependOnlyOnFilteredRows(table: seq<CaseRecord>, county: string, subCounty: string, startDate: Day, endDate: Day)
    ensures var rows := Filter(table, county, subCounty, startDate, endDate);
            (UpdateCharts(rows, county, subCounty, startDate, endDate)
             == UpdateCharts(table, county, subCounty, startDate, endDate))
  {
    FilterIdempotent(table, county, subCounty, startDate, endDate);
  }

  /** The two-row scenario: only the Malava case of January 2021 is charted. */
  lemma MalavaJanuaryScenario()
    ensures var jan5, feb1 := 4, 31;  // days counted from 2021-01-01
            var t := [CaseRecord("Kakamega", "Malava", jan5, 10, "F", "Open", "6-10"),
                      CaseRecord("Kakamega", "Lurambi", feb1, 8, "M", "Closed", "6-10")];
            var figs := UpdateCharts(t, "Kakamega", "Malava", 0, 30);
            figs.priceChart.x == [jan5] && figs.priceChart.y == [10] && figs.barChart.x == ["Open"]
  {
    var jan5, feb1 := 4, 31;
    var a := CaseRecord("Kakamega", "Malava", jan5, 10, "F", "Open", "6-10");
    var b := CaseRecord("Kakamega", "Lurambi", feb1, 8, "M", "Closed", "6-10");
    FilterAppend([a], [b], "Kakamega", "Malava", 0, 30);
    FilterSingle(a, "Kakamega", "Malava", 0, 30);
    FilterSingle(b, "Kakamega", "Malava", 0, 30);
    assert [a] + [b] == [a, b];
    assert Filter([a, b], "Kakamega", "Malava", 0, 30) == [a];
  }
}
