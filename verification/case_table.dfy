/**
 * The case table of the CPIMS infographics dashboard and the row filter that
 * the `update_charts` callback applies to it on every change of the county,
 * sub-county or date-range controls.
 *
 * The callback builds a boolean mask over the table (one entry per row) from
 * four column comparisons, then keeps the rows whose mask entry is true, in
 * table order. Both steps are modelled here: `Mask` and `Select`, composed
 * into `Filter`.
 */
module CaseTable {

  /** A calendar date as a day ordinal: later dates are larger numbers. */
  type Day = int

  /** One row of the case table (one reported child-protection case). */
  datatype CaseRecord = CaseRecord(
    county: string,
    subCounty: string,
    caseDate: Day,
    age: int,
    sex: string,
    caseStatus: string,
    knbsAgeRange: string)

  /** The order the table is put in when it is loaded: ascending by case date. */
  predicate SortedByDate(table: seq<CaseRecord>)
  {
    forall i, j :: 0 <= i < j < |table| ==> table[i].caseDate <= table[j].caseDate
  }

  /** The row-inclusion predicate: both location columns equal, the case
      date within the range, both bounds included. */
  predicate Matches(r: CaseRecord, county: string, subCounty: string, startDate: Day, endDate: Day)
  {
    && r.county == county
    && r.subCounty == subCounty
    && r.caseDate >= startDate
    && r.caseDate <= endDate
  }

  /** The boolean mask: entry i tells whether row i passes all four comparisons. */
  function Mask(table: seq<CaseRecord>, county: string, subCounty: string, startDate: Day, endDate: Day): (mask: seq<bool>)
    ensures |mask| == |table|
    ensures forall i :: 0 <= i < |table| ==> (mask[i] <==> Matches(table[i], county, subCounty, startDate, endDate))
  {
    seq(|table|, i requires 0 <= i < |table| => Matches(table[i], county, subCounty, startDate, endDate))
  }

  /** Selection of rows by a boolean mask of the same length, keeping table order. */
  function Select(table: seq<CaseRecord>, mask: seq<bool>): (kept: seq<CaseRecord>)
    requires |mask| == |table|
    ensures |kept| <= |table|
    ensures forall x :: x in kept <==> exists i :: 0 <= i < |table| && mask[i] && table[i] == x
    decreases |table|
  {
    if |table| == 0 then []
    else
      var n := |table| - 1;
      var front := Select(table[..n], mask[..n]);
      assert forall i :: 0 <= i < n ==> table[..n][i] == table[i] && mask[..n][i] == mask[i];
      front + (if mask[n] then [table[n]] else [])
  }

  /** The rows the charts are drawn from. */
  function Filter(table: seq<CaseRecord>, county: string, subCounty: string, startDate: Day, endDate: Day): (rows: seq<CaseRecord>)
    ensures |rows| <= |table|
    ensures forall x :: x in rows <==> x in table && Matches(x, county, subCounty, startDate, endDate)
  {
    var mask := Mask(table, county, subCounty, startDate, endDate);
    Select(table, mask)
  }

  /** The positions, in increasing order, at which a mask is true. */
  function KeptPositions(mask: seq<bool>): (idx: seq<nat>)
    ensures |idx| <= |mask|
    ensures forall k :: 0 <= k < |idx| ==> idx[k] < |mask| && mask[idx[k]]
    ensures forall i :: 0 <= i < |mask| && mask[i] ==> i in idx
    ensures forall k, l :: 0 <= k < l < |idx| ==> idx[k] < idx[l]
    decreases |mask|
  {
    if |mask| == 0 then []
    else
      var n := |mask| - 1;
      var front := KeptPositions(mask[..n]);
      assert forall i :: 0 <= i < n ==> mask[..n][i] == mask[i];
      front + (if mask[n] then [n] else [])
  }

  /** Row `k` of a selection is the table row at the k-th kept position. */
  lemma {:induction false} SelectAtKeptPositions(table: seq<CaseRecord>, mask: seq<bool>)
    requires |mask| == |table|
    ensures |Select(table, mask)| == |KeptPositions(mask)|
    ensures forall k :: 0 <= k < |KeptPositions(mask)| ==> Select(table, mask)[k] == table[KeptPositions(mask)[k]]
    decreases |table|
  {
    if |table| > 0 {
      var n := |table| - 1;
      SelectAtKeptPositions(table[..n], mask[..n]);
      var front, idx := Select(table[..n], mask[..n]), KeptPositions(mask[..n]);
      assert Select(table, mask) == front + (if mask[n] then [table[n]] else []);
      assert KeptPositions(mask) == idx + (if mask[n] then [n] else []);
      forall k | 0 <= k < |idx|
        ensures Select(table, mask)[k] == table[KeptPositions(mask)[k]]
      {
        assert idx[k] < n;
      }
    }
  }

  /**
   * The filter result is exactly the subsequence of the table at the positions
   * of the matching rows: it has one row per matching position, the positions
   * increase, every kept row matches, and no matching position is skipped.
   */
  lemma FilterIsOrderedSubsequence(table: seq<CaseRecord>, county: string, subCounty: string, startDate: Day, endDate: Day)
    ensures var rows := Filter(table, county, subCounty, startDate, endDate);
            var idx := KeptPositions(Mask(table, county, subCounty, startDate, endDate));
            && |rows| == |idx|
            && (forall k :: 0 <= k < |idx| ==> idx[k] < |table| && rows[k] == table[idx[k]])
            && (forall k :: 0 <= k < |idx| ==> Matches(rows[k], county, subCounty, startDate, endDate))
            && (forall k, l :: 0 <= k < l < |idx| ==> idx[k] < idx[l])
            && (forall i :: 0 <= i < |table| && Matches(table[i], county, subCounty, startDate, endDate) ==> i in idx)
  {
    SelectAtKeptPositions(table, Mask(table, county, subCounty, startDate, endDate));
  }

  /** Filtering a table sorted by date yields rows sorted by date. */
  lemma FilterPreservesDateOrder(table: seq<CaseRecord>, county: string, subCounty: string, startDate: Day, endDate: Day)
    requires SortedByDate(table)
    ensures SortedByDate(Filter(table, county, subCounty, startDate, endDate))
  {
    var rows := Filter(table, county, subCounty, startDate, endDate);
    var idx := KeptPositions(Mask(table, county, subCounty, startDate, endDate));
    FilterIsOrderedSubsequence(table, county, subCounty, startDate, endDate);
    forall k, l | 0 <= k < l < |rows|
      ensures rows[k].caseDate <= rows[l].caseDate
    {
      assert idx[k] < idx[l] < |table|;
    }
  }

  /** A mask with no true entry selects no row. */
  lemma {:induction false} SelectNone(table: seq<CaseRecord>, mask: seq<bool>)
    requires |mask| == |table|
    requires forall i :: 0 <= i < |mask| ==> !mask[i]
    ensures Select(table, mask) == []
    decreases |table|
  {
    if |table| > 0 {
      SelectNone(table[..|table| - 1], mask[..|table| - 1]);
    }
  }

  /** A matching row dated exactly on either bound of the range is kept. */
  lemma BoundsAreInclusive(table: seq<CaseRecord>, r: CaseRecord, county: string, subCounty: string, startDate: Day, endDate: Day)
    requires r in table && r.county == county && r.subCounty == subCounty
    requires startDate <= endDate
    requires r.caseDate == startDate || r.caseDate == endDate
    ensures r in Filter(table, county, subCounty, startDate, endDate)
  {
  }

  /** A range whose start lies after its end keeps no row. */
  lemma EmptyDateRange(table: seq<CaseRecord>, county: string, subCounty: string, startDate: Day, endDate: Day)
    requires startDate > endDate
    ensures Filter(table, county, subCounty, startDate, endDate) == []
  {
    SelectNone(table, Mask(table, county, subCounty, startDate, endDate));
  }

  /** A county or sub-county that occurs in no row keeps no row (and is no error). */
  lemma UnknownLocation(table: seq<CaseRecord>, county: string, subCounty: string, startDate: Day, endDate: Day)
    requires (forall r :: r in table ==> r.county != county) || (forall r :: r in table ==> r.subCounty != subCounty)
    ensures Filter(table, county, subCounty, startDate, endDate) == []
  {
    SelectNone(table, Mask(table, county, subCounty, startDate, endDate));
  }

  /** The concatenation law for selection by a mask: selecting from two tables
      end to end, with their masks end to end, joins the two selections. */
  lemma {:induction false} SelectAppend(t1: seq<CaseRecord>, m1: seq<bool>, t2: seq<CaseRecord>, m2: seq<bool>)
    requires |m1| == |t1| && |m2| == |t2|
    ensures Select(t1 + t2, m1 + m2) == Select(t1, m1) + Select(t2, m2)
    decreases |t2|
  {
    if |t2| > 0 {
      var n := |t2| - 1;
      SelectAppend(t1, m1, t2[..n], m2[..n]);
      assert (t1 + t2)[..|t1| + n] == t1 + t2[..n];
      assert (m1 + m2)[..|m1| + n] == m1 + m2[..n];
    } else {
      assert t1 + t2 == t1 && m1 + m2 == m1;
    }
  }

  /** The filter works row by row: filtering two tables one after the other is
      filtering their concatenation. */
  lemma FilterAppend(t1: seq<CaseRecord>, t2: seq<CaseRecord>, county: string, subCounty: string, startDate: Day, endDate: Day)
    ensures Filter(t1 + t2, county, subCounty, startDate, endDate)
         == Filter(t1, county, subCounty, startDate, endDate) + Filter(t2, county, subCounty, startDate, endDate)
  {
    var m1 := Mask(t1, county, subCounty, startDate, endDate);
    var m2 := Mask(t2, county, subCounty, startDate, endDate);
    assert Mask(t1 + t2, county, subCounty, startDate, endDate) == m1 + m2;
    SelectAppend(t1, m1, t2, m2);
  }

  /** A single row is kept exactly when it matches. */
  lemma FilterSingle(r: CaseRecord, county: string, subCounty: string, startDate: Day, endDate: Day)
    ensures Filter([r], county, subCounty, startDate, endDate)
         == if Matches(r, county, subCounty, startDate, endDate) then [r] else []
  {
  }

  /** Filtering again with the same values changes nothing. */
  lemma {:induction false} FilterIdempotent(table: seq<CaseRecord>, county: string, subCounty: string, startDate: Day, endDate: Day)
    ensures var rows := Filter(table, county, subCounty, startDate, endDate);
            Filter(rows, county, subCounty, startDate, endDate) == rows
    decreases |table|
  {
    if |table| > 0 {
      var n := |table| - 1;
      var front, last := table[..n], table[n];
      assert table == front + [last];
      var ff := Filter(front, county, subCounty, startDate, endDate);
      var fl := Filter([last], county, subCounty, startDate, endDate);
      FilterAppend(front, [last], county, subCounty, startDate, endDate);
      FilterIdempotent(front, county, subCounty, startDate, endDate);
      FilterAppend(ff, fl, county, subCounty, startDate, endDate);
      FilterSingle(last, county, subCounty, startDate, endDate);
    }
  }
}
