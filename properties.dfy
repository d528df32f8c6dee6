/** What the reshaped data promises beyond its definition: the result is
    determined by the input, the changes add back up to the cumulative
    values, the national totals are sums of the reported values, and, when
    every area covers the whole axis, the national changes are the
    differences of the national cumulative values. */
module Properties {
  import opened Types
  import opened Reshape

  /** Sum of the changes in a timeline. */
  function SumOfChanges(t: seq<DataInTime>): int
  {
    if t == [] then 0 else SumOfChanges(t[..|t| - 1]) + t[|t| - 1].newConfirmed
  }

  /** Sum, over the given areas that report position j, of the value they
      report there. */
  function ReportedSum(areas: seq<AreaData>, j: nat): int
  {
    if areas == [] then 0
    else
      var last := areas[|areas| - 1];
      ReportedSum(areas[..|areas| - 1], j) + (if j < |last.points| then last.points[j].ordinate else 0)
  }

  /** The changes of a timeline up to and including position j add up to
      the cumulative value at j: differencing loses nothing. */
  lemma {:induction false} ChangesAddUpToConfirmed(t: seq<DataInTime>, points: seq<Point>, j: nat)
    requires IsTimelineOf(t, points)
    requires j < |t|
    ensures SumOfChanges(t[..j + 1]) == t[j].confirmed == points[j].ordinate
  {
    if j > 0 {
      ChangesAddUpToConfirmed(t, points, j - 1);
      assert t[..j + 1][..j] == t[..j];
    } else {
      assert t[..1][..0] == [];
    }
  }

  /** Two timelines of the same points are equal. */
  lemma TimelineIsUnique(t1: seq<DataInTime>, t2: seq<DataInTime>, points: seq<Point>)
    requires IsTimelineOf(t1, points) && IsTimelineOf(t2, points)
    ensures t1 == t2
  {
    forall j | 0 <= j < |t1|
      ensures t1[j] == t2[j]
    {
      if j > 0 {
        assert t1[j].newConfirmed == points[j].ordinate - points[j - 1].ordinate == t2[j].newConfirmed;
      }
    }
  }

  /** The reshaped data is determined by the input: reshaping the same list
      twice gives the same result. */
  lemma ParsedDataIsUnique(areas: seq<AreaData>, d1: ParsedData, d2: ParsedData)
    requires IsParsedDataOf(areas, d1) && IsParsedDataOf(areas, d2)
    ensures d1 == d2
  {
    forall k | 0 <= k < |areas|
      ensures d1.areaData[k] == d2.areaData[k]
    {
      TimelineIsUnique(d1.areaData[k].timeline, d2.areaData[k].timeline, areas[k].points);
    }
    assert d1.areaData == d2.areaData;
    assert d1.totalData == d2.totalData;
    assert d1.timestamps == d2.timestamps;
  }

  /** The cumulative column sum of reshaped areas equals the sum of the
      values the input areas report at that position. */
  lemma {:induction false} ColumnConfirmedIsReportedSum(parsed: seq<ParsedAreaData>, areas: seq<AreaData>, j: nat)
    requires |parsed| == |areas|
    requires forall k :: 0 <= k < |areas| ==> IsParsedAreaOf(parsed[k], areas[k])
    ensures ColumnTotal(parsed, j).confirmed == ReportedSum(areas, j)
  {
    if areas != [] {
      var m := |areas| - 1;
      ColumnConfirmedIsReportedSum(parsed[..m], areas[..m], j);
    }
  }

  /** Each national cumulative total is the sum of the values that the
      areas long enough to reach that position report there. */
  lemma NationalConfirmedIsReportedSum(areas: seq<AreaData>, d: ParsedData, j: nat)
    requires IsParsedDataOf(areas, d)
    requires j < |d.totalData|
    ensures d.totalData[j].confirmed == ReportedSum(areas, j)
  {
    ColumnConfirmedIsReportedSum(d.areaData, areas, j);
  }

  /** At position 0 every area's change equals its value, so the national
      change equals the national cumulative value. */
  lemma {:induction false} ColumnStartsAtConfirmed(parsed: seq<ParsedAreaData>, areas: seq<AreaData>)
    requires |parsed| == |areas|
    requires forall k :: 0 <= k < |areas| ==> IsParsedAreaOf(parsed[k], areas[k])
    ensures ColumnTotal(parsed, 0).newConfirmed == ColumnTotal(parsed, 0).confirmed
  {
    if areas != [] {
      var m := |areas| - 1;
      ColumnStartsAtConfirmed(parsed[..m], areas[..m]);
      assert IsParsedAreaOf(parsed[m], areas[m]);
    }
  }

  /** When every area reaches position j > 0, the national change at j is
      the difference of the national cumulative values at j and j - 1. */
  lemma {:induction false} ColumnTelescopes(parsed: seq<ParsedAreaData>, areas: seq<AreaData>, j: nat)
    requires 0 < j
    requires |parsed| == |areas|
    requires forall k :: 0 <= k < |areas| ==> IsParsedAreaOf(parsed[k], areas[k]) && j < |areas[k].points|
    ensures ColumnTotal(parsed, j).newConfirmed == ColumnTotal(parsed, j).confirmed - ColumnTotal(parsed, j - 1).confirmed
  {
    if areas != [] {
      var m := |areas| - 1;
      ColumnTelescopes(parsed[..m], areas[..m], j);
      assert IsParsedAreaOf(parsed[m], areas[m]) && j < |areas[m].points|;
    }
  }

  /** If every area reports on the whole axis of the first area, the
      national changes are the differences of the national cumulative
      values, with the first change equal to the first value. */
  lemma NationalChangesAreDifferences(areas: seq<AreaData>, d: ParsedData)
    requires IsParsedDataOf(areas, d)
    requires forall k :: 0 <= k < |areas| ==> |areas[k].points| == |areas[0].points|
    ensures |d.totalData| > 0 ==> d.totalData[0].newConfirmed == d.totalData[0].confirmed
    ensures forall j :: 0 < j < |d.totalData| ==>
      d.totalData[j].newConfirmed == d.totalData[j].confirmed - d.totalData[j - 1].confirmed
  {
    if |d.totalData| > 0 {
      ColumnStartsAtConfirmed(d.areaData, areas);
    }
    forall j | 0 < j < |d.totalData|
      ensures d.totalData[j].newConfirmed == d.totalData[j].confirmed - d.totalData[j - 1].confirmed
    {
      ColumnTelescopes(d.areaData, areas, j);
    }
  }
}
