/** Worked inputs: what the reshaping step must produce for them. Each
    lemma holds of any result that Reshape.Transform may return. */
module Scenarios {
  import opened Types
  import opened Reshape

  /** An observation of value v on the given date. */
  function At(date: string, v: int): Point
  {
    Point(Abscissa(date), v)
  }

  /** The column sums of two areas, spelled out. */
  lemma ColumnTotalOfTwo(a: ParsedAreaData, b: ParsedAreaData, j: nat)
    ensures ColumnTotal([a, b], j) == Add(Add(Zero, EntryAt(a.timeline, j)), EntryAt(b.timeline, j))
  {
    ColumnTotalAppend([], a, j);
    ColumnTotalAppend([a], b, j);
    assert [] + [a] == [a] && [a] + [b] == [a, b];
  }

  /** With two areas, each total is the sum of the two areas' entries. */
  lemma TotalsOfTwo(areas: seq<AreaData>, d: ParsedData)
    requires IsParsedDataOf(areas, d) && |areas| == 2
    ensures d.areaData == [d.areaData[0], d.areaData[1]]
    ensures forall j :: 0 <= j < |d.totalData| ==>
      d.totalData[j] == Add(Add(Zero, EntryAt(d.areaData[0].timeline, j)), EntryAt(d.areaData[1].timeline, j))
  {
    var a, b := d.areaData[0], d.areaData[1];
    assert d.areaData == [a, b];
    forall j | 0 <= j < |d.totalData|
      ensures d.totalData[j] == Add(Add(Zero, EntryAt(a.timeline, j)), EntryAt(b.timeline, j))
    {
      ColumnTotalOfTwo(a, b, j);
    }
  }

  /** Pins a timeline down entry by entry from its defining predicate. */
  lemma TimelineOfThree(t: seq<DataInTime>, x: int, y: int, z: int)
    requires IsTimelineOf(t, [At("day 1", x), At("day 2", y), At("day 3", z)])
    ensures t == [DataInTime(x, x), DataInTime(y, y - x), DataInTime(z, z - y)]
  {
    var points := [At("day 1", x), At("day 2", y), At("day 3", z)];
    assert t[1].newConfirmed == points[1].ordinate - points[0].ordinate;
    assert t[2].newConfirmed == points[2].ordinate - points[1].ordinate;
  }

  /** The two areas of the worked example: one reporting 10, 15, 15 and one
      reporting 5, 5, 9 on the same three days. */
  function TwoAreas(): seq<AreaData>
  {
    [AreaData(1, "A", "red", [At("day 1", 10), At("day 2", 15), At("day 3", 15)]),
     AreaData(2, "B", "blue", [At("day 1", 5), At("day 2", 5), At("day 3", 9)])]
  }

  /** In the worked example the areas' changes are 10, 5, 0 and 5, 0, 4. */
  lemma TwoAreaTimelines(d: ParsedData)
    requires IsParsedDataOf(TwoAreas(), d)
    ensures d.areaData == [d.areaData[0], d.areaData[1]]
    ensures d.areaData[0].timeline == [DataInTime(10, 10), DataInTime(15, 5), DataInTime(15, 0)]
    ensures d.areaData[1].timeline == [DataInTime(5, 5), DataInTime(5, 0), DataInTime(9, 4)]
  {
    assert IsParsedAreaOf(d.areaData[0], TwoAreas()[0]);
    TimelineOfThree(d.areaData[0].timeline, 10, 15, 15);
    assert IsParsedAreaOf(d.areaData[1], TwoAreas()[1]);
    TimelineOfThree(d.areaData[1].timeline, 5, 5, 9);
  }

  /** In the worked example the national totals are 15, 20, 24, with
      changes 15, 5, 4. */
  lemma TwoAreaTotals(d: ParsedData)
    requires IsParsedDataOf(TwoAreas(), d)
    ensures d.totalData == [DataInTime(15, 15), DataInTime(20, 5), DataInTime(24, 4)]
  {
    TwoAreaTimelines(d);
    TotalsOfTwo(TwoAreas(), d);
    assert |d.totalData| == 3;
  }

  /** A single area with a single observation: the change equals the value
      and the totals axis has length one. */
  lemma SingleObservation(d: ParsedData)
    requires IsParsedDataOf([AreaData(1, "A", "red", [At("day 1", 7)])], d)
    ensures d.areaData[0].timeline == [DataInTime(7, 7)]
    ensures d.totalData == [DataInTime(7, 7)]
    ensures d.timestamps == ["day 1"]
  {
    assert d.areaData == [] + [d.areaData[0]];
    ColumnTotalAppend([], d.areaData[0], 0);
  }

  /** A second area shorter than the first is accepted and silently adds
      nothing at the position it does not reach: with 10, 15 and 5, the
      national change at the second position is 5 while the national
      cumulative value does not move. */
  lemma ShortAreaBreaksNationalChanges(d: ParsedData)
    requires IsParsedDataOf([
      AreaData(1, "A", "red", [At("day 1", 10), At("day 2", 15)]),
      AreaData(2, "B", "blue", [At("day 1", 5)])], d)
    ensures d.totalData == [DataInTime(15, 15), DataInTime(15, 5)]
    ensures d.totalData[1].newConfirmed != d.totalData[1].confirmed - d.totalData[0].confirmed
  {
    var areas := [
      AreaData(1, "A", "red", [At("day 1", 10), At("day 2", 15)]),
      AreaData(2, "B", "blue", [At("day 1", 5)])];
    assert IsParsedAreaOf(d.areaData[0], areas[0]) && IsParsedAreaOf(d.areaData[1], areas[1]);
    assert d.areaData[0].timeline[1].newConfirmed == 15 - 10;
    TotalsOfTwo(areas, d);
    assert |d.totalData| == 2;
  }
}
