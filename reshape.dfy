/** The reshaping step of getData: from the decoded list of areas to the
    timestamps, the national totals and the per-area timelines. */
module Reshape {
  import opened Types

  /** The entry at position j of a timeline, or zero when the timeline has
      no position j (a shorter area adds nothing there). */
  function EntryAt(t: seq<DataInTime>, j: nat): DataInTime
  {
    if j < |t| then t[j] else Zero
  }

  /** The sum, over the given areas in order, of their timeline entries at
      position j; areas with at most j entries contribute nothing. */
  function ColumnTotal(parsed: seq<ParsedAreaData>, j: nat): DataInTime
  {
    if parsed == [] then Zero
    else Add(ColumnTotal(parsed[..|parsed| - 1], j), EntryAt(parsed[|parsed| - 1].timeline, j))
  }

  /** t is the timeline of the observations points: one entry per point, the
      point's value as the cumulative value, and as the change the value
      itself at position 0 and the difference from the previous point
      elsewhere (possibly negative). */
  ghost predicate IsTimelineOf(t: seq<DataInTime>, points: seq<Point>)
  {
    |t| == |points| &&
    (forall j :: 0 <= j < |t| ==> t[j].confirmed == points[j].ordinate) &&
    (|t| > 0 ==> t[0].newConfirmed == points[0].ordinate) &&
    (forall j :: 0 < j < |t| ==> t[j].newConfirmed == points[j].ordinate - points[j - 1].ordinate)
  }

  /** p is the reshaped form of area a: same identity, and a's timeline. */
  ghost predicate IsParsedAreaOf(p: ParsedAreaData, a: AreaData)
  {
    p.id == a.id && p.name == a.name && p.color == a.color && IsTimelineOf(p.timeline, a.points)
  }

  /** The preconditions the reshaping step relies on without checking them:
      there is a first (reference) area, and no area is longer than it. */
  ghost predicate FitsReferenceAxis(areas: seq<AreaData>)
  {
    |areas| > 0 &&
    forall k :: 0 <= k < |areas| ==> |areas[k].points| <= |areas[0].points|
  }

  /** d is the reshaped form of areas:
      - the totals and the timestamps are as long as the first area's series,
        and the timestamps are the first area's dates;
      - one reshaped area per input area, in input order;
      - each total is the column sum of the reshaped timelines. */
  ghost predicate IsParsedDataOf(areas: seq<AreaData>, d: ParsedData)
  {
    |areas| > 0 &&
    |d.totalData| == |areas[0].points| &&
    |d.timestamps| == |d.totalData| &&
    (forall j :: 0 <= j < |d.timestamps| ==> d.timestamps[j] == areas[0].points[j].abscissa.date) &&
    |d.areaData| == |areas| &&
    (forall k :: 0 <= k < |areas| ==> IsParsedAreaOf(d.areaData[k], areas[k])) &&
    (forall j :: 0 <= j < |d.totalData| ==> d.totalData[j] == ColumnTotal(d.areaData, j))
  }

  /** Adding one more area to the column sums adds its entry at each position. */
  lemma ColumnTotalAppend(parsed: seq<ParsedAreaData>, p: ParsedAreaData, j: nat)
    ensures ColumnTotal(parsed + [p], j) == Add(ColumnTotal(parsed, j), EntryAt(p.timeline, j))
  {
    assert (parsed + [p])[..|parsed|] == parsed;
  }

  /** Extending a timeline of the first j points by the entry for point j
      gives the timeline of the first j + 1 points. */
  lemma TimelineExtend(t: seq<DataInTime>, points: seq<Point>, j: nat, e: DataInTime)
    requires j < |points|
    requires IsTimelineOf(t, points[..j])
    requires e.confirmed == points[j].ordinate
    requires e.newConfirmed == if j == 0 then points[j].ordinate else points[j].ordinate - points[j - 1].ordinate
    ensures IsTimelineOf(t + [e], points[..j + 1])
  {
  }

  /** The body of the loop over areas: builds one area's timeline point by
      point and adds each entry, in place, into the totals at its position. */
  method AccumulateArea(area: AreaData, totalData: array<DataInTime>) returns (parsedArea: ParsedAreaData)
    requires |area.points| <= totalData.Length
    modifies totalData
    ensures IsParsedAreaOf(parsedArea, area)
    ensures forall i :: 0 <= i < totalData.Length ==> totalData[i] == Add(old(totalData[i]), EntryAt(parsedArea.timeline, i))
  {
    var timeline: seq<DataInTime> := [];
    var j := 0;
    while j < |area.points|
      invariant 0 <= j <= |area.points|
      invariant IsTimelineOf(timeline, area.points[..j])
      invariant forall i :: 0 <= i < j ==> totalData[i] == Add(old(totalData[i]), timeline[i])
      invariant forall i :: j <= i < totalData.Length ==> totalData[i] == old(totalData[i])
    {
      var point := area.points[j];
      var newDataInTime: DataInTime;
      if |timeline| > 0 {
        newDataInTime := DataInTime(point.ordinate, point.ordinate - area.points[j - 1].ordinate);
      } else {
        newDataInTime := DataInTime(point.ordinate, point.ordinate);
      }
      TimelineExtend(timeline, area.points, j, newDataInTime);
      timeline := timeline + [newDataInTime];
      totalData[j] := totalData[j].(confirmed := totalData[j].confirmed + newDataInTime.confirmed);
      totalData[j] := totalData[j].(newConfirmed := totalData[j].newConfirmed + newDataInTime.newConfirmed);
      j := j + 1;
    }
    assert area.points[..j] == area.points;
    parsedArea := ParsedAreaData(area.id, area.name, area.color, timeline);
    forall i | 0 <= i < totalData.Length
      ensures totalData[i] == Add(old(totalData[i]), EntryAt(timeline, i))
    {
      if i >= j {
        assert EntryAt(timeline, i) == Zero;
      }
    }
  }

  /** The reshaping step: the totals are allocated from the first area's
      length and accumulated in place over all areas, in input order, and
      the axis is copied from the first area's dates. */
  method Transform(areaList: seq<AreaData>) returns (data: ParsedData)
    requires FitsReferenceAxis(areaList)
    ensures IsParsedDataOf(areaList, data)
  {
    var n := |areaList[0].points|;
    var totalData := new DataInTime[n](_ => Zero);
    var areaData: seq<ParsedAreaData> := [];

    var k := 0;
    while k < |areaList|
      invariant 0 <= k <= |areaList|
      invariant |areaData| == k
      invariant forall i :: 0 <= i < k ==> IsParsedAreaOf(areaData[i], areaList[i])
      invariant forall i :: 0 <= i < n ==> totalData[i] == ColumnTotal(areaData, i)
    {
      var parsedArea := AccumulateArea(areaList[k], totalData);
      forall i | 0 <= i < n
        ensures totalData[i] == ColumnTotal(areaData + [parsedArea], i)
      {
        ColumnTotalAppend(areaData, parsedArea, i);
      }
      areaData := areaData + [parsedArea];
      k := k + 1;
    }

    var timestamps: seq<string> := [];
    var t := 0;
    while t < n
      invariant 0 <= t <= n
      invariant |timestamps| == t
      invariant forall i :: 0 <= i < t ==> timestamps[i] == areaList[0].points[i].abscissa.date
    {
      timestamps := timestamps + [areaList[0].points[t].abscissa.date];
      t := t + 1;
    }

    data := ParsedData(timestamps, totalData[..], areaData);
  }
}
