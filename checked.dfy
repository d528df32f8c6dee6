/** A reshaping step that checks its input instead of relying on it: an
    empty list, or an empty first area, is refused as empty input, and an
    area whose series is not exactly as long as the first area's is refused
    as a length mismatch. On accepted input it gives the same result as
    Reshape.Transform. */
module Checked {
  import opened Types
  import opened Reshape
  import opened Properties

  datatype Option<T> = None | Some(value: T)

  datatype TransformError =
    | EmptyInput
    | SeriesLengthMismatch(area: nat)

  datatype Result = Success(value: ParsedData) | Failure(error: TransformError)

  /** The position of the first area whose series does not have n points,
      if there is one. */
  function FirstMismatch(areas: seq<AreaData>, n: nat): (r: Option<nat>)
    ensures r.None? <==> forall k :: 0 <= k < |areas| ==> |areas[k].points| == n
    ensures r.Some? ==>
      r.value < |areas| && |areas[r.value].points| != n &&
      forall k :: 0 <= k < r.value ==> |areas[k].points| == n
  {
    if areas == [] then None
    else if |areas[0].points| != n then Some(0)
    else
      match FirstMismatch(areas[1..], n)
      case None => None
      case Some(i) => Some(i + 1)
  }

  /** Reshapes areas whose series all span the first area's non-empty axis,
      and names the defect of any other input. */
  method TransformChecked(areaList: seq<AreaData>) returns (r: Result)
    ensures r == Failure(EmptyInput) <==> areaList == [] || |areaList[0].points| == 0
    ensures r.Success? <==>
      areaList != [] && |areaList[0].points| > 0 &&
      forall k :: 0 <= k < |areaList| ==> |areaList[k].points| == |areaList[0].points|
    ensures r.Failure? && r.error.SeriesLengthMismatch? ==>
      r.error.area < |areaList| && |areaList[r.error.area].points| != |areaList[0].points|
    ensures r.Success? ==> IsParsedDataOf(areaList, r.value)
    ensures r.Success? ==>
      r.value.totalData[0].newConfirmed == r.value.totalData[0].confirmed &&
      forall j :: 0 < j < |r.value.totalData| ==>
        r.value.totalData[j].newConfirmed == r.value.totalData[j].confirmed - r.value.totalData[j - 1].confirmed
  {
    if areaList == [] || |areaList[0].points| == 0 {
      return Failure(EmptyInput);
    }
    match FirstMismatch(areaList, |areaList[0].points|)
    case Some(k) =>
      r := Failure(SeriesLengthMismatch(k));
    case None =>
      var d := Transform(areaList);
      NationalChangesAreDifferences(areaList, d);
      r := Success(d);
  }
}
