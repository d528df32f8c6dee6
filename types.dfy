/** The records that the upstream statistics API decodes into and that the
    reshaping step produces. Case counts are whole numbers here; the wire
    format carries them as 32-bit floats. */
module Types {

  /** The time coordinate of an observation. Only the date string is used
      by the reshaping step; the other calendar fields are not modelled. */
  datatype Abscissa = Abscissa(date: string)

  /** One observation of an area: the cumulative number of confirmed cases
      as of the abscissa's date. */
  datatype Point = Point(abscissa: Abscissa, ordinate: int)

  /** One area's raw series, in the order the upstream source reports it. */
  datatype AreaData = AreaData(id: int, name: string, color: string, points: seq<Point>)

  /** A cumulative value and the change since the previous position. */
  datatype DataInTime = DataInTime(confirmed: int, newConfirmed: int)

  /** One area's reshaped series. */
  datatype ParsedAreaData = ParsedAreaData(id: int, name: string, color: string, timeline: seq<DataInTime>)

  /** The reshaped result: a shared date axis, the national totals on that
      axis, and one reshaped series per input area. */
  datatype ParsedData = ParsedData(timestamps: seq<string>, totalData: seq<DataInTime>, areaData: seq<ParsedAreaData>)

  /** The zero value a freshly allocated totals entry holds. */
  const Zero: DataInTime := DataInTime(0, 0)

  /** Field-wise sum of two entries. */
  function Add(a: DataInTime, b: DataInTime): DataInTime
  {
    DataInTime(a.confirmed + b.confirmed, a.newConfirmed + b.newConfirmed)
  }
}
