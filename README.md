# Reshaping of per-area COVID-19 series (covid19-serbia-api)

The service fetches cumulative confirmed-case series for every area of
Serbia from the national statistics API and reshapes them for a chart
client. This project models that reshaping step, the second half of
`getData` in `main.go`, and proves what it promises. It starts from the
already-decoded list of areas. It produces:

- `timestamps`: the dates of the first (reference) area, in order;
- `totalData`: one national entry per reference position, accumulated in
  place over all areas;
- `areaData`: one reshaped area per input area, in input order. Each has
  the area's id, name and colour and a timeline of `(confirmed,
  newConfirmed)` entries. `newConfirmed` is the value itself at position 0
  and the difference from the previous value elsewhere.

Files:

- `types.dfy` (module `Types`): the records `Abscissa`, `Point`, `AreaData`,
  `DataInTime`, `ParsedAreaData` and `ParsedData`.
- `reshape.dfy` (module `Reshape`): the specification predicates, plus the
  imperative `Transform` and its per-area loop body `AccumulateArea`. The
  totals are an `array` updated in place. Timelines, areas and timestamps
  are sequences the loops append to.
- `properties.dfy` (module `Properties`): lemmas about any result that
  meets the specification.
- `scenarios.dfy` (module `Scenarios`): worked inputs and what the result
  must be for them.
- `checked.dfy` (module `Checked`): a variant that refuses bad input with a
  named error instead of relying on preconditions (see Findings).

`Transform` has two preconditions, gathered in
`Reshape.FitsReferenceAxis`. The source checks neither and panics when one
fails:

- the list of areas is non-empty, because `areaList[0]` is read at
  main.go:76;
- no area has more points than the first one; otherwise `TotalData[j]` is
  out of range at main.go:95-96.

An area with fewer points is accepted. It adds nothing to the totals at the
positions it does not reach.

The intended behaviour differs from the code in two places. An empty input,
or a first area with no observations, should be refused as empty input. A
series whose length differs from the first area's should be refused as a
length mismatch. The code does neither, and `Transform` follows the code:

- An empty list panics at main.go:76. When the first area has no points,
  the totals are empty, so the code panics at main.go:95 unless every area
  is empty. In that case it returns empty totals and no timestamps.
- A shorter area is silently accepted.

`Checked.TransformChecked` implements the intended behaviour instead.

## Model

| member | source | states |
|---|---|---|
| `Reshape.Transform` | main.go:75-106 | For a non-empty list whose areas are no longer than the first, the result meets `IsParsedDataOf`. Totals and timestamps are as long as the first area's points. Timestamps are its dates. There is one reshaped area per input area, in order, with id, name and colour copied. Each timeline has one entry per point, with `confirmed` the point's value, `newConfirmed` the value at 0 and the difference from the previous point elsewhere. Each total is the column sum of the timelines over the areas long enough to reach that position. |
| `Reshape.AccumulateArea` | main.go:78-97 | One pass of the area loop builds that area's timeline, meeting `IsParsedAreaOf`. It adds the entry at each position `j` in place into `totalData[j]`, and leaves positions beyond the area's length unchanged. |
| `Properties.ChangesAddUpToConfirmed` | main.go:83-93 | The changes of a timeline up to and including position `j` sum to the cumulative value at `j`, so differencing loses nothing. |
| `Properties.ParsedDataIsUnique` | main.go:75-106 | Two results that both meet the specification for the same input are equal. Reshaping is deterministic, and repeating it on the same input gives the same result. |
| `Properties.NationalConfirmedIsReportedSum` | main.go:78-96 | Each national cumulative total is the sum of the values reported at that position by the areas that reach it. |
| `Properties.NationalChangesAreDifferences` | main.go:83-97 | When every area is exactly as long as the first, the first national change equals the first national value. Every later national change is the difference of consecutive national values. |
| `Scenarios.TwoAreaTimelines` | main.go:83-93 | Areas reporting 10, 15, 15 and 5, 5, 9 get changes 10, 5, 0 and 5, 0, 4. |
| `Scenarios.TwoAreaTotals` | main.go:76-100 | For the same two areas the national totals are 15, 20, 24, with changes 15, 5, 4. |
| `Scenarios.SingleObservation` | main.go:76-104 | One area with one observation 7 gives a one-entry timeline (7, 7), one total (7, 7) and one timestamp. |
| `Scenarios.ShortAreaBreaksNationalChanges` | main.go:83-96 | Areas 10, 15 and 5 are accepted and give totals (15, 15), (15, 5). The national change 5 at position 1 is not the change 0 of the national value. |
| `Checked.FirstMismatch` | main.go:83-96 | Returns the first area whose point count is not the reference count, or none exactly when all counts match. |
| `Checked.TransformChecked` | main.go:75-106 | Fails with `EmptyInput` exactly when the list or its first area is empty. It succeeds exactly when every area has the first area's length. A `SeriesLengthMismatch` names an area of a different length. On success the result meets the same specification as `Transform`, and the national changes are the differences of the national values. |

## Findings

| source | as written | input that shows it | evidently intended | confidence | as-written member | corrected member |
|---|---|---|---|---|---|---|
| main.go:83-96 | An area with fewer points than the first is accepted. It adds nothing to the totals beyond its length, so the national `NewConfirmed` no longer matches the change in national `Confirmed`. | areas reporting 10, 15 and 5: totals (15, 15), (15, 5), and 5 is not 15 - 15 | every area reports on the reference calendar, and a shorter series is refused | medium; not executed | `Scenarios.ShortAreaBreaksNationalChanges` | `Checked.TransformChecked` |

## Left out

- The HTTP POST to the statistics API and reading its body (main.go:62-70) are network I/O. Their errors are returned unchanged and are not modelled.
- The hard-coded request payload (main.go:60) is a constant and holds no logic.
- `json.Unmarshal` and its ignored error (main.go:72-73) are a library call. The model starts from the decoded list.
- The gin router, the CORS middleware, the mapping of errors to HTTP 500 and `router.Run` (main.go:110-126) are web-server plumbing.
- `float32` values (main.go:27, main.go:40-41) become unbounded integers, so rounding in the sums and differences is not modelled.
- `Abscissa` fields other than `Date` (main.go:15-20) are decoded but never used by the reshaping step.
- The two panics (empty list; an area longer than the first) are preconditions of `Transform`, because the code has no error path for them.
- Go's nil slices are not modelled. An area without points, or an empty reference area, serializes its timeline or timestamps as JSON `null` rather than `[]`.
- The final write through the pointer `*data` (main.go:106) becomes the method's returned value.
