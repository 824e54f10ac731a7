# TOA5 reader

A model of the Go package `toa5`, which reads TOA5 files. TOA5 is the
text format that Campbell Scientific CR1000 data loggers write. A file
opens with four header lines:

1. the environment line (file type `TOA5`, station, logger model, serial
   number, OS version, program, signature, table);
2. the field names;
3. the units;
4. the aggregations.

One wide row per timestamp follows. The reader is a forward-only cursor.
Each `Read` gives the next cell of the current data row, after the
timestamp, as one `Record`: the row's timestamp, the value parsed as a
double, and the column's name, unit and aggregation. When a row is used
up, the next one is pulled.

The project has five modules:

- `Toa5Types` (`toa5_types.dfy`): errors, records, the environment,
  options, and the two foreign parsers the reader calls, passed as
  functions.
- `RowSources` (`row_source.dfy`): the tokenized line source
  (`encoding/csv` in Go), as a class with a position over a fixed
  sequence of rows and the fault that ends them.
- `Toa5Spec` (`toa5_spec.dfy`): the reader's behaviour as values.
  - How a first header line is judged, and what opening a stream yields.
  - The timestamp of a data row, tried with the primary layout and then
    with the fixed layout `2006-01-02 15:04`.
  - Which outcome each cell gives.
  - The whole sequence of outcomes a stream still has pending, and the
    facts about it: record counts, shared timestamps, one read consuming
    exactly one pending outcome.
- `Toa5` (`reader.dfy`): the imperative reader. `Reader` is a class with
  the Go struct's fields. Its methods update those fields in place and
  are proved against `Toa5Spec`. `Read` gives the first pending outcome,
  or the source's end once nothing is pending, and leaves the rest
  pending. The constructors `NewReader`, `NewReaderWithOptions` and
  `OpenReader` (Go's `newReader`) state exactly when opening fails and
  with which error.
- `SampleStream` (`sample_stream.dfy`): the station file from the
  package's tests, with the header verdicts and the fourteen read
  outcomes those tests expect, derived from the model.

Error names follow the Go identifiers: `EnvironmentLength`, `NoTOA5File`,
`EmptyRecord`, `NoOptions`. `Source(f)` is an error passed on unchanged
from the line source (`io.EOF` or a malformed line). `TimeParse(layout,
value)` is the error `time.ParseInLocation` gives.

Behaviour of the code that the model keeps as written:

- The environment line's length is checked before its marker. A line of
  fewer than 8 fields gives `EnvironmentLength`, even when its first field
  is not `TOA5`. The environment is stored before the marker is checked.
- More than 8 environment fields are accepted, and the extras are
  ignored.
- When a pulled row's timestamp parses with neither layout, `Read`
  returns that error. The cursor has already moved onto the row: the
  next reads serve its cells, stamped with Go's zero time.
- When the source is exhausted, every later `Read` asks it again and
  returns its end fault again. Nothing is cached.
- Cell 0, the timestamp, never gives an outcome. A row of width 1 gives
  no cell outcome. When such a row is pulled mid-stream and its timestamp
  parses, Go indexes past its end. `Read`'s precondition excludes that
  case.

## Model

| member | source | states |
|---|---|---|
| Toa5Spec.EnvironmentOf | reader.go:159-168 | the eight environment fields are the line's first eight, in order |
| Toa5Spec.ParseEnvironment | reader.go:155-172 | `EnvironmentLength` iff fewer than 8 fields; `NoTOA5File` iff 8 or more and the first is not `TOA5`; success iff 8 or more and the first is `TOA5`, with the environment taken from the first eight |
| Toa5Spec.EnvironmentRoundTrip | reader.go:155-172 | an environment written as a line, followed by any extra fields, parses back to itself |
| Toa5Spec.ExtraEnvironmentFieldsIgnored | reader.go:155-168 | fields after the eighth never change the verdict |
| Toa5Spec.WithDefaults | reader.go:82-88 | an unset layout becomes `2006-01-02 15:04:05` and a missing location becomes UTC; values that are set and the delimiter are kept |
| Toa5Spec.WithDefaultsIdempotent | reader.go:82-88 | defaulting twice is defaulting once |
| Toa5Spec.RowStamp | reader.go:187-195 | a row timestamp that parses is what one of the two layouts gives; one that does not is the fallback layout's `time.ParseInLocation` error |
| Toa5Spec.RowStampOrder | reader.go:187-195 | the primary layout wins when it parses; otherwise the fallback is used; the row fails iff both fail, and the error is then the fallback layout's |
| Toa5Spec.CellOutcome | reader.go:213-230 | a cell gives an error iff its column has no name; a record carries the row's timestamp and the column's name |
| Toa5Spec.CellOutcomeMeaning | reader.go:214-230 | a cell gives `EmptyRecord` iff its column has no name; otherwise a record with the row's timestamp, the column's name, unit and aggregation at the same index, and the parsed value, or NaN when the cell does not parse |
| Toa5Spec.UnnamedCellNeedsNoMetadata | reader.go:219-222 | a cell of an unnamed column can be read whenever the row and the field line reach it, and gives `EmptyRecord`, however short the unit and aggregation lines are |
| Toa5Spec.Cells | reader.go:199-211 | from cell `from` on, a row gives one outcome per remaining cell |
| Toa5Spec.CellsAt | reader.go:199-230 | cell i of a row, from `from` on, has its outcome at entry i - from: cells are served in column order, none skipped or repeated |
| Toa5Spec.RowOutcomesShape | reader.go:177-230 | a pulled row of width W gives W - 1 cell outcomes for cells 1 to W - 1, preceded by the timestamp error when the timestamp does not parse; every cell is stamped with the row's timestamp, or the zero time |
| Toa5Spec.FailedRowShape | reader.go:187-195 | a row whose timestamp fails gives that error, then cells 1 onwards stamped with the zero time |
| Toa5Spec.StampedRowShape | reader.go:187-190 | a row whose timestamp parses gives cells 1 onwards stamped with that timestamp |
| Toa5Spec.RowRecordsShareTimestamp | reader.go:187-225 | every record from one row carries that row's timestamp, or the zero time when it did not parse |
| Toa5Spec.NamedColumns | reader.go:219-222 | a column range holds at most as many named columns as it has columns, and exactly that many when none is unnamed |
| Toa5Spec.UnnamedColumns | reader.go:219-222 | the columns of a range that are not counted as named are exactly those with an empty name |
| Toa5Spec.CellsRecordCount | reader.go:219-230 | the records among a row's cell outcomes are one per named column |
| Toa5Spec.CellsEmptyRecordCount | reader.go:219-222 | the cell outcomes that are not records are one per column with an empty name |
| Toa5Spec.RowRecordCount | reader.go:199-230 | a row of width W yields the named columns among 1 to W - 1 as records, at most W - 1, whether or not its timestamp parsed |
| Toa5Spec.RowsRecordCount | reader.go:199-230 | the records in all the outcomes a run of rows gives are exactly its named data cells |
| Toa5Spec.StepWithinRow | reader.go:200-204 | inside a row, a read gives the next cell's outcome and leaves the rest pending |
| Toa5Spec.PendingAtRowEnd | reader.go:204-205 | at the end of a row, what is pending is the next line's outcomes followed by those of the lines after it |
| Toa5Spec.StepPullFailed | reader.go:204-208 | pulling a row whose timestamp fails gives the timestamp error; that row's cells, stamped with the zero time, stay pending |
| Toa5Spec.StampedRowOutcomes | reader.go:185-190 | a row whose timestamp parses gives its first data cell first, then the rest |
| Toa5Spec.StepPullStamped | reader.go:204-211 | pulling a row whose timestamp parses gives the row's cell 1 and leaves cells 2 onwards pending |
| Toa5Spec.StepEnd | reader.go:204-208 | at the end of a row with no lines left, nothing is pending before or after the failed pull |
| Toa5Spec.ReadMoves | reader.go:199-211 | one read pulls a line from the source iff the current row is used up and the source still has lines; otherwise it leaves the source where it was |
| Toa5Spec.ReadMovesDeterministic | reader.go:199-230 | the outcome of a read and the cursor it leaves are fixed by the cursor it starts from and the source's lines |
| Toa5Spec.ReadStep | reader.go:199-231 | whichever way a read moves the cursor (within a row, past the source's end, onto a row whose timestamp fails or parses, as `ReadMoves` spells out), it gives the first pending outcome, or the end fault when nothing is pending, and leaves exactly the rest pending |
| Toa5Spec.Upcoming | reader.go:199-208 | n reads give the pending outcomes in order, then the source's end fault for every read after them |
| Toa5Spec.UpcomingStep | reader.go:199-208 | one more read appends the head of what n reads left pending, and leaves its tail |
| Toa5Spec.UpcomingPastEnd | reader.go:179-182 | reads beyond the pending outcomes report the source's end |
| Toa5Spec.ExhaustedStaysExhausted | reader.go:179-182 | once nothing is pending, every read reports the end fault |
| Toa5Spec.HeaderError | reader.go:122-147 | the four header reads succeed iff there are four lines and the first is a valid environment line |
| Toa5Spec.OpenError | reader.go:99-107 | opening fails with the source's end on an empty or short stream, with `EnvironmentLength` or `NoTOA5File` per the first line, or with the first data row's timestamp error; it succeeds iff there are five lines, a valid environment line and a first data timestamp that parses |
| Toa5.Reader.constructor | reader.go:94-97 | a new reader holds the source and already-defaulted options, with empty buffers and the cursor at 0, and satisfies the reader invariant |
| Toa5.Reader.Environment | reader.go:111 | an opened reader's environment is the first line's first eight fields |
| Toa5.Reader.Fields | reader.go:114 | an opened reader's field names are the second line |
| Toa5.Reader.Units | reader.go:117 | an opened reader's units are the third line |
| Toa5.Reader.Aggregation | reader.go:120 | an opened reader's aggregations are the fourth line |
| Toa5.Reader.ReadEnvironmentLine | reader.go:149-175 | consumes one line; the source's end passes through unchanged; otherwise the error is the line's verdict, and the environment is stored whenever the line has 8 or more fields, the marker aside |
| Toa5.Reader.ReadHeader | reader.go:122-147 | the error is the header verdict on the stream; on success the four header lines are stored and four lines consumed |
| Toa5.Reader.ReadNextRow | reader.go:177-196 | on the source's end, the row buffer is emptied and the column index kept; otherwise the row is replaced, the index reset to 0, and the timestamp and error are those of the primary-then-fallback rule |
| Toa5.Reader.FitsAreSafe | reader.go:204-214 | when every pending cell fits the header, so does the cell the next read indexes |
| Toa5.Reader.ServeCell | reader.go:213-230 | the outcome of the cell at the column index, as the cell rule gives it |
| Toa5.Reader.Read | reader.go:199-231 | the cursor moves as `ReadMoves` says: inside a row, the next cell's outcome; at a row's end with the source exhausted, the end fault, an emptied row and the index one further; otherwise the next line is pulled and gives its timestamp error with the index at 0, or its cell 1 with the index at 1. The header is kept, and the outcome is the first pending one, with exactly the rest left pending |
| Toa5.Reader.ConsumesPending | reader.go:199-231 | a read that moves the cursor as `ReadMoves` says gives the first pending outcome and leaves exactly the rest pending |
| Toa5.ReadMany | reader_test.go:224-237 | n successive reads give the pending outcomes in order, then the end fault, and leave what n reads skip |
| Toa5.OpenReader | reader.go:81-108 | fails exactly when the opening verdict is an error, with that error; otherwise a fresh reader with the defaulted options, the header from lines 1 to 4, line 5 as its current row and column index 0 |
| Toa5.NewReader | reader.go:67-71 | opening with the default layout, UTC and a comma delimiter |
| Toa5.NewReaderWithOptions | reader.go:73-79 | no options gives `NoOptions`; otherwise opening with the caller's options defaulted |
| SampleStream.EnvironmentCases | reader_test.go:27-70 | an empty stream gives the end fault, a TOA3 line gives `NoTOA5File`, a six-field line gives `EnvironmentLength`, and the sample's environment line is taken field by field |
| SampleStream.DataLineOutcomes | reader_test.go:183-222 | a data line under the sample's header gives a record for RECORD, a record for Batt_V_Avg, then five `EmptyRecord` errors |
| SampleStream.SamplePending | reader_test.go:174-222 | the sample opens, and its pending outcomes are the two records and five `EmptyRecord` errors of each data row |
| SampleStream.ReadSample | reader_test.go:174-239 | opening the sample and reading fifteen times gives those fourteen outcomes, then the end of the stream |

## Left out

- The tokenizer (`encoding/csv`): quoting, the delimiter, trimming of
  leading spaces, and its rule that every line be as wide as the first.
  Lines reach the reader already split. The delimiter is kept in
  `Options` but not used.
- A tokenizer error that comes with the line (`ErrFieldCount`), and
  lines after a malformed line. The source's end is sticky in the model.
- `time.ParseInLocation` and `strconv.ParseFloat` are parameters
  (`Parsers`). Their results are all the model knows of times and
  numbers. Go's zero time is `ZeroTime`. A double is its bit pattern, and
  `math.NaN()` is `0x7FF8000000000001`.
- `newReader` writes the defaulted layout and location back into the
  caller's `*Options`, and keeps that pointer, so later changes the
  caller makes to the options reach the reader. `Fields`, `Units` and
  `Aggregation` return slices that share the reader's own buffers. The
  model passes `Options` and the header lines by value, so neither that
  write nor later writes through either kind of alias are modelled.
- A failed `Read` returns a nil record beside the error. The model gives
  only the error.
- Toa5.Reader.Read: requires that the cell it is about to index exists
  (`NextReadSafe`): the row and the field line reach it, and so do the
  unit and aggregation lines when the column is named. Go checks none of
  this and panics instead. An unnamed column needs no unit or
  aggregation, since Go returns `ErrEmptyRecord` before looking them up.
  A row wider or narrower than the field line comes from the tokenizer
  with `ErrFieldCount`, which is not modelled. After a row two or more
  fields wider, Go panics on the next read. A row one field wider, or a
  narrower one, is passed over by the next read, which pulls the line
  after it.
- Toa5.ReadMany: requires `StreamFits`, the same condition for every cell
  still pending, in the current row and in every row the source has
  left. Each pulled row whose timestamp parses must also have a data
  cell. The pending-outcome ensures of `Toa5.Reader.Read` hold under the
  same condition.
- Toa5.Reader.Environment, Toa5.Reader.Fields, Toa5.Reader.Units,
  Toa5.Reader.Aggregation: stated only for an opened reader. A reader
  that failed to open is never returned to callers.
