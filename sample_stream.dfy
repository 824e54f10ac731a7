/** The two-row station file the package's tests read, and what opening it
    and reading it cell by cell gives. */
module SampleStream {
  import opened Toa5Types
  import opened RowSources
  import opened Toa5Spec
  import opened Toa5

  const Stamp1 := "2020-06-07 23:45"
  const Stamp2 := "2020-06-08 00:00"

  /** 12.52, 12.56 and 1.0 as IEEE-754 doubles. */
  const Volts1: Float64 := 0x4029_0A3D_70A3_D70A
  const Volts2: Float64 := 0x4029_1EB8_51EB_851F
  const One: Float64 := 0x3FF0_0000_0000_0000

  const EnvironmentLine: Row := ["TOA5", "Station", "CR1000", "S11", "CR1000.Std.32.03", "CPU:T1.CR1", "4242", "Table"]
  const FieldLine: Row := ["TIMESTAMP", "RECORD", "Batt_V_Avg", "", "", "", "", ""]
  const UnitLine: Row := ["TS", "RN", "Volts", "", "", "", "", ""]
  const AggregationLine: Row := ["", "", "Avg", "", "", "", "", ""]
  const DataLine1: Row := [Stamp1, "0", "12.52", "", "", "", "", ""]
  const DataLine2: Row := [Stamp2, "1", "12.56", "", "", "", "", ""]

  const Sample: seq<Row> := [EnvironmentLine, FieldLine, UnitLine, AggregationLine, DataLine1, DataLine2]

  /** What the sample's timestamps and numbers parse to: the timestamps
      carry no seconds, so only the fallback layout takes them. */
  predicate SampleParsers(p: Parsers, t1: Time, t2: Time)
  {
    p.parseTime(DefaultTimeLayout, Stamp1, UTC).None? &&
    p.parseTime(FallbackTimeLayout, Stamp1, UTC) == Some(t1) &&
    p.parseTime(DefaultTimeLayout, Stamp2, UTC).None? &&
    p.parseTime(FallbackTimeLayout, Stamp2, UTC) == Some(t2) &&
    p.parseFloat("0") == Some(0) && p.parseFloat("12.52") == Some(Volts1) &&
    p.parseFloat("1") == Some(One) && p.parseFloat("12.56") == Some(Volts2)
  }

  /** The header verdicts the package's tests expect: an empty stream ends
      at once, a TOA3 line is not a TOA5 file, a six-field line is too short,
      and the sample's environment line is taken field by field. */
  lemma EnvironmentCases(t: TimeSettings)
    ensures OpenError([], EOF, t) == Some(Source(EOF))
    ensures OpenError([["TOA3", "Station", "CR1000", "S11", "CR1000.Std.32.03", "CPU:T1.CR1", "4242", "Table"]], EOF, t)
      == Some(NoTOA5File)
    ensures OpenError([["TOA5", "Station", "CR1000", "S11", "CR1000.Std.32.03", ""]], EOF, t) == Some(EnvironmentLength)
    ensures ParseEnvironment(Sample[0]) ==
      Ok(Environment("TOA5", "Station", "CR1000", "S11", "CR1000.Std.32.03", "CPU:T1.CR1", "4242", "Table"))
  {
  }

  /** The seven outcomes of one sample data line stamped `t` whose RECORD
      cell holds `n` and whose Batt_V_Avg cell holds `v`: two records, then
      ErrEmptyRecord for each of the five unnamed columns. */
  function LineOutcomes(t: Time, n: Float64, v: Float64): seq<Outcome>
  {
    [Ok(Record(t, n, "RECORD", "RN", "")), Ok(Record(t, v, "Batt_V_Avg", "Volts", "Avg"))] +
    seq(5, _ => Err(EmptyRecord))
  }

  /** The fourteen outcomes the test expects, line by line. */
  function SampleOutcomes(t1: Time, t2: Time): seq<Outcome>
  {
    LineOutcomes(t1, 0, Volts1) + LineOutcomes(t2, One, Volts2)
  }

  function SampleSetup(p: Parsers): Setup
  {
    Setup(Sample[1], Sample[2], Sample[3], TimingOf(Options(DefaultTimeLayout, Some(UTC), DefaultDelimiter), p), p.parseFloat)
  }

  /** Opening the sample succeeds, and a reader on its first data row has
      exactly the test's fourteen outcomes pending. */
  lemma SamplePending(p: Parsers, t1: Time, t2: Time)
    requires SampleParsers(p, t1, t2)
    ensures OpenError(Sample, EOF, SampleSetup(p).time) == None
    ensures RowStamp(SampleSetup(p).time, Sample[4][0]) == Ok(t1)
    ensures RowsPullFit(SampleSetup(p), Sample, 5) && RowFits(SampleSetup(p), Sample[4])
    ensures PendingOf(SampleSetup(p), Sample[4], 0, t1, Sample, 5) == SampleOutcomes(t1, t2)
  {
    var s := SampleSetup(p);
    assert RowStamp(s.time, Sample[5][0]) == Ok(t2);
    assert PullFits(s, Sample[5]);
    DataLineOutcomes(s, DataLine1, t1, 0, Volts1);
    DataLineOutcomes(s, DataLine2, t2, One, Volts2);
    assert RowsOutcomes(s, Sample, 5) == Cells(s, DataLine2, t2, 1);
  }

  /** A data line under the sample's header gives the line's seven outcomes. */
  lemma DataLineOutcomes(s: Setup, line: Row, t: Time, n: Float64, v: Float64)
    requires s.fields == FieldLine && s.units == UnitLine && s.aggregation == AggregationLine
    requires |line| == 8 && s.parseFloat(line[1]) == Some(n) && s.parseFloat(line[2]) == Some(v)
    ensures Cells(s, line, t, 1) == LineOutcomes(t, n, v)
  {
    var cells := Cells(s, line, t, 1);
    var want := LineOutcomes(t, n, v);
    CellsAt(s, line, t, 1);
    forall k | 0 <= k < 7
      ensures cells[k] == want[k]
    {
      assert cells[(k + 1) - 1] == CellOutcome(s, line, t, k + 1);
    }
  }

  /** The test's session: open the sample with the default options and
      read fifteen times. The fourteen cells come out in order, and the
      fifteenth read reports the end of the stream. */
  method ReadSample(p: Parsers, ghost t1: Time, ghost t2: Time) returns (outs: seq<Outcome>)
    requires SampleParsers(p, t1, t2)
    ensures outs == SampleOutcomes(t1, t2) + [Err(Source(EOF))]
  {
    SamplePending(p, t1, t2);
    var res := NewReader(Input(Sample, EOF), p);
    assert res.Ok?;
    var r := res.value;
    assert r.Settings() == SampleSetup(p);
    outs := ReadMany(r, 15);
    UpcomingPastEnd(SampleOutcomes(t1, t2), EOF, 15);
    var last: Outcome := Err(Source(EOF));
    assert seq(1, _ => last) == [last];
  }
}
