/**
 * The sampler: `readCPUStat` reads the aggregate `cpu ` row of `/proc/stat`
 * and reduces its time-in-state counters to two scalars, the total number of
 * ticks and the idle ticks (idle plus iowait).
 *
 * The file is given as its sequence of lines (`Source.Lines`) or as a file
 * that could not be opened (`Source.Unavailable`); counters are decimal
 * numerals read as `nat`.
 */
module Sampler {
  import opened Wrappers
  import opened Text

  /** `CPUUsage`: cumulative ticks since boot. */
  datatype CPUUsage = CPUUsage(Total: nat, Idle: nat)

  /** The error cases `readCPUStat` returns (or, for a short row, panics on). */
  datatype ReadError =
    | SourceUnavailable             // os.Open failed
    | FieldNotNumeric(field: string) // strconv.ParseFloat rejected a field
    | TooFewFields(count: nat)      // fewer than five counters: values[3], values[4] do not exist
    | StatsNotFound                 // "CPU stats not found"

  /** What the counter file looks like to the sampler. */
  datatype Source = Unavailable | Lines(lines: seq<string>)

  type ReadResult = Result<CPUUsage, ReadError>

  const Marker: string := "cpu "

  /** Index of the idle counter; iowait follows it. */
  const IdleIndex: nat := 3

  /** The aggregate row, `cpu` and a space; per-core rows read `cpu0 ...`, `cpu1 ...`. */
  predicate IsAggregate(line: string): (b: bool)
    ensures b <==> |line| >= 4 && line[0] == 'c' && line[1] == 'p' && line[2] == 'u' && line[3] == ' '
  {
    HasPrefix(line, Marker)
  }

  function Sum(values: seq<nat>): nat {
    if values == [] then 0 else Sum(values[..|values| - 1]) + values[|values| - 1]
  }

  /** The counters of an aggregate row: its fields after the leading `cpu` token. */
  function Counters(line: string): (r: seq<string>)
    requires IsAggregate(line)
    ensures Fields(line) == ["cpu"] + r
  {
    MarkerIsFirstField(line);
    var fields := Fields(line);
    assert fields == [fields[0]] + fields[1..];
    fields[1..]
  }

  /**
   * Every field parsed in order; the first field that is not a number is the
   * error, and no partial list is returned.
   */
  function ParseFields(fields: seq<string>): (r: Result<seq<nat>, string>)
    ensures r.Ok? <==> forall k :: 0 <= k < |fields| ==> ParseNat(fields[k]).Some?
    ensures r.Ok? ==> |r.value| == |fields| &&
                      forall k :: 0 <= k < |fields| ==> ParseNat(fields[k]) == Some(r.value[k])
    ensures r.Err? ==> exists k :: 0 <= k < |fields| && fields[k] == r.error && ParseNat(fields[k]).None? &&
                                   forall j :: 0 <= j < k ==> ParseNat(fields[j]).Some?
  {
    if fields == [] then Ok([])
    else match ParseNat(fields[0])
      case None => Err(fields[0])
      case Some(v) =>
        match ParseFields(fields[1..])
        case Err(f) => Err(f)
        case Ok(vs) => Ok([v] + vs)
  }

  /**
   * The two scalars of a row's counters: the sum of all of them and idle plus
   * iowait. A row too short to have an iowait counter is an error, and
   * the idle ticks never exceed the total.
   */
  function Reduce(values: seq<nat>): (r: ReadResult)
    ensures r.Ok? <==> |values| > IdleIndex + 1
    ensures r.Err? ==> r == Err(TooFewFields(|values|))
    ensures r.Ok? ==> r.value.Idle <= r.value.Total
  {
    if |values| <= IdleIndex + 1 then Err(TooFewFields(|values|))
    else
      SumCoversIdle(values);
      Ok(CPUUsage(Sum(values), values[IdleIndex] + values[IdleIndex + 1]))
  }

  /**
   * The sample an aggregate row reduces to: it exists exactly when every
   * counter parses and there are at least five of them. Otherwise the error
   * names what was wrong.
   */
  function ParseAggregate(line: string): (r: ReadResult)
    requires IsAggregate(line)
    ensures r.Ok? <==> ParseFields(Counters(line)).Ok? && |Counters(line)| > IdleIndex + 1
    ensures r.Err? ==> r.error.FieldNotNumeric? || r.error.TooFewFields?
    ensures r.Ok? ==> r.value.Idle <= r.value.Total
  {
    match ParseFields(Counters(line))
    case Err(f) => Err(FieldNotNumeric(f))
    case Ok(values) => Reduce(values)
  }

  /**
   * The first aggregate row decides; later rows are never looked at. The
   * result is never `SourceUnavailable`, and a sample never has more idle
   * than total ticks.
   */
  function ReadLines(lines: seq<string>): (r: ReadResult)
    ensures r.Err? ==> r.error != SourceUnavailable
    ensures r.Ok? ==> r.value.Idle <= r.value.Total
  {
    if lines == [] then Err(StatsNotFound)
    else if IsAggregate(lines[0]) then ParseAggregate(lines[0])
    else ReadLines(lines[1..])
  }

  /**
   * The specification of `readCPUStat`: `SourceUnavailable` exactly when the
   * file cannot be opened, and a sample never has more idle than total ticks.
   */
  function Read(source: Source): (r: ReadResult)
    ensures r == Err(SourceUnavailable) <==> source.Unavailable?
    ensures r.Ok? ==> r.value.Idle <= r.value.Total
  {
    match source
    case Unavailable => Err(SourceUnavailable)
    case Lines(lines) => ReadLines(lines)
  }

  /** The `range fields` loop of `readCPUStat`: parse each field, stop at the first failure. */
  method ParseCounters(fields: seq<string>) returns (r: Result<seq<nat>, string>)
    ensures r == ParseFields(fields)
  {
    var values: seq<nat> := [];
    for k := 0 to |fields|
      invariant |values| == k
      invariant forall j :: 0 <= j < k ==> ParseNat(fields[j]) == Some(values[j])
    {
      var v := ParseNat(fields[k]);
      if v.None? {
        return Err(fields[k]);
      }
      values := values + [v.value];
    }
    var parsed := ParseFields(fields);
    assert parsed.Ok? && parsed.value == values by {
      assert forall j :: 0 <= j < |values| ==> parsed.value[j] == values[j];
    }
    return Ok(values);
  }

  /** The `range values` loop of `readCPUStat`: accumulate the total. */
  method Total(values: seq<nat>) returns (total: nat)
    ensures total == Sum(values)
  {
    total := 0;
    for k := 0 to |values|
      invariant total == Sum(values[..k])
    {
      assert values[..k + 1][..k] == values[..k];
      total := total + values[k];
    }
    assert values[..|values|] == values;
  }

  /** The reduction in `readCPUStat`: index idle and iowait, then sum every counter. */
  method ReduceCounters(values: seq<nat>) returns (r: ReadResult)
    ensures r == Reduce(values)
  {
    if |values| <= IdleIndex + 1 {
      return Err(TooFewFields(|values|));
    }
    var idle := values[IdleIndex] + values[IdleIndex + 1];
    var total := Total(values);
    LongRowReduces(values);
    return Ok(CPUUsage(total, idle));
  }

  /** The body of `readCPUStat`'s scan for the aggregate row: parse its counters, then reduce them. */
  method ReduceRow(line: string) returns (r: ReadResult)
    requires IsAggregate(line)
    ensures r == ParseAggregate(line)
  {
    var parsed := ParseCounters(Counters(line));
    if parsed.Err? {
      UnparsedRowFails(line, parsed.error);
      return Err(FieldNotNumeric(parsed.error));
    }
    ParsedRowReduces(line, parsed.value);
    r := ReduceCounters(parsed.value);
  }

  /** `readCPUStat`: scan the lines, parse the first aggregate row, sum it. */
  method ReadCPUStat(source: Source) returns (r: ReadResult)
    ensures r == Read(source)
  {
    if source.Unavailable? {
      return Err(SourceUnavailable);
    }
    var lines := source.lines;
    var i := 0;
    while i < |lines|
      invariant 0 <= i <= |lines|
      invariant ReadLines(lines) == ReadLines(lines[i..])
    {
      var line := lines[i];
      assert lines[i..][1..] == lines[i + 1..];
      if HasPrefix(line, Marker) {
        r := ReduceRow(line);
        return;
      }
      i := i + 1;
    }
    return Err(StatsNotFound);
  }

  // ---------------------------------------------------------------------
  // Properties of the specification

  /** The aggregate row's first field is the `cpu` marker itself. */
  lemma MarkerIsFirstField(line: string)
    requires IsAggregate(line)
    ensures |Fields(line)| >= 1 && Fields(line)[0] == "cpu"
  {
    assert line[..4] == "cpu ";
    assert line[0] == 'c' && line[1] == 'p' && line[2] == 'u' && line[3] == ' ';
    assert TokenLen(line[3..]) == 0;
    assert TokenLen(line[2..]) == 1 by { assert line[2..][1..] == line[3..]; }
    assert TokenLen(line[1..]) == 2 by { assert line[1..][1..] == line[2..]; }
    assert TokenLen(line) == 3;
    assert line[..3] == "cpu";
  }

  /** A per-core row such as `cpu0 ...` is not the aggregate row. */
  lemma PerCoreRowSkipped(line: string, rest: seq<string>)
    requires HasPrefix(line, "cpu") && |line| > 3 && IsDigit(line[3])
    ensures ReadLines([line] + rest) == ReadLines(rest)
  {
    assert !IsAggregate(line) by { assert line[3] != Marker[3]; }
    assert ([line] + rest)[1..] == rest;
  }

  /** The first aggregate row wins, whatever follows it. */
  lemma {:induction false} FirstAggregateWins(before: seq<string>, line: string, after: seq<string>)
    requires forall j :: 0 <= j < |before| ==> !IsAggregate(before[j])
    requires IsAggregate(line)
    ensures ReadLines(before + [line] + after) == ParseAggregate(line)
  {
    var all := before + [line] + after;
    if before == [] {
      assert all[0] == line;
    } else {
      assert all[0] == before[0];
      assert all[1..] == before[1..] + [line] + after;
      FirstAggregateWins(before[1..], line, after);
    }
  }

  /** "CPU stats not found" exactly when no row carries the `cpu ` prefix. */
  lemma {:induction false} NotFoundIffNoAggregate(lines: seq<string>)
    ensures ReadLines(lines) == Err(StatsNotFound) <==>
            forall j :: 0 <= j < |lines| ==> !IsAggregate(lines[j])
  {
    if lines != [] {
      NotFoundIffNoAggregate(lines[1..]);
      if !IsAggregate(lines[0]) {
        assert forall j :: 1 <= j < |lines| ==> lines[j] == lines[1..][j - 1];
      }
    }
  }

  /** A field that is not a number fails the whole read. */
  lemma BadFieldFailsRead(line: string, k: nat)
    requires IsAggregate(line)
    requires k < |Counters(line)| && ParseNat(Counters(line)[k]).None?
    requires forall j :: 0 <= j < k ==> ParseNat(Counters(line)[j]).Some?
    ensures ParseAggregate(line) == Err(FieldNotNumeric(Counters(line)[k]))
  {
  }

  /** A row of well-formed counters shorter than five is an error, never a zero. */
  lemma ShortRowRejected(line: string)
    requires IsAggregate(line)
    requires forall k :: 0 <= k < |Counters(line)| ==> ParseNat(Counters(line)[k]).Some?
    requires |Counters(line)| < 5
    ensures ParseAggregate(line) == Err(TooFewFields(|Counters(line)|))
  {
  }

  lemma {:induction false} SumCoversIdle(values: seq<nat>)
    requires |values| >= 5
    ensures values[3] + values[4] <= Sum(values)
  {
    if |values| > 5 {
      var init := values[..|values| - 1];
      SumCoversIdle(init);
      assert init[3] == values[3] && init[4] == values[4];
    } else {
      var s4, s3, s2 := values[..4], values[..3], values[..2];
      assert values[..|values| - 1] == s4;
      assert s4[..3] == s3 && s3[..2] == s2;
      assert Sum(values) == Sum(s4) + values[4];
      assert Sum(s4) == Sum(s3) + values[3];
    }
  }

  /**
   * A successful read is the sum of all counters and idle plus iowait,
   * so the idle ticks never exceed the total.
   */
  lemma SampleOfRow(line: string, u: CPUUsage)
    requires IsAggregate(line)
    requires ParseAggregate(line) == Ok(u)
    ensures |Counters(line)| >= 5
    ensures exists values: seq<nat> ::
              && |values| == |Counters(line)|
              && (forall k :: 0 <= k < |values| ==> ParseNat(Counters(line)[k]) == Some(values[k]))
              && u.Total == Sum(values) && u.Idle == values[3] + values[4]
    ensures u.Idle <= u.Total
  {
    var values := ParseFields(Counters(line)).value;
    SumCoversIdle(values);
  }

  // ---------------------------------------------------------------------
  // Round trip: a row written the way the kernel writes it reads back

  /** ` n0 n1 ...`: each counter preceded by one space. */
  function Columns(values: seq<nat>): string {
    if values == [] then "" else " " + NatToString(values[0]) + Columns(values[1..])
  }

  /** The aggregate row as `/proc/stat` prints it: `cpu ` and the columns. */
  function FormatRow(values: seq<nat>): string {
    "cpu " + Columns(values)
  }

  function Numerals(values: seq<nat>): (r: seq<string>)
    ensures |r| == |values|
    ensures forall k :: 0 <= k < |values| ==> r[k] == NatToString(values[k])
  {
    if values == [] then [] else [NatToString(values[0])] + Numerals(values[1..])
  }

  lemma {:induction false} FieldsOfColumns(values: seq<nat>)
    ensures Fields(Columns(values)) == Numerals(values)
  {
    if values != [] {
      var c := Columns(values);
      var w := NatToString(values[0]);
      var rest := Columns(values[1..]);
      assert c == " " + (w + rest);
      assert c[1..] == w + rest;
      assert rest == [] || IsSpace(rest[0]);
      FieldsOfWord(w, rest);
      FieldsOfColumns(values[1..]);
    }
  }

  lemma {:induction false} ParseNumerals(values: seq<nat>)
    ensures ParseFields(Numerals(values)) == Ok(values)
  {
    var ns := Numerals(values);
    forall k | 0 <= k < |values| ensures ParseNat(ns[k]) == Some(values[k]) {
      ParseNatToString(values[k]);
    }
    assert ParseFields(ns).value == values;
  }

  lemma FieldsOfRow(values: seq<nat>)
    ensures IsAggregate(FormatRow(values))
    ensures Fields(FormatRow(values)) == ["cpu"] + Numerals(values)
  {
    var row := FormatRow(values);
    var columns := Columns(values);
    assert row[..4] == Marker;
    assert IsWord("cpu");
    FieldsOfWord("cpu", " " + columns);
    assert row == "cpu" + (" " + columns);
    assert Fields(" " + columns) == Fields(columns) by {
      assert (" " + columns)[1..] == columns;
    }
    FieldsOfColumns(values);
  }

  /** The counters of a well-formed row are its numerals. */
  lemma CountersOfRow(values: seq<nat>)
    ensures IsAggregate(FormatRow(values))
    ensures Counters(FormatRow(values)) == Numerals(values)
  {
    FieldsOfRow(values);
    assert (["cpu"] + Numerals(values))[1..] == Numerals(values);
  }

  /** The reduction of a well-formed row with at least five counters. */
  lemma AggregateOfRow(values: seq<nat>)
    requires |values| >= 5
    ensures IsAggregate(FormatRow(values))
    ensures ParseAggregate(FormatRow(values)) == Ok(CPUUsage(Sum(values), values[3] + values[4]))
  {
    CountersOfRow(values);
    ParseNumerals(values);
    ParsedRowReduces(FormatRow(values), values);
    LongRowReduces(values);
  }

  lemma ParsedRowReduces(line: string, values: seq<nat>)
    requires IsAggregate(line) && ParseFields(Counters(line)) == Ok(values)
    ensures ParseAggregate(line) == Reduce(values)
  {
  }

  lemma UnparsedRowFails(line: string, field: string)
    requires IsAggregate(line) && ParseFields(Counters(line)) == Err(field)
    ensures ParseAggregate(line) == Err(FieldNotNumeric(field))
  {
  }

  lemma LongRowReduces(values: seq<nat>)
    requires |values| >= 5
    ensures Reduce(values) == Ok(CPUUsage(Sum(values), values[3] + values[4]))
  {
  }

  /** A well-formed row with at least five counters reads back to its sums. */
  lemma FormatRowRoundTrip(values: seq<nat>, rest: seq<string>)
    requires |values| >= 5
    ensures ReadLines([FormatRow(values)] + rest) == Ok(CPUUsage(Sum(values), values[3] + values[4]))
  {
    AggregateOfRow(values);
    assert ([FormatRow(values)] + rest)[0] == FormatRow(values);
  }

  // ---------------------------------------------------------------------
  // The reduction as written: a short row indexes past the end of `values`

  /** What the unguarded `values[3] + values[4]` does: return, or panic. */
  datatype Outcome = Returned(result: ReadResult) | IndexOutOfRange

  /**
   * The reduction of an aggregate row exactly as written, without a length
   * check: it panics exactly when every counter parses and there are fewer
   * than five of them.
   */
  function ParseAggregateAsWritten(line: string): (r: Outcome)
    requires IsAggregate(line)
    ensures r == IndexOutOfRange <==> ParseFields(Counters(line)).Ok? && |Counters(line)| <= IdleIndex + 1
    ensures r.Returned? && r.result.Err? ==> r.result.error.FieldNotNumeric?
  {
    match ParseFields(Counters(line))
    case Err(f) => Returned(Err(FieldNotNumeric(f)))
    case Ok(values) =>
      if |values| <= IdleIndex + 1 then IndexOutOfRange
      else Returned(Ok(CPUUsage(Sum(values), values[IdleIndex] + values[IdleIndex + 1])))
  }

  /** As written, a well-formed row with fewer than five counters panics. */
  lemma ShortRowPanicsAsWritten(values: seq<nat>)
    requires |values| < 5
    ensures IsAggregate(FormatRow(values))
    ensures ParseAggregateAsWritten(FormatRow(values)) == IndexOutOfRange
    ensures ParseAggregate(FormatRow(values)) == Err(TooFewFields(|values|))
  {
    var row := FormatRow(values);
    FieldsOfRow(values);
    assert Counters(row) == Numerals(values) by {
      assert (["cpu"] + Numerals(values))[1..] == Numerals(values);
    }
    ParseNumerals(values);
  }

  /** The corrected reduction differs from the code only where the code panics. */
  lemma AsWrittenAgreesOtherwise(line: string)
    requires IsAggregate(line)
    ensures ParseAggregateAsWritten(line) == IndexOutOfRange <==> ParseAggregate(line).Err? && ParseAggregate(line).error.TooFewFields?
    ensures ParseAggregateAsWritten(line) != IndexOutOfRange ==> ParseAggregateAsWritten(line) == Returned(ParseAggregate(line))
  {
  }
}
