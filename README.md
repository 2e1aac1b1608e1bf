# cpumonitor: CPU sampling and the event stream, in Dafny

cpumonitor is a small Go server. It streams the host's CPU utilization to
HTTP clients as server-sent events, one per second. This project models its
core (`main.go`) and proves properties of it.

- **Sampler** (`sampler.dfy`, `readCPUStat`). The model finds the first line of
  `/proc/stat` that begins with `cpu ` (with the space), drops the `cpu`
  token and parses the remaining whitespace-separated counters. It returns the
  total of all counters and idle + iowait (counters 3 and 4). It fails on an
  unopenable file, on a counter that is not a number, on a row with fewer than
  five counters, and when no such line exists ("CPU stats not found").
  `ReadCPUStat` is an imperative method with the source's three loops. It is
  proved equal to the specification function `Read`, and the lemmas below are
  proved about `Read`.
- **Calculator** (`calculator.dfy`, `calculateCPUPercentage`). This is the busy
  share of the ticks between two samples, as a percentage. It returns 0 when
  the total did not move, and its result is not clamped. It is modelled over
  exact rationals (`real`).
- **Session** (`session.dfy`, `streamCPUUsage`). The handler takes an
  initial reading; if that fails, the client gets a 500 response carrying the
  error. Otherwise each timer tick reads again. A tick whose read (or JSON
  encoding) fails emits nothing and keeps the old baseline. A good tick writes
  exactly one `data: {"usage":…,"timestamp":…}\n\n` frame against the current
  baseline and then makes the new sample the baseline. A disconnect ends the
  loop. `StreamCPUUsage` is a method: after the first read, its loop
  (`Stream`, with the timer case in `Poll`) goes over the ticks it observes. It is proved equal to the state machine `Step`/`Run`. `Run` is in turn related
  to an independent reference: `Readings` applied to the good readings.
- **Text** (`text.dfy`). The modelled parts of Go's text handling:
  `unicode.IsSpace`, `strings.HasPrefix`, `strings.Fields`, decimal counters
  and the decimal rendering of the timestamp.
- **WorkedExample** (`worked_example.dfy`). The two rows `cpu  100 0 100 700 100 0 0 0 0 0`
  and `cpu  110 0 110 770 110 0 0 0 0 0` read as (1000, 800) and (1100, 880),
  which gives 20 %.

Inputs the source gets from outside become parameters:
- the contents of `/proc/stat` (`Source`);
- the sequence of events the `select` picks (`Tick`);
- the clock at each tick (`Tick.now`);
- whether `json.Marshal` fails (`Tick.marshalFails`);
- how `json.Marshal` prints a float (`render`).

In two places the code does less than its evident intent. For short rows
the model implements the intended error; for flush failures it follows the
code.
- **Short rows.** A row with fewer than five counters is evidently meant to be
  malformed data. The code indexes `values[3]` and `values[4]` without a
  check, so such a row panics and ends the handler. The model returns
  `TooFewFields` instead, so during streaming the tick is skipped like any
  other failed read. Findings records both versions.
- **Flush failures.** A client whose writes fail might be expected to end the
  session. The code never looks at write or flush errors, so neither does the
  model: only a disconnect closes the session.

## Model

| member | source | states |
|---|---|---|
| `Text.IsSpace` | main.go:36 | `unicode.IsSpace`; no digit and no ASCII letter is white space, so a numeral or the `cpu` marker is one field |
| `Text.HasPrefix` | main.go:35 | `strings.HasPrefix`: holds exactly when `s` is `p` followed by the rest of `s` |
| `Text.Fields` | main.go:36 | `strings.Fields`: every field is a non-empty run of non-space characters; a line that starts with a non-space character yields its leading token first |
| `Text.FieldsOfWord` | main.go:36 | a word followed by white space (or by nothing) is split off as the first field, and splitting continues on the rest |
| `Text.ParseNat` | main.go:40 | a counter parses exactly when it is a non-empty run of decimal digits |
| `Text.ParseNatToString` | main.go:40 | the decimal rendering of any `n` parses back to `n` |
| `Text.IntToString` | main.go:117-121 | the timestamp's decimal rendering is never empty and starts with a minus sign exactly when the timestamp is negative |
| `Text.IntToStringRoundTrip` | main.go:117-121 | the decimal rendering of the timestamp, negative ones included, reads back as the same integer |
| `Sampler.IsAggregate` | main.go:35 | a line is the aggregate row exactly when it has at least four characters and they are `c`, `p`, `u` and a space |
| `Sampler.Counters` | main.go:36 | the fields of an aggregate row are the `cpu` token followed by exactly the counters, so `[1:]` drops only that token |
| `Sampler.ParseFields` | main.go:38-45 | succeeds exactly when every field parses, giving the values in order; otherwise the error is the first field that does not parse, and no partial list is returned |
| `Sampler.Reduce` | main.go:47-56 | the reduction of parsed counters: a sample exactly when there are at least five, otherwise `TooFewFields` with their count; a sample's idle never exceeds its total |
| `Sampler.ParseAggregate` | main.go:36-56 | an aggregate row gives a sample exactly when every counter parses and there are at least five; otherwise the error is `FieldNotNumeric` or `TooFewFields`; a sample's idle never exceeds its total |
| `Sampler.ReadLines` | main.go:33-60 | the scan over the lines never yields `SourceUnavailable`, and any sample it yields has idle <= total |
| `Sampler.Read` | main.go:25-61 | `SourceUnavailable` exactly when the file cannot be opened; any sample has idle <= total |
| `Sampler.ParseCounters` | main.go:38-45 | the parsing loop (stopping at the first bad field) computes `ParseFields` |
| `Sampler.Total` | main.go:48-51 | the accumulating loop returns the sum of all values |
| `Sampler.ReduceCounters` | main.go:47-56 | indexing idle and iowait and then summing every counter computes `Reduce` |
| `Sampler.ReduceRow` | main.go:36-56 | the statements run on the aggregate row (parse loop, index, sum loop) compute `ParseAggregate` |
| `Sampler.ReadCPUStat` | main.go:25-61 | the scanning method returns exactly `Read(source)`: an open failure, the first aggregate row's reduction, or "not found" |
| `Sampler.MarkerIsFirstField` | main.go:35-36 | on a row starting `cpu `, the first field is `cpu`, the token that `[1:]` drops |
| `Sampler.PerCoreRowSkipped` | main.go:33-35 | a per-core row such as `cpu0 …` is passed over: the result is that of the remaining lines |
| `Sampler.FirstAggregateWins` | main.go:33-57 | after any number of non-aggregate lines, the first `cpu ` row decides the result, whatever follows it |
| `Sampler.NotFoundIffNoAggregate` | main.go:58-60 | the result is `StatsNotFound` exactly when no line starts with `cpu ` |
| `Sampler.BadFieldFailsRead` | main.go:39-43 | a counter that does not parse fails the whole read with that counter as the error |
| `Sampler.ShortRowRejected` | main.go:47 | a row of good counters with fewer than five of them gives `TooFewFields`, never a sample |
| `Sampler.SumCoversIdle` | main.go:47-51 | for five or more counters, counter 3 + counter 4 is at most their sum |
| `Sampler.SampleOfRow` | main.go:47-56 | a successful reduction has at least five counters, Total = their sum and Idle = counter 3 + counter 4, so Idle <= Total |
| `Sampler.FieldsOfRow` | main.go:35-36 | a row written as `cpu ` plus space-separated counters starts with `cpu ` and splits into `cpu` and the counters' numerals |
| `Sampler.CountersOfRow` | main.go:35-36 | the counters `[1:]` leaves of a kernel-style row are exactly its numerals |
| `Sampler.ParsedRowReduces` | main.go:38-56 | once every counter of an aggregate row parses, the row reduces as its parsed values do |
| `Sampler.UnparsedRowFails` | main.go:39-43 | a counter that does not parse makes the row's reduction `FieldNotNumeric` with that counter |
| `Sampler.LongRowReduces` | main.go:47-56 | five or more counters reduce to (sum of all, counter 3 + counter 4) |
| `Sampler.AggregateOfRow` | main.go:35-56 | a kernel-style row of five or more counters is an aggregate row reducing to (sum, counter 3 + counter 4) |
| `Sampler.FormatRowRoundTrip` | main.go:33-56 | writing counters as a `/proc/stat` row (and any lines after it) then reading gives (sum, counter 3 + counter 4) |
| `Sampler.ShortRowPanicsAsWritten` | main.go:47 | as written, a well-formed row with fewer than five counters indexes out of range; the corrected reduction returns `TooFewFields` |
| `Sampler.AsWrittenAgreesOtherwise` | main.go:38-56 | the code as written and the corrected reduction agree except on short rows, where the code panics |
| `Sampler.ParseAggregateAsWritten` | main.go:36-56 | the code as written panics exactly when every counter parses and there are at most four of them; any error it returns is `FieldNotNumeric` |
| `Calculator.TotalDelta` | main.go:64 | the total delta is what the old total needs to reach the new one; it is negative exactly when the total went backwards |
| `Calculator.IdleDelta` | main.go:65 | the idle delta is what the old idle count needs to reach the new one; it is negative exactly when idle went backwards |
| `Calculator.CPUPercentage` | main.go:63-69 | the guard: a total that did not move gives 0, whatever the idle counters did |
| `Calculator.BusyShare` | main.go:64-71 | once the total moved, `p` times the total delta equals 100 times the non-idle delta: `p` percent of the new ticks were busy |
| `Calculator.ZeroTotalDeltaIsZero` | main.go:67-69 | equal totals give exactly 0, whatever the idle counters did |
| `Calculator.AllIdleIsZero` | main.go:71 | idle delta equal to a non-zero total delta gives 0 |
| `Calculator.NoIdleIsHundred` | main.go:71 | zero idle delta with a non-zero total delta gives 100 |
| `Calculator.HealthyDeltasInRange` | main.go:71 | with 0 <= idle delta <= total delta and total delta > 0, the result lies in [0, 100] |
| `Calculator.MoreIdleNotBusier` | main.go:71 | over the same interval, more idle ticks never give a higher percentage |
| `Calculator.NotClamped` | main.go:63-72 | the result is not clamped: idle running ahead of the total gives -100, and a total that went backwards still goes through the formula (giving 100 and 0 in the two cases stated) |
| `Calculator.TwentyPercentExample` | main.go:71 | (1000, 800) then (1100, 880) gives 20 |
| `WorkedExample.FirstExampleRow` | main.go:33-56 | `cpu  100 0 100 700 100 0 0 0 0 0` reads as total 1000, idle 800 |
| `WorkedExample.SecondExampleRow` | main.go:33-56 | `cpu  110 0 110 770 110 0 0 0 0 0` reads as total 1100, idle 880 |
| `WorkedExample.ProcStatExample` | main.go:25-72 | reading both rows and comparing them gives 20 % |
| `Session.StreamCPUUsage` | main.go:74-134 | the handler's loop returns exactly `Session(...)`: a 500 with the error if the first read fails, else the framed records `Run` sends, the final baseline and whether the client left |
| `Session.Stream` | main.go:97-133 | the `for`/`select` loop from the first sample computes `Run`: the body is the framed form of the records `Run` sends, the baseline is `Run`'s last one, and it reports a disconnect exactly when `Run` ends closed |
| `Session.Poll` | main.go:104-131 | the statements of one timer tick compute `Step` on an open session, and the body written so far stays the framed form of the records sent |
| `Session.Json` | main.go:115-121 | the encoded record starts with `{"usage":` and ends with `}` |
| `Session.Frame` | main.go:128 | a frame `data: <json>\n\n` reads back as the JSON it carries |
| `Session.Wire` | main.go:128 | the body the client gets is empty exactly when no record was sent |
| `Session.Step` | main.go:101-131 | one loop iteration: nothing changes once the client is gone; the session stays open unless the event is a disconnect; either nothing is sent and the baseline stays, or one record against the old baseline, stamped with the tick's clock, is appended |
| `Session.Run` | main.go:101-133 | the loop over the ticks: a session that has ended never reopens |
| `Session.RunAppendsOnly` | main.go:101-133 | records are only ever appended, at most one per tick |
| `Session.Session` | main.go:81-133 | a failed first read is a 500 carrying its error; otherwise the response is a stream that reports a disconnect exactly when one came |
| `Session.RunClosed` | main.go:103-104 | once the client has disconnected, further ticks change nothing |
| `Session.SkippedTickInvisible` | main.go:106-125 | removing a tick whose read or encoding failed changes nothing: the next good tick is measured against the same baseline |
| `Session.DisconnectEndsSession` | main.go:102-104 | a disconnect closes the session, sends nothing, and makes every later tick irrelevant |
| `Session.Readings` | main.go:112-118 | the reference definition sends one record per good reading; record i compares good reading i-1 (or the initial baseline) with good reading i, stamped with the clock of the tick that produced good reading i |
| `Session.ReadingsCons` | main.go:112-131 | a first good reading is compared with the baseline, and the later ones are compared against it |
| `Session.SkippedTickRun` | main.go:106-125 | a failed tick in front of the rest: the rest runs from the same state |
| `Session.GoodTickRun` | main.go:112-131 | a good tick in front of the rest: one record against the old baseline, then the rest from the new baseline |
| `Session.GoodTickReadings` | main.go:112-131 | in the reference, the records of a good tick followed by more ticks are one record against the old baseline, then the rest's records from the new baseline |
| `Session.RunSendsReadings` | main.go:101-133 | the loop sends exactly `Readings(baseline, good readings before the first disconnect)` |
| `Session.RunEndsOnLastReading` | main.go:106-131 | the loop ends with the last good reading before the first disconnect as its baseline, or the initial one if there was none |
| `Session.RunOpenUntilDisconnect` | main.go:101-105 | the loop ends closed exactly when a disconnect occurred among the ticks |
| `Session.GoodTick` | main.go:106-131 | a tick whose read and encoding succeed appends one record against the current baseline and makes the new sample the baseline |
| `Session.SkippedTick` | main.go:106-125 | a tick whose read or encoding fails leaves the state exactly as it was |
| `Session.SessionBehaviour` | main.go:81-133 | end to end: a failed first read is a 500 carrying the error; otherwise the body is the frames of `Readings` over the good ticks |
| `Session.GoodReadingsIncreasing` | main.go:106-117 | with a clock that moves forward, the good readings' timestamps strictly increase |
| `Session.TimestampsIncrease` | main.go:115-131 | with a clock that moves forward, the records go out in strictly increasing timestamp order |
| `Session.JsonTimestamp` | main.go:115-121 | the JSON ends with the timestamp's digits before the closing brace, and they read back as the timestamp |
| `Session.WireAppend` | main.go:128 | sending one more record appends exactly one frame to what the client received |

## Left out

- Opening, reading and closing `/proc/stat` (main.go:26-32). The file is given as its lines, or as `Unavailable` when `os.Open` fails.
- `bufio.Scanner` limits and errors. The source never checks `scanner.Err()`, so a read error or a line over 64 KiB just ends the scan, which then reports "CPU stats not found". The model's lines have no length limit, and it does not model read errors inside the file.
- `ParseNat`: it accepts decimal digit strings only. `strconv.ParseFloat` also accepts signs, decimal points, exponents, hexadecimal, `Inf` and `NaN`. The kernel writes none of these, so the model rejects them.
- `ParseNat`: in the other direction, it accepts numerals of any length. `strconv.ParseFloat` fails with `ErrRange` on a numeral beyond the `float64` range (about 1.8e308), which makes `readCPUStat` return that error (main.go:40-42). The model reads such a numeral as its exact value.
- `Sampler.CPUUsage`: it holds unbounded naturals. The source uses `float64`, with rounding for counts above 2^53.
- `Calculator.CPUPercentage`: it uses exact rational arithmetic in place of `float64` division and rounding.
- Error texts. Errors are values (`ReadError`), not the strings that `os`, `strconv` and `fmt.Errorf` produce. The same goes for the plain-text body `http.Error` writes.
- HTTP plumbing: response headers, the `CloseNotifier` and `Flusher` type assertions with the "Streaming unsupported!" response, and `Flush` (main.go:76-95, 129). These are transport details.
- The ticker and the `select` race (main.go:98-105). The model takes the sequence of events the `select` picks as input (`Tick`). The model covers the finite prefix of the infinite loop that these ticks describe.
- The clock (`time.Now().Unix()`). Each tick carries its time.
- `Session.TimestampsIncrease`: the strict order holds only under `ClockIncreasing`. `time.Now().Unix()` has one-second resolution, so two ticks can share a second, and the wall clock can step backwards. The source does not guarantee the order.
- `json.Marshal`. Its float formatting is the `render` parameter, and its failure is a flag on the tick. In real arithmetic the value is never NaN or infinite, so only the flag can make it fail.
- Writes to the client. `fmt.Fprintf` errors are ignored by the source and are not modelled.
- Logging (`log.Printf`).
- The CORS middleware, route registration, `ListenAndServe` and `main` (main.go:136-161). This is server bootstrap.
- Concurrency between sessions. Sessions share no state; the model covers one session.

## Findings

| source | as written | input that shows it | evidently intended | confidence | as-written member | corrected member |
|---|---|---|---|---|---|---|
| main.go:47 | `values[3] + values[4]` is evaluated with no length check, so an aggregate row with fewer than five counters indexes out of range and panics. During streaming this kills the handler instead of skipping the tick | the row `cpu  1 2 3` (`FormatRow([1, 2, 3])`) | such a row is a malformed-data error, handled like any other failed read | high (not executed) | `Sampler.ShortRowPanicsAsWritten` (over `Sampler.ParseAggregateAsWritten`) | `Sampler.ShortRowRejected` (over `Sampler.ParseAggregate`, used by `Read` and the session) |
