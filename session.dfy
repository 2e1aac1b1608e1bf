/**
 * One client's subscription, `streamCPUUsage`, with the transport and the
 * timer stripped away. The session takes one initial reading; if that fails
 * the client gets a 500 response and no stream. Otherwise each timer tick
 * reads again, and a tick whose read succeeds writes one
 * `data: {"usage":...,"timestamp":...}\n\n` event computed against the
 * previous good reading. Then that reading becomes the new baseline. A
 * disconnect ends the session.
 *
 * The `select` between the timer and the disconnect notification is given as
 * the sequence of events it picked (`Tick`); each timer tick carries what
 * `/proc/stat` looked like, what the clock said and whether `json.Marshal`
 * failed. How `json.Marshal` renders a float is a parameter (`render`).
 */
module Session {
  import opened Wrappers
  import opened Text
  import opened Sampler
  import opened Calculator

  /** `CPUStats`: the record sent to the client. */
  datatype CPUStats = CPUStats(usage: real, timestamp: int)

  /** What the session's `select` receives next. */
  datatype Tick =
    | Disconnect
    | Timer(source: Source, now: int, marshalFails: bool)

  /**
   * How the handler ends: a 500 response with the error, or the event-stream
   * body the client received together with the handler's final state (the
   * last baseline and whether the loop ended on a disconnect), which the
   * client never sees.
   */
  datatype Response =
    | ServerError(status: nat, error: ReadError)
    | EventStream(body: string, baseline: CPUUsage, disconnected: bool)

  /** `http.StatusInternalServerError`. */
  const InternalServerError: nat := 500

  /** The JSON body `json.Marshal` produces for a `CPUStats`: one object, `usage` first. */
  function Json(stats: CPUStats, render: real -> string): (j: string)
    ensures HasPrefix(j, "{\"usage\":") && j[|j| - 1] == '}'
  {
    "{\"usage\":" + render(stats.usage) + ",\"timestamp\":" + IntToString(stats.timestamp) + "}"
  }

  /** The events' payload read back off the wire. */
  function EventData(frame: string): Option<string> {
    if |frame| >= 8 && frame[..6] == "data: " && frame[|frame| - 2..] == "\n\n" then
      Some(frame[6..|frame| - 2])
    else
      None
  }

  /** One server-sent event: `data: <json>` and a blank line; it reads back as the JSON it carries. */
  function Frame(json: string): (f: string)
    ensures EventData(f) == Some(json)
  {
    var f := "data: " + json + "\n\n";
    assert f[..6] == "data: " && f[|f| - 2..] == "\n\n" && f[6..|f| - 2] == json;
    f
  }

  /** Everything written to the client for the records sent, in order: nothing exactly when nothing was sent. */
  function Wire(sent: seq<CPUStats>, render: real -> string): (w: string)
    ensures w == [] <==> sent == []
  {
    if sent == [] then ""
    else Wire(sent[..|sent| - 1], render) + Frame(Json(sent[|sent| - 1], render))
  }

  // ---------------------------------------------------------------------
  // The loop as a state machine

  /** The loop's state: the baseline `prevUsage`, what was sent, and whether the client is still there. */
  datatype State = State(prev: CPUUsage, sent: seq<CPUStats>, open: bool)

  /**
   * One iteration of the `for`/`select` loop: nothing happens once the client
   * has gone; a disconnect closes the session; a tick either leaves the state
   * alone or sends one record against the old baseline and adopts the new one.
   */
  function Step(s: State, t: Tick): (r: State)
    ensures !s.open ==> r == s
    ensures r.open <==> s.open && !t.Disconnect?
    ensures r.sent == s.sent ==> r.prev == s.prev
    ensures r.sent != s.sent ==> t.Timer? && r.sent == s.sent + [CPUStats(CPUPercentage(s.prev, r.prev), t.now)]
  {
    if !s.open then s
    else
      match t
      case Disconnect => s.(open := false)
      case Timer(source, now, marshalFails) =>
        match Read(source)
        case Err(_) => s
        case Ok(current) =>
          if marshalFails then s
          else State(current, s.sent + [CPUStats(CPUPercentage(s.prev, current), now)], true)
  }

  /** The loop over a sequence of ticks: a session that has ended never reopens. */
  function Run(s: State, ticks: seq<Tick>): (r: State)
    ensures r.open ==> s.open
    decreases |ticks|
  {
    if ticks == [] then s else Run(Step(s, ticks[0]), ticks[1..])
  }

  /**
   * The whole handler: the initial read, then the loop. A failed first read is
   * a 500 carrying its error; otherwise the stream reports a disconnect
   * exactly when one came.
   */
  function Session(initial: Source, ticks: seq<Tick>, render: real -> string): (resp: Response)
    ensures Read(initial).Err? ==> resp == ServerError(InternalServerError, Read(initial).error)
    ensures Read(initial).Ok? ==> resp.EventStream? && (resp.disconnected <==> Disconnect in ticks)
  {
    match Read(initial)
    case Err(e) => ServerError(InternalServerError, e)
    case Ok(first) =>
      var last := Run(State(first, [], true), ticks);
      RunOpenUntilDisconnect(State(first, [], true), ticks);
      EventStream(Wire(last.sent, render), last.prev, !last.open)
  }

  /** The loop from the `i`-th tick on is one step, then the loop from the next. */
  lemma RunFrom(s: State, ticks: seq<Tick>, i: nat)
    requires i < |ticks|
    ensures Run(s, ticks[i..]) == Run(Step(s, ticks[i]), ticks[i + 1..])
  {
    assert ticks[i..][0] == ticks[i] && ticks[i..][1..] == ticks[i + 1..];
  }

  lemma {:induction false} RunClosed(s: State, ticks: seq<Tick>)
    requires !s.open
    ensures Run(s, ticks) == s
    decreases |ticks|
  {
    if ticks != [] {
      RunClosed(Step(s, ticks[0]), ticks[1..]);
    }
  }

  /** `streamCPUUsage`, with the events it observes given as `ticks`. */
  method StreamCPUUsage(initial: Source, ticks: seq<Tick>, render: real -> string) returns (resp: Response)
    ensures resp == Session(initial, ticks, render)
  {
    var first := ReadCPUStat(initial);
    if first.Err? {
      return ServerError(InternalServerError, first.error);
    }
    var body, usage, disconnected := Stream(first.value, ticks, render);
    return EventStream(body, usage, disconnected);
  }

  /**
   * The `for`/`select` loop from the first sample on: the body written, the
   * final baseline and whether a disconnect ended it are those of `Run`.
   */
  method Stream(first: CPUUsage, ticks: seq<Tick>, render: real -> string)
    returns (body: string, prevUsage: CPUUsage, disconnected: bool)
    ensures var last := Run(State(first, [], true), ticks);
            body == Wire(last.sent, render) && prevUsage == last.prev && disconnected == !last.open
  {
    prevUsage := first;
    body := "";
    ghost var sent: seq<CPUStats> := [];
    var i := 0;
    while i < |ticks|
      invariant 0 <= i <= |ticks|
      invariant body == Wire(sent, render)
      invariant Run(State(first, [], true), ticks) == Run(State(prevUsage, sent, true), ticks[i..])
    {
      var tick := ticks[i];
      RunFrom(State(prevUsage, sent, true), ticks, i);
      if tick.Disconnect? {
        RunClosed(State(prevUsage, sent, false), ticks[i + 1..]);
        return body, prevUsage, true;
      }
      prevUsage, sent, body := Poll(prevUsage, sent, body, tick, render);
      i := i + 1;
    }
    assert ticks[i..] == [];
    return body, prevUsage, false;
  }

  /**
   * One `ticker.C` case of the loop: read the counters, measure against the
   * baseline, encode and send. A failed read or encoding skips the tick.
   */
  method Poll(prevUsage: CPUUsage, ghost sent: seq<CPUStats>, body: string, tick: Tick, render: real -> string)
    returns (usage: CPUUsage, ghost sent': seq<CPUStats>, body': string)
    requires tick.Timer?
    requires body == Wire(sent, render)
    ensures Step(State(prevUsage, sent, true), tick) == State(usage, sent', true)
    ensures body' == Wire(sent', render)
  {
    usage, sent', body' := prevUsage, sent, body;
    var current := ReadCPUStat(tick.source);
    if current.Err? {
      return;
    }
    var usagePercent := CPUPercentage(prevUsage, current.value);
    var stats := CPUStats(usagePercent, tick.now);
    if tick.marshalFails {
      return;
    }
    WireAppend(sent, stats, render);
    body' := body + Frame(Json(stats, render));
    sent' := sent + [stats];
    usage := current.value;
  }

  // ---------------------------------------------------------------------
  // Properties of the loop

  /** A tick whose read or whose encoding fails. */
  predicate Skipped(t: Tick) {
    t.Timer? && (Read(t.source).Err? || t.marshalFails)
  }

  /**
   * A failed tick leaves no trace: the next good tick is measured against
   * the same baseline, as if the failed interval were part of its own.
   */
  lemma {:induction false} SkippedTickInvisible(s: State, before: seq<Tick>, t: Tick, after: seq<Tick>)
    requires Skipped(t)
    ensures Run(s, before + [t] + after) == Run(s, before + after)
    decreases |before|
  {
    if before == [] {
      assert before + [t] + after == [t] + after && before + after == after;
      assert ([t] + after)[1..] == after;
      assert Step(s, t) == s;
    } else {
      assert (before + [t] + after)[1..] == before[1..] + [t] + after;
      assert (before + after)[1..] == before[1..] + after;
      SkippedTickInvisible(Step(s, before[0]), before[1..], t, after);
    }
  }

  /** A disconnect closes the session; nothing after it is looked at. */
  lemma {:induction false} DisconnectEndsSession(s: State, before: seq<Tick>, after: seq<Tick>)
    ensures !Run(s, before + [Disconnect]).open
    ensures Run(s, before + [Disconnect] + after) == Run(s, before + [Disconnect])
    ensures Run(s, before + [Disconnect]).sent == Run(s, before).sent
    decreases |before|
  {
    if before == [] {
      assert ([Disconnect] + after)[1..] == after;
      assert [Disconnect][1..] == [];
      RunClosed(Step(s, Disconnect), after);
    } else {
      assert (before + [Disconnect] + after)[1..] == before[1..] + [Disconnect] + after;
      assert (before + [Disconnect])[1..] == before[1..] + [Disconnect];
      DisconnectEndsSession(Step(s, before[0]), before[1..], after);
    }
  }

  /** A good reading: the sample a tick read and the clock at that tick. */
  datatype Sample = Sample(usage: CPUUsage, now: int)

  /** The good readings among the ticks before the first disconnect. */
  function GoodReadings(ticks: seq<Tick>): seq<Sample> {
    if ticks == [] then []
    else
      match ticks[0]
      case Disconnect => []
      case Timer(source, now, marshalFails) =>
        if Read(source).Ok? && !marshalFails then [Sample(Read(source).value, now)] + GoodReadings(ticks[1..])
        else GoodReadings(ticks[1..])
  }

  /**
   * Reference definition of the records sent for a run of good readings: the
   * i-th is the utilization from the (i-1)-th good reading (or the baseline)
   * to the i-th, stamped with the i-th reading's clock.
   */
  function Readings(base: CPUUsage, samples: seq<Sample>): (r: seq<CPUStats>)
    ensures |r| == |samples|
  {
    seq(|samples|, i requires 0 <= i < |samples| =>
      CPUStats(CPUPercentage(if i == 0 then base else samples[i - 1].usage, samples[i].usage), samples[i].now))
  }

  lemma ReadingsCons(base: CPUUsage, x: Sample, rest: seq<Sample>)
    ensures Readings(base, [x] + rest) == [CPUStats(CPUPercentage(base, x.usage), x.now)] + Readings(x.usage, rest)
  {
    var lhs := Readings(base, [x] + rest);
    var rhs := [CPUStats(CPUPercentage(base, x.usage), x.now)] + Readings(x.usage, rest);
    forall i | 0 <= i < |lhs| ensures lhs[i] == rhs[i] {
      if i > 0 {
        assert ([x] + rest)[i] == rest[i - 1];
        if i > 1 {
          assert ([x] + rest)[i - 1] == rest[i - 2];
        }
      }
    }
  }

  /** One good tick: one record against the baseline, and a new baseline. */
  lemma GoodTick(s: State, t: Tick, rest: seq<Tick>)
    requires s.open && t.Timer? && !Skipped(t)
    ensures Step(s, t) == State(Read(t.source).value,
                                s.sent + [CPUStats(CPUPercentage(s.prev, Read(t.source).value), t.now)], true)
    ensures GoodReadings([t] + rest) == [Sample(Read(t.source).value, t.now)] + GoodReadings(rest)
  {
    assert ([t] + rest)[1..] == rest;
  }

  /** One skipped tick: no record, no new baseline. */
  lemma SkippedTick(s: State, t: Tick, rest: seq<Tick>)
    requires Skipped(t)
    ensures Step(s, t) == s
    ensures GoodReadings([t] + rest) == GoodReadings(rest)
  {
    assert ([t] + rest)[1..] == rest;
  }

  /** The loop ends closed exactly when a disconnect came. */
  lemma {:induction false} RunOpenUntilDisconnect(s: State, ticks: seq<Tick>)
    requires s.open
    ensures !Run(s, ticks).open <==> Disconnect in ticks
    decreases |ticks|
  {
    if ticks != [] {
      var t, rest := ticks[0], ticks[1..];
      assert ticks == [t] + rest;
      if t.Disconnect? {
        RunClosed(Step(s, t), rest);
      } else {
        RunOpenUntilDisconnect(Step(s, t), rest);
      }
    }
  }

  /** A good tick in front of the rest: one record sent, then the rest from the new baseline. */
  lemma GoodTickRun(p: CPUUsage, sent: seq<CPUStats>, t: Tick, rest: seq<Tick>)
    requires t.Timer? && !Skipped(t)
    ensures var c := Read(t.source).value;
            Run(State(p, sent, true), [t] + rest) == Run(State(c, sent + [CPUStats(CPUPercentage(p, c), t.now)], true), rest)
  {
    GoodTick(State(p, sent, true), t, rest);
    assert ([t] + rest)[0] == t && ([t] + rest)[1..] == rest;
  }

  /** A skipped tick in front of the rest: the rest runs from the same state. */
  lemma SkippedTickRun(s: State, t: Tick, rest: seq<Tick>)
    requires Skipped(t)
    ensures Run(s, [t] + rest) == Run(s, rest)
  {
    SkippedTick(s, t, rest);
    assert ([t] + rest)[0] == t && ([t] + rest)[1..] == rest;
  }

  /** The reference records for a good tick in front of the rest. */
  lemma GoodTickReadings(p: CPUUsage, t: Tick, rest: seq<Tick>)
    requires t.Timer? && !Skipped(t)
    ensures var c := Read(t.source).value;
            Readings(p, GoodReadings([t] + rest)) ==
            [CPUStats(CPUPercentage(p, c), t.now)] + Readings(c, GoodReadings(rest))
  {
    var c := Read(t.source).value;
    assert ([t] + rest)[0] == t && ([t] + rest)[1..] == rest;
    assert GoodReadings([t] + rest) == [Sample(c, t.now)] + GoodReadings(rest);
    ReadingsCons(p, Sample(c, t.now), GoodReadings(rest));
  }

  /**
   * The loop sends exactly one record per good tick before the first
   * disconnect, each measured against the previous good reading.
   */
  lemma {:induction false} RunSendsReadings(p: CPUUsage, sent: seq<CPUStats>, ticks: seq<Tick>)
    ensures Run(State(p, sent, true), ticks).sent == sent + Readings(p, GoodReadings(ticks))
    decreases |ticks|
  {
    var s := State(p, sent, true);
    if ticks == [] {
      assert sent + [] == sent;
    } else {
      var t, rest := ticks[0], ticks[1..];
      assert ticks == [t] + rest;
      assert Run(s, ticks) == Run(Step(s, t), rest);
      if t.Disconnect? {
        RunClosed(Step(s, t), rest);
        assert GoodReadings(ticks) == [];
        assert sent + [] == sent;
      } else if Skipped(t) {
        SkippedTick(s, t, rest);
        RunSendsReadings(p, sent, rest);
      } else {
        var c := Read(t.source).value;
        GoodTickRun(p, sent, t, rest);
        var e := CPUStats(CPUPercentage(p, c), t.now);
        GoodTickReadings(p, t, rest);
        RunSendsReadings(c, sent + [e], rest);
        assert sent + [e] + Readings(c, GoodReadings(rest)) == sent + ([e] + Readings(c, GoodReadings(rest)));
      }
    }
  }

  /** The baseline the loop ends with is the last good reading before the first disconnect, if any. */
  lemma {:induction false} RunEndsOnLastReading(p: CPUUsage, sent: seq<CPUStats>, ticks: seq<Tick>)
    ensures Run(State(p, sent, true), ticks).prev ==
            if GoodReadings(ticks) == [] then p else GoodReadings(ticks)[|GoodReadings(ticks)| - 1].usage
    decreases |ticks|
  {
    var s := State(p, sent, true);
    if ticks != [] {
      var t, rest := ticks[0], ticks[1..];
      assert ticks == [t] + rest;
      assert Run(s, ticks) == Run(Step(s, t), rest);
      if t.Disconnect? {
        RunClosed(Step(s, t), rest);
        assert GoodReadings(ticks) == [];
      } else if Skipped(t) {
        SkippedTick(s, t, rest);
        RunEndsOnLastReading(p, sent, rest);
      } else {
        GoodTick(s, t, rest);
        var c := Read(t.source).value;
        RunEndsOnLastReading(c, sent + [CPUStats(CPUPercentage(p, c), t.now)], rest);
      }
    }
  }

  /** Records are only ever appended, at most one per tick. */
  lemma {:induction false} RunAppendsOnly(s: State, ticks: seq<Tick>)
    ensures var r := Run(s, ticks);
            |s.sent| <= |r.sent| <= |s.sent| + |ticks| && r.sent[..|s.sent|] == s.sent
    decreases |ticks|
  {
    if ticks != [] {
      var s' := Step(s, ticks[0]);
      RunAppendsOnly(s', ticks[1..]);
      var r := Run(s, ticks);
      assert r == Run(s', ticks[1..]);
      assert r.sent[..|s'.sent|][..|s.sent|] == r.sent[..|s.sent|];
    }
  }

  /**
   * The handler end to end: a failed initial read is a 500 with the error and
   * no stream; otherwise the body is the framed records of `Readings`.
   */
  lemma SessionBehaviour(initial: Source, ticks: seq<Tick>, render: real -> string)
    ensures Read(initial).Err? ==> Session(initial, ticks, render) == ServerError(500, Read(initial).error)
    ensures Read(initial).Ok? ==>
              var good := GoodReadings(ticks);
              Session(initial, ticks, render) ==
                EventStream(Wire(Readings(Read(initial).value, good), render),
                            if good == [] then Read(initial).value else good[|good| - 1].usage,
                            Disconnect in ticks)
  {
    if Read(initial).Ok? {
      RunSendsReadings(Read(initial).value, [], ticks);
      RunEndsOnLastReading(Read(initial).value, [], ticks);
      RunOpenUntilDisconnect(State(Read(initial).value, [], true), ticks);
      assert [] + Readings(Read(initial).value, GoodReadings(ticks)) == Readings(Read(initial).value, GoodReadings(ticks));
    }
  }

  /** The clock, as seen by the timer ticks, only moves forward. */
  predicate ClockIncreasing(ticks: seq<Tick>) {
    forall i, j :: 0 <= i < j < |ticks| && ticks[i].Timer? && ticks[j].Timer? ==> ticks[i].now < ticks[j].now
  }

  lemma {:induction false} GoodReadingsAfter(ticks: seq<Tick>, lo: int)
    requires forall m :: 0 <= m < |ticks| && ticks[m].Timer? ==> lo < ticks[m].now
    ensures forall k :: 0 <= k < |GoodReadings(ticks)| ==> lo < GoodReadings(ticks)[k].now
    decreases |ticks|
  {
    if ticks != [] {
      assert forall m :: 0 <= m < |ticks| - 1 ==> ticks[1..][m] == ticks[m + 1];
      GoodReadingsAfter(ticks[1..], lo);
    }
  }

  lemma {:induction false} GoodReadingsIncreasing(ticks: seq<Tick>)
    requires ClockIncreasing(ticks)
    ensures forall i, j :: 0 <= i < j < |GoodReadings(ticks)| ==> GoodReadings(ticks)[i].now < GoodReadings(ticks)[j].now
    decreases |ticks|
  {
    if ticks != [] && ticks[0].Timer? {
      var rest := ticks[1..];
      assert forall m :: 0 <= m < |rest| ==> rest[m] == ticks[m + 1];
      GoodReadingsIncreasing(rest);
      GoodReadingsAfter(rest, ticks[0].now);
    }
  }

  /** With a forward-moving clock, the records go out in increasing timestamp order. */
  lemma TimestampsIncrease(first: CPUUsage, ticks: seq<Tick>)
    requires ClockIncreasing(ticks)
    ensures var sent := Run(State(first, [], true), ticks).sent;
            forall i, j :: 0 <= i < j < |sent| ==> sent[i].timestamp < sent[j].timestamp
  {
    RunSendsReadings(first, [], ticks);
    GoodReadingsIncreasing(ticks);
  }

  /** Each record's JSON ends with its timestamp, which reads back exactly. */
  lemma JsonTimestamp(stats: CPUStats, render: real -> string)
    ensures var json := Json(stats, render);
            var digits := IntToString(stats.timestamp);
            |json| > |digits| && json[|json| - |digits| - 1..|json| - 1] == digits
    ensures ParseInt(IntToString(stats.timestamp)) == Some(stats.timestamp)
  {
    IntToStringRoundTrip(stats.timestamp);
  }

  /** Sending one more record appends exactly one frame to the body. */
  lemma WireAppend(sent: seq<CPUStats>, stats: CPUStats, render: real -> string)
    ensures Wire(sent + [stats], render) == Wire(sent, render) + Frame(Json(stats, render))
  {
    assert (sent + [stats])[..|sent|] == sent;
  }
}
