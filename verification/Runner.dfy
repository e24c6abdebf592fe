/**
  One agent session driven to its end (core/src/orchestrator/runner.rs): the collect loop over the
  event stream, its usage accounting and the estimate for sessions that report no usage. The stream, the
  timeout, the clock and the database's answers are parameters.
 */
module Runner {
  import opened Wrappers
  import opened Events
  import opened Quota

  datatype RunStatus = Done | Broken(error: string) | TimedOut

  datatype RunOutcome = RunOutcome(finalText: string, events: seq<AgentEvent>, status: RunStatus)

  // ----- the simple form -----

  predicate Terminal(e: AgentEvent) {
    e.Completed? || e.Failed?
  }

  /** The first terminal event is authoritative. */
  function FirstTerminal(events: seq<AgentEvent>): (t: Option<AgentEvent>)
    ensures t.Some? ==> Terminal(t.value)
  {
    if events == [] then None
    else if FirstTerminal(events[..|events| - 1]).Some? then FirstTerminal(events[..|events| - 1])
    else if Terminal(events[|events| - 1]) then Some(events[|events| - 1]) else None
  }

  function LastMessage(events: seq<AgentEvent>): Option<string> {
    if events == [] then None
    else if events[|events| - 1].Message? then Some(events[|events| - 1].text)
    else LastMessage(events[..|events| - 1])
  }

  function StatusOf(events: seq<AgentEvent>): RunStatus {
    match FirstTerminal(events)
    case None => Broken("stream ended without terminal event")
    case Some(e) => if e.Completed? then Done else Broken(e.error)
  }

  function FinalTextOf(events: seq<AgentEvent>): string {
    var t := FirstTerminal(events);
    if t.Some? && t.value.Completed? && t.value.result.Some? then t.value.result.value
    else if LastMessage(events).Some? then LastMessage(events).value
    else ""
  }

  predicate ReportsUsage(events: seq<AgentEvent>) {
    events != [] && (NonZero(events[|events| - 1]) || ReportsUsage(events[..|events| - 1]))
  }

  predicate NonZero(e: AgentEvent) {
    e.Usage? && (e.inputTokens > 0 || e.outputTokens > 0)
  }

  /** About four characters to a token, rounded up. */
  function EstimateTokens(text: string): nat {
    (|text| + 3) / 4
  }

  /** What the k-th write is told by the clock and the database. */
  datatype Side = Side(now: nat -> int, accepts: nat -> bool, provider: Provider)

  /** The rows after a write that the database may refuse. */
  function Written(rows: seq<Row>, side: Side, k: nat, input: nat, output: nat, estimated: bool): seq<Row> {
    if input <= I64_MAX && output <= I64_MAX && side.accepts(k) then
      rows + [Row(side.now(k), side.provider, input, output, estimated)]
    else rows
  }

  /** The rows a stream leaves: one for each usage event that can be written, in order. */
  function UsageRows(side: Side, events: seq<AgentEvent>): seq<Row> {
    if events == [] then []
    else
      var k := |events| - 1;
      var front := UsageRows(side, events[..k]);
      if events[k].Usage? then Written(front, side, k, events[k].inputTokens, events[k].outputTokens, false) else front
  }

  function EstimateRows(side: Side, prompt: string, events: seq<AgentEvent>): seq<Row> {
    if StatusOf(events).Done? && !ReportsUsage(events) then
      Written([], side, |events|, EstimateTokens(prompt), EstimateTokens(FinalTextOf(events)), true)
    else []
  }

  lemma WrittenBehind(log: seq<Row>, rows: seq<Row>, side: Side, k: nat, input: nat, output: nat, estimated: bool)
    ensures log + Written(rows, side, k, input, output, estimated) ==
      Written(log + rows, side, k, input, output, estimated)
  {
    if input <= I64_MAX && output <= I64_MAX && side.accepts(k) {
      var r := Row(side.now(k), side.provider, input, output, estimated);
      assert log + (rows + [r]) == log + rows + [r];
    }
  }

  // ----- the loop -----

  method Collect(stream: seq<AgentEvent>, side: Side, quota: QuotaStore)
    returns (events: seq<AgentEvent>, status: Option<RunStatus>, finalText: string)
    modifies quota
    ensures events == stream
    ensures status == (if FirstTerminal(stream).None? then None else Some(StatusOf(stream)))
    ensures finalText == FinalTextOf(stream)
    ensures quota.log == old(quota.log) + UsageRows(side, stream)
  {
    events := [];
    status := None;
    var candidate: Option<Option<string>> := None;
    var lastMessage: Option<string> := None;
    for k := 0 to |stream|
      invariant events == stream[..k]
      invariant status == (if FirstTerminal(stream[..k]).None? then None else Some(StatusOf(stream[..k])))
      invariant candidate == (var t := FirstTerminal(stream[..k]);
                              if t.Some? && t.value.Completed? then Some(t.value.result) else None)
      invariant lastMessage == LastMessage(stream[..k])
      invariant quota.log == old(quota.log) + UsageRows(side, stream[..k])
    {
      var ev := stream[k];
      assert stream[..k + 1] == stream[..k] + [ev] && stream[..k + 1][..k] == stream[..k];
      match ev {
        case Usage(input, output) =>
          WrittenBehind(old(quota.log), UsageRows(side, stream[..k]), side, k, input, output, false);
          var written := quota.RecordAtFlagged(side.provider, input, output, side.now(k), false, side.accepts(k));
        case Message(text) =>
          lastMessage := Some(text);
        case Completed(result) =>
          if status.None? {
            candidate := Some(result);
            status := Some(Done);
          }
        case Failed(error) =>
          if status.None? {
            status := Some(Broken(error));
          }
        case _ =>
      }
      events := events + [ev];
    }
    assert stream[..|stream|] == stream;
    var result := if candidate.Some? then candidate.value else None;
    finalText := if result.Some? then result.value else if lastMessage.Some? then lastMessage.value else "";
  }

  /**
    Runs one session. `spawned` is whether the process launched, `cut` the number of events received when
    the timeout struck.
   */
  method RunToCompletion(prompt: string, spawned: Result<seq<AgentEvent>, string>, cut: Option<nat>, side: Side,
                         quota: QuotaStore)
    returns (r: Result<RunOutcome, string>)
    requires spawned.Success? && cut.Some? ==> cut.value <= |spawned.value|
    modifies quota
    ensures spawned.Failure? ==> r == Failure(spawned.error) && quota.log == old(quota.log)
    ensures spawned.Success? && cut.Some? ==>
      && r == Success(RunOutcome("", [], TimedOut))
      && quota.log == old(quota.log) + UsageRows(side, spawned.value[..cut.value])
    ensures spawned.Success? && cut.None? ==>
      && r == Success(RunOutcome(FinalTextOf(spawned.value), spawned.value, StatusOf(spawned.value)))
      && quota.log == old(quota.log) + UsageRows(side, spawned.value) + EstimateRows(side, prompt, spawned.value)
  {
    if spawned.Failure? {
      return Failure(spawned.error);
    }
    if cut.Some? {
      var events, status, text := Collect(spawned.value[..cut.value], side, quota);
      return Success(RunOutcome("", [], TimedOut));
    }
    var events, ended, text := Collect(spawned.value, side, quota);
    var status := if ended.Some? then ended.value else Broken("stream ended without terminal event");
    if status == Done && !ReportsUsage(events) {
      var input, output := EstimateTokens(prompt), EstimateTokens(text);
      var written := quota.RecordAtFlagged(side.provider, input, output, side.now(|events|), true,
        side.accepts(|events|));
    }
    return Success(RunOutcome(text, events, status));
  }

  // ----- what the simple form means -----

  /** The authoritative event is a terminal one with no terminal before it. */
  lemma {:induction false} FirstTerminalIsFirst(events: seq<AgentEvent>)
    ensures FirstTerminal(events).None? <==> forall k :: 0 <= k < |events| ==> !Terminal(events[k])
    ensures FirstTerminal(events).Some? ==>
      exists k :: 0 <= k < |events| && FirstTerminal(events) == Some(events[k]) && Terminal(events[k])
                  && forall j :: 0 <= j < k ==> !Terminal(events[j])
  {
    if events != [] {
      var front := events[..|events| - 1];
      FirstTerminalIsFirst(front);
      if FirstTerminal(front).Some? {
        var k :| 0 <= k < |front| && FirstTerminal(front) == Some(front[k]) && Terminal(front[k])
                 && forall j :: 0 <= j < k ==> !Terminal(front[j]);
        assert events[k] == front[k];
        forall j | 0 <= j < k ensures !Terminal(events[j]) {
          assert events[j] == front[j];
        }
      } else {
        forall j | 0 <= j < |front| ensures !Terminal(events[j]) {
          assert events[j] == front[j];
        }
      }
    }
  }

  /** Event `k` is the first that says how the session ended. */
  predicate EndsAt(events: seq<AgentEvent>, k: int) {
    && 0 <= k < |events| && (events[k].Completed? || events[k].Failed?)
    && forall j :: 0 <= j < k ==> !events[j].Completed? && !events[j].Failed?
  }

  /** Event `k` is the last message. */
  predicate SpeaksLastAt(events: seq<AgentEvent>, k: int) {
    0 <= k < |events| && events[k].Message? && forall j :: k < j < |events| ==> !events[j].Message?
  }

  /**
    Which status a stream has: done exactly when the first event that ends it completes it, failed with that event's
    error when it fails it, and failed with a text of its own when nothing ends it.
   */
  lemma StatusExactly(events: seq<AgentEvent>)
    ensures StatusOf(events) == Done <==> exists k :: EndsAt(events, k) && events[k].Completed?
    ensures forall error :: StatusOf(events) == Broken(error) <==>
              || (exists k :: EndsAt(events, k) && events[k] == Failed(error))
              || ((forall k :: !EndsAt(events, k)) && error == "stream ended without terminal event")
    ensures StatusOf(events) != TimedOut
  {
    FirstTerminalIsFirst(events);
    if FirstTerminal(events).Some? {
      var k :| 0 <= k < |events| && FirstTerminal(events) == Some(events[k]) && Terminal(events[k])
               && forall j :: 0 <= j < k ==> !Terminal(events[j]);
      assert EndsAt(events, k) by {
        forall j | 0 <= j < k ensures !events[j].Completed? && !events[j].Failed? {
          assert !Terminal(events[j]);
        }
      }
    } else {
      forall k ensures !EndsAt(events, k) {
        assert 0 <= k < |events| ==> !Terminal(events[k]);
      }
    }
  }

  lemma {:induction false} LastMessageExactly(events: seq<AgentEvent>)
    ensures forall text :: LastMessage(events) == Some(text) <==>
              exists k :: SpeaksLastAt(events, k) && events[k] == Message(text)
  {
    if events != [] {
      var n := |events| - 1;
      LastMessageExactly(events[..n]);
      if events[n].Message? {
        assert SpeaksLastAt(events, n);
      } else {
        forall k ensures SpeaksLastAt(events, k) <==> SpeaksLastAt(events[..n], k) {
          SpeaksLastBefore(events, n, k);
        }
      }
    }
  }

  lemma SpeaksLastBefore(events: seq<AgentEvent>, n: nat, k: int)
    requires |events| == n + 1 && !events[n].Message?
    ensures SpeaksLastAt(events, k) <==> SpeaksLastAt(events[..n], k)
  {
    if SpeaksLastAt(events, k) {
      forall j | k < j < n ensures !events[..n][j].Message? {
        assert !events[j].Message?;
      }
    }
    if SpeaksLastAt(events[..n], k) {
      forall j | k < j < |events| ensures !events[j].Message? {
        assert j < n ==> events[j] == events[..n][j];
      }
    }
  }

  /** Event `k` ends the session well, with a text. */
  predicate CarriesText(events: seq<AgentEvent>, k: int) {
    EndsAt(events, k) && events[k].Completed? && events[k].result.Some?
  }

  /** The final text: what the completing event carries, else the last message, else nothing. */
  lemma FinalTextExactly(events: seq<AgentEvent>)
    ensures forall k :: CarriesText(events, k) ==> FinalTextOf(events) == events[k].result.value
    ensures (forall k :: !CarriesText(events, k)) ==>
              && (forall k :: SpeaksLastAt(events, k) ==> FinalTextOf(events) == events[k].text)
              && (FinalTextOf(events) == "" || exists k :: SpeaksLastAt(events, k))
  {
    LastMessageExactly(events);
    FirstTerminalIsFirst(events);
    if t :| 0 <= t < |events| && FirstTerminal(events) == Some(events[t]) && Terminal(events[t])
            && forall j :: 0 <= j < t ==> !Terminal(events[j]) {
      forall j | 0 <= j < t ensures !events[j].Completed? && !events[j].Failed? {
        assert !Terminal(events[j]);
      }
      assert EndsAt(events, t);
      assert CarriesText(events, t) <==> events[t].Completed? && events[t].result.Some?;
    }
    forall k | SpeaksLastAt(events, k) ensures LastMessage(events) == Some(events[k].text) {
      assert events[k] == Message(events[k].text);
    }
  }

  /** Tokens are estimated at four characters each, rounded up. */
  lemma EstimateIsCeiling(text: string)
    ensures 4 * EstimateTokens(text) - 4 < |text| <= 4 * EstimateTokens(text)
  {
  }

  /** Nothing said after the end of a session changes how it ended. */
  lemma {:induction false} LaterEventsKeepTheEnd(events: seq<AgentEvent>, more: seq<AgentEvent>)
    requires FirstTerminal(events).Some?
    ensures FirstTerminal(events + more) == FirstTerminal(events) && StatusOf(events + more) == StatusOf(events)
    decreases |more|
  {
    if more == [] {
      assert events + more == events;
    } else {
      assert (events + more)[..|events + more| - 1] == events + more[..|more| - 1];
      LaterEventsKeepTheEnd(events, more[..|more| - 1]);
    }
  }

  function UsageSum(events: seq<AgentEvent>, t: Tokens): nat {
    if events == [] then 0
    else
      var last := events[|events| - 1];
      UsageSum(events[..|events| - 1], t)
      + (if !last.Usage? then 0 else if t.Input? then last.inputTokens else last.outputTokens)
  }

  lemma {:induction false} ReportsUsageMeansPositive(events: seq<AgentEvent>)
    ensures ReportsUsage(events) <==> UsageSum(events, Input) > 0 || UsageSum(events, Output) > 0
  {
    if events != [] {
      var front, last := events[..|events| - 1], events[|events| - 1];
      ReportsUsageMeansPositive(front);
      assert ReportsUsage(events) <==> NonZero(last) || ReportsUsage(front);
    }
  }

  /** Every write is accepted, inside the window, and small enough for the database. */
  ghost predicate Recorded(side: Side, prompt: string, events: seq<AgentEvent>, since: int) {
    && (forall k :: 0 <= k <= |events| ==> side.accepts(k) && side.now(k) >= since)
    && (forall k :: 0 <= k < |events| && events[k].Usage? ==>
          events[k].inputTokens <= I64_MAX && events[k].outputTokens <= I64_MAX)
    && EstimateTokens(prompt) <= I64_MAX && EstimateTokens(FinalTextOf(events)) <= I64_MAX
  }

  lemma {:induction false} UsageRowsSum(side: Side, events: seq<AgentEvent>, p: Provider, since: int, t: Tokens)
    requires forall k :: 0 <= k < |events| ==> side.accepts(k) && side.now(k) >= since
    requires forall k :: 0 <= k < |events| && events[k].Usage? ==>
               events[k].inputTokens <= I64_MAX && events[k].outputTokens <= I64_MAX
    ensures Sum(UsageRows(side, events), p, since, t) == (if p == side.provider then UsageSum(events, t) else 0)
  {
    if events != [] {
      var k := |events| - 1;
      var front := events[..k];
      UsageRowsSum(side, front, p, since, t);
      if events[k].Usage? {
        var r := Row(side.now(k), side.provider, events[k].inputTokens, events[k].outputTokens, false);
        assert UsageRows(side, events) == UsageRows(side, front) + [r];
        SumPush(UsageRows(side, front), r, p, since, t);
      } else {
        assert UsageRows(side, events) == UsageRows(side, front);
      }
    }
  }

  /** The estimate from the prompt's and the answer's lengths. */
  function Estimate(prompt: string, events: seq<AgentEvent>, t: Tokens): nat {
    if t.Input? then EstimateTokens(prompt) else EstimateTokens(FinalTextOf(events))
  }

  lemma EstimateRowsSum(side: Side, prompt: string, events: seq<AgentEvent>, p: Provider, since: int, t: Tokens)
    requires Recorded(side, prompt, events, since)
    ensures Sum(EstimateRows(side, prompt, events), p, since, t) ==
      if p == side.provider && StatusOf(events).Done? && !ReportsUsage(events) then Estimate(prompt, events, t) else 0
  {
    if StatusOf(events).Done? && !ReportsUsage(events) {
      var r := Row(side.now(|events|), side.provider, EstimateTokens(prompt), EstimateTokens(FinalTextOf(events)),
        true);
      assert EstimateRows(side, prompt, events) == [r];
      SumOne(r, p, since, t);
    }
  }

  lemma SumOfThree(a: seq<Row>, b: seq<Row>, c: seq<Row>, p: Provider, since: int, t: Tokens)
    ensures Sum(a + b + c, p, since, t) == Sum(a, p, since, t) + Sum(b, p, since, t) + Sum(c, p, since, t)
  {
    SumConcat(a, b, p, since, t);
    SumConcat(a + b, c, p, since, t);
  }

  /**
    A session adds its usage to its own provider's totals, plus an estimate exactly when it completed and
    reported no usage; no other provider's totals move.
   */
  lemma TotalsGrowByUsage(side: Side, prompt: string, events: seq<AgentEvent>, log: seq<Row>, p: Provider, since: int,
                          t: Tokens)
    requires Recorded(side, prompt, events, since)
    ensures Sum(log + UsageRows(side, events) + EstimateRows(side, prompt, events), p, since, t) ==
      Sum(log, p, since, t) +
      if p != side.provider then 0
      else if StatusOf(events).Done? && UsageSum(events, Input) == 0 && UsageSum(events, Output) == 0 then
        Estimate(prompt, events, t)
      else UsageSum(events, t)
  {
    UsageRowsSum(side, events, p, since, t);
    EstimateRowsSum(side, prompt, events, p, since, t);
    ReportsUsageMeansPositive(events);
    SumOfThree(log, UsageRows(side, events), EstimateRows(side, prompt, events), p, since, t);
  }
}
