/**
  The grounding verifier (core/src/orchestrator/verify.rs): runs the resolved commands in order;
  build and test block, lint only advises. What each command does is an oracle.
 */
module Verify {
  import opened Utf8

  const TAIL_CAP := 3000

  datatype Command = Command(name: string, command: string, timeoutSecs: nat)

  /** What running one command came to: an exit with its output, an expired timeout, or a launch the system refused. */
  datatype Exit = Exited(ok: bool, output: Text) | Elapsed | LaunchFailed(error: Text)

  datatype Marker = MarkOk | MarkFailed | MarkFailedAdvisory | MarkTimeout | MarkTimeoutAdvisory | MarkLaunchError

  /** What a summary line is printed from: the command with its time limit, the verdict, and what it quotes. */
  datatype Line = Line(command: Command, marker: Marker, quote: Text)

  datatype Outcome = Outcome(ran: bool, passed: bool, summary: seq<Line>)

  predicate Blocking(c: Command) {
    c.name != "lint"
  }

  predicate Succeeded(e: Exit) {
    e.Exited? && e.ok
  }

  /** Every command that is not lint exited successfully. */
  predicate AllBlockingSucceeded(runs: seq<(Command, Exit)>) {
    forall i :: 0 <= i < |runs| && Blocking(runs[i].0) ==> Succeeded(runs[i].1)
  }

  /** What a line quotes: the end of an unsuccessful command's output, the error of a failed launch, else nothing. */
  ghost predicate Quotes(e: Exit, quote: Text) {
    match e
    case Exited(ok, output) => if ok then quote == [] else IsLongestSuffix(output, TAIL_CAP, quote)
    case Elapsed => quote == []
    case LaunchFailed(error) => quote == error
  }

  /** The line recorded for one run: its verdict, and what it quotes. */
  ghost predicate RecordsRun(run: (Command, Exit), line: Line) {
    && line.command == run.0
    && (line.marker.MarkOk? <==> Succeeded(run.1))
    && (line.marker.MarkFailed? <==> run.1.Exited? && !run.1.ok && Blocking(run.0))
    && (line.marker.MarkFailedAdvisory? <==> run.1.Exited? && !run.1.ok && !Blocking(run.0))
    && (line.marker.MarkTimeout? <==> run.1.Elapsed? && Blocking(run.0))
    && (line.marker.MarkTimeoutAdvisory? <==> run.1.Elapsed? && !Blocking(run.0))
    && (line.marker.MarkLaunchError? <==> run.1.LaunchFailed?)
    && Quotes(run.1, line.quote)
  }

  /** The end of the output that the summary quotes. */
  ghost function QuotedTail(s: Text, max: nat): (r: Text)
    ensures IsLongestSuffix(s, max, r)
    decreases |s|, max
  {
    if |s| <= max then
      assert s[|s| - |s|..] == s;
      s
    else if WellFormed(s[|s| - max..]) then s[|s| - max..]
    else
      assert max > 0 by { assert s[|s| - 0..] == []; }
      QuotedTail(s, max - 1)
  }

  ghost function LineOf(run: (Command, Exit)): (line: Line)
    ensures RecordsRun(run, line)
  {
    var blocking := Blocking(run.0);
    if run.1.Elapsed? then Line(run.0, if blocking then MarkTimeout else MarkTimeoutAdvisory, [])
    else if run.1.LaunchFailed? then Line(run.0, MarkLaunchError, run.1.error)
    else if run.1.ok then Line(run.0, MarkOk, [])
    else Line(run.0, if blocking then MarkFailed else MarkFailedAdvisory, QuotedTail(run.1.output, TAIL_CAP))
  }

  /** The summary is a function of what the commands did, so equal runs cannot be told apart by it. */
  ghost function SummaryOf(runs: seq<(Command, Exit)>): (s: seq<Line>)
    ensures |s| == |runs| && forall i :: 0 <= i < |runs| ==> RecordsRun(runs[i], s[i])
  {
    seq(|runs|, i requires 0 <= i < |runs| => LineOf(runs[i]))
  }

  lemma LineIsDetermined(run: (Command, Exit), a: Line, b: Line)
    requires RecordsRun(run, a) && RecordsRun(run, b)
    ensures a == b
  {
    if run.1.Exited? && !run.1.ok {
      LongestSuffixIsUnique(run.1.output, TAIL_CAP, a.quote, b.quote);
    }
  }

  method RecordRun(run: (Command, Exit)) returns (line: Line)
    ensures RecordsRun(run, line) && line == LineOf(run)
  {
    var blocking := Blocking(run.0);
    var exit := run.1;
    if exit.Elapsed? {
      line := Line(run.0, if blocking then MarkTimeout else MarkTimeoutAdvisory, []);
    } else if exit.LaunchFailed? {
      line := Line(run.0, MarkLaunchError, exit.error);
    } else if exit.ok {
      line := Line(run.0, MarkOk, []);
    } else {
      var tail := TruncateTail(exit.output, TAIL_CAP);
      line := Line(run.0, if blocking then MarkFailed else MarkFailedAdvisory, tail);
    }
    LineIsDetermined(run, line, LineOf(run));
  }

  /** The first `n` commands that are not lint exited successfully. */
  ghost predicate SucceededUpTo(runs: seq<(Command, Exit)>, n: nat) {
    forall i :: 0 <= i < n && i < |runs| && Blocking(runs[i].0) ==> Succeeded(runs[i].1)
  }

  method RunResolvedVerify(runs: seq<(Command, Exit)>) returns (o: Outcome)
    ensures o.ran <==> runs != []
    ensures o.passed <==> runs != [] && AllBlockingSucceeded(runs)
    ensures o.summary == SummaryOf(runs)
  {
    if runs == [] {
      return Outcome(false, false, []);
    }
    var passed := true;
    var summary: seq<Line> := [];
    for i := 0 to |runs|
      invariant passed <==> SucceededUpTo(runs, i)
      invariant |summary| == i && forall j :: 0 <= j < i ==> summary[j] == LineOf(runs[j])
    {
      var run := runs[i];
      if !Succeeded(run.1) && Blocking(run.0) {
        passed := false;
      }
      var line := RecordRun(run);
      summary := summary + [line];
    }
    assert summary == SummaryOf(runs);
    return Outcome(true, passed, summary);
  }
}
