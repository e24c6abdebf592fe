/**
  `run_conduct` and `run_review_gate` (core/src/orchestrator/conduct.rs) as loops over the run's own
  variables. Each method is proved to append to the history exactly what `ConductHistory` allows.
 */
module ConductLoop {
  import opened Wrappers
  import opened Topology
  import opened ConductModel
  import opened ConductHistory
  import Verify

  datatype GateDecision =
    | GateAccept
    | GateShip(record: ArbiterRecord)
    | GateRework(findings: string)
    | GateFail(reason: Reason, ruling: Option<ArbiterRecord>)

  function GateAsMeaning(d: GateDecision): Meaning {
    match d
    case GateAccept => Complete(None)
    case GateShip(r) => Complete(Some(r))
    case GateRework(_) => Continue
    case GateFail(reason, r) => FailWith(reason, r)
  }

  /** The last attempt gains a review status; every other attempt is untouched. */
  predicate PatchedLast(before: seq<Attempt>, after: seq<Attempt>, status: ReviewStatus) {
    && before != [] && |after| == |before|
    && after[..|after| - 1] == before[..|before| - 1]
    && after[|after| - 1] == before[|before| - 1].(review := status)
  }

  method RunReviewGate(cfg: Config, ans: Answers, id: nat, num: nat, attempts: seq<Attempt>)
    returns (d: GateDecision, attempts': seq<Attempt>)
    requires attempts != [] && cfg.reviewer
    ensures PatchedLast(attempts, attempts', ReviewStatusOf(ans))
    ensures GateAsMeaning(d) == GateMeaning(cfg, id, ans, num)
    ensures d.GateRework? ==> num < MAX_REWORKS && d.findings == FindingsOf(ans)
  {
    var last := |attempts| - 1;
    if ans.review.Failure? {
      return GateAccept, attempts[last := attempts[last].(review := Unavailable)];
    }
    var verdict := ans.review.value;
    var blocks := verdict.None? || verdict.value.critical;
    var findings := if verdict.Some? then verdict.value.findings else "reviewer output unparseable";
    var status := if verdict.None? then UnparseableReview else if blocks then Critical else Clean;
    attempts' := attempts[last := attempts[last].(review := status)];
    if !blocks {
      return GateAccept, attempts';
    }
    if num < MAX_REWORKS {
      return GateRework(findings), attempts';
    }
    if !cfg.arbiter {
      return GateFail(ReviewExhausted(id, findings), None), attempts';
    }
    if ans.arbiter.Failure? {
      return GateFail(ArbiterDown(id, ans.arbiter.error), Some(ArbiterUnavailable(ans.arbiter.error))), attempts';
    }
    var ruling := if ans.arbiter.value.Some? then ans.arbiter.value.value
                  else ArbiterVerdict(false, "arbiter output unparseable");
    if ruling.ship {
      return GateShip(ArbiterShip(ruling.reason)), attempts';
    }
    return GateFail(ArbiterSaidFail(id, ruling.reason), Some(ArbiterFail(ruling.reason))), attempts';
  }

  datatype SubtaskEnd = Next | HaltRun | OverBudget(elapsed: nat) | AbortRun(error: string)

  datatype Outcome = Outcome(completed: seq<nat>, skipped: seq<nat>, halted: Option<string>, failed: Option<Reason>,
                             entries: seq<Entry>)

  /** The outcome of a run is what its passes, all within the rules, say. */
  ghost predicate Summarizes(cfg: Config, w: World, passes: seq<Pass>, o: Outcome) {
    && RunOk(cfg, w, passes)
    && FinalFailure(cfg, w, passes, o.failed)
    && o.halted == HaltNote(passes[|passes| - 1].end)
    && o.completed == CompletedAfter(passes[|passes| - 1])
    && o.entries == AllEntries(passes)
    && o.skipped == IdsWith(Skipped, AllEntries(passes))
  }

  class ConductRun {
    const cfg: Config
    const world: World

    var completed: seq<nat>
    var skipped: seq<nat>
    var halted: Option<string>
    var failed: Option<Reason>
    var entries: seq<Entry>
    var replansUsed: nat
    /** Attempts made and clock readings taken so far: the oracle's cursors. */
    var tick: nat
    var clockReads: nat

    constructor (cfg: Config, world: World)
      ensures this.cfg == cfg && this.world == world
      ensures completed == [] && skipped == [] && halted == None && failed == None && entries == []
      ensures replansUsed == 0 && tick == 0 && clockReads == 0
    {
      this.cfg, this.world := cfg, world;
      completed, skipped, halted, failed, entries, replansUsed, tick, clockReads := [], [], None, None, [], 0, 0, 0;
    }

    /** The end of an attempt: evaluation, grounding, the record, and the gate of an acceptance. */
    method Judge(s: Subtask, num: nat, ans: Answers, attempts: seq<Attempt>, verdict: Verify.Outcome, stalled: bool,
                 worker: nat)
      returns (m: Meaning, attempts': seq<Attempt>)
      requires ans.route == Success(worker) && ans.worker.Success? && ans.changes.Success? && ans.evaluation.Success?
      requires verdict.ran <==> ans.runs != []
      requires verdict.passed <==> ans.runs != [] && Verify.AllBlockingSucceeded(ans.runs)
      requires verdict.summary == Verify.SummaryOf(ans.runs)
      ensures var e := Grounded(ans);
        m == match e.decision
             case Accept => GateMeaning(cfg, s.id, ans, num)
             case Fail => FailWith(EvaluatedFail(s.id, e.feedback), None)
             case Rework =>
               if stalled then FailWith(Stalled(s.id, num + 1, e.feedback), None)
               else if num >= MAX_REWORKS then FailWith(ReworksExhausted(s.id, e.feedback), None)
               else Continue
      ensures |attempts'| == |attempts| + 1 && attempts'[..|attempts|] == attempts
      ensures RecordsAttempt(cfg, ans, num, attempts'[|attempts|])
    {
      var evaluation := Parsed(ans.evaluation.value);
      if verdict.ran && !verdict.passed && evaluation.decision.Accept? {
        evaluation := Evaluation(Rework, BuildFailed(verdict.summary));
      }
      assert evaluation == Grounded(ans);
      var verifyStatus := if !verdict.ran then NotRun else if verdict.passed then Passed else Failed;
      attempts' := attempts
        + [Attempt(num, worker, evaluation.decision, evaluation.feedback, |ans.changes.value|, verifyStatus,
                   NotReviewed)];
      if evaluation.decision.Accept? {
        var d := GateAccept;
        if cfg.reviewer {
          d, attempts' := RunReviewGate(cfg, ans, s.id, num, attempts');
        }
        m := GateAsMeaning(d);
      } else if evaluation.decision.Fail? {
        m := FailWith(EvaluatedFail(s.id, evaluation.feedback), None);
      } else if num >= MAX_REWORKS || stalled {
        m := FailWith(if stalled then Stalled(s.id, num + 1, evaluation.feedback)
                      else ReworksExhausted(s.id, evaluation.feedback), None);
      } else {
        m := Continue;
      }
    }

    /** One attempt: worker, capture, verify, supervisor, evaluation, grounding and review. */
    method RunAttempt(s: Subtask, num: nat, attempts: seq<Attempt>, notes: seq<SupervisorNote>, fingerprints: seq<nat>)
      returns (m: Meaning, attempts': seq<Attempt>, notes': seq<SupervisorNote>, fingerprints': seq<nat>)
      modifies `tick
      ensures tick == old(tick) + 1
      ensures m == MeaningOf(cfg, world, s.id, world.attempt(old(tick)), num, fingerprints)
      ensures notes' == notes + NoteOf(cfg, world.attempt(old(tick)))
      ensures fingerprints' == fingerprints + Capture(world, world.attempt(old(tick)))
      ensures m.HaltWith? ==> attempts' == attempts
      ensures !m.HaltWith? && !m.Abort? ==>
        && |attempts'| == |attempts| + 1 && attempts'[..|attempts|] == attempts
        && RecordsAttempt(cfg, world.attempt(old(tick)), num, attempts'[|attempts|])
    {
      attempts', notes', fingerprints' := attempts, notes, fingerprints;
      var ans := world.attempt(tick);
      tick := tick + 1;
      if ans.route.Failure? {
        return Abort(ans.route.error), attempts', notes', fingerprints';
      }
      var worker := ans.route.value;
      if ans.worker.Failure? {
        attempts' := attempts + [Attempt(num, worker, Rework, WorkersFailed(ans.worker.error), 0, NotRun, NotReviewed)];
        m := if num >= MAX_REWORKS then FailWith(WorkersExhausted(s.id, ans.worker.error), None) else Continue;
        return;
      }
      if ans.changes.Failure? {
        return Abort(ans.changes.error), attempts', notes', fingerprints';
      }
      var changes := ans.changes.value;
      var verdict := Verify.RunResolvedVerify(ans.runs);
      var fp := world.fingerprint(changes, verdict.summary);
      var stalled := fp in fingerprints;
      fingerprints' := fingerprints + [fp];
      if cfg.supervisor {
        if ans.supervisor.Failure? {
          notes' := notes + [SupervisorFailed(ans.supervisor.error)];
        } else {
          var v := ParsedSupervisor(ans.supervisor.value);
          notes' := notes + [Verdict(v)];
          if v.status.Halt? {
            return HaltWith(v.note), attempts', notes', fingerprints';
          }
        }
      }
      if ans.evaluation.Failure? {
        return Abort(ans.evaluation.error), attempts', notes', fingerprints';
      }
      m, attempts' := Judge(s, num, ans, attempts, verdict, stalled, worker);
    }

    /** `RunAttempt` as the `num`-th of the attempts that began at tick `t`. */
    method NextAttempt(s: Subtask, ghost t: nat, num: nat, attempts: seq<Attempt>, notes: seq<SupervisorNote>,
                       fingerprints: seq<nat>)
      returns (m: Meaning, attempts': seq<Attempt>, notes': seq<SupervisorNote>, fingerprints': seq<nat>)
      requires tick == t + num && |attempts| == num && AttemptsRecorded(cfg, world, t, attempts)
      requires notes == NotesUpTo(cfg, world, t, num) && fingerprints == Seen(world, t, num)
      modifies `tick
      ensures tick == old(tick) + 1
      ensures m == MeaningAt(cfg, world, s.id, t, num)
      ensures notes' == NotesUpTo(cfg, world, t, num + 1) && fingerprints' == Seen(world, t, num + 1)
      ensures !m.Abort? ==>
        |attempts'| == (if m.HaltWith? then num else num + 1) && AttemptsRecorded(cfg, world, t, attempts')
    {
      m, attempts', notes', fingerprints' := RunAttempt(s, num, attempts, notes, fingerprints);
      if !m.HaltWith? && !m.Abort? {
        RecordsExtend(cfg, world, t, attempts, attempts');
      }
    }

    /** Writes the entry of a decided subtask; an earlier failure of the pass is kept. */
    method Settle(s: Subtask, m: Meaning, attempts: seq<Attempt>, notes: seq<SupervisorNote>)
      returns (end: SubtaskEnd, ghost e: Entry, ghost r: Option<Reason>)
      requires m.Complete? || m.FailWith? || (m.HaltWith? && LastNote(notes) == Some(m.note))
      modifies `completed, `halted, `failed, `entries
      ensures EntryFor(m, e, r) && e == Entry(s.id, s.title, e.status, attempts, notes, e.arbiter)
      ensures entries == old(entries) + [e]
      ensures completed == Added(old(completed), e.status == Completed, s.id)
      ensures failed == Or(old(failed), r)
      ensures end == (if m.HaltWith? then HaltRun else Next)
      ensures halted == (if m.HaltWith? then Some(m.note) else old(halted))
    {
      end := Next;
      match m {
        case Complete(record) =>
          e, r := Entry(s.id, s.title, Completed, attempts, notes, record), None;
          completed := completed + [s.id];
          entries := entries + [Entry(s.id, s.title, Completed, attempts, notes, record)];
        case FailWith(reason, record) =>
          e, r := Entry(s.id, s.title, FailedSubtask, attempts, notes, record), Some(reason);
          if failed.None? {
            failed := Some(reason);
          }
          entries := entries + [Entry(s.id, s.title, FailedSubtask, attempts, notes, record)];
        case HaltWith(note) =>
          e, r := Entry(s.id, s.title, Halted, attempts, notes, None), None;
          halted := Some(note);
          entries := entries + [Entry(s.id, s.title, Halted, attempts, notes, None)];
          end := HaltRun;
      }
    }

    /** Settles the subtask on its `num`-th attempt, which decided. */
    method Conclude(s: Subtask, ghost t: nat, ghost num: nat, m: Meaning, attempts: seq<Attempt>,
                    notes: seq<SupervisorNote>)
      returns (end: SubtaskEnd, ghost e: Entry, ghost r: Option<Reason>)
      requires num <= MAX_REWORKS && AllContinue(cfg, world, s.id, t, num)
      requires m == MeaningAt(cfg, world, s.id, t, num) && !m.Continue? && !m.Abort?
      requires |attempts| == (if m.HaltWith? then num else num + 1) && AttemptsRecorded(cfg, world, t, attempts)
      requires notes == NotesUpTo(cfg, world, t, num + 1)
      modifies `completed, `halted, `failed, `entries
      ensures !end.OverBudget? && !end.AbortRun? && AttemptsRun(cfg, world, s, t, num + 1, e, r)
      ensures entries == old(entries) + [e]
      ensures completed == Added(old(completed), e.status == Completed, s.id)
      ensures failed == Or(old(failed), r)
      ensures end.HaltRun? <==> e.status == Halted
      ensures halted == (if end.HaltRun? then LastNote(e.supervisor) else old(halted))
      ensures end.HaltRun? ==> halted.Some?
    {
      if m.HaltWith? {
        HaltIsNoted(cfg, world, s.id, t, num);
      }
      end, e, r := Settle(s, m, attempts, notes);
      DecidedIsRun(cfg, world, s, t, num, m, e, r);
    }

    /** The attempt loop of one subtask: up to `MAX_REWORKS` + 1 attempts, ended by the first that decides. */
    method AttemptUntilDecided(s: Subtask)
      returns (m: Meaning, ghost last: nat, attempts: seq<Attempt>, notes: seq<SupervisorNote>)
      modifies `tick
      ensures last <= MAX_REWORKS && tick == old(tick) + last + 1 && AllContinue(cfg, world, s.id, old(tick), last)
      ensures m == MeaningAt(cfg, world, s.id, old(tick), last) && !m.Continue?
      ensures !m.Abort? ==>
        |attempts| == (if m.HaltWith? then last else last + 1) && AttemptsRecorded(cfg, world, old(tick), attempts)
      ensures notes == NotesUpTo(cfg, world, old(tick), last + 1)
    {
      m, attempts, notes := Continue, [], [];
      var fingerprints: seq<nat> := [];
      for num := 0 to MAX_REWORKS + 1
        invariant tick == old(tick) + num
        invariant |attempts| == num && AttemptsRecorded(cfg, world, old(tick), attempts)
        invariant notes == NotesUpTo(cfg, world, old(tick), num)
        invariant fingerprints == Seen(world, old(tick), num)
        invariant AllContinue(cfg, world, s.id, old(tick), num)
      {
        m, attempts, notes, fingerprints := NextAttempt(s, old(tick), num, attempts, notes, fingerprints);
        if !m.Continue? {
          last := num;
          return;
        }
      }
      SomeAttemptDecides(cfg, world, s.id, old(tick));
      assert false;
    }

    /** One subtask's attempts and what they decide. */
    method RunAttempts(s: Subtask) returns (end: SubtaskEnd, ghost n: nat, ghost e: Entry, ghost r: Option<Reason>)
      modifies `completed, `halted, `failed, `entries, `tick
      ensures old(tick) <= tick <= old(tick) + AttemptsFor(1) && !end.OverBudget?
      ensures !end.AbortRun? ==>
        && AttemptsRun(cfg, world, s, old(tick), n, e, r) && tick == old(tick) + n
        && entries == old(entries) + [e]
        && completed == Added(old(completed), e.status == Completed, s.id)
        && failed == Or(old(failed), r)
        && (end.HaltRun? <==> e.status == Halted)
        && halted == (if end.HaltRun? then LastNote(e.supervisor) else old(halted))
        && (end.HaltRun? ==> halted.Some?)
      ensures end.AbortRun? ==>
        n > 0 && tick == old(tick) + n && AttemptsAbort(cfg, world, s.id, old(tick), n - 1, end.error)
    {
      var m, attempts, notes;
      ghost var last;
      m, last, attempts, notes := AttemptUntilDecided(s);
      n, e, r := last + 1, Entry(s.id, s.title, Skipped, [], [], None), None;
      if m.Abort? {
        return AbortRun(m.error), n, e, r;
      }
      end, e, r := Conclude(s, old(tick), last, m, attempts, notes);
    }

    /** Reads the clock when there is a budget: the time elapsed, if that is at or past the budget. */
    method BudgetSpent() returns (elapsed: Option<nat>)
      modifies `clockReads
      ensures clockReads == old(clockReads) + Readings(cfg, 1)
      ensures elapsed == (if Blown(cfg, world, old(clockReads)) then Some(world.clock(old(clockReads))) else None)
    {
      elapsed := None;
      if cfg.budget.Some? {
        elapsed := if world.clock(clockReads) >= cfg.budget.value then Some(world.clock(clockReads)) else None;
        clockReads := clockReads + 1;
      }
    }

    /** One dispatch: the budget, then the dependencies, then the attempts. */
    method Dispatch(s: Subtask, total: nat) returns (end: SubtaskEnd, ghost st: Step)
      modifies `completed, `skipped, `halted, `failed, `entries, `tick, `clockReads
      ensures old(tick) <= tick <= old(tick) + AttemptsFor(1) && clockReads >= old(clockReads)
      ensures end.OverBudget? ==>
        && completed == old(completed) && skipped == old(skipped) && entries == old(entries) && halted == old(halted)
        && failed == Some(BudgetExceeded(end.elapsed, |completed|, total))
        && cfg.budget.Some? && end.elapsed >= cfg.budget.value
        && tick == old(tick) && clockReads == old(clockReads) + 1 && end.elapsed == world.clock(old(clockReads))
      ensures end.Next? || end.HaltRun? ==>
        && StepOk(cfg, world, s, old(completed), st) && st.tick == old(tick) && tick == old(tick) + st.ticks
        && st.read == old(clockReads) && clockReads == old(clockReads) + (if cfg.budget.Some? then 1 else 0)
        && entries == old(entries) + [st.entry]
        && completed == Added(old(completed), st.entry.status == Completed, s.id)
        && skipped == Added(old(skipped), st.entry.status == Skipped, s.id)
        && failed == Or(old(failed), st.reason)
        && (end.HaltRun? <==> st.entry.status == Halted)
        && halted == (if end.HaltRun? then LastNote(st.entry.supervisor) else old(halted))
        && (end.HaltRun? ==> halted.Some?)
      ensures end.AbortRun? ==>
        DispatchAborts(cfg, world, s, old(completed), old(tick), old(clockReads), tick, end.error)
    {
      st := Step(Entry(s.id, s.title, Skipped, [], [], None), None, tick, 0, clockReads);
      var spent := BudgetSpent();
      if spent.Some? {
        failed := Some(BudgetExceeded(spent.value, |completed|, total));
        end := OverBudget(spent.value);
        return;
      }
      var unmet := Unmet(s.dependsOn, completed);
      if unmet != [] {
        st := st.(reason := Some(UnmetDependencies(s.id, unmet)));
        skipped := skipped + [s.id];
        entries := entries + [Entry(s.id, s.title, Skipped, [], [], None)];
        if failed.None? {
          failed := Some(UnmetDependencies(s.id, unmet));
        }
        end := Next;
        return;
      }
      ghost var n, e, r;
      end, n, e, r := RunAttempts(s);
      st := st.(entry := e, reason := r, ticks := n);
    }

    ghost function V(): Vars
      reads this
    {
      Vars(completed, skipped, failed, entries, tick, clockReads)
    }

    /** The pass `p` is under way: no halt so far, and the variables say what its steps did. */
    ghost predicate Underway(p: Pass, es: seq<Entry>, sk: seq<nat>)
      reads this
    {
      Reflects(cfg, world, p, V(), es, sk) && Unhalted(p) && halted == None && p.end.Ran? && p.read == 0
    }

    /** The last step of `q` halted the run. */
    ghost predicate JustHalted(q: Pass, es: seq<Entry>, sk: seq<nat>)
      reads this
    {
      && Reflects(cfg, world, q, V(), es, sk) && HaltedLast(q)
      && halted.Some? && halted == LastNote(q.steps[|q.steps| - 1].entry.supervisor)
    }

    /** The budget ran out before the next step of `q`. */
    ghost predicate JustOverBudget(q: Pass, elapsed: nat, es: seq<Entry>, sk: seq<nat>)
      reads this
    {
      && StepsOk(cfg, world, q) && Unhalted(q) && halted == None && |q.steps| < |OrderOf(q)|
      && completed == CompletedAfter(q)
      && entries == es + Entries(q.steps) && skipped == sk + IdsWith(Skipped, Entries(q.steps))
      && failed == Some(BudgetExceeded(elapsed, |completed|, |q.plan|))
      && Blown(cfg, world, q.first + |q.steps|) && elapsed == world.clock(q.first + |q.steps|)
      && tick == TickAfter(q) && clockReads == q.first + |q.steps| + 1
    }

    /** The variables follow the step. */
    lemma TakeNext(p: Pass, v: Vars, es: seq<Entry>, sk: seq<nat>, st: Step) returns (q: Pass)
      requires Reflects(cfg, world, p, v, es, sk) && Unhalted(p) && p.end.Ran? && p.read == 0
      requires |p.steps| < |OrderOf(p)| && OrderOf(p)[|p.steps|] < |p.plan|
      requires StepOk(cfg, world, p.plan[OrderOf(p)[|p.steps|]], v.completed, st) && st.tick == v.tick &&
        st.read == v.readings
      requires V() == After(cfg, v, st)
      requires if st.entry.status == Halted then halted.Some? && halted == LastNote(st.entry.supervisor)
               else halted == None
      ensures q == p.(steps := p.steps + [st])
      ensures if st.entry.status == Halted then JustHalted(q, es, sk) else Underway(q, es, sk)
    {
      q := TakeStep(cfg, world, p, v, es, sk, st);
    }

    /** The variables are as before the check that found the budget spent, but for the failure. */
    lemma StopOverBudget(p: Pass, v: Vars, es: seq<Entry>, sk: seq<nat>, elapsed: nat)
      requires Reflects(cfg, world, p, v, es, sk) && Unhalted(p) && |p.steps| < |OrderOf(p)|
      requires Blown(cfg, world, v.readings) && elapsed == world.clock(v.readings)
      requires V() == v.(failed := Some(BudgetExceeded(elapsed, |v.completed|, |p.plan|)), readings := v.readings + 1)
      requires halted == None
      ensures JustOverBudget(p, elapsed, es, sk)
    {
    }

    /** Dispatches the next subtask of the pass `p` and extends `p` by its step. */
    method DispatchNext(ghost p: Pass, s: Subtask, total: nat, ghost es: seq<Entry>, ghost sk: seq<nat>)
      returns (end: SubtaskEnd, ghost q: Pass)
      requires Underway(p, es, sk) && Layered(p)
      requires |p.steps| < |OrderOf(p)| && OrderOf(p)[|p.steps|] < |p.plan| && s == p.plan[OrderOf(p)[|p.steps|]]
      requires total == |p.plan|
      modifies `completed, `skipped, `halted, `failed, `entries, `tick, `clockReads
      ensures clockReads >= old(clockReads) && tick <= old(tick) + AttemptsFor(1)
      ensures q == p.(steps := q.steps)
      ensures end.Next? ==> Underway(q, es, sk) && |q.steps| == |p.steps| + 1
      ensures end.HaltRun? ==> JustHalted(q, es, sk)
      ensures end.OverBudget? ==> JustOverBudget(q, end.elapsed, es, sk)
      ensures end.AbortRun? ==> PassAborted(cfg, world, q, tick, end.error)
    {
      ghost var st;
      end, st := Dispatch(s, total);
      q := p;
      if end.Next? || end.HaltRun? {
        assert V() == After(cfg, old(V()), st);
        q := TakeNext(p, old(V()), es, sk, st);
      } else if end.OverBudget? {
        StopOverBudget(p, old(V()), es, sk, end.elapsed);
      } else {
        NextStepAborts(cfg, world, p, old(V()), es, sk, tick, end.error);
      }
    }

    /** The pass `p` is over, and the variables say what it did. */
    ghost predicate Finished(p: Pass, es: seq<Entry>, sk: seq<nat>)
      reads this
    {
      && PassOk(cfg, world, p) && p.read == clockReads && tick == TickAfter(p)
      && completed == CompletedAfter(p)
      && failed == FailedAfter(p)
      && halted == HaltNote(p.end)
      && entries == es + Entries(p.steps)
      && skipped == sk + IdsWith(Skipped, Entries(p.steps))
    }

    /** Dispatches member `x` of wave `w`. */
    method DispatchMember(ghost p: Pass, s: Subtask, total: nat, ghost w: nat, ghost x: nat,
                          ghost es: seq<Entry>, ghost sk: seq<nat>)
      returns (end: SubtaskEnd, ghost q: Pass)
      requires Underway(p, es, sk) && Layered(p)
      requires w < |p.waves| && x < |p.waves[w]| && |p.steps| == |Flat(p.waves[..w])| + x
      requires p.waves[w][x] < |p.plan| && s == p.plan[p.waves[w][x]] && total == |p.plan|
      modifies `completed, `skipped, `halted, `failed, `entries, `tick, `clockReads
      ensures clockReads >= old(clockReads) && tick <= old(tick) + AttemptsFor(1)
      ensures q == p.(steps := q.steps)
      ensures end.Next? ==> Underway(q, es, sk) && |q.steps| == |p.steps| + 1
      ensures end.HaltRun? ==> JustHalted(q, es, sk)
      ensures end.OverBudget? ==> JustOverBudget(q, end.elapsed, es, sk)
      ensures end.AbortRun? ==> PassAborted(cfg, world, q, tick, end.error)
    {
      FlatAt(p.waves, w, x);
      end, q := DispatchNext(p, s, total, es, sk);
    }

    /** One wave: its members in order, until one of them stops the pass. */
    method RunWave(ghost p: Pass, plan: seq<Subtask>, wave: seq<nat>, ghost w: nat, ghost es: seq<Entry>,
                   ghost sk: seq<nat>)
      returns (end: SubtaskEnd, ghost q: Pass)
      requires Underway(p, es, sk) && Layered(p) && plan == p.plan
      requires w < |p.waves| && wave == p.waves[w] && |p.steps| == |Flat(p.waves[..w])|
      requires forall x :: 0 <= x < |wave| ==> wave[x] < |plan|
      modifies `completed, `skipped, `halted, `failed, `entries, `tick, `clockReads
      ensures clockReads >= old(clockReads) && tick <= old(tick) + AttemptsFor(|wave|)
      ensures q == p.(steps := q.steps)
      ensures end.Next? ==> Underway(q, es, sk) && |q.steps| == |p.steps| + |wave|
      ensures end.HaltRun? ==> JustHalted(q, es, sk)
      ensures end.OverBudget? ==> JustOverBudget(q, end.elapsed, es, sk)
      ensures end.AbortRun? ==> PassAborted(cfg, world, q, tick, end.error)
    {
      q := p;
      end := Next;
      for x := 0 to |wave|
        invariant q == p.(steps := q.steps) && clockReads >= old(clockReads)
        invariant tick <= old(tick) + AttemptsFor(x)
        invariant Underway(q, es, sk) && |q.steps| == |p.steps| + x
        invariant end.Next?
      {
        end, q := DispatchMember(q, plan[wave[x]], |plan|, w, x, es, sk);
        if !end.Next? {
          return;
        }
      }
    }

    /** The pass under way has run out of subtasks. */
    lemma CloseRan(p: Pass, es: seq<Entry>, sk: seq<nat>) returns (q: Pass)
      requires Underway(p, es, sk) && Layered(p) && |p.steps| == |OrderOf(p)|
      ensures q == p.(read := clockReads) && Finished(q, es, sk)
    {
      q := ClosePass(cfg, world, p, Ran, clockReads);
    }

    lemma CloseHalted(p: Pass, es: seq<Entry>, sk: seq<nat>) returns (q: Pass)
      requires JustHalted(p, es, sk) && Layered(p)
      ensures q == p.(end := q.end, read := clockReads) && q.end.HaltStop? && Finished(q, es, sk)
    {
      q := ClosePass(cfg, world, p, HaltStop(halted.value), clockReads);
    }

    lemma CloseOverBudget(p: Pass, elapsed: nat, es: seq<Entry>, sk: seq<nat>) returns (q: Pass)
      requires JustOverBudget(p, elapsed, es, sk) && Layered(p)
      ensures q == p.(end := q.end, read := clockReads) && q.end.BudgetStop? && Finished(q, es, sk)
    {
      q := ClosePass(cfg, world, p, BudgetStop(elapsed), clockReads);
    }

    /** Nothing is dispatched yet. */
    lemma OpenPass(p: Pass)
      requires p.steps == [] && p.end.Ran? && p.read == 0 && p.before == completed && halted == None && failed == None
      requires p.tick == tick && p.first == clockReads
      ensures Underway(p, entries, skipped)
    {
    }

    /** The wave loop of one pass over a layered plan. */
    method RunWaves(plan: seq<Subtask>, waves: seq<seq<nat>>) returns (abort: Option<string>, ghost p: Pass)
      requires ValidPlan(plan, completed) && IsLayering(plan, completed, waves)
      requires failed == None && halted == None
      modifies `completed, `skipped, `halted, `failed, `entries, `tick, `clockReads
      ensures clockReads >= old(clockReads) && tick <= old(tick) + AttemptsFor(|plan|)
      ensures abort.None? ==>
        Finished(p, old(entries), old(skipped)) && !p.end.Unlayered?
      ensures p.plan == plan && p.before == old(completed) && p.tick == old(tick) && p.first == old(clockReads)
      ensures abort.Some? ==> PassAborted(cfg, world, p, tick, abort.value)
    {
      p := Pass(plan, completed, waves, tick, clockReads, [], Ran, 0);
      ghost var es, sk := entries, skipped;
      OpenPass(p);
      OrderFits(p);
      for w := 0 to |waves|
        invariant p == Pass(plan, old(completed), waves, old(tick), old(clockReads), p.steps, Ran, 0) && Layered(p)
        invariant Underway(p, es, sk) && clockReads >= old(clockReads)
        invariant |p.steps| == |Flat(waves[..w])| && tick <= old(tick) + AttemptsFor(|Flat(waves[..w])|)
      {
        WaveInPlan(p, w);
        WaveFits(waves, w);
        var end;
        end, p := RunWave(p, plan, waves[w], w, es, sk);
        match end {
          case Next =>
          case HaltRun =>
            p := CloseHalted(p, es, sk);
            return None, p;
          case OverBudget(elapsed) =>
            p := CloseOverBudget(p, elapsed, es, sk);
            return None, p;
          case AbortRun(error) =>
            return Some(error), p;
        }
      }
      assert waves[..|waves|] == waves;
      p := CloseRan(p, es, sk);
      return None, p;
    }

    /** One pass: layers the plan, then runs its waves. */
    method RunPass(plan: seq<Subtask>) returns (abort: Option<string>, layered: bool, ghost p: Pass)
      requires failed == None && halted == None
      modifies `completed, `skipped, `halted, `failed, `entries, `tick, `clockReads
      ensures tick <= old(tick) + AttemptsFor(|plan|)
      ensures p.plan == plan && p.before == old(completed) && p.tick == old(tick) && p.first == old(clockReads)
      ensures abort.None? ==> (layered <==> !p.end.Unlayered?) && Finished(p, old(entries), old(skipped))
      ensures abort.Some? ==> PassAborted(cfg, world, p, tick, abort.value)
    {
      abort := None;
      var waves := PlanWaves(plan, completed);
      layered := waves.Success?;
      if !layered {
        failed := Some(InvalidPlan(waves.error));
        p := Pass(plan, completed, [], tick, clockReads, [], Unlayered(waves.error), clockReads);
      } else {
        abort, p := RunWaves(plan, waves.value);
      }
    }

    /** What the run has accumulated. */
    ghost function Sums(): Accumulated
      reads this
    {
      Accumulated(completed, skipped, entries)
    }

    /** A finished pass is the latest, and the variables say how it ended. */
    ghost predicate Ended(passes: seq<Pass>)
      reads this
    {
      && Recorded(cfg, world, passes, Sums()) && replansUsed == |passes| - 1 <= cfg.maxReplans
      && tick == TickAfter(passes[|passes| - 1])
      && failed == FailedAfter(passes[|passes| - 1])
      && halted == HaltNote(passes[|passes| - 1].end) && passes[|passes| - 1].read == clockReads
    }

    /** Nothing has failed or halted, and `plan` is the one to run next. */
    ghost predicate Ready(passes: seq<Pass>, plan: seq<Subtask>)
      reads this
    {
      && failed == None && halted == None && replansUsed == |passes| <= cfg.maxReplans
      && NextPlan(cfg, world, passes, plan) && AccumulatedBy(cfg, world, passes, Sums())
      && (passes != [] ==> AtCursors(cfg, passes[|passes| - 1], tick, clockReads))
    }

    lemma PassExtendsRun(passes: seq<Pass>, p: Pass, before: Accumulated)
      requires Monotone(world.clock) && Finished(p, before.entries, before.skipped)
      requires p.before == before.completed && replansUsed == |passes| <= cfg.maxReplans
      requires NextPlan(cfg, world, passes, p.plan) && AccumulatedBy(cfg, world, passes, before)
      requires passes != [] ==> AtCursors(cfg, passes[|passes| - 1], p.tick, p.first)
      ensures Ended(passes + [p])
    {
      RunGrows(cfg, world, passes, p, before);
    }

    /** The variables say how the run ended. */
    ghost predicate Settled(passes: seq<Pass>)
      reads this
    {
      && Recorded(cfg, world, passes, Sums()) && tick == TickAfter(passes[|passes| - 1])
      && FinalFailure(cfg, world, passes, failed) && halted == HaltNote(passes[|passes| - 1].end)
    }

    /** Spends a replan: the plan it gives, or the failure it leaves. */
    method AskReplan() returns (next: Option<seq<Subtask>>)
      modifies `failed, `replansUsed
      ensures replansUsed == old(replansUsed) + 1
      ensures next.Some? ==> failed == None && next.value != [] && world.replan(replansUsed) == Success(next)
      ensures next.None? ==> ReplanFault(world.replan(replansUsed), failed)
    {
      failed := None;
      replansUsed := replansUsed + 1;
      match world.replan(replansUsed) {
        case Failure(error) =>
          failed := Some(ReplanFailed(error));
          next := None;
        case Success(answer) =>
          next := answer;
          if answer == None || answer == Some([]) {
            failed := Some(ReplanUnusable);
            next := None;
          }
      }
    }

    /** Something failed, nothing halted, and replans and budget remain. */
    method MayReplan(ghost passes: seq<Pass>) returns (more: bool)
      requires Monotone(world.clock) && Ended(passes) && !passes[|passes| - 1].end.Unlayered?
      modifies `clockReads
      ensures more <==> WantsReplan(cfg, world, passes[|passes| - 1], |passes| - 1)
      ensures clockReads == old(clockReads) + Readings(cfg, 1)
      ensures more ==> halted == None && replansUsed < cfg.maxReplans
    {
      var spent := BudgetSpent();
      more := halted.None? && failed.Some? && replansUsed < cfg.maxReplans && spent.None?;
    }

    /** After a pass: nothing left to do, or a fresh plan for the next one. */
    method AfterPass(layered: bool, ghost passes: seq<Pass>) returns (next: Option<seq<Subtask>>)
      requires Monotone(world.clock) && Ended(passes)
      requires layered <==> !passes[|passes| - 1].end.Unlayered?
      modifies `failed, `replansUsed, `clockReads
      ensures next.Some? ==> Ready(passes, next.value) && replansUsed == old(replansUsed) + 1
      ensures next.None? ==> Settled(passes)
    {
      if !layered {
        return None;
      }
      var more := MayReplan(passes);
      if !more {
        return None;
      }
      next := AskReplan();
    }

    method FirstPlan() returns (r: Result<seq<Subtask>, string>)
      ensures r.Success? ==> world.decompose == Success(Some(r.value)) && r.value != []
      ensures r.Failure? ==> NoFirstPlan(world, r.error)
    {
      if world.decompose.Failure? {
        return Failure(world.decompose.error);
      }
      if world.decompose.value == None || world.decompose.value == Some([]) {
        return Failure("conductor produced no plan");
      }
      return Success(world.decompose.value.value);
    }

    method Report(ghost passes: seq<Pass>) returns (o: Outcome)
      requires Settled(passes)
      ensures Summarizes(cfg, world, passes, o)
    {
      o := Outcome(completed, skipped, halted, failed, entries);
    }

    /** One pass, recorded as the latest of the run, finished or aborted. */
    method RecordedPass(plan: seq<Subtask>, ghost passes: seq<Pass>)
      returns (abort: Option<string>, layered: bool, ghost passes': seq<Pass>)
      requires Monotone(world.clock) && Ready(passes, plan)
      modifies `completed, `skipped, `halted, `failed, `entries, `tick, `clockReads
      ensures tick <= old(tick) + AttemptsFor(|plan|)
      ensures Extends(passes, passes', plan, old(tick), old(clockReads))
      ensures abort.Some? ==> RunAborted(cfg, world, passes', tick, abort.value)
      ensures abort.None? ==> Ended(passes') && (layered <==> !passes'[|passes|].end.Unlayered?)
    {
      ghost var p;
      abort, layered, p := RunPass(plan);
      passes' := passes + [p];
      if abort.None? {
        PassExtendsRun(passes, p, old(Sums()));
      } else {
        RunStops(cfg, world, passes, p, old(Sums()), tick, abort.value);
      }
    }

    /** One pass and what it leads to. */
    method OnePass(plan: seq<Subtask>, ghost passes: seq<Pass>)
      returns (abort: Option<string>, next: Option<seq<Subtask>>, ghost passes': seq<Pass>)
      requires Monotone(world.clock) && Ready(passes, plan)
      modifies this
      ensures tick <= old(tick) + AttemptsFor(|plan|)
      ensures Extends(passes, passes', plan, old(tick), old(clockReads))
      ensures abort.Some? ==> RunAborted(cfg, world, passes', tick, abort.value)
      ensures abort.None? && next.Some? ==>
        Ready(passes', next.value) && replansUsed == old(replansUsed) + 1 <= cfg.maxReplans
      ensures abort.None? && next.None? ==> Settled(passes')
    {
      var layered;
      abort, layered, passes' := RecordedPass(plan, passes);
      next := None;
      if abort.None? {
        next := AfterPass(layered, passes');
      }
    }

    /** The attempts made since `start` fit the plans set out so far. */
    ghost predicate Costed(passes: seq<Pass>, start: nat)
      reads this
    {
      Planned(cfg, world, PlansOf(passes)) && tick <= start + AttemptsFor(TotalSize(PlansOf(passes)))
    }

    /** Where the run began: with its first pass, or here if there is none yet. */
    ghost predicate Begun(passes: seq<Pass>, t: nat, r: nat)
      reads this
    {
      if passes == [] then tick == t && clockReads == r else StartsAt(passes, t, r)
    }

    /** `OnePass`, with the account of its work; the run began with attempt `start` and clock reading `first`. */
    method CostedPass(plan: seq<Subtask>, ghost passes: seq<Pass>, ghost start: nat, ghost first: nat)
      returns (abort: Option<string>, next: Option<seq<Subtask>>, ghost passes': seq<Pass>)
      requires Monotone(world.clock) && Ready(passes, plan) && Costed(passes, start) && Begun(passes, start, first)
      modifies this
      ensures Costed(passes', start) && StartsAt(passes', start, first)
      ensures abort.Some? ==> RunAborted(cfg, world, passes', tick, abort.value)
      ensures abort.None? && next.Some? ==>
        Ready(passes', next.value) && replansUsed == old(replansUsed) + 1 <= cfg.maxReplans
      ensures abort.None? && next.None? ==> Settled(passes')
    {
      PlanNext(cfg, world, passes, PlansOf(passes), plan);
      abort, next, passes' := OnePass(plan, passes);
      OneMorePlan(passes, passes', plan, old(tick), old(clockReads));
      assert passes != [] ==> passes'[0] == passes'[..|passes|][0];
    }

    /** The run is over: `r` is what it returns. */
    ghost predicate Concluded(r: Result<Outcome, string>, passes: seq<Pass>)
      reads this
    {
      && passes != []
      && if r.Success? then
           Summarizes(cfg, world, passes, r.value) && tick == TickAfter(passes[|passes| - 1])
         else
           RunAborted(cfg, world, passes, tick, r.error)
    }

    /** One pass, and the end of the run or the plan for the next one. */
    method Advance(plan: seq<Subtask>, ghost passes: seq<Pass>, ghost start: nat, ghost first: nat)
      returns (done: Option<Result<Outcome, string>>, next: seq<Subtask>, ghost passes': seq<Pass>)
      requires Monotone(world.clock) && Ready(passes, plan) && Costed(passes, start) && Begun(passes, start, first)
      modifies this
      ensures Costed(passes', start) && StartsAt(passes', start, first)
      ensures done.Some? ==> Concluded(done.value, passes')
      ensures done.None? ==> Ready(passes', next) && replansUsed == old(replansUsed) + 1 <= cfg.maxReplans
    {
      var abort, plan';
      abort, plan', passes' := CostedPass(plan, passes, start, first);
      done, next := None, [];
      if abort.Some? {
        done := Some(Failure(abort.value));
      } else if plan'.None? {
        var outcome := Report(passes');
        done := Some(Success(outcome));
      } else {
        next := plan'.value;
      }
    }

    /**
      The whole run: the passes it made, one a plan, the last of which may have been aborted. It starts with
      the attempt and the clock reading that are next.
     */
    method RunConduct() returns (r: Result<Outcome, string>, ghost passes: seq<Pass>)
      requires Monotone(world.clock)
      requires completed == [] && skipped == [] && halted == None && failed == None && entries == []
      requires replansUsed == 0
      modifies this
      ensures passes == [] ==> r.Failure? && NoFirstPlan(world, r.error)
      ensures passes != [] ==> StartsAt(passes, old(tick), old(clockReads))
      ensures r.Success? ==> Summarizes(cfg, world, passes, r.value) && tick == TickAfter(passes[|passes| - 1])
      ensures r.Failure? && passes != [] ==> RunAborted(cfg, world, passes, tick, r.error)
      ensures Costed(passes, old(tick))
    {
      passes := [];
      var first := FirstPlan();
      if first.Failure? {
        return Failure(first.error), passes;
      }
      var plan := first.value;
      while true
        invariant Ready(passes, plan)
        invariant Costed(passes, old(tick))
        invariant Begun(passes, old(tick), old(clockReads))
        decreases cfg.maxReplans - replansUsed
      {
        var done;
        done, plan, passes := Advance(plan, passes, old(tick), old(clockReads));
        if done.Some? {
          return done.value, passes;
        }
      }
    }
  }

  // ----- what a run has accumulated, as values -----

  datatype Accumulated = Accumulated(completed: seq<nat>, skipped: seq<nat>, entries: seq<Entry>)

  /** The accumulated variables hold what the finished passes say. */
  ghost predicate Recorded(cfg: Config, w: World, passes: seq<Pass>, s: Accumulated) {
    && RunOk(cfg, w, passes)
    && s.completed == CompletedAfter(passes[|passes| - 1])
    && s.entries == AllEntries(passes)
    && s.skipped == IdsWith(Skipped, AllEntries(passes))
  }

  ghost predicate AccumulatedBy(cfg: Config, w: World, passes: seq<Pass>, s: Accumulated) {
    if passes == [] then s == Accumulated([], [], []) else Recorded(cfg, w, passes, s)
  }

  lemma FirstEntries(passes: seq<Pass>)
    requires |passes| == 1
    ensures AllEntries(passes) == Entries(passes[0].steps)
  {
    assert passes[..0] == [];
  }

  lemma RunStarts(cfg: Config, w: World, passes: seq<Pass>)
    requires |passes| == 1 && PassOk(cfg, w, passes[0]) && passes[0].before == []
    requires passes[0].plan != [] && w.decompose == Success(Some(passes[0].plan))
    ensures RunOk(cfg, w, passes)
  {
  }

  lemma RunContinues(cfg: Config, w: World, passes: seq<Pass>, p: Pass, s: Accumulated)
    requires Monotone(w.clock) && PassOk(cfg, w, p) && p.before == s.completed
    requires passes != [] && NextPlan(cfg, w, passes, p.plan) && Recorded(cfg, w, passes, s)
    requires Follows(cfg, passes[|passes| - 1], p)
    ensures Recorded(cfg, w, passes + [p],
                     Accumulated(CompletedAfter(p), s.skipped + IdsWith(Skipped, Entries(p.steps)),
                                 s.entries + Entries(p.steps)))
  {
    AppendEntries(passes, p);
    IdsWithConcat(Skipped, s.entries, Entries(p.steps));
    AppendPass(cfg, w, passes, p);
  }

  /** An aborted pass over the next plan, from where the run stands, ends the run. */
  lemma RunStops(cfg: Config, w: World, passes: seq<Pass>, p: Pass, s: Accumulated, tick: nat, error: string)
    requires PassAborted(cfg, w, p, tick, error) && p.before == s.completed
    requires NextPlan(cfg, w, passes, p.plan) && AccumulatedBy(cfg, w, passes, s)
    requires passes != [] ==> AtCursors(cfg, passes[|passes| - 1], p.tick, p.first)
    ensures RunAborted(cfg, w, passes + [p], tick, error)
  {
    assert Continues(cfg, w, passes, p);
    assert (passes + [p])[..|passes|] == passes;
  }

  /** The next subtask of the pass under way aborts it. */
  lemma NextStepAborts(cfg: Config, w: World, p: Pass, v: Vars, es: seq<Entry>, sk: seq<nat>, tick: nat, error: string)
    requires Reflects(cfg, w, p, v, es, sk) && Unhalted(p) && Layered(p) && p.end.Ran? && p.read == 0
    requires |p.steps| < |OrderOf(p)| && OrderOf(p)[|p.steps|] < |p.plan|
    requires DispatchAborts(cfg, w, p.plan[OrderOf(p)[|p.steps|]], v.completed, v.tick, v.readings, tick, error)
    ensures PassAborted(cfg, w, p, tick, error)
  {
  }

  /** A pass over the next plan, from where the run stands, extends the run. */
  lemma RunGrows(cfg: Config, w: World, passes: seq<Pass>, p: Pass, s: Accumulated)
    requires Monotone(w.clock) && PassOk(cfg, w, p) && p.before == s.completed
    requires NextPlan(cfg, w, passes, p.plan) && AccumulatedBy(cfg, w, passes, s)
    requires passes != [] ==> Follows(cfg, passes[|passes| - 1], p)
    ensures Recorded(cfg, w, passes + [p],
                     Accumulated(CompletedAfter(p), s.skipped + IdsWith(Skipped, Entries(p.steps)),
                                 s.entries + Entries(p.steps)))
  {
    if passes == [] {
      RunStarts(cfg, w, [p]);
      FirstEntries([p]);
      assert passes + [p] == [p];
      assert s.skipped + IdsWith(Skipped, Entries(p.steps)) == IdsWith(Skipped, Entries(p.steps));
    } else {
      RunContinues(cfg, w, passes, p, s);
    }
  }

  function PlansOf(passes: seq<Pass>): (plans: seq<seq<Subtask>>)
    ensures |plans| == |passes| && forall k :: 0 <= k < |passes| ==> plans[k] == passes[k].plan
  {
    seq(|passes|, k requires 0 <= k < |passes| => passes[k].plan)
  }

  /** One more pass, over `plan`, from the given attempt and clock reading on. */
  ghost predicate Extends(passes: seq<Pass>, passes': seq<Pass>, plan: seq<Subtask>, tick: nat, first: nat) {
    && |passes'| == |passes| + 1 && passes'[..|passes|] == passes
    && passes'[|passes|].plan == plan && passes'[|passes|].tick == tick && passes'[|passes|].first == first
  }

  lemma OneMorePlan(passes: seq<Pass>, passes': seq<Pass>, plan: seq<Subtask>, tick: nat, first: nat)
    requires Extends(passes, passes', plan, tick, first)
    ensures PlansOf(passes') == PlansOf(passes) + [plan]
  {
    forall k | 0 <= k < |passes| ensures passes'[k] == passes[k] {
      assert passes'[..|passes|][k] == passes[k];
    }
  }

  function TotalSize(plans: seq<seq<Subtask>>): nat {
    if plans == [] then 0 else TotalSize(plans[..|plans| - 1]) + |plans[|plans| - 1]|
  }

  /** The plans are the conductor's answers, at most `maxReplans` + 1 of them. */
  ghost predicate Planned(cfg: Config, w: World, plans: seq<seq<Subtask>>) {
    && |plans| <= cfg.maxReplans + 1
    && forall k :: 0 <= k < |plans| ==> (if k == 0 then w.decompose else w.replan(k)) == Success(Some(plans[k]))
  }

  lemma PlanNext(cfg: Config, w: World, passes: seq<Pass>, plans: seq<seq<Subtask>>, plan: seq<Subtask>)
    requires NextPlan(cfg, w, passes, plan) && |plans| == |passes| <= cfg.maxReplans && Planned(cfg, w, plans)
    ensures Planned(cfg, w, plans + [plan]) && TotalSize(plans + [plan]) == TotalSize(plans) + |plan|
  {
    assert (plans + [plan])[..|plans|] == plans;
  }

  ghost predicate Layered(p: Pass) {
    ValidPlan(p.plan, p.before) && IsLayering(p.plan, p.before, p.waves)
  }

  lemma OrderFits(p: Pass)
    requires Layered(p)
    ensures |Flat(p.waves)| == |p.plan|
  {
    LayeringIsOrder(p.plan, p.before, p.waves);
  }

  lemma WaveFits(waves: seq<seq<nat>>, w: nat)
    requires w < |waves|
    ensures |Flat(waves[..w + 1])| == |Flat(waves[..w])| + |waves[w]| <= |Flat(waves)|
  {
    FlatStep(waves, w);
    FlatExtends(waves, w + 1);
  }

  lemma WaveInPlan(p: Pass, w: nat)
    requires Layered(p) && w < |p.waves|
    ensures forall x :: 0 <= x < |p.waves[w]| ==> p.waves[w][x] < |p.plan|
  {
  }

  lemma FlatAt(waves: seq<seq<nat>>, w: nat, x: nat)
    requires w < |waves| && x < |waves[w]|
    ensures |Flat(waves[..w])| + x < |Flat(waves)| && Flat(waves)[|Flat(waves[..w])| + x] == waves[w][x]
  {
    FlatStep(waves, w);
    FlatExtends(waves, w + 1);
  }

  lemma RecordsExtend(cfg: Config, w: World, t: nat, before: seq<Attempt>, after: seq<Attempt>)
    requires AttemptsRecorded(cfg, w, t, before)
    requires |after| == |before| + 1 && after[..|before|] == before
    requires RecordsAttempt(cfg, w.attempt(t + |before|), |before|, after[|before|])
    ensures AttemptsRecorded(cfg, w, t, after)
  {
    forall k | 0 <= k < |before| ensures after[k] == before[k] {
      assert after[k] == after[..|before|][k];
    }
  }

  lemma DecidedIsRun(cfg: Config, w: World, s: Subtask, t: nat, num: nat, m: Meaning, e: Entry, r: Option<Reason>)
    requires num <= MAX_REWORKS && AllContinue(cfg, w, s.id, t, num)
    requires m == MeaningAt(cfg, w, s.id, t, num) && EntryFor(m, e, r)
    requires e.id == s.id && e.title == s.title && AttemptsRecorded(cfg, w, t, e.attempts)
    requires |e.attempts| == (if e.status == Halted then num else num + 1)
    requires e.supervisor == NotesUpTo(cfg, w, t, num + 1)
    ensures AttemptsRun(cfg, w, s, t, num + 1, e, r)
  {
  }
}
