/**
  What the outcome of a conduct run tells its caller (core/src/orchestrator/conduct.rs), whatever the agents
  answered.
 */
module ConductOutcome {
  import opened Wrappers
  import opened Topology
  import opened ConductModel
  import opened ConductHistory
  import opened ConductLoop

  /** The four outcomes account for every entry, and the reported ids are those of the entries so marked. */
  lemma OutcomeIsAccounted(cfg: Config, w: World, passes: seq<Pass>, o: Outcome)
    requires Summarizes(cfg, w, passes, o)
    ensures o.completed == IdsWith(Completed, o.entries) && o.skipped == IdsWith(Skipped, o.entries)
    ensures |o.completed| + |o.skipped| + |IdsWith(FailedSubtask, o.entries)| + |IdsWith(Halted, o.entries)| ==
      |o.entries|
  {
    CompletedIsAccounted(cfg, w, passes);
    OutcomesAddUp(o.entries);
  }

  /** Silence means success: with neither a halt nor a failure reported, the last plan was completed in its pass. */
  lemma SilenceMeansSuccess(cfg: Config, w: World, passes: seq<Pass>, o: Outcome, i: nat)
    requires Summarizes(cfg, w, passes, o) && o.halted == None && o.failed == None
    requires i < |passes[|passes| - 1].plan|
    ensures HasStatus(passes[|passes| - 1], i, Completed)
    ensures passes[|passes| - 1].plan[i].id in o.completed
  {
    QuietRunCompletedAll(cfg, w, passes);
    assert HasStatus(passes[|passes| - 1], i, Completed);
    CompletedIsReported(cfg, w, passes[|passes| - 1], i);
  }

  lemma CompletedIsReported(cfg: Config, w: World, p: Pass, i: nat)
    requires PassOk(cfg, w, p) && i < |p.plan| && HasStatus(p, i, Completed)
    ensures p.plan[i].id in CompletedAfter(p)
  {
    var k :| DispatchedAt(p, i, k) && p.steps[k].entry.status == Completed;
    StepReasonAt(cfg, w, p, k);
    assert p.steps[..|p.steps|] == p.steps;
    IdsWithMember(Completed, Entries(p.steps), p.plan[i].id);
    assert Entries(p.steps)[k] == p.steps[k].entry;
  }

  /** Every entry of the transcript is that of one dispatched subtask. */
  lemma {:induction false} EntryHasStep(passes: seq<Pass>, n: nat) returns (i: nat, k: nat)
    requires n < |AllEntries(passes)|
    ensures i < |passes| && k < |passes[i].steps| && passes[i].steps[k].entry == AllEntries(passes)[n]
  {
    var last := |passes| - 1;
    var front := AllEntries(passes[..last]);
    if n < |front| {
      i, k := EntryHasStep(passes[..last], n);
      assert passes[..last][i] == passes[i];
    } else {
      i, k := last, n - |front|;
    }
  }

  /** No subtask is marked completed on an agent's word alone. */
  lemma CompletedEntryHasEvidence(cfg: Config, w: World, passes: seq<Pass>, o: Outcome, n: nat) returns (i: nat, k: nat)
    requires Summarizes(cfg, w, passes, o) && n < |o.entries| && o.entries[n].status == Completed
    ensures i < |passes| && k < |passes[i].steps| && passes[i].steps[k].entry == o.entries[n]
    ensures RestsOnEvidence(cfg, w, passes[i].steps[k])
  {
    i, k := EntryHasStep(passes, n);
    CompletedHasEvidence(cfg, w, passes[i], k);
  }

  function Subtasks(passes: seq<Pass>): nat {
    if passes == [] then 0 else Subtasks(passes[..|passes| - 1]) + |passes[|passes| - 1].plan|
  }

  function Attempts(es: seq<Entry>): nat {
    if es == [] then 0 else Attempts(es[..|es| - 1]) + |es[|es| - 1].attempts|
  }

  /** The work of a run: at most `maxReplans` + 1 passes, one entry a subtask, `MAX_REWORKS` + 1 attempts an entry. */
  lemma WorkIsBounded(cfg: Config, w: World, passes: seq<Pass>, o: Outcome)
    requires Summarizes(cfg, w, passes, o)
    ensures |passes| <= cfg.maxReplans + 1
    ensures |o.entries| <= Subtasks(passes)
    ensures Attempts(o.entries) <= (MAX_REWORKS + 1) * |o.entries|
  {
    PassesAreBounded(cfg, w, passes);
    EntriesAreBounded(cfg, w, passes);
  }

  lemma AttemptsAppend(es: seq<Entry>, e: Entry)
    ensures Attempts(es + [e]) == Attempts(es) + |e.attempts|
  {
    assert (es + [e])[..|es|] == es;
  }

  lemma EntryIsBounded(cfg: Config, w: World, p: Pass, k: nat)
    requires PassOk(cfg, w, p) && k < |p.steps|
    ensures |p.steps[k].entry.attempts| <= MAX_REWORKS + 1
  {
    StepAtIsOk(cfg, w, p, k);
  }

  lemma {:induction false} AppendedAreBounded(es: seq<Entry>, more: seq<Entry>)
    requires Attempts(es) <= (MAX_REWORKS + 1) * |es|
    requires forall e :: e in more ==> |e.attempts| <= MAX_REWORKS + 1
    ensures Attempts(es + more) <= (MAX_REWORKS + 1) * |es + more|
    decreases |more|
  {
    if more == [] {
      assert es + more == es;
    } else {
      var n := |more| - 1;
      AppendedAreBounded(es, more[..n]);
      assert more[n] in more;
      assert es + more == (es + more[..n]) + [more[n]];
      AttemptsAppend(es + more[..n], more[n]);
    }
  }

  lemma {:induction false} EntriesAreBounded(cfg: Config, w: World, passes: seq<Pass>)
    requires RunOk(cfg, w, passes)
    ensures |AllEntries(passes)| <= Subtasks(passes)
    ensures Attempts(AllEntries(passes)) <= (MAX_REWORKS + 1) * |AllEntries(passes)|
    decreases |passes|
  {
    var n := |passes| - 1;
    var last := passes[n];
    if n > 0 {
      RunPrefix(cfg, w, passes, n);
      EntriesAreBounded(cfg, w, passes[..n]);
    } else {
      assert passes[..0] == [];
    }
    if !last.end.Unlayered? {
      LayeringIsOrder(last.plan, last.before, last.waves);
    }
    forall e | e in Entries(last.steps) ensures |e.attempts| <= MAX_REWORKS + 1 {
      var k :| 0 <= k < |last.steps| && Entries(last.steps)[k] == e;
      EntryIsBounded(cfg, w, last, k);
    }
    AppendedAreBounded(AllEntries(passes[..n]), Entries(last.steps));
  }

  // ----- the budget -----

  function Dispatched(passes: seq<Pass>): nat {
    if passes == [] then 0 else Dispatched(passes[..|passes| - 1]) + |passes[|passes| - 1].steps|
  }

  /** Every dispatch so far, and every finished pass, took one clock reading when there is a budget. */
  lemma {:induction false} ReadingsAreInOrder(cfg: Config, w: World, passes: seq<Pass>, i: nat)
    requires RunOk(cfg, w, passes) && i < |passes|
    ensures passes[i].first == passes[0].first + Readings(cfg, Dispatched(passes[..i]) + i)
  {
    if i == 0 {
      assert passes[..0] == [];
    } else {
      ReadingsAreInOrder(cfg, w, passes, i - 1);
      assert Replanned(cfg, w, passes, i - 1);
      assert passes[..i][..i - 1] == passes[..i - 1];
    }
  }

  /**
    Nothing is dispatched once the budget is spent: dispatch `k` of pass `i` takes the reading that is next,
    finds the budget unspent, and so comes before every reading at or past it.
   */
  lemma DispatchedWithinBudget(cfg: Config, w: World, passes: seq<Pass>, i: nat, k: nat, r: nat)
    requires RunOk(cfg, w, passes) && Monotone(w.clock) && i < |passes| && k < |passes[i].steps|
    ensures passes[i].steps[k].read == passes[0].first + Readings(cfg, Dispatched(passes[..i]) + i + k)
    ensures cfg.budget.Some? ==> w.clock(passes[i].steps[k].read) < cfg.budget.value
    ensures cfg.budget.Some? && w.clock(r) >= cfg.budget.value ==> passes[i].steps[k].read < r
  {
    ReadingsAreInOrder(cfg, w, passes, i);
    StepAtIsOk(cfg, w, passes[i], k);
  }

  lemma LastStepHeld(cfg: Config, w: World, p: Pass)
    requires PassOk(cfg, w, p) && p.steps != [] && cfg.budget.Some?
    ensures !Blown(cfg, w, p.first + |p.steps| - 1)
  {
    StepAtIsOk(cfg, w, p, |p.steps| - 1);
  }

  lemma ReplanHeld(cfg: Config, w: World, passes: seq<Pass>, k: nat)
    requires k + 1 < |passes| && Replanned(cfg, w, passes, k) && cfg.budget.Some?
    ensures passes[k + 1].first > 0 && !Blown(cfg, w, passes[k + 1].first - 1)
  {
  }

  /**
    The reading before the one that the next dispatch of the last pass takes, if any was taken, was within the
    budget.
   */
  lemma BudgetHeldBefore(cfg: Config, w: World, passes: seq<Pass>)
    requires RunOk(cfg, w, passes) && cfg.budget.Some?
    ensures var last := passes[|passes| - 1];
      var next := last.first + |last.steps|;
      next == passes[0].first || (next > 0 && !Blown(cfg, w, next - 1))
  {
    var n := |passes| - 1;
    if passes[n].steps != [] {
      LastStepHeld(cfg, w, passes[n]);
    } else if n > 0 {
      assert Replanned(cfg, w, passes, n - 1);
      ReplanHeld(cfg, w, passes, n - 1);
    }
  }

  /** A reading at or past the budget, taken before the last pass was over, ends the run and is what it reports. */
  lemma SpentBudgetEndsRun(cfg: Config, w: World, passes: seq<Pass>, o: Outcome, r: nat)
    requires Summarizes(cfg, w, passes, o) && Monotone(w.clock)
    requires passes[0].first <= r < passes[|passes| - 1].read
    requires cfg.budget.Some? && w.clock(r) >= cfg.budget.value
    ensures var last := passes[|passes| - 1];
      && last.end == BudgetStop(w.clock(r)) && r == last.read - 1
      && o.failed == Some(BudgetExceeded(w.clock(r), |o.completed|, |last.plan|))
  {
    BudgetHeldBefore(cfg, w, passes);
    StopIsReported(cfg, w, passes, o);
  }

  lemma StopIsReported(cfg: Config, w: World, passes: seq<Pass>, o: Outcome)
    requires Summarizes(cfg, w, passes, o) && Monotone(w.clock)
    ensures var last := passes[|passes| - 1];
      last.end.BudgetStop? ==> o.failed == Some(BudgetExceeded(last.end.elapsed, |o.completed|, |last.plan|))
  {
    var last := passes[|passes| - 1];
    if last.end.BudgetStop? {
      assert Blown(cfg, w, last.read);
    }
  }

  // ----- what ends a run -----

  /** Step `k` is the first of the pass that failed or was skipped, and says why. */
  predicate FailsFirst(p: Pass, k: nat, reason: Reason) {
    && k < |p.steps| && p.steps[k].reason == Some(reason)
    && forall j :: 0 <= j < k ==> p.steps[j].reason.None?
  }

  /** The budget, if there is one, has not run out at reading `read`. */
  predicate WithinBudget(cfg: Config, w: World, read: nat) {
    cfg.budget.None? || w.clock(read) < cfg.budget.value
  }

  /** A pass that ran out with failures is replanned exactly while replans and budget remain. */
  predicate AsksReplan(cfg: Config, w: World, passes: seq<Pass>)
    requires passes != []
  {
    |passes| <= cfg.maxReplans && WithinBudget(cfg, w, passes[|passes| - 1].read)
  }

  /**
    What a finished run reports: an unusable plan, a spent budget, a halt, nothing, the first failure of its last
    pass, or a replan that gave no plan.
   */
  lemma FailureIsReported(cfg: Config, w: World, passes: seq<Pass>, o: Outcome)
    requires Summarizes(cfg, w, passes, o) && Monotone(w.clock)
    ensures var last := passes[|passes| - 1];
      && (o.halted.Some? <==> last.end.HaltStop?) && (last.end.HaltStop? ==> o.halted == Some(last.end.note))
      && match last.end
         case Unlayered(why) => o.failed == Some(InvalidPlan(why))
         case BudgetStop(elapsed) =>
           o.failed == Some(BudgetExceeded(elapsed, |o.completed|, |last.plan|)) && !WithinBudget(cfg, w, last.read - 1)
         case HaltStop(_) => NoneOrFirst(last, o.failed)
         case Ran =>
           if (forall k :: 0 <= k < |last.steps| ==> last.steps[k].reason.None?) || !AsksReplan(cfg, w, passes) then
             NoneOrFirst(last, o.failed)
           else match w.replan(|passes|)
             case Failure(error) => o.failed == Some(ReplanFailed(error))
             case Success(plan) => (plan == None || plan == Some([])) && o.failed == Some(ReplanUnusable)
  {
    StopIsReported(cfg, w, passes, o);
    FirstReasonTells(passes[|passes| - 1]);
  }

  /** No step of the pass failed, or `failed` is why the first did. */
  ghost predicate NoneOrFirst(p: Pass, failed: Option<Reason>) {
    match failed
    case None => forall k :: 0 <= k < |p.steps| ==> p.steps[k].reason.None?
    case Some(reason) => exists k :: FailsFirst(p, k, reason)
  }

  lemma FirstReasonTells(p: Pass)
    ensures NoneOrFirst(p, FirstReason(p.steps))
    ensures FirstReason(p.steps).None? <==> forall k :: 0 <= k < |p.steps| ==> p.steps[k].reason.None?
  {
    FirstReasonIsFirst(p.steps);
    if FirstReason(p.steps).Some? {
      var k :| 0 <= k < |p.steps| && p.steps[k].reason == FirstReason(p.steps)
               && forall j :: 0 <= j < k ==> p.steps[j].reason.None?;
      assert FailsFirst(p, k, FirstReason(p.steps).value);
    }
  }
}
