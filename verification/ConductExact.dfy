/**
  The rules for histories leave the conduct loop no choice: what `ConductHistory` allows for a configuration
  and a world is what `RunConduct` does (core/src/orchestrator/conduct.rs).
 */
module ConductExact {
  import opened Wrappers
  import opened Topology
  import opened ConductModel
  import opened ConductHistory
  import opened ConductLoop

  // ----- one subtask -----

  lemma RecordIsUnique(cfg: Config, ans: Answers, num: nat, a: Attempt, b: Attempt)
    requires RecordsAttempt(cfg, ans, num, a) && RecordsAttempt(cfg, ans, num, b)
    ensures a == b
  {
  }

  lemma RecordsAreUnique(cfg: Config, w: World, t: nat, a: seq<Attempt>, b: seq<Attempt>)
    requires |a| == |b| && AttemptsRecorded(cfg, w, t, a) && AttemptsRecorded(cfg, w, t, b)
    ensures a == b
  {
    forall k | 0 <= k < |a| ensures a[k] == b[k] {
      RecordIsUnique(cfg, w.attempt(t + k), k, a[k], b[k]);
    }
  }

  /** Only one attempt of a subtask is the first that does not ask for another. */
  lemma DecidedOnce(cfg: Config, w: World, id: nat, t: nat, m: nat, n: nat)
    requires AllContinue(cfg, w, id, t, m) && !MeaningAt(cfg, w, id, t, m).Continue?
    requires AllContinue(cfg, w, id, t, n) && !MeaningAt(cfg, w, id, t, n).Continue?
    ensures m == n
  {
  }

  lemma DecidedBy(m: Meaning, e: Entry, r: Option<Reason>)
    requires EntryFor(m, e, r)
    ensures !m.Continue? && !m.Abort?
    ensures e.status == (if m.Complete? then Completed else if m.FailWith? then FailedSubtask else Halted)
    ensures e.arbiter == (if m.HaltWith? then None else m.arbiter)
    ensures r == (if m.FailWith? then Some(m.reason) else None)
  {
  }

  lemma AttemptsAreUnique(cfg: Config, w: World, s: Subtask, t: nat, m: nat, d: Entry, q: Option<Reason>,
                          n: nat, e: Entry, r: Option<Reason>)
    requires AttemptsRun(cfg, w, s, t, m, d, q) && AttemptsRun(cfg, w, s, t, n, e, r)
    ensures m == n && d == e && q == r
  {
    DecidedBy(MeaningAt(cfg, w, s.id, t, m - 1), d, q);
    DecidedBy(MeaningAt(cfg, w, s.id, t, n - 1), e, r);
    DecidedOnce(cfg, w, s.id, t, m - 1, n - 1);
    RecordsAreUnique(cfg, w, t, d.attempts, e.attempts);
  }

  lemma StepIsUnique(cfg: Config, w: World, s: Subtask, completed: seq<nat>, a: Step, b: Step)
    requires StepOk(cfg, w, s, completed, a) && StepOk(cfg, w, s, completed, b) && a.tick == b.tick && a.read == b.read
    ensures a == b
  {
    if Unmet(s.dependsOn, completed) == [] {
      AttemptsAreUnique(cfg, w, s, a.tick, a.ticks, a.entry, a.reason, b.ticks, b.entry, b.reason);
    }
  }

  /** A subtask whose attempts abort has no step. */
  lemma AbortedHasNoStep(cfg: Config, w: World, s: Subtask, completed: seq<nat>, st: Step, tick: nat, error: string)
    requires DispatchAborts(cfg, w, s, completed, st.tick, st.read, tick, error)
    ensures !StepOk(cfg, w, s, completed, st)
  {
    var n := st.ticks;
    if n > 0 && AllContinue(cfg, w, s.id, st.tick, n - 1) && !MeaningAt(cfg, w, s.id, st.tick, n - 1).Continue? {
      DecidedOnce(cfg, w, s.id, st.tick, n - 1, tick - st.tick - 1);
    }
  }

  lemma AbortIsUnique(cfg: Config, w: World, s: Subtask, completed: seq<nat>, start: nat, read: nat,
                      t: nat, error: string, t': nat, error': string)
    requires DispatchAborts(cfg, w, s, completed, start, read, t, error)
    requires DispatchAborts(cfg, w, s, completed, start, read, t', error')
    ensures t == t' && error == error'
  {
    DecidedOnce(cfg, w, s.id, start, t - start - 1, t' - start - 1);
  }

  // ----- one pass -----

  /** The passes run the same plan in the same waves from the same place. */
  ghost predicate SameBeginning(p: Pass, q: Pass) {
    p.plan == q.plan && p.before == q.before && p.waves == q.waves && p.tick == q.tick && p.first == q.first
  }

  lemma SameSoFar(p: Pass, q: Pass, k: nat)
    requires SameBeginning(p, q) && k <= |p.steps| && k <= |q.steps| && p.steps[..k] == q.steps[..k]
    ensures CompletedAt(p, k) == CompletedAt(q, k) && TickAt(p, k) == TickAt(q, k)
  {
    assert k > 0 ==> p.steps[..k][k - 1] == p.steps[k - 1] && q.steps[..k][k - 1] == q.steps[k - 1];
  }

  lemma NextStepAgrees(cfg: Config, w: World, p: Pass, q: Pass, k: nat)
    requires SameBeginning(p, q) && k < |p.steps| <= |OrderOf(p)| && k < |q.steps| <= |OrderOf(q)|
    requires StepOkAt(cfg, w, p, k) && StepOkAt(cfg, w, q, k)
    requires CompletedAt(p, k) == CompletedAt(q, k) && TickAt(p, k) == TickAt(q, k)
    ensures p.steps[k] == q.steps[k]
  {
    StepIsUnique(cfg, w, p.plan[OrderOf(p)[k]], CompletedAt(p, k), p.steps[k], q.steps[k]);
  }

  lemma {:induction false} StepsAgree(cfg: Config, w: World, p: Pass, q: Pass, k: nat)
    requires SameBeginning(p, q) && StepsOk(cfg, w, p) && StepsOk(cfg, w, q) && k <= |p.steps| && k <= |q.steps|
    ensures p.steps[..k] == q.steps[..k]
  {
    if k > 0 {
      StepsAgree(cfg, w, p, q, k - 1);
      SameSoFar(p, q, k - 1);
      assert StepOkAt(cfg, w, p, k - 1) && StepOkAt(cfg, w, q, k - 1);
      NextStepAgrees(cfg, w, p, q, k - 1);
      assert p.steps[..k] == p.steps[..k - 1] + [p.steps[k - 1]];
      assert q.steps[..k] == q.steps[..k - 1] + [q.steps[k - 1]];
    }
  }

  lemma SameStep(p: Pass, q: Pass, n: nat)
    requires n <= |p.steps| && n <= |q.steps| && p.steps[..n] == q.steps[..n]
    ensures forall k :: 0 <= k < n ==> p.steps[k] == q.steps[k]
  {
    forall k | 0 <= k < n ensures p.steps[k] == q.steps[k] {
      assert p.steps[..n][k] == q.steps[..n][k];
    }
  }

  lemma BudgetHolds(cfg: Config, w: World, p: Pass)
    requires StepsOk(cfg, w, p)
    ensures forall k :: 0 <= k < |p.steps| ==> HeldAt(cfg, w, p, k)
  {
    forall k | 0 <= k < |p.steps| ensures HeldAt(cfg, w, p, k) {
      assert StepOkAt(cfg, w, p, k);
    }
  }

  /** The budget check before step `k` found the budget unspent. */
  ghost predicate HeldAt(cfg: Config, w: World, p: Pass, k: nat) {
    !Blown(cfg, w, p.first + k)
  }

  lemma SameSteps(cfg: Config, w: World, p: Pass, q: Pass)
    requires SameBeginning(p, q) && StepsOk(cfg, w, p) && StepsOk(cfg, w, q) && |p.steps| == |q.steps|
    ensures p.steps == q.steps
  {
    StepsAgree(cfg, w, p, q, |p.steps|);
    assert p.steps[..|p.steps|] == p.steps && q.steps[..|q.steps|] == q.steps;
  }

  /** A finished pass has no fewer steps than any other from the same place. */
  lemma FinishedHasAllSteps(cfg: Config, w: World, p: Pass, q: Pass)
    requires SameBeginning(p, q) && PassOk(cfg, w, p) && !p.end.Unlayered? && StepsOk(cfg, w, q)
    requires forall k :: 0 <= k < |q.steps| - 1 ==> q.steps[k].entry.status != Halted
    ensures |q.steps| <= |p.steps|
  {
    var n := if |p.steps| <= |q.steps| then |p.steps| else |q.steps|;
    StepsAgree(cfg, w, p, q, n);
    SameStep(p, q, n);
    BudgetHolds(cfg, w, q);
    assert n < |q.steps| ==> HeldAt(cfg, w, q, n);
  }

  lemma SameEnd(cfg: Config, w: World, p: Pass, q: Pass)
    requires SameBeginning(p, q) && PassOk(cfg, w, p) && PassOk(cfg, w, q) && p.steps == q.steps
    requires !p.end.Unlayered? && !q.end.Unlayered?
    ensures p == q
  {
  }

  /** A finished pass is determined by its plan and the place from which it started. */
  lemma PassIsUnique(cfg: Config, w: World, p: Pass, q: Pass)
    requires PassOk(cfg, w, p) && PassOk(cfg, w, q)
    requires p.plan == q.plan && p.before == q.before && p.tick == q.tick && p.first == q.first
    ensures p == q
  {
    if p.end.Unlayered? {
      ReportIsUnique(p.plan, p.before, p.end.why, q.end.why);
    } else {
      LayeringIsUnique(p.plan, p.before, p.waves, q.waves);
      FinishedHasAllSteps(cfg, w, p, q);
      FinishedHasAllSteps(cfg, w, q, p);
      SameSteps(cfg, w, p, q);
      SameEnd(cfg, w, p, q);
    }
  }

  /** A pass that aborts does not finish. */
  lemma AbortedHasNoPass(cfg: Config, w: World, p: Pass, q: Pass, tick: nat, error: string)
    requires PassAborted(cfg, w, q, tick, error)
    requires p.plan == q.plan && p.before == q.before && p.tick == q.tick && p.first == q.first
    ensures !PassOk(cfg, w, p)
  {
    if PassOk(cfg, w, p) {
      LayeringIsUnique(p.plan, p.before, p.waves, q.waves);
      FinishedHasAllSteps(cfg, w, p, q);
      StepsAgree(cfg, w, p, q, |q.steps|);
      SameStep(p, q, |q.steps|);
      SameSoFar(p, q, |q.steps|);
      FinishedHasMore(cfg, w, p, q);
      assert StepOkAt(cfg, w, p, |q.steps|);
      AbortedHasNoStep(cfg, w, p.plan[OrderOf(p)[|q.steps|]], CompletedAt(p, |q.steps|), p.steps[|q.steps|], tick,
        error);
    }
  }

  /** Two passes that abort from the same place are one. */
  lemma AbortedPassIsUnique(cfg: Config, w: World, p: Pass, t: nat, error: string, q: Pass, t': nat, error': string)
    requires PassAborted(cfg, w, p, t, error) && PassAborted(cfg, w, q, t', error')
    requires p.plan == q.plan && p.before == q.before && p.tick == q.tick && p.first == q.first
    ensures p == q && t == t' && error == error'
  {
    LayeringIsUnique(p.plan, p.before, p.waves, q.waves);
    NoStepBeyondAbort(cfg, w, p, t, error, q);
    NoStepBeyondAbort(cfg, w, q, t', error', p);
    SameSteps(cfg, w, p, q);
    AbortIsUnique(cfg, w, p.plan[OrderOf(p)[|p.steps|]], CompletedAfter(p), TickAfter(p),
                  p.first + Readings(cfg, |p.steps|), t, error, t', error');
  }

  lemma NoStepBeyondAbort(cfg: Config, w: World, p: Pass, t: nat, error: string, q: Pass)
    requires SameBeginning(p, q) && PassAborted(cfg, w, p, t, error) && StepsOk(cfg, w, q)
    ensures |q.steps| <= |p.steps|
  {
    var n := |p.steps|;
    if n < |q.steps| {
      StepsAgree(cfg, w, p, q, n);
      SameSoFar(p, q, n);
      assert StepOkAt(cfg, w, q, n);
      AbortedHasNoStep(cfg, w, p.plan[OrderOf(p)[n]], CompletedAt(q, n), q.steps[n], t, error);
    }
  }

  /** A finished pass goes beyond steps after which a subtask is left, the budget holds and nothing has halted. */
  lemma FinishedHasMore(cfg: Config, w: World, p: Pass, q: Pass)
    requires SameBeginning(p, q) && PassOk(cfg, w, p) && !p.end.Unlayered? && |q.steps| <= |p.steps|
    requires forall k :: 0 <= k < |q.steps| ==> p.steps[k] == q.steps[k]
    requires Unhalted(q) && |q.steps| < |OrderOf(q)| && !Blown(cfg, w, q.first + Readings(cfg, |q.steps|))
    ensures |q.steps| < |p.steps|
  {
  }

  // ----- the whole run -----

  lemma PassContinues(cfg: Config, w: World, passes: seq<Pass>, k: nat)
    requires RunOk(cfg, w, passes) && k < |passes|
    ensures Continues(cfg, w, passes[..k], passes[k]) && PassOk(cfg, w, passes[k])
  {
    if k > 0 {
      RunPrefix(cfg, w, passes, k);
      assert Replanned(cfg, w, passes, k - 1);
    }
  }

  /** The passes start in the same place with the same plan. */
  ghost predicate SamePlace(p: Pass, q: Pass) {
    p.plan == q.plan && p.before == q.before && p.tick == q.tick && p.first == q.first
  }

  lemma ContinuesInOnePlace(cfg: Config, w: World, passes: seq<Pass>, p: Pass, q: Pass)
    requires Continues(cfg, w, passes, p) && Continues(cfg, w, passes, q)
    requires passes == [] ==> p.tick == q.tick && p.first == q.first
    ensures SamePlace(p, q)
  {
  }

  ghost predicate SameStart(a: seq<Pass>, b: seq<Pass>) {
    a != [] && b != [] && a[0].tick == b[0].tick && a[0].first == b[0].first
  }

  lemma NextPassAgrees(cfg: Config, w: World, a: seq<Pass>, b: seq<Pass>, k: nat)
    requires RunOk(cfg, w, a) && RunOk(cfg, w, b) && SameStart(a, b) && k < |a| && k < |b| && a[..k] == b[..k]
    ensures a[k] == b[k]
  {
    PassContinues(cfg, w, a, k);
    PassContinues(cfg, w, b, k);
    ContinuesInOnePlace(cfg, w, a[..k], a[k], b[k]);
    PassIsUnique(cfg, w, a[k], b[k]);
  }

  lemma OneMoreSame(a: seq<Pass>, b: seq<Pass>, k: nat)
    requires k < |a| && k < |b| && a[..k] == b[..k] && a[k] == b[k]
    ensures a[..k + 1] == b[..k + 1]
  {
    assert a[..k + 1] == a[..k] + [a[k]] && b[..k + 1] == b[..k] + [b[k]];
  }

  lemma {:induction false} RunsAgree(cfg: Config, w: World, a: seq<Pass>, b: seq<Pass>, n: nat)
    requires RunOk(cfg, w, a) && RunOk(cfg, w, b) && SameStart(a, b) && n <= |a| && n <= |b|
    ensures a[..n] == b[..n]
  {
    if n > 0 {
      RunsAgree(cfg, w, a, b, n - 1);
      NextPassAgrees(cfg, w, a, b, n - 1);
      OneMoreSame(a, b, n - 1);
    }
  }

  /** No pass comes after one with which the run ended. */
  lemma NothingAfterTheEnd(cfg: Config, w: World, a: seq<Pass>, failed: Option<Reason>, p: Pass)
    requires a != [] && FinalFailure(cfg, w, a, failed)
    ensures !Continues(cfg, w, a, p)
  {
  }

  /** Any passes within the rules are a prefix of those of the finished run. */
  lemma FinishedIsLongest(cfg: Config, w: World, a: seq<Pass>, failed: Option<Reason>, b: seq<Pass>)
    requires RunOk(cfg, w, a) && FinalFailure(cfg, w, a, failed) && RunOk(cfg, w, b) && SameStart(a, b)
    ensures b <= a
  {
    var n := if |a| < |b| then |a| else |b|;
    RunsAgree(cfg, w, a, b, n);
    assert a[..|a|] == a && b[..|b|] == b;
    if n < |b| {
      PassContinues(cfg, w, b, n);
      NothingAfterTheEnd(cfg, w, a, failed, b[n]);
    }
  }

  lemma FailureIsUnique(cfg: Config, w: World, a: seq<Pass>, f: Option<Reason>, g: Option<Reason>)
    requires a != [] && FinalFailure(cfg, w, a, f) && FinalFailure(cfg, w, a, g)
    ensures f == g
  {
  }

  /** Two finished runs from the same start are one. */
  lemma HistoriesAgree(cfg: Config, w: World, a: seq<Pass>, o: Outcome, b: seq<Pass>, o': Outcome)
    requires Summarizes(cfg, w, a, o) && Summarizes(cfg, w, b, o') && SameStart(a, b)
    ensures a == b && o == o'
  {
    FinishedIsLongest(cfg, w, a, o.failed, b);
    FinishedIsLongest(cfg, w, b, o'.failed, a);
    assert a == b;
    FailureIsUnique(cfg, w, a, o.failed, o'.failed);
  }

  /** No run finishes the pass in which another from the same start was aborted. */
  lemma AbortBlocks(cfg: Config, w: World, a: seq<Pass>, tick: nat, error: string, b: seq<Pass>)
    requires RunAborted(cfg, w, a, tick, error) && RunOk(cfg, w, b) && SameStart(a, b)
    ensures |b| < |a| && a[..|b|] == b
  {
    var m := |a| - 1;
    var n := if m < |b| then m else |b|;
    if n > 0 {
      assert a[..m][0] == a[0];
      RunsAgree(cfg, w, a[..m], b, n);
    }
    assert a[..m][..n] == a[..n] && b[..|b|] == b;
    if m < |b| {
      PassContinues(cfg, w, b, m);
      ContinuesInOnePlace(cfg, w, a[..m], a[m], b[m]);
      AbortedHasNoPass(cfg, w, b[m], a[m], tick, error);
    }
  }

  /** Passes that the loop goes beyond are not those of a finished run. */
  lemma ContinuedIsNotFinished(cfg: Config, w: World, b: seq<Pass>, failed: Option<Reason>, front: seq<Pass>, p: Pass)
    requires RunOk(cfg, w, b) && |b| <= |front| && SameStart(b, front) && Continues(cfg, w, front, p)
    ensures !FinalFailure(cfg, w, b, failed)
  {
    if FinalFailure(cfg, w, b, failed) {
      FinishedIsLongest(cfg, w, b, failed, front);
      assert b == front;
      NothingAfterTheEnd(cfg, w, b, failed, p);
    }
  }

  /** A run that was aborted does not finish. */
  lemma AbortedDoesNotFinish(cfg: Config, w: World, a: seq<Pass>, tick: nat, error: string, b: seq<Pass>, o: Outcome)
    requires RunAborted(cfg, w, a, tick, error) && SameStart(a, b)
    ensures !Summarizes(cfg, w, b, o)
  {
    if RunOk(cfg, w, b) {
      var m := |a| - 1;
      AbortBlocks(cfg, w, a, tick, error, b);
      assert a[..m][0] == a[0];
      ContinuedIsNotFinished(cfg, w, b, o.failed, a[..m], a[m]);
    }
  }

  lemma AbortedIsLongest(cfg: Config, w: World, a: seq<Pass>, t: nat, error: string, b: seq<Pass>, t': nat,
                         error': string)
    requires RunAborted(cfg, w, a, t, error) && RunAborted(cfg, w, b, t', error') && SameStart(a, b)
    ensures |b| <= |a| && a[..|b| - 1] == b[..|b| - 1]
  {
    var m := |b| - 1;
    if m > 0 {
      assert b[..m][0] == b[0];
      AbortBlocks(cfg, w, a, t, error, b[..m]);
    }
  }

  lemma AbortedRunsAgree(cfg: Config, w: World, a: seq<Pass>, t: nat, error: string, b: seq<Pass>, t': nat,
                         error': string)
    requires RunAborted(cfg, w, a, t, error) && RunAborted(cfg, w, b, t', error') && SameStart(a, b)
    ensures a == b && t == t' && error == error'
  {
    AbortedIsLongest(cfg, w, a, t, error, b, t', error');
    AbortedIsLongest(cfg, w, b, t', error', a, t, error);
    var m := |a| - 1;
    SameAbort(cfg, w, a[..m], a[m], t, error, b[m], t', error');
    SameWhole(a, b, m);
  }

  lemma SameWhole(a: seq<Pass>, b: seq<Pass>, m: nat)
    requires |a| == |b| == m + 1 && a[..m] == b[..m] && a[m] == b[m]
    ensures a == b
  {
    assert a == a[..m] + [a[m]] && b == b[..m] + [b[m]];
  }

  lemma SameAbort(cfg: Config, w: World, passes: seq<Pass>, p: Pass, t: nat, error: string, q: Pass, t': nat,
                  error': string)
    requires Continues(cfg, w, passes, p) && Continues(cfg, w, passes, q)
    requires passes == [] ==> p.tick == q.tick && p.first == q.first
    requires PassAborted(cfg, w, p, t, error) && PassAborted(cfg, w, q, t', error')
    ensures p == q && t == t' && error == error'
  {
    ContinuesInOnePlace(cfg, w, passes, p, q);
    AbortedPassIsUnique(cfg, w, p, t, error, q, t', error');
  }

  /** The run ended with `r`: finished, or aborted. */
  ghost predicate Stops(cfg: Config, w: World, r: Result<Outcome, string>, passes: seq<Pass>) {
    if r.Success? then Summarizes(cfg, w, passes, r.value) else exists t :: RunAborted(cfg, w, passes, t, r.error)
  }

  /** What the rules allow a run from the given attempt and clock reading to return, and the passes behind it. */
  ghost predicate Returns(cfg: Config, w: World, tick: nat, first: nat, r: Result<Outcome, string>, passes: seq<Pass>) {
    if passes == [] then r.Failure? && NoFirstPlan(w, r.error)
    else StartsAt(passes, tick, first) && Stops(cfg, w, r, passes)
  }

  lemma FirstPlanIsThere(cfg: Config, w: World, tick: nat, first: nat, r: Result<Outcome, string>, passes: seq<Pass>)
    requires Returns(cfg, w, tick, first, r, passes)
    ensures passes == [] <==> w.decompose.Failure? || w.decompose == Success(None) || w.decompose == Success(Some([]))
  {
    if r.Failure? && passes != [] {
      var t :| RunAborted(cfg, w, passes, t, r.error);
      if |passes| > 1 {
        PassContinues(cfg, w, passes[..|passes| - 1], 0);
      }
    }
  }

  /** The rules leave one result, and one history behind it. */
  lemma RunIsDetermined(cfg: Config, w: World, tick: nat, first: nat,
                        r: Result<Outcome, string>, a: seq<Pass>, r': Result<Outcome, string>, b: seq<Pass>)
    requires Returns(cfg, w, tick, first, r, a) && Returns(cfg, w, tick, first, r', b)
    ensures r == r' && a == b
  {
    FirstPlanIsThere(cfg, w, tick, first, r, a);
    FirstPlanIsThere(cfg, w, tick, first, r', b);
    if a != [] {
      BothEnd(cfg, w, r, a, r', b);
    }
  }

  lemma BothEnd(cfg: Config, w: World, r: Result<Outcome, string>, a: seq<Pass>, r': Result<Outcome, string>,
                b: seq<Pass>)
    requires SameStart(a, b) && Stops(cfg, w, r, a) && Stops(cfg, w, r', b)
    ensures r == r' && a == b
  {
    if r.Success? && r'.Success? {
      HistoriesAgree(cfg, w, a, r.value, b, r'.value);
    } else if r.Success? {
      var t :| RunAborted(cfg, w, b, t, r'.error);
      AbortedDoesNotFinish(cfg, w, b, t, r'.error, a, r.value);
    } else {
      var t :| RunAborted(cfg, w, a, t, r.error);
      if r'.Success? {
        AbortedDoesNotFinish(cfg, w, a, t, r.error, b, r'.value);
      } else {
        var t' :| RunAborted(cfg, w, b, t', r'.error);
        AbortedRunsAgree(cfg, w, a, t, r.error, b, t', r'.error);
      }
    }
  }

  /** The loop returns what the rules allow, and nothing else is allowed. */
  method RunExactly(cfg: Config, w: World, ghost expected: Result<Outcome, string>, ghost history: seq<Pass>)
    returns (r: Result<Outcome, string>, ghost passes: seq<Pass>)
    requires Monotone(w.clock) && Returns(cfg, w, 0, 0, expected, history)
    ensures r == expected && passes == history
  {
    var run := new ConductRun(cfg, w);
    r, passes := run.RunConduct();
    RunIsDetermined(cfg, w, 0, 0, expected, history, r, passes);
  }
}
