/**
  Passes and runs of the conduct loop as values, and what every history the loop can produce satisfies
  (core/src/orchestrator/conduct.rs). `ConductLoop` proves that the loop produces only such histories.
 */
module ConductHistory {
  import opened Wrappers
  import opened Sequences
  import opened Topology
  import opened ConductModel

  /** One dispatched subtask: its entry, the failure it would report, its attempts and its budget reading. */
  datatype Step = Step(entry: Entry, reason: Option<Reason>, tick: nat, ticks: nat, read: nat)

  datatype PassEnd = Ran | BudgetStop(elapsed: nat) | HaltStop(note: string) | Unlayered(why: PlanError)

  /**
    One pass over a plan. It starts with attempt number `tick` and clock reading number `first`; `read` is
    the number of the first reading after it.
   */
  datatype Pass = Pass(plan: seq<Subtask>, before: seq<nat>, waves: seq<seq<nat>>, tick: nat, first: nat,
                       steps: seq<Step>, end: PassEnd, read: nat)

  function Entries(steps: seq<Step>): (es: seq<Entry>)
    ensures |es| == |steps|
    ensures forall k :: 0 <= k < |steps| ==> es[k] == steps[k].entry
  {
    if steps == [] then [] else Entries(steps[..|steps| - 1]) + [steps[|steps| - 1].entry]
  }

  function Added(ids: seq<nat>, b: bool, id: nat): seq<nat> {
    if b then ids + [id] else ids
  }

  function IdsWith(status: Status, es: seq<Entry>): seq<nat> {
    if es == [] then []
    else Added(IdsWith(status, es[..|es| - 1]), es[|es| - 1].status == status, es[|es| - 1].id)
  }

  function FirstReason(steps: seq<Step>): Option<Reason> {
    if steps == [] then None
    else if FirstReason(steps[..|steps| - 1]).Some? then FirstReason(steps[..|steps| - 1])
    else steps[|steps| - 1].reason
  }

  /** The dependencies that are not completed, in order. */
  function Unmet(deps: seq<nat>, completed: seq<nat>): (u: seq<nat>)
    ensures forall d :: d in u <==> d in deps && d !in completed
  {
    if deps == [] then []
    else
      var last := deps[|deps| - 1];
      Added(Unmet(deps[..|deps| - 1], completed), last !in completed, last)
  }

  function CompletedAt(p: Pass, k: nat): seq<nat>
    requires k <= |p.steps|
  {
    p.before + IdsWith(Completed, Entries(p.steps[..k]))
  }

  function CompletedAfter(p: Pass): seq<nat> {
    CompletedAt(p, |p.steps|)
  }

  function OrderOf(p: Pass): seq<nat> {
    Flat(p.waves)
  }

  /** A subtask is skipped on an unmet dependency and otherwise attempted. */
  ghost predicate StepOk(cfg: Config, w: World, s: Subtask, completed: seq<nat>, st: Step) {
    && (cfg.budget.Some? ==> w.clock(st.read) < cfg.budget.value)
    && if Unmet(s.dependsOn, completed) != [] then
         && st.entry == Entry(s.id, s.title, Skipped, [], [], None)
         && st.reason == Some(UnmetDependencies(s.id, Unmet(s.dependsOn, completed)))
         && st.ticks == 0
       else
         AttemptsRun(cfg, w, s, st.tick, st.ticks, st.entry, st.reason)
  }

  /** The clock readings that `n` budget checks take. */
  function Readings(cfg: Config, n: nat): nat {
    if cfg.budget.Some? then n else 0
  }

  /** The number of the attempt made next after `k` steps. */
  function TickAt(p: Pass, k: nat): nat
    requires k <= |p.steps|
  {
    if k == 0 then p.tick else p.steps[k - 1].tick + p.steps[k - 1].ticks
  }

  function TickAfter(p: Pass): nat {
    TickAt(p, |p.steps|)
  }

  /** The number of the clock reading taken next after the pass. */
  function ReadAfter(cfg: Config, p: Pass): nat {
    p.first + Readings(cfg, |p.steps| + if p.end.BudgetStop? then 1 else 0)
  }

  /** Step `k` uses the attempts and the clock reading right after those of its predecessors. */
  predicate InTurn(cfg: Config, p: Pass, k: nat)
    requires k < |p.steps|
  {
    p.steps[k].tick == TickAt(p, k) && p.steps[k].read == p.first + Readings(cfg, k)
  }

  /** Every step obeys the rules in the state its predecessors left, and in its turn. */
  ghost predicate StepsOk(cfg: Config, w: World, p: Pass) {
    && |p.steps| <= |OrderOf(p)|
    && (forall k {:trigger StepOkAt(cfg, w, p, k)} :: 0 <= k < |p.steps| ==> StepOkAt(cfg, w, p, k))
  }

  ghost predicate StepOkAt(cfg: Config, w: World, p: Pass, k: nat)
    requires k < |p.steps| <= |OrderOf(p)|
  {
    && InTurn(cfg, p, k) && OrderOf(p)[k] < |p.plan|
    && StepOk(cfg, w, p.plan[OrderOf(p)[k]], CompletedAt(p, k), p.steps[k])
  }

  /** A pass is the prefix of its waves that the end condition explains. */
  ghost predicate PassOk(cfg: Config, w: World, p: Pass) {
    p.read == ReadAfter(cfg, p) &&
    if p.end.Unlayered? then
      p.steps == [] && p.waves == [] && !ValidPlan(p.plan, p.before) && Reports(p.plan, p.before, p.end.why)
    else
      && ValidPlan(p.plan, p.before)
      && IsLayering(p.plan, p.before, p.waves)
      && StepsOk(cfg, w, p)
      && (forall k :: 0 <= k < |p.steps| && p.steps[k].entry.status == Halted ==> k == |p.steps| - 1 && p.end.HaltStop?)
      && EndExplained(cfg, w, p)
  }

  ghost predicate EndExplained(cfg: Config, w: World, p: Pass) {
    match p.end
    case Ran => |p.steps| == |OrderOf(p)|
    case BudgetStop(elapsed) =>
      && |p.steps| < |OrderOf(p)|
      && Blown(cfg, w, p.first + |p.steps|) && elapsed == w.clock(p.first + |p.steps|)
    case HaltStop(note) =>
      && p.steps != [] && p.steps[|p.steps| - 1].entry.status == Halted
      && LastNote(p.steps[|p.steps| - 1].entry.supervisor) == Some(note)
    case Unlayered(_) => true
  }

  lemma StepAtIsOk(cfg: Config, w: World, p: Pass, k: nat)
    requires PassOk(cfg, w, p) && k < |p.steps|
    ensures k < |OrderOf(p)| && OrderOf(p)[k] < |p.plan| && InTurn(cfg, p, k)
    ensures StepOk(cfg, w, p.plan[OrderOf(p)[k]], CompletedAt(p, k), p.steps[k])
  {
    assert StepOkAt(cfg, w, p, k);
  }

  /** The failure a pass leaves behind: the first one, unless the budget ran out or the plan was unusable. */
  function FailedAfter(p: Pass): Option<Reason> {
    match p.end
    case Unlayered(why) => Some(InvalidPlan(why))
    case BudgetStop(elapsed) => Some(BudgetExceeded(elapsed, |CompletedAfter(p)|, |p.plan|))
    case _ => FirstReason(p.steps)
  }

  predicate Blown(cfg: Config, w: World, read: nat) {
    cfg.budget.Some? && w.clock(read) >= cfg.budget.value
  }

  /** The attempts from `tick` on end in one that could not be carried out: routing, capture or evaluation failed. */
  ghost predicate AttemptsAbort(cfg: Config, w: World, id: nat, tick: nat, last: nat, error: string) {
    last <= MAX_REWORKS && AllContinue(cfg, w, id, tick, last) && MeaningAt(cfg, w, id, tick, last) == Abort(error)
  }

  /**
    After the steps of `p` the budget holds, the next subtask is attempted, and its last attempt before `tick`
    aborts.
   */
  ghost predicate PassAborted(cfg: Config, w: World, p: Pass, tick: nat, error: string) {
    && ValidPlan(p.plan, p.before) && IsLayering(p.plan, p.before, p.waves)
    && StepsOk(cfg, w, p) && Unhalted(p) && p.end.Ran? && p.read == 0
    && |p.steps| < |OrderOf(p)| && OrderOf(p)[|p.steps|] < |p.plan|
    && DispatchAborts(cfg, w, p.plan[OrderOf(p)[|p.steps|]], CompletedAfter(p), TickAfter(p),
                      p.first + Readings(cfg, |p.steps|), tick, error)
  }

  /** The budget holds at reading `read`, `s` waits for nothing, and its attempts from `start` on abort. */
  ghost predicate DispatchAborts(cfg: Config, w: World, s: Subtask, completed: seq<nat>, start: nat, read: nat,
                                 tick: nat, error: string)
  {
    && !Blown(cfg, w, read) && Unmet(s.dependsOn, completed) == []
    && start < tick && AttemptsAbort(cfg, w, s.id, start, tick - start - 1, error)
  }

  /** Decomposition failed, or its answer held no subtask. */
  ghost predicate NoFirstPlan(w: World, error: string) {
    match w.decompose
    case Failure(e) => error == e
    case Success(plan) => (plan == None || plan == Some([])) && error == "conductor produced no plan"
  }

  // ----- runs -----

  /**
    Why pass `k` was followed by another: it ran out, something failed, budget and replans remained, and the
    replan parsed.
   */
  ghost predicate Replanned(cfg: Config, w: World, passes: seq<Pass>, k: nat)
    requires k + 1 < |passes|
  {
    && passes[k].end.Ran?
    && FirstReason(passes[k].steps).Some?
    && k < cfg.maxReplans
    && !Blown(cfg, w, passes[k].read)
    && w.replan(k + 1) == Success(Some(passes[k + 1].plan)) && passes[k + 1].plan != []
    && Follows(cfg, passes[k], passes[k + 1])
  }

  /** Pass `q` starts where pass `p` and the budget check after it end. */
  ghost predicate Follows(cfg: Config, p: Pass, q: Pass) {
    q.before == CompletedAfter(p) && AtCursors(cfg, p, q.tick, q.first)
  }

  /** The attempt and the clock reading that are next after pass `p` and the budget check behind it. */
  ghost predicate AtCursors(cfg: Config, p: Pass, tick: nat, first: nat) {
    tick == TickAfter(p) && first == p.read + Readings(cfg, 1)
  }

  /**
    The passes that the loop makes one after another. They may start anywhere in the oracles' answers, and
    the last one may be followed by another.
   */
  ghost predicate RunOk(cfg: Config, w: World, passes: seq<Pass>) {
    && passes != []
    && w.decompose == Success(Some(passes[0].plan)) && passes[0].plan != []
    && passes[0].before == []
    && (forall k :: 0 <= k < |passes| ==> PassOk(cfg, w, passes[k]))
    && (forall k :: 0 <= k < |passes| - 1 ==> Replanned(cfg, w, passes, k))
  }

  /**
    A pass is followed by a replan when something failed, replans remain, and neither a halt nor the budget
    ended the run.
   */
  ghost predicate WantsReplan(cfg: Config, w: World, p: Pass, replansUsed: nat) {
    && !p.end.HaltStop? && !p.end.Unlayered?
    && FailedAfter(p).Some? && replansUsed < cfg.maxReplans && !Blown(cfg, w, p.read)
  }

  /** The plan that the conductor gave for the pass after `passes`. */
  ghost predicate NextPlan(cfg: Config, w: World, passes: seq<Pass>, plan: seq<Subtask>) {
    && plan != []
    && if passes == [] then w.decompose == Success(Some(plan))
       else
         && WantsReplan(cfg, w, passes[|passes| - 1], |passes| - 1)
         && w.replan(|passes|) == Success(Some(plan))
  }

  /** Pass `p` is the one that the loop makes after `passes`. */
  ghost predicate Continues(cfg: Config, w: World, passes: seq<Pass>, p: Pass) {
    && NextPlan(cfg, w, passes, p.plan)
    && if passes == [] then p.before == [] else RunOk(cfg, w, passes) && Follows(cfg, passes[|passes| - 1], p)
  }

  /** The last pass was aborted by the attempt before `tick`. */
  ghost predicate RunAborted(cfg: Config, w: World, passes: seq<Pass>, tick: nat, error: string) {
    && passes != []
    && Continues(cfg, w, passes[..|passes| - 1], passes[|passes| - 1])
    && PassAborted(cfg, w, passes[|passes| - 1], tick, error)
  }

  /** The run starts with attempt number `tick` and clock reading number `first`. */
  predicate StartsAt(passes: seq<Pass>, tick: nat, first: nat) {
    passes != [] && passes[0].tick == tick && passes[0].first == first
  }

  function HaltNote(end: PassEnd): Option<string> {
    if end.HaltStop? then Some(end.note) else None
  }

  /** The failure a run reports: that of its last pass, or that of the replan it then asked for. */
  ghost predicate FinalFailure(cfg: Config, w: World, passes: seq<Pass>, failed: Option<Reason>)
    requires passes != []
  {
    var last, n := passes[|passes| - 1], |passes|;
    if WantsReplan(cfg, w, last, n - 1) then ReplanFault(w.replan(n), failed) else failed == FailedAfter(last)
  }

  /** The answer holds no plan, and `failed` says why. */
  ghost predicate ReplanFault(answer: Result<Option<seq<Subtask>>, string>, failed: Option<Reason>) {
    match answer
    case Failure(error) => failed == Some(ReplanFailed(error))
    case Success(plan) => (plan == None || plan == Some([])) && failed == Some(ReplanUnusable)
  }

  function AllEntries(passes: seq<Pass>): seq<Entry> {
    if passes == [] then [] else AllEntries(passes[..|passes| - 1]) + Entries(passes[|passes| - 1].steps)
  }

  // ----- sequences of entries -----

  lemma {:induction false} IdsWithConcat(status: Status, a: seq<Entry>, b: seq<Entry>)
    ensures IdsWith(status, a + b) == IdsWith(status, a) + IdsWith(status, b)
    decreases |b|
  {
    if b == [] {
      assert a + b == a;
    } else {
      assert (a + b)[..|a + b| - 1] == a + b[..|b| - 1];
      IdsWithConcat(status, a, b[..|b| - 1]);
    }
  }

  lemma {:induction false} IdsWithMember(status: Status, es: seq<Entry>, id: nat)
    ensures id in IdsWith(status, es) <==> exists k :: 0 <= k < |es| && es[k].status == status && es[k].id == id
  {
    if es != [] {
      var front := es[..|es| - 1];
      IdsWithMember(status, front, id);
      if k :| 0 <= k < |es| && es[k].status == status && es[k].id == id {
        assert k < |front| ==> front[k] == es[k];
      }
    }
  }

  /** The ids are those of the entries with that status, each once and in order. */
  lemma {:induction false} IdsWithExactly(status: Status, es: seq<Entry>)
    ensures IdsWith(status, es) == Filter(es, (e: Entry) => e.status == status, (e: Entry) => e.id)
  {
    if es != [] {
      IdsWithExactly(status, es[..|es| - 1]);
    }
  }

  /** The unmet dependencies are those that are not completed, in order and as often as they are listed. */
  lemma {:induction false} UnmetExactly(deps: seq<nat>, completed: seq<nat>)
    ensures Unmet(deps, completed) == Filter(deps, (d: nat) => d !in completed, d => d)
  {
    if deps != [] {
      UnmetExactly(deps[..|deps| - 1], completed);
    }
  }

  /** Conservation: the four outcomes account for every entry, once. */
  lemma {:induction false} OutcomesAddUp(es: seq<Entry>)
    ensures |IdsWith(Completed, es)| + |IdsWith(Skipped, es)| + |IdsWith(FailedSubtask, es)| + |IdsWith(Halted, es)| ==
      |es|
  {
    if es != [] {
      OutcomesAddUp(es[..|es| - 1]);
    }
  }

  /** The reported failure is that of the earliest step that has one; later ones never replace it. */
  lemma {:induction false} FirstReasonIsFirst(steps: seq<Step>)
    ensures FirstReason(steps).None? <==> forall k :: 0 <= k < |steps| ==> steps[k].reason.None?
    ensures FirstReason(steps).Some? ==> exists k :: 0 <= k < |steps| && steps[k].reason == FirstReason(steps)
                                                && forall j :: 0 <= j < k ==> steps[j].reason.None?
  {
    if steps != [] {
      var front := steps[..|steps| - 1];
      FirstReasonIsFirst(front);
      if FirstReason(front).Some? {
        var k :| 0 <= k < |front| && front[k].reason == FirstReason(front)
                 && forall j :: 0 <= j < k ==> front[j].reason.None?;
        assert steps[k] == front[k];
        forall j | 0 <= j < k ensures steps[j].reason.None? {
          assert steps[j] == front[j];
        }
      } else {
        forall j | 0 <= j < |steps| - 1 ensures steps[j].reason.None? {
          assert steps[j] == front[j];
        }
      }
    }
  }

  lemma StepReason(cfg: Config, w: World, s: Subtask, completed: seq<nat>, st: Step)
    requires StepOk(cfg, w, s, completed, st)
    ensures st.entry.id == s.id
    ensures st.reason.None? <==> st.entry.status == Completed || st.entry.status == Halted
    ensures st.entry.status == Skipped <==> Unmet(s.dependsOn, completed) != []
  {
  }

  lemma StepReasonAt(cfg: Config, w: World, p: Pass, k: nat)
    requires PassOk(cfg, w, p) && k < |p.steps|
    ensures k < |OrderOf(p)| && OrderOf(p)[k] < |p.plan|
    ensures p.steps[k].entry.id == p.plan[OrderOf(p)[k]].id
    ensures p.steps[k].reason.None? <==> p.steps[k].entry.status == Completed || p.steps[k].entry.status == Halted
    ensures p.steps[k].entry.status == Skipped <==> Unmet(p.plan[OrderOf(p)[k]].dependsOn, CompletedAt(p, k)) != []
  {
    StepAtIsOk(cfg, w, p, k);
    StepReason(cfg, w, p.plan[OrderOf(p)[k]], CompletedAt(p, k), p.steps[k]);
  }

  // ----- one pass -----

  /** Appending a step that the rules allow keeps a pass within the rules. */
  lemma AppendStep(cfg: Config, w: World, p: Pass, st: Step)
    requires StepsOk(cfg, w, p) && |p.steps| < |OrderOf(p)|
    requires OrderOf(p)[|p.steps|] < |p.plan|
    requires StepOk(cfg, w, p.plan[OrderOf(p)[|p.steps|]], CompletedAfter(p), st)
    requires st.tick == TickAfter(p) && st.read == p.first + Readings(cfg, |p.steps|)
    ensures StepsOk(cfg, w, p.(steps := p.steps + [st]))
  {
    var q := p.(steps := p.steps + [st]);
    forall k | 0 <= k < |q.steps| ensures StepOkAt(cfg, w, q, k) {
      if k < |p.steps| {
        assert StepOkAt(cfg, w, p, k);
        StepStays(cfg, w, p, st, k);
      } else {
        assert q.steps[..k] == p.steps && p.steps[..k] == p.steps;
      }
    }
  }

  lemma StepStays(cfg: Config, w: World, p: Pass, st: Step, k: nat)
    requires k < |p.steps| < |OrderOf(p)| && StepOkAt(cfg, w, p, k)
    ensures StepOkAt(cfg, w, p.(steps := p.steps + [st]), k)
  {
    var q := p.(steps := p.steps + [st]);
    assert q.steps[..k] == p.steps[..k];
  }

  lemma AddedBehind(before: seq<nat>, ids: seq<nat>, b: bool, id: nat)
    ensures before + Added(ids, b, id) == Added(before + ids, b, id)
  {
    if b {
      assert before + (ids + [id]) == before + ids + [id];
    }
  }

  lemma EntriesPush(steps: seq<Step>, st: Step)
    ensures Entries(steps + [st]) == Entries(steps) + [st.entry]
  {
    assert (steps + [st])[..|steps|] == steps;
  }

  lemma IdsPush(status: Status, es: seq<Entry>, e: Entry)
    ensures IdsWith(status, es + [e]) == Added(IdsWith(status, es), e.status == status, e.id)
  {
    assert (es + [e])[..|es|] == es;
  }

  lemma FirstReasonPush(steps: seq<Step>, st: Step)
    ensures FirstReason(steps + [st]) == (if FirstReason(steps).Some? then FirstReason(steps) else st.reason)
  {
    assert (steps + [st])[..|steps|] == steps;
  }

  lemma CompletedIs(p: Pass)
    ensures CompletedAfter(p) == p.before + IdsWith(Completed, Entries(p.steps))
  {
    assert p.steps[..|p.steps|] == p.steps;
  }

  /** What one more step adds to the entries of a pass and to its ids of a status. */
  lemma AppendIds(p: Pass, st: Step, status: Status)
    ensures IdsWith(status, Entries(p.steps + [st])) ==
      Added(IdsWith(status, Entries(p.steps)), st.entry.status == status, st.entry.id)
  {
    EntriesPush(p.steps, st);
    IdsPush(status, Entries(p.steps), st.entry);
  }

  lemma AppendCompleted(p: Pass, st: Step)
    ensures CompletedAfter(p.(steps := p.steps + [st])) ==
      Added(CompletedAfter(p), st.entry.status == Completed, st.entry.id)
  {
    CompletedIs(p);
    CompletedIs(p.(steps := p.steps + [st]));
    AppendIds(p, st, Completed);
    AddedBehind(p.before, IdsWith(Completed, Entries(p.steps)), st.entry.status == Completed, st.entry.id);
  }

  /** The variables of a run that a pass changes. */
  datatype Vars = Vars(completed: seq<nat>, skipped: seq<nat>, failed: Option<Reason>, entries: seq<Entry>, tick: nat,
                       readings: nat)

  /** The variables hold exactly what the steps of the pass, on top of the earlier passes, say. */
  ghost predicate Reflects(cfg: Config, w: World, p: Pass, v: Vars, entriesBefore: seq<Entry>,
                           skippedBefore: seq<nat>)
  {
    && StepsOk(cfg, w, p)
    && v.completed == CompletedAfter(p)
    && v.entries == entriesBefore + Entries(p.steps)
    && v.skipped == skippedBefore + IdsWith(Skipped, Entries(p.steps))
    && v.failed == FirstReason(p.steps)
    && v.tick == TickAfter(p) && v.readings == p.first + Readings(cfg, |p.steps|)
  }

  function Or<T>(a: Option<T>, b: Option<T>): Option<T> {
    if a.Some? then a else b
  }

  /** The variables after a step, given those before it. */
  ghost function After(cfg: Config, v: Vars, st: Step): Vars {
    Vars(Added(v.completed, st.entry.status == Completed, st.entry.id),
         Added(v.skipped, st.entry.status == Skipped, st.entry.id),
         Or(v.failed, st.reason),
         v.entries + [st.entry],
         v.tick + st.ticks,
         v.readings + Readings(cfg, 1))
  }

  lemma SkippedPush(p: Pass, sk: seq<nat>, st: Step)
    ensures sk + IdsWith(Skipped, Entries(p.steps + [st])) ==
      Added(sk + IdsWith(Skipped, Entries(p.steps)), st.entry.status == Skipped, st.entry.id)
  {
    AppendIds(p, st, Skipped);
    AddedBehind(sk, IdsWith(Skipped, Entries(p.steps)), st.entry.status == Skipped, st.entry.id);
  }

  lemma EntriesPushBehind(steps: seq<Step>, es: seq<Entry>, st: Step)
    ensures es + Entries(steps + [st]) == es + Entries(steps) + [st.entry]
  {
    EntriesPush(steps, st);
    assert es + (Entries(steps) + [st.entry]) == es + Entries(steps) + [st.entry];
  }

  lemma ReflectsStep(cfg: Config, w: World, p: Pass, v: Vars, es: seq<Entry>, sk: seq<nat>, st: Step)
    requires Reflects(cfg, w, p, v, es, sk) && |p.steps| < |OrderOf(p)| && OrderOf(p)[|p.steps|] < |p.plan|
    requires StepOk(cfg, w, p.plan[OrderOf(p)[|p.steps|]], v.completed, st) && st.tick == v.tick &&
      st.read == v.readings
    ensures Reflects(cfg, w, p.(steps := p.steps + [st]), After(cfg, v, st), es, sk)
  {
    AppendStep(cfg, w, p, st);
    AppendCompleted(p, st);
    SkippedPush(p, sk, st);
    EntriesPushBehind(p.steps, es, st);
    FirstReasonPush(p.steps, st);
  }

  ghost predicate Unhalted(p: Pass) {
    forall k :: 0 <= k < |p.steps| ==> p.steps[k].entry.status != Halted
  }

  /** The last step, and no other, halted. */
  ghost predicate HaltedLast(p: Pass) {
    && p.steps != []
    && forall k :: 0 <= k < |p.steps| ==> (p.steps[k].entry.status == Halted <==> k == |p.steps| - 1)
  }

  lemma TakeStep(cfg: Config, w: World, p: Pass, v: Vars, es: seq<Entry>, sk: seq<nat>, st: Step) returns (q: Pass)
    requires Reflects(cfg, w, p, v, es, sk) && |p.steps| < |OrderOf(p)| && OrderOf(p)[|p.steps|] < |p.plan|
    requires StepOk(cfg, w, p.plan[OrderOf(p)[|p.steps|]], v.completed, st) && st.tick == v.tick &&
      st.read == v.readings
    requires Unhalted(p)
    ensures q == p.(steps := p.steps + [st]) && Reflects(cfg, w, q, After(cfg, v, st), es, sk)
    ensures st.entry.id == p.plan[OrderOf(p)[|p.steps|]].id
    ensures if st.entry.status == Halted then HaltedLast(q) else Unhalted(q)
  {
    q := p.(steps := p.steps + [st]);
    ReflectsStep(cfg, w, p, v, es, sk, st);
    StepReason(cfg, w, p.plan[OrderOf(p)[|p.steps|]], v.completed, st);
  }

  /** Ending a pass does not disturb its steps. */
  lemma ClosePass(cfg: Config, w: World, p: Pass, end: PassEnd, read: nat) returns (q: Pass)
    requires ValidPlan(p.plan, p.before) && IsLayering(p.plan, p.before, p.waves) && StepsOk(cfg, w, p)
    requires forall k :: 0 <= k < |p.steps| && p.steps[k].entry.status == Halted ==> k == |p.steps| - 1 && end.HaltStop?
    requires !end.Unlayered? && EndExplained(cfg, w, p.(end := end, read := read))
    requires read == ReadAfter(cfg, p.(end := end))
    ensures q == p.(end := end, read := read) && PassOk(cfg, w, q) && CompletedAfter(q) == CompletedAfter(p)
  {
    q := p.(end := end, read := read);
    forall k | 0 <= k < |q.steps| ensures StepOkAt(cfg, w, q, k) {
      assert StepOkAt(cfg, w, p, k);
    }
  }

  /** No subtask is attempted before every dependency is completed. */
  lemma AttemptedAfterDependencies(cfg: Config, w: World, p: Pass, k: nat, d: nat)
    requires PassOk(cfg, w, p) && k < |p.steps|
    requires p.steps[k].ticks > 0
    requires k < |OrderOf(p)| && OrderOf(p)[k] < |p.plan| && d in p.plan[OrderOf(p)[k]].dependsOn
    ensures d in CompletedAt(p, k)
  {
    StepAtIsOk(cfg, w, p, k);
    assert Unmet(p.plan[OrderOf(p)[k]].dependsOn, CompletedAt(p, k)) == [];
  }

  /** An earlier plan, or an earlier step of this pass, completed the id. */
  ghost predicate CompletedBefore(p: Pass, k: nat, id: nat)
    requires k <= |p.steps|
  {
    id in p.before || exists l :: 0 <= l < k && p.steps[l].entry.status == Completed && p.steps[l].entry.id == id
  }

  lemma CompletedAtExactly(p: Pass, k: nat, id: nat)
    requires k <= |p.steps|
    ensures id in CompletedAt(p, k) <==> CompletedBefore(p, k, id)
  {
    var es := Entries(p.steps[..k]);
    IdsWithMember(Completed, es, id);
    if l :| 0 <= l < |es| && es[l].status == Completed && es[l].id == id {
      assert p.steps[l].entry == es[l];
    }
    if l :| 0 <= l < k && p.steps[l].entry.status == Completed && p.steps[l].entry.id == id {
      assert es[l] == p.steps[l].entry;
    }
  }

  /** A dispatched subtask is attempted exactly when every dependency is completed, and is otherwise skipped. */
  lemma AttemptedExactly(cfg: Config, w: World, p: Pass, k: nat)
    requires PassOk(cfg, w, p) && k < |p.steps|
    ensures k < |OrderOf(p)| && OrderOf(p)[k] < |p.plan|
    ensures var s := p.plan[OrderOf(p)[k]];
      && p.steps[k].entry.id == s.id
      && (p.steps[k].ticks > 0 <==> forall d :: d in s.dependsOn ==> CompletedBefore(p, k, d))
      && (p.steps[k].ticks == 0 <==> p.steps[k].entry.status == Skipped)
  {
    StepAtIsOk(cfg, w, p, k);
    var s := p.plan[OrderOf(p)[k]];
    var u := Unmet(s.dependsOn, CompletedAt(p, k));
    forall d | d in s.dependsOn ensures d in u <==> !CompletedBefore(p, k, d) {
      CompletedAtExactly(p, k, d);
    }
    assert u != [] ==> u[0] in u;
  }

  /** The step's completed entry rests on the evidence of its own last attempt. */
  ghost predicate RestsOnEvidence(cfg: Config, w: World, st: Step) {
    var n := st.ticks - 1;
    && n >= 0 && |st.entry.attempts| == st.ticks
    && Evidence(cfg, w.attempt(st.tick + n), n, st.entry.arbiter)
    && RecordsAttempt(cfg, w.attempt(st.tick + n), n, st.entry.attempts[n])
  }

  lemma StepRestsOnEvidence(cfg: Config, w: World, s: Subtask, completed: seq<nat>, st: Step)
    requires StepOk(cfg, w, s, completed, st) && st.entry.status == Completed
    ensures RestsOnEvidence(cfg, w, st)
  {
    var n := st.ticks - 1;
    var seen := Seen(w, st.tick, n);
    assert EntryFor(MeaningOf(cfg, w, s.id, w.attempt(st.tick + n), n, seen), st.entry, st.reason);
    CompletesExactlyOnEvidence(cfg, w, s.id, w.attempt(st.tick + n), n, seen, st.entry.arbiter);
  }

  /** Every completed entry of a pass rests on evidence, whatever the agents answer. */
  lemma CompletedHasEvidence(cfg: Config, w: World, p: Pass, k: nat)
    requires PassOk(cfg, w, p) && k < |p.steps| && p.steps[k].entry.status == Completed
    ensures RestsOnEvidence(cfg, w, p.steps[k])
  {
    StepAtIsOk(cfg, w, p, k);
    StepRestsOnEvidence(cfg, w, p.plan[OrderOf(p)[k]], CompletedAt(p, k), p.steps[k]);
  }

  /** The position at which the pass dispatched subtask `i`. */
  ghost predicate DispatchedAt(p: Pass, i: int, k: int) {
    0 <= k < |p.steps| && k < |OrderOf(p)| && OrderOf(p)[k] == i
  }

  ghost predicate HasStatus(p: Pass, i: int, status: Status) {
    exists k :: DispatchedAt(p, i, k) && p.steps[k].entry.status == status
  }

  lemma EveryoneDispatched(p: Pass, order: seq<nat>, i: nat) returns (k: nat)
    requires IsOrder(p.plan, p.before, order) && order == OrderOf(p) && |p.steps| == |order| && i < |p.plan|
    ensures DispatchedAt(p, i, k)
  {
    if forall k :: 0 <= k < |order| ==> order[k] != i {
      DistinctBelow(order + [i], |p.plan|);
    }
    k :| 0 <= k < |order| && order[k] == i;
  }

  lemma SameId(plan: seq<Subtask>, a: nat, b: nat)
    requires UniqueIds(plan) && a < |plan| && b < |plan| && plan[a].id == plan[b].id
    ensures a == b
  {
  }

  lemma SamePosition(order: seq<nat>, a: nat, b: nat)
    requires forall a, b :: 0 <= a < b < |order| ==> order[a] != order[b]
    requires a < |order| && b < |order| && order[a] == order[b]
    ensures a == b
  {
  }

  /** When step `k` runs, a needed subtask counts as completed exactly when its own step completed it. */
  lemma NeedIsMetByCompletion(cfg: Config, w: World, p: Pass, i: nat, k: nat, j: nat, l: nat)
    requires PassOk(cfg, w, p) && p.end.Ran? && IsOrder(p.plan, p.before, OrderOf(p))
    requires DispatchedAt(p, i, k) && DispatchedAt(p, j, l) && Needs(p.plan, p.before, i, j)
    ensures l < k
    ensures p.plan[j].id in CompletedAt(p, k) <==> !Stopped(p.steps[l].entry.status)
  {
    var id := p.plan[j].id;
    var es := Entries(p.steps[..k]);
    IdsWithMember(Completed, es, id);
    assert p.steps[..k][l] == p.steps[l];
    StepReasonAt(cfg, w, p, l);
    if m :| 0 <= m < |es| && es[m].status == Completed && es[m].id == id {
      assert p.steps[..k][m] == p.steps[m];
      StepReasonAt(cfg, w, p, m);
      SameId(p.plan, OrderOf(p)[m], j);
      SamePosition(OrderOf(p), m, l);
    }
  }

  // A pass seen as a table of outcomes by subtask.

  ghost predicate Stopped(s: Status) {
    s == Skipped || s == FailedSubtask
  }

  ghost predicate NeedsStopped(plan: seq<Subtask>, before: seq<nat>, status: seq<Status>, i: int)
    requires |status| == |plan|
  {
    exists j :: Needs(plan, before, i, j) && Stopped(status[j])
  }

  /** A subtask is skipped when, and only when, one of its needs was itself skipped or failed. */
  ghost predicate SkipRule(plan: seq<Subtask>, before: seq<nat>, status: seq<Status>) {
    && |status| == |plan|
    && forall i {:trigger NeedsStopped(plan, before, status, i)} :: 0 <= i < |plan| ==>
         (status[i] == Skipped <==> NeedsStopped(plan, before, status, i))
  }

  ghost predicate Earlier(plan: seq<Subtask>, before: seq<nat>, pos: seq<nat>) {
    |pos| == |plan| && forall i, j :: Needs(plan, before, i, j) ==> pos[j] < pos[i]
  }

  /** A path of unsatisfied dependency edges from subtask `i` to one that failed. */
  ghost predicate FailurePath(plan: seq<Subtask>, before: seq<nat>, status: seq<Status>, i: nat, path: seq<nat>)
    requires |status| == |plan|
  {
    && |path| >= 2 && path[0] == i
    && Walk(plan, before, path)
    && path[|path| - 1] < |plan| && status[path[|path| - 1]] == FailedSubtask
  }

  lemma {:induction false} SkipHasPath(plan: seq<Subtask>, before: seq<nat>, status: seq<Status>, pos: seq<nat>, i: nat)
    returns (path: seq<nat>)
    requires SkipRule(plan, before, status) && Earlier(plan, before, pos)
    requires i < |plan| && status[i] == Skipped
    ensures FailurePath(plan, before, status, i, path)
    decreases pos[i]
  {
    assert NeedsStopped(plan, before, status, i);
    var j :| Needs(plan, before, i, j) && Stopped(status[j]);
    if status[j] == FailedSubtask {
      path := [i, j];
      assert StepAt(plan, before, path, 0);
    } else {
      var rest := SkipHasPath(plan, before, status, pos, j);
      path := [i] + rest;
      forall x | 0 <= x < |path| - 1 ensures StepAt(plan, before, path, x) {
        if x > 0 { assert StepAt(plan, before, rest, x - 1); }
      }
    }
  }

  lemma {:induction false} PathForcesSkip(plan: seq<Subtask>, before: seq<nat>, status: seq<Status>, i: nat,
                                          path: seq<nat>)
    requires SkipRule(plan, before, status) && FailurePath(plan, before, status, i, path)
    ensures i < |plan| && status[i] == Skipped
    decreases |path|
  {
    assert StepAt(plan, before, path, 0);
    var j := path[1];
    if |path| > 2 {
      forall x | 0 <= x < |path[1..]| - 1 ensures StepAt(plan, before, path[1..], x) {
        assert StepAt(plan, before, path, x + 1);
      }
      PathForcesSkip(plan, before, status, j, path[1..]);
    }
    assert Needs(plan, before, i, j) && Stopped(status[j]);
    assert NeedsStopped(plan, before, status, i);
  }

  ghost predicate IsTable(p: Pass, pos: seq<nat>, status: seq<Status>) {
    && |pos| == |status| == |p.plan|
    && forall i :: 0 <= i < |p.plan| ==> DispatchedAt(p, i, pos[i]) && status[i] == p.steps[pos[i]].entry.status
  }

  lemma TableOf(cfg: Config, w: World, p: Pass) returns (pos: seq<nat>, status: seq<Status>)
    requires PassOk(cfg, w, p) && p.end.Ran?
    ensures IsTable(p, pos, status) && IsOrder(p.plan, p.before, OrderOf(p))
    ensures forall i, s :: 0 <= i < |p.plan| ==> (HasStatus(p, i, s) <==> status[i] == s)
  {
    LayeringIsOrder(p.plan, p.before, p.waves);
    pos, status := [], [];
    for n := 0 to |p.plan|
      invariant |pos| == |status| == n
      invariant forall i :: 0 <= i < n ==> DispatchedAt(p, i, pos[i]) && status[i] == p.steps[pos[i]].entry.status
    {
      var k := EveryoneDispatched(p, OrderOf(p), n);
      pos, status := pos + [k], status + [p.steps[k].entry.status];
    }
    forall i, s | 0 <= i < |p.plan| ensures HasStatus(p, i, s) <==> status[i] == s {
      if k :| DispatchedAt(p, i, k) && p.steps[k].entry.status == s {
        SamePosition(OrderOf(p), k, pos[i]);
      }
    }
  }

  lemma TableObeysSkipRule(cfg: Config, w: World, p: Pass, pos: seq<nat>, status: seq<Status>)
    requires PassOk(cfg, w, p) && p.end.Ran? && IsTable(p, pos, status) && IsOrder(p.plan, p.before, OrderOf(p))
    ensures SkipRule(p.plan, p.before, status) && Earlier(p.plan, p.before, pos)
  {
    forall i, j | Needs(p.plan, p.before, i, j) ensures pos[j] < pos[i] {
      NeedIsMetByCompletion(cfg, w, p, i, pos[i], j, pos[j]);
    }
    forall i | 0 <= i < |p.plan|
      ensures status[i] == Skipped <==> NeedsStopped(p.plan, p.before, status, i)
    {
      RowSeesCompletions(cfg, w, p, pos, status, i);
      StepReasonAt(cfg, w, p, pos[i]);
      UnmetMeansNeedsStopped(p.plan, p.before, status, i, CompletedAt(p, pos[i]));
    }
  }

  lemma RowSeesCompletions(cfg: Config, w: World, p: Pass, pos: seq<nat>, status: seq<Status>, i: nat)
    requires PassOk(cfg, w, p) && p.end.Ran? && IsTable(p, pos, status) && IsOrder(p.plan, p.before, OrderOf(p))
    requires i < |p.plan|
    ensures 0 <= pos[i] < |p.steps|
    ensures forall j :: Needs(p.plan, p.before, i, j) ==>
              (p.plan[j].id in CompletedAt(p, pos[i]) <==> !Stopped(status[j]))
  {
    assert DispatchedAt(p, i, pos[i]);
    forall j | Needs(p.plan, p.before, i, j)
      ensures p.plan[j].id in CompletedAt(p, pos[i]) <==> !Stopped(status[j])
    {
      NeedIsMetByCompletion(cfg, w, p, i, pos[i], j, pos[j]);
    }
  }

  lemma UnmetMeansNeedsStopped(plan: seq<Subtask>, before: seq<nat>, status: seq<Status>, i: nat, completed: seq<nat>)
    requires |status| == |plan| && i < |plan| && KnownDependencies(plan, before)
    requires forall d :: d in before ==> d in completed
    requires forall j :: Needs(plan, before, i, j) ==> (plan[j].id in completed <==> !Stopped(status[j]))
    ensures Unmet(plan[i].dependsOn, completed) != [] <==> NeedsStopped(plan, before, status, i)
  {
    var u := Unmet(plan[i].dependsOn, completed);
    if u != [] {
      assert u[0] in u;
      assert HasId(plan, u[0]);
      var j :| 0 <= j < |plan| && plan[j].id == u[0];
      assert Needs(plan, before, i, j) && Stopped(status[j]);
    }
    if NeedsStopped(plan, before, status, i) {
      var j :| Needs(plan, before, i, j) && Stopped(status[j]);
      assert plan[j].id in u;
    }
  }

  /** Subtask `i` waited, directly or through others, for one that failed in this pass. */
  ghost predicate BehindFailure(p: Pass, i: nat) {
    exists path: seq<nat> :: |path| >= 2 && path[0] == i && Walk(p.plan, p.before, path)
                         && HasStatus(p, path[|path| - 1], FailedSubtask)
  }

  /** A subtask is skipped exactly when a path of unsatisfied dependency edges leads to a failed subtask. */
  lemma SkippedExactlyBehindFailure(cfg: Config, w: World, p: Pass, i: nat)
    requires PassOk(cfg, w, p) && p.end.Ran? && i < |p.plan|
    ensures HasStatus(p, i, Skipped) <==> BehindFailure(p, i)
  {
    var pos, status := TableOf(cfg, w, p);
    TableObeysSkipRule(cfg, w, p, pos, status);
    if status[i] == Skipped {
      var path := SkipHasPath(p.plan, p.before, status, pos, i);
      assert HasStatus(p, path[|path| - 1], FailedSubtask);
    }
    if BehindFailure(p, i) {
      var path: seq<nat> :| |path| >= 2 && path[0] == i && Walk(p.plan, p.before, path)
                         && HasStatus(p, path[|path| - 1], FailedSubtask);
      assert StepAt(p.plan, p.before, path, |path| - 2);
      PathForcesSkip(p.plan, p.before, status, i, path);
    }
  }

  /** A pass without halt, abort or failure has completed its whole plan. */
  lemma QuietPassCompletedAll(cfg: Config, w: World, p: Pass)
    requires PassOk(cfg, w, p) && !p.end.HaltStop? && FailedAfter(p).None?
    ensures p.end.Ran? && |p.steps| == |p.plan|
    ensures forall i :: 0 <= i < |p.plan| ==> HasStatus(p, i, Completed)
  {
    FirstReasonIsFirst(p.steps);
    forall k | 0 <= k < |p.steps| ensures p.steps[k].entry.status == Completed {
      StepReasonAt(cfg, w, p, k);
    }
    var pos, status := TableOf(cfg, w, p);
    forall i | 0 <= i < |p.plan| ensures HasStatus(p, i, Completed) {
      assert status[i] == Completed;
    }
  }

  // ----- the whole run -----

  lemma {:induction false} AllEntriesSplit(status: Status, passes: seq<Pass>)
    requires passes != []
    ensures IdsWith(status, AllEntries(passes)) ==
      IdsWith(status, AllEntries(passes[..|passes| - 1])) + IdsWith(status, Entries(passes[|passes| - 1].steps))
  {
    IdsWithConcat(status, AllEntries(passes[..|passes| - 1]), Entries(passes[|passes| - 1].steps));
  }

  lemma RunPrefix(cfg: Config, w: World, passes: seq<Pass>, n: nat)
    requires RunOk(cfg, w, passes) && 0 < n <= |passes|
    ensures RunOk(cfg, w, passes[..n])
  {
    forall k | 0 <= k < n - 1 ensures Replanned(cfg, w, passes[..n], k) {
      assert Replanned(cfg, w, passes, k);
    }
  }

  /** The ids reported as completed are those of the completed entries of all passes, in order. */
  lemma {:induction false} CompletedIsAccounted(cfg: Config, w: World, passes: seq<Pass>)
    requires RunOk(cfg, w, passes)
    ensures CompletedAfter(passes[|passes| - 1]) == IdsWith(Completed, AllEntries(passes))
    decreases |passes|
  {
    var n := |passes| - 1;
    AllEntriesSplit(Completed, passes);
    assert passes[n].steps[..|passes[n].steps|] == passes[n].steps;
    if n > 0 {
      RunPrefix(cfg, w, passes, n);
      CompletedIsAccounted(cfg, w, passes[..n]);
      assert Replanned(cfg, w, passes, n - 1);
      assert passes[..n][n - 1] == passes[n - 1];
    } else {
      assert passes[..0] == [];
    }
  }

  ghost predicate Monotone(clock: nat -> nat) {
    forall i: nat, j: nat :: i <= j ==> clock(i) <= clock(j)
  }

  /** Nothing is replanned after a budget abort: the clock does not run backwards. */
  lemma ReplansFollowFullPasses(cfg: Config, w: World, p: Pass, replansUsed: nat)
    requires Monotone(w.clock) && PassOk(cfg, w, p) && WantsReplan(cfg, w, p, replansUsed)
    ensures p.end.Ran?
  {
  }

  /** A replanned plan starts a pass where the previous one left off. */
  lemma AppendPass(cfg: Config, w: World, passes: seq<Pass>, p: Pass)
    requires RunOk(cfg, w, passes) && PassOk(cfg, w, p)
    requires Monotone(w.clock) && WantsReplan(cfg, w, passes[|passes| - 1], |passes| - 1)
    requires w.replan(|passes|) == Success(Some(p.plan)) && p.plan != []
    requires Follows(cfg, passes[|passes| - 1], p)
    ensures RunOk(cfg, w, passes + [p])
  {
    var q := passes + [p];
    ReplansFollowFullPasses(cfg, w, passes[|passes| - 1], |passes| - 1);
    forall k | 0 <= k < |q| - 1 ensures Replanned(cfg, w, q, k) {
      if k < |passes| - 1 {
        assert Replanned(cfg, w, passes, k);
      }
    }
  }

  lemma AppendEntries(passes: seq<Pass>, p: Pass)
    ensures AllEntries(passes + [p]) == AllEntries(passes) + Entries(p.steps)
  {
    assert (passes + [p])[..|passes|] == passes;
  }

  /** A run that reports neither a halt nor a failure completed every subtask of its last plan in its last pass. */
  lemma QuietRunCompletedAll(cfg: Config, w: World, passes: seq<Pass>)
    requires RunOk(cfg, w, passes) && FinalFailure(cfg, w, passes, None)
    requires HaltNote(passes[|passes| - 1].end) == None
    ensures var last := passes[|passes| - 1];
      last.end.Ran? && forall i :: 0 <= i < |last.plan| ==> HasStatus(last, i, Completed)
  {
    QuietPassCompletedAll(cfg, w, passes[|passes| - 1]);
  }

  /** At most `maxReplans` + 1 passes; no pass follows a halt, a blown budget, an unusable plan or a success. */
  lemma PassesAreBounded(cfg: Config, w: World, passes: seq<Pass>)
    requires RunOk(cfg, w, passes)
    ensures |passes| <= cfg.maxReplans + 1
    ensures forall k :: 0 <= k < |passes| - 1 ==>
      passes[k].end.Ran? && FailedAfter(passes[k]).Some? && !Blown(cfg, w, passes[k].read)
  {
    if |passes| > 1 {
      assert Replanned(cfg, w, passes, |passes| - 2);
    }
    forall k | 0 <= k < |passes| - 1
      ensures passes[k].end.Ran? && FailedAfter(passes[k]).Some? && !Blown(cfg, w, passes[k].read)
    {
      assert Replanned(cfg, w, passes, k);
    }
  }
}
