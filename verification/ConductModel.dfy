/**
  What one conduct run records and decides (core/src/orchestrator/conduct.rs): the answers of models,
  git, the verifier and the clock are oracles, and every claim is made for all of them.
 */
module ConductModel {
  import opened Wrappers
  import opened Topology
  import Verify

  const MAX_REWORKS := 2

  // ----- answers -----

  datatype EvalDecision = Accept | Rework | Fail

  datatype Feedback =
    | Said(text: string)
    | Unparseable
    | BuildFailed(summary: seq<Verify.Line>)
    | WorkersFailed(error: string)

  datatype Evaluation = Evaluation(decision: EvalDecision, feedback: Feedback)

  datatype SupervisorStatus = SupervisorOk | Concern | Halt

  datatype SupervisorVerdict = SupervisorVerdict(status: SupervisorStatus, note: string)

  datatype ReviewVerdict = ReviewVerdict(critical: bool, findings: string)

  datatype ArbiterVerdict = ArbiterVerdict(ship: bool, reason: string)

  /**
    Everything one attempt may be told. `Failure` is a ladder with no live rung (or a failed
    command); an inner `None` is output that does not parse.
   */
  datatype Answers = Answers(
    route: Result<nat, string>,
    worker: Result<string, string>,
    changes: Result<string, string>,
    runs: seq<(Verify.Command, Verify.Exit)>,
    supervisor: Result<Option<SupervisorVerdict>, string>,
    evaluation: Result<Option<Evaluation>, string>,
    review: Result<Option<ReviewVerdict>, string>,
    arbiter: Result<Option<ArbiterVerdict>, string>)

  /** A world answers the n-th attempt, the n-th replan and the n-th reading of the clock. */
  datatype World = World(
    decompose: Result<Option<seq<Subtask>>, string>,
    attempt: nat -> Answers,
    replan: nat -> Result<Option<seq<Subtask>>, string>,
    clock: nat -> nat,
    fingerprint: (string, seq<Verify.Line>) -> nat)

  datatype Config = Config(supervisor: bool, reviewer: bool, arbiter: bool, maxReplans: nat, budget: Option<nat>)

  // ----- records -----

  datatype VerifyStatus = NotRun | Passed | Failed

  datatype ReviewStatus = NotReviewed | Unavailable | UnparseableReview | Critical | Clean

  datatype Attempt = Attempt(num: nat, worker: nat, decision: EvalDecision, feedback: Feedback, changesLen: nat,
                             verify: VerifyStatus, review: ReviewStatus)

  datatype SupervisorNote = Verdict(verdict: SupervisorVerdict) | SupervisorFailed(error: string)

  datatype ArbiterRecord = ArbiterShip(reason: string) | ArbiterFail(reason: string) | ArbiterUnavailable(error: string)

  datatype Status = Completed | Skipped | FailedSubtask | Halted

  datatype Entry = Entry(id: nat, title: string, status: Status, attempts: seq<Attempt>,
                         supervisor: seq<SupervisorNote>, arbiter: Option<ArbiterRecord>)

  datatype Reason =
    | InvalidPlan(why: PlanError)
    | BudgetExceeded(elapsed: nat, shipped: nat, total: nat)
    | UnmetDependencies(id: nat, unmet: seq<nat>)
    | WorkersExhausted(id: nat, error: string)
    | EvaluatedFail(id: nat, feedback: Feedback)
    | Stalled(id: nat, attempts: nat, feedback: Feedback)
    | ReworksExhausted(id: nat, feedback: Feedback)
    | ReviewExhausted(id: nat, findings: string)
    | ArbiterSaidFail(id: nat, reason: string)
    | ArbiterDown(id: nat, error: string)
    | ReplanUnusable
    | ReplanFailed(error: string)

  // ----- how the code reads the answers -----

  predicate BuildRed(ans: Answers) {
    ans.runs != [] && !Verify.AllBlockingSucceeded(ans.runs)
  }

  function VerifyStatusOf(ans: Answers): VerifyStatus {
    if ans.runs == [] then NotRun else if Verify.AllBlockingSucceeded(ans.runs) then Passed else Failed
  }

  /** An unparseable evaluation is a rework, never an acceptance. */
  function Parsed(e: Option<Evaluation>): Evaluation {
    if e.Some? then e.value else Evaluation(Rework, Unparseable)
  }

  /** The grounding rule: a red build turns an acceptance into a rework. */
  ghost function Grounded(ans: Answers): Evaluation
    requires ans.evaluation.Success?
  {
    var e := Parsed(ans.evaluation.value);
    if BuildRed(ans) && e.decision.Accept? then Evaluation(Rework, BuildFailed(Verify.SummaryOf(ans.runs))) else e
  }

  function ParsedSupervisor(v: Option<SupervisorVerdict>): SupervisorVerdict {
    if v.Some? then v.value else SupervisorVerdict(Concern, "supervisor output unparseable")
  }

  predicate SupervisorHalts(cfg: Config, ans: Answers) {
    cfg.supervisor && ans.supervisor.Success? && ParsedSupervisor(ans.supervisor.value).status.Halt?
  }

  function ReviewStatusOf(ans: Answers): ReviewStatus {
    match ans.review
    case Failure(_) => Unavailable
    case Success(None) => UnparseableReview
    case Success(Some(v)) => if v.critical then Critical else Clean
  }

  predicate ReviewBlocks(ans: Answers) {
    ReviewStatusOf(ans) == UnparseableReview || ReviewStatusOf(ans) == Critical
  }

  function FindingsOf(ans: Answers): string {
    if ans.review.Success? && ans.review.value.Some? then ans.review.value.value.findings
    else "reviewer output unparseable"
  }

  predicate ArbiterShips(cfg: Config, ans: Answers) {
    cfg.arbiter && ans.arbiter.Success? && ans.arbiter.value.Some? && ans.arbiter.value.value.ship
  }

  /** What an attempt means for its subtask. */
  datatype Meaning =
    | Continue
    | Complete(arbiter: Option<ArbiterRecord>)
    | FailWith(reason: Reason, arbiter: Option<ArbiterRecord>)
    | HaltWith(note: string)
    | Abort(error: string)

  function ArbiterMeaning(cfg: Config, id: nat, ans: Answers): Meaning {
    if !cfg.arbiter then FailWith(ReviewExhausted(id, FindingsOf(ans)), None)
    else match ans.arbiter
      case Failure(e) => FailWith(ArbiterDown(id, e), Some(ArbiterUnavailable(e)))
      case Success(None) => FailWith(ArbiterSaidFail(id, "arbiter output unparseable"),
                                     Some(ArbiterFail("arbiter output unparseable")))
      case Success(Some(v)) =>
        if v.ship then Complete(Some(ArbiterShip(v.reason)))
        else FailWith(ArbiterSaidFail(id, v.reason), Some(ArbiterFail(v.reason)))
  }

  function GateMeaning(cfg: Config, id: nat, ans: Answers, num: nat): Meaning {
    if !cfg.reviewer || !ReviewBlocks(ans) then Complete(None)
    else if num < MAX_REWORKS then Continue
    else ArbiterMeaning(cfg, id, ans)
  }

  ghost function FingerprintOf(w: World, ans: Answers): nat
    requires ans.changes.Success?
  {
    w.fingerprint(ans.changes.value, Verify.SummaryOf(ans.runs))
  }

  /** The meaning of attempt `num`, given the fingerprints of the attempts captured before it. */
  ghost function MeaningOf(cfg: Config, w: World, id: nat, ans: Answers, num: nat, seen: seq<nat>): Meaning {
    if ans.route.Failure? then Abort(ans.route.error)
    else if ans.worker.Failure? then
      if num >= MAX_REWORKS then FailWith(WorkersExhausted(id, ans.worker.error), None) else Continue
    else if ans.changes.Failure? then Abort(ans.changes.error)
    else if SupervisorHalts(cfg, ans) then HaltWith(ParsedSupervisor(ans.supervisor.value).note)
    else if ans.evaluation.Failure? then Abort(ans.evaluation.error)
    else
      var e := Grounded(ans);
      match e.decision
      case Accept => GateMeaning(cfg, id, ans, num)
      case Fail => FailWith(EvaluatedFail(id, e.feedback), None)
      case Rework =>
        if FingerprintOf(w, ans) in seen then FailWith(Stalled(id, num + 1, e.feedback), None)
        else if num >= MAX_REWORKS then FailWith(ReworksExhausted(id, e.feedback), None)
        else Continue
  }

  predicate Captures(ans: Answers) {
    ans.route.Success? && ans.worker.Success? && ans.changes.Success?
  }

  /** Fingerprints of the captured attempts among the first `k` attempts from tick `t`. */
  ghost function Seen(w: World, t: nat, k: nat): seq<nat> {
    if k == 0 then []
    else Seen(w, t, k - 1) + Capture(w, w.attempt(t + k - 1))
  }

  ghost function Capture(w: World, ans: Answers): seq<nat> {
    if Captures(ans) then [FingerprintOf(w, ans)] else []
  }

  ghost function MeaningAt(cfg: Config, w: World, id: nat, t: nat, k: nat): Meaning {
    MeaningOf(cfg, w, id, w.attempt(t + k), k, Seen(w, t, k))
  }

  // ----- what the transcript must say -----

  /** The review field of an attempt: present exactly when the gate ran. */
  ghost function ReviewField(cfg: Config, ans: Answers): ReviewStatus
    requires ans.evaluation.Success?
  {
    if cfg.reviewer && Grounded(ans).decision.Accept? then ReviewStatusOf(ans) else NotReviewed
  }

  ghost predicate RecordsAttempt(cfg: Config, ans: Answers, num: nat, a: Attempt) {
    && ans.route.Success? && a.num == num && a.worker == ans.route.value
    && (ans.worker.Failure? ==>
          a.decision.Rework? && a.feedback == WorkersFailed(ans.worker.error) && a.changesLen == 0
          && a.verify == NotRun && a.review == NotReviewed)
    && (ans.worker.Success? ==>
          && ans.changes.Success? && ans.evaluation.Success?
          && a.decision == Grounded(ans).decision && a.feedback == Grounded(ans).feedback
          && a.changesLen == |ans.changes.value| && a.verify == VerifyStatusOf(ans)
          && a.review == ReviewField(cfg, ans))
  }

  /** The note a captured attempt leaves when a supervisor is configured. */
  function NoteOf(cfg: Config, ans: Answers): seq<SupervisorNote> {
    if !cfg.supervisor || !Captures(ans) then []
    else match ans.supervisor
      case Failure(e) => [SupervisorFailed(e)]
      case Success(v) => [Verdict(ParsedSupervisor(v))]
  }

  ghost function NotesUpTo(cfg: Config, w: World, t: nat, k: nat): seq<SupervisorNote> {
    if k == 0 then []
    else NotesUpTo(cfg, w, t, k - 1) + NoteOf(cfg, w.attempt(t + k - 1))
  }

  /** What the latest supervisor verdict said. */
  function LastNote(notes: seq<SupervisorNote>): Option<string> {
    if notes == [] || notes[|notes| - 1].SupervisorFailed? then None
    else Some(notes[|notes| - 1].verdict.note)
  }

  ghost predicate AttemptsRecorded(cfg: Config, w: World, t: nat, attempts: seq<Attempt>) {
    forall k :: 0 <= k < |attempts| ==> RecordsAttempt(cfg, w.attempt(t + k), k, attempts[k])
  }

  ghost predicate AllContinue(cfg: Config, w: World, id: nat, t: nat, n: nat) {
    forall k: nat :: k < n ==> MeaningAt(cfg, w, id, t, k).Continue?
  }

  /** The outcome written for a subtask whose last attempt had meaning `m`. */
  predicate EntryFor(m: Meaning, e: Entry, r: Option<Reason>) {
    match m
    case Complete(arb) => e.status == Completed && e.arbiter == arb && r == None
    case FailWith(reason, arb) => e.status == FailedSubtask && e.arbiter == arb && r == Some(reason)
    case HaltWith(note) => e.status == Halted && e.arbiter == None && r == None && LastNote(e.supervisor) == Some(note)
    case _ => false
  }

  /** `e` is the record of the `n` attempts from tick `t`: all but the last continue, the last decides. */
  ghost predicate AttemptsRun(cfg: Config, w: World, s: Subtask, t: nat, n: nat, e: Entry, r: Option<Reason>) {
    && 1 <= n <= MAX_REWORKS + 1
    && AllContinue(cfg, w, s.id, t, n - 1)
    && EntryFor(MeaningAt(cfg, w, s.id, t, n - 1), e, r)
    && e.id == s.id && e.title == s.title
    && |e.attempts| == (if e.status == Halted then n - 1 else n)
    && AttemptsRecorded(cfg, w, t, e.attempts)
    && e.supervisor == NotesUpTo(cfg, w, t, n)
  }

  // ----- what a single attempt proves -----

  /** The evidence behind an acceptance, read off the oracle's raw answers. */
  ghost predicate Evidence(cfg: Config, ans: Answers, num: nat, arb: Option<ArbiterRecord>) {
    && Captures(ans)
    && !SupervisorHalts(cfg, ans)
    && ans.evaluation.Success? && ans.evaluation.value.Some? && ans.evaluation.value.value.decision.Accept?
    && (forall i :: 0 <= i < |ans.runs| && ans.runs[i].0.name != "lint" ==>
          ans.runs[i].1.Exited? && ans.runs[i].1.ok)
    && (if !cfg.reviewer || ans.review.Failure? || (ans.review.value.Some? && !ans.review.value.value.critical) then
          arb == None
        else
          num >= MAX_REWORKS && ArbiterShips(cfg, ans) && arb == Some(ArbiterShip(ans.arbiter.value.value.reason)))
  }

  /** An attempt completes its subtask exactly on that evidence. */
  lemma CompletesExactlyOnEvidence(cfg: Config, w: World, id: nat, ans: Answers, num: nat, seen: seq<nat>,
                                   arb: Option<ArbiterRecord>)
    ensures MeaningOf(cfg, w, id, ans, num, seen) == Complete(arb) <==> Evidence(cfg, ans, num, arb)
  {
    if Captures(ans) && ans.evaluation.Success? && Grounded(ans).decision.Accept? {
      assert Grounded(ans) == Parsed(ans.evaluation.value);
    }
  }

  /** The attempt loop cannot fall through: the last permitted attempt always decides. */
  lemma LastAttemptDecides(cfg: Config, w: World, id: nat, ans: Answers, num: nat, seen: seq<nat>)
    requires num >= MAX_REWORKS
    ensures !MeaningOf(cfg, w, id, ans, num, seen).Continue?
  {
  }

  lemma SomeAttemptDecides(cfg: Config, w: World, id: nat, t: nat)
    ensures !AllContinue(cfg, w, id, t, MAX_REWORKS + 1)
  {
    LastAttemptDecides(cfg, w, id, w.attempt(t + MAX_REWORKS), MAX_REWORKS, Seen(w, t, MAX_REWORKS));
    assert !MeaningAt(cfg, w, id, t, MAX_REWORKS).Continue?;
  }

  lemma {:induction false} SeenHolds(w: World, t: nat, j: nat, k: nat)
    requires j < k && Captures(w.attempt(t + j))
    ensures FingerprintOf(w, w.attempt(t + j)) in Seen(w, t, k)
    decreases k
  {
    if j < k - 1 {
      SeenHolds(w, t, j, k - 1);
    }
  }

  /** A rework ordered by the conductor made progress: no earlier capture has the fingerprint of this one. */
  lemma ReworkMadeProgress(cfg: Config, w: World, id: nat, t: nat, j: nat, k: nat)
    requires j < k && Captures(w.attempt(t + j))
    requires MeaningAt(cfg, w, id, t, k).Continue?
    requires w.attempt(t + k).worker.Success? && Grounded(w.attempt(t + k)).decision.Rework?
    ensures Captures(w.attempt(t + k))
    ensures FingerprintOf(w, w.attempt(t + j)) != FingerprintOf(w, w.attempt(t + k))
  {
    SeenHolds(w, t, j, k);
  }

  /** The most attempts that `n` subtasks can take. */
  function AttemptsFor(n: nat): (r: nat)
    ensures r == 3 * n
  {
    (MAX_REWORKS + 1) * n
  }

  /**
    Nothing below the last attempt ends a subtask as exhausted; retrying stops there only for a decision or a
    stall.
   */
  lemma WorkBound(cfg: Config, w: World, s: Subtask, t: nat, n: nat, e: Entry, r: Option<Reason>)
    requires AttemptsRun(cfg, w, s, t, n, e, r)
    ensures 1 <= n <= MAX_REWORKS + 1 && |e.attempts| <= n && |e.supervisor| <= n
    ensures n <= MAX_REWORKS && e.status == FailedSubtask ==> r.value.EvaluatedFail? || r.value.Stalled?
    ensures forall m: nat :: m < n ==> (MeaningAt(cfg, w, s.id, t, m).Continue? <==> m < n - 1)
  {
    NotesBound(cfg, w, t, n);
  }

  /** A halt quotes the verdict it acts on. */
  lemma HaltIsNoted(cfg: Config, w: World, id: nat, t: nat, k: nat)
    requires MeaningAt(cfg, w, id, t, k).HaltWith?
    ensures LastNote(NotesUpTo(cfg, w, t, k + 1)) == Some(MeaningAt(cfg, w, id, t, k).note)
  {
    assert NoteOf(cfg, w.attempt(t + k)) == [Verdict(ParsedSupervisor(w.attempt(t + k).supervisor.value))];
  }

  lemma {:induction false} NotesBound(cfg: Config, w: World, t: nat, k: nat)
    ensures |NotesUpTo(cfg, w, t, k)| <= k
    decreases k
  {
    if k > 0 {
      NotesBound(cfg, w, t, k - 1);
    }
  }

  // ----- the same, read off the raw answers -----

  /** The worker and git answered, and no supervisor said halt. */
  predicate Unhindered(cfg: Config, ans: Answers) {
    && ans.route.Success? && ans.worker.Success? && ans.changes.Success?
    && !(cfg.supervisor && ans.supervisor.Success? && ans.supervisor.value.Some?
         && ans.supervisor.value.value.status.Halt?)
  }

  /** A command other than lint ran and did not exit successfully. */
  ghost predicate SomeCommandRed(ans: Answers) {
    exists i :: 0 <= i < |ans.runs| && ans.runs[i].0.name != "lint" && !(ans.runs[i].1.Exited? && ans.runs[i].1.ok)
  }

  /** What the conductor's evaluation comes to once it is grounded in the verifier's result. */
  ghost predicate Evaluates(ans: Answers, decision: EvalDecision, feedback: Feedback) {
    && ans.evaluation.Success?
    && match ans.evaluation.value
       case None => decision.Rework? && feedback.Unparseable?
       case Some(e) =>
         if e.decision.Accept? && SomeCommandRed(ans) then
           decision.Rework? && feedback == BuildFailed(Verify.SummaryOf(ans.runs))
         else decision == e.decision && feedback == e.feedback
  }

  lemma GroundedExactly(ans: Answers, decision: EvalDecision, feedback: Feedback)
    requires ans.evaluation.Success?
    ensures Grounded(ans) == Evaluation(decision, feedback) <==> Evaluates(ans, decision, feedback)
    ensures VerifyStatusOf(ans) == (if ans.runs == [] then NotRun else if SomeCommandRed(ans) then Failed else Passed)
  {
    if SomeCommandRed(ans) {
      var i :| 0 <= i < |ans.runs| && ans.runs[i].0.name != "lint" && !(ans.runs[i].1.Exited? && ans.runs[i].1.ok);
      assert Verify.Blocking(ans.runs[i].0) && !Verify.Succeeded(ans.runs[i].1);
    }
  }

  /** Both attempts' diffs were captured, and they have one fingerprint. */
  ghost predicate SameFingerprint(w: World, a: Answers, b: Answers) {
    && a.route.Success? && a.worker.Success? && a.changes.Success?
    && b.route.Success? && b.worker.Success? && b.changes.Success?
    && w.fingerprint(a.changes.value, Verify.SummaryOf(a.runs)) ==
         w.fingerprint(b.changes.value, Verify.SummaryOf(b.runs))
  }

  /** Both attempts' diffs were captured, and neither they nor the verifier's summaries differ. */
  ghost predicate SameWork(a: Answers, b: Answers) {
    && a.route.Success? && a.worker.Success? && a.changes.Success?
    && b.route.Success? && b.worker.Success? && b.changes.Success?
    && a.changes.value == b.changes.value && Verify.SummaryOf(a.runs) == Verify.SummaryOf(b.runs)
  }

  /** Different diffs or summaries have different fingerprints. */
  ghost predicate Injective(w: World) {
    forall d, s, e, u {:trigger w.fingerprint(d, s), w.fingerprint(e, u)} ::
      w.fingerprint(d, s) == w.fingerprint(e, u) ==> d == e && s == u
  }

  /** Attempt `j` from tick `t` left the fingerprint that attempt `k` left. */
  ghost predicate RepeatedAt(w: World, t: nat, j: nat, k: nat) {
    SameFingerprint(w, w.attempt(t + j), w.attempt(t + k))
  }

  ghost predicate SameWorkAt(w: World, t: nat, j: nat, k: nat) {
    SameWork(w.attempt(t + j), w.attempt(t + k))
  }

  ghost predicate Repeats(w: World, t: nat, k: nat) {
    exists j: nat :: j < k && RepeatedAt(w, t, j, k)
  }

  ghost predicate RepeatsWork(w: World, t: nat, k: nat) {
    exists j: nat :: j < k && SameWorkAt(w, t, j, k)
  }

  lemma {:induction false} SeenExactly(w: World, t: nat, k: nat, n: nat)
    requires Captures(w.attempt(t + n))
    ensures FingerprintOf(w, w.attempt(t + n)) in Seen(w, t, k) <==> exists j: nat :: j < k && RepeatedAt(w, t, j, n)
  {
    if k > 0 {
      SeenExactly(w, t, k - 1, n);
      assert FingerprintOf(w, w.attempt(t + n)) in Capture(w, w.attempt(t + (k - 1))) <==> RepeatedAt(w, t, k - 1, n);
    }
  }

  /**
    A rework stalls exactly when an earlier attempt that was captured left the same fingerprint. Otherwise the
    subtask goes on, or has used up its attempts.
   */
  lemma StallsExactlyOnRepeat(cfg: Config, w: World, id: nat, t: nat, k: nat, feedback: Feedback)
    requires Unhindered(cfg, w.attempt(t + k)) && Evaluates(w.attempt(t + k), Rework, feedback)
    ensures MeaningAt(cfg, w, id, t, k) ==
      if Repeats(w, t, k) then FailWith(Stalled(id, k + 1, feedback), None)
      else if k >= 2 then FailWith(ReworksExhausted(id, feedback), None)
      else Continue
  {
    GroundedExactly(w.attempt(t + k), Rework, feedback);
    SeenExactly(w, t, k, k);
  }

  lemma SameFingerprintExactly(w: World, a: Answers, b: Answers)
    requires Injective(w)
    ensures SameFingerprint(w, a, b) <==> SameWork(a, b)
  {
  }

  /** With fingerprints that do not collide: exactly when an earlier attempt captured the same diff and summary. */
  lemma StallsExactlyOnSameWork(cfg: Config, w: World, id: nat, t: nat, k: nat, feedback: Feedback)
    requires Injective(w) && Unhindered(cfg, w.attempt(t + k)) && Evaluates(w.attempt(t + k), Rework, feedback)
    ensures MeaningAt(cfg, w, id, t, k) ==
      if RepeatsWork(w, t, k) then FailWith(Stalled(id, k + 1, feedback), None)
      else if k >= 2 then FailWith(ReworksExhausted(id, feedback), None)
      else Continue
  {
    StallsExactlyOnRepeat(cfg, w, id, t, k, feedback);
    forall j: nat | j < k ensures RepeatedAt(w, t, j, k) <==> SameWorkAt(w, t, j, k) {
      SameFingerprintExactly(w, w.attempt(t + j), w.attempt(t + k));
    }
    assert Repeats(w, t, k) <==> RepeatsWork(w, t, k);
  }

  /** The gate is reached and the reviewer's answer, with these findings, blocks. */
  ghost predicate Blocked(cfg: Config, ans: Answers, findings: string) {
    && Unhindered(cfg, ans) && cfg.reviewer && ans.review.Success?
    && (exists f :: Evaluates(ans, Accept, f))
    && match ans.review.value
       case None => findings == "reviewer output unparseable"
       case Some(v) => v.critical && findings == v.findings
  }

  /** Attempt `num` asks for another. */
  ghost predicate AsksAgain(cfg: Config, w: World, ans: Answers, num: nat, seen: seq<nat>) {
    && num < 2 && ans.route.Success?
    && if ans.worker.Failure? then true
       else
         || (exists findings :: Blocked(cfg, ans, findings))
         || (Unhindered(cfg, ans) && (exists f :: Evaluates(ans, Rework, f))
             && w.fingerprint(ans.changes.value, Verify.SummaryOf(ans.runs)) !in seen)
  }

  /** Attempt `num` fails its subtask for `reason`, leaving the arbiter's record `arb`. */
  ghost predicate Fails(cfg: Config, w: World, id: nat, ans: Answers, num: nat, seen: seq<nat>, reason: Reason,
                        arb: Option<ArbiterRecord>)
  {
    match reason
    case WorkersExhausted(s, error) =>
      s == id && arb == None && num >= 2 && ans.route.Success? && ans.worker == Failure(error)
    case EvaluatedFail(s, feedback) => s == id && arb == None && Unhindered(cfg, ans) && Evaluates(ans, Fail, feedback)
    case Stalled(s, n, feedback) =>
      && s == id && arb == None && n == num + 1 && Unhindered(cfg, ans) && Evaluates(ans, Rework, feedback)
      && w.fingerprint(ans.changes.value, Verify.SummaryOf(ans.runs)) in seen
    case ReworksExhausted(s, feedback) =>
      && s == id && arb == None && num >= 2 && Unhindered(cfg, ans) && Evaluates(ans, Rework, feedback)
      && w.fingerprint(ans.changes.value, Verify.SummaryOf(ans.runs)) !in seen
    case ReviewExhausted(s, findings) => s == id && arb == None && num >= 2 && !cfg.arbiter &&
      Blocked(cfg, ans, findings)
    case ArbiterDown(s, error) =>
      && s == id && arb == Some(ArbiterUnavailable(error)) && num >= 2 && cfg.arbiter && ans.arbiter == Failure(error)
      && exists findings :: Blocked(cfg, ans, findings)
    case ArbiterSaidFail(s, why) =>
      && s == id && arb == Some(ArbiterFail(why)) && num >= 2 && cfg.arbiter
      && (ans.arbiter == Success(Some(ArbiterVerdict(false, why)))
          || (ans.arbiter == Success(None) && why == "arbiter output unparseable"))
      && exists findings :: Blocked(cfg, ans, findings)
    case _ => false
  }

  /** The attempt cannot be carried out: routing, capture or evaluation failed. */
  ghost predicate Breaks(cfg: Config, ans: Answers, error: string) {
    || ans.route == Failure(error)
    || (ans.route.Success? && ans.worker.Success? && ans.changes == Failure(error))
    || (Unhindered(cfg, ans) && ans.evaluation == Failure(error))
  }

  lemma EvaluatesSomething(ans: Answers) returns (decision: EvalDecision, feedback: Feedback)
    requires ans.evaluation.Success?
    ensures Evaluates(ans, decision, feedback) && Grounded(ans) == Evaluation(decision, feedback)
    ensures forall d, f :: Evaluates(ans, d, f) ==> d == decision && f == feedback
  {
    decision, feedback := Grounded(ans).decision, Grounded(ans).feedback;
    GroundedExactly(ans, decision, feedback);
  }

  lemma BlocksExactly(cfg: Config, ans: Answers)
    requires Unhindered(cfg, ans) && exists f :: Evaluates(ans, Accept, f)
    ensures forall findings ::
              Blocked(cfg, ans, findings) <==> cfg.reviewer && ReviewBlocks(ans) && findings == FindingsOf(ans)
  {
  }

  /** Each way in which an attempt can end, told from the raw answers; no answer means two of them. */
  lemma MeansExactly(cfg: Config, w: World, id: nat, ans: Answers, num: nat, seen: seq<nat>)
    ensures var m := MeaningOf(cfg, w, id, ans, num, seen);
      && (m == Continue <==> AsksAgain(cfg, w, ans, num, seen))
      && (forall reason, arb :: m == FailWith(reason, arb) <==> Fails(cfg, w, id, ans, num, seen, reason, arb))
      && (forall note :: m == HaltWith(note) <==>
            && ans.route.Success? && ans.worker.Success? && ans.changes.Success? && cfg.supervisor
            && ans.supervisor == Success(Some(SupervisorVerdict(Halt, note))))
      && (forall error :: m == Abort(error) <==> Breaks(cfg, ans, error))
  {
    if Unhindered(cfg, ans) && ans.evaluation.Success? {
      var decision, feedback := EvaluatesSomething(ans);
      if decision.Accept? {
        BlocksExactly(cfg, ans);
        assert ReviewBlocks(ans) && cfg.reviewer ==> Blocked(cfg, ans, FindingsOf(ans));
      }
    }
  }

  /** What the reviewer's answer comes to. */
  predicate Reviews(ans: Answers, status: ReviewStatus) {
    match status
    case NotReviewed => false
    case Unavailable => ans.review.Failure?
    case UnparseableReview => ans.review == Success(None)
    case Critical => ans.review.Success? && ans.review.value.Some? && ans.review.value.value.critical
    case Clean => ans.review.Success? && ans.review.value.Some? && !ans.review.value.value.critical
  }

  /** The record of an attempt, told from the raw answers: the grounded decision, and the review of an acceptance. */
  lemma RecordsExactly(cfg: Config, ans: Answers, num: nat, a: Attempt)
    requires RecordsAttempt(cfg, ans, num, a)
    ensures a.num == num && ans.route == Success(a.worker)
    ensures match ans.worker
            case Failure(error) =>
              a == Attempt(num, a.worker, Rework, WorkersFailed(error), 0, NotRun, NotReviewed)
            case Success(_) =>
              && Evaluates(ans, a.decision, a.feedback) && ans.changes.Success? && a.changesLen == |ans.changes.value|
              && (a.verify == NotRun <==> ans.runs == []) && (a.verify == Failed <==> SomeCommandRed(ans))
              && if cfg.reviewer && a.decision.Accept? then Reviews(ans, a.review) else a.review == NotReviewed
  {
    if ans.worker.Success? {
      GroundedExactly(ans, a.decision, a.feedback);
    }
  }

  /** A captured attempt leaves one supervisor note when one is configured: its verdict, a concern, or its failure. */
  lemma NotesExactly(cfg: Config, ans: Answers, note: SupervisorNote)
    ensures NoteOf(cfg, ans) == [note] <==>
      && cfg.supervisor && ans.route.Success? && ans.worker.Success? && ans.changes.Success?
      && match ans.supervisor
         case Failure(error) => note == SupervisorFailed(error)
         case Success(None) => note == Verdict(SupervisorVerdict(Concern, "supervisor output unparseable"))
         case Success(Some(v)) => note == Verdict(v)
  {
    assert NoteOf(cfg, ans) != [] ==> NoteOf(cfg, ans) == [NoteOf(cfg, ans)[0]];
  }
}
