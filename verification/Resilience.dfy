/**
  Failover over a ladder of models (core/src/orchestrator/resilience.rs): same-rung retries, the dead and
  cold registries, and the demotion chain. The n-th attempt's result is an oracle.
 */
module Resilience {
  import opened Wrappers
  import opened Events
  import opened Backoff
  import opened Runner

  datatype Key = Key(provider: Provider, model: string)

  datatype FailureKind = ModelUnavailable | RateLimited | Transient

  /** A rung is a model with its adapter's reading of error messages. */
  datatype Rung = Rung(key: Key, classify: string -> FailureKind)

  type AttemptResult = Result<RunOutcome, string>

  datatype RetryConfig = RetryConfig(backoffBase: Duration, maxRetries: nat, coldAfter: nat)

  const PROD := RetryConfig(2 * SECOND, 3, 3)

  /** A launch failure and a timeout are transient: neither says that the model is gone. */
  function ClassifyAttempt(rung: Rung, result: AttemptResult): Option<FailureKind> {
    match result
    case Failure(_) => Some(Transient)
    case Success(o) =>
      match o.status
      case Done => None
      case Broken(error) => Some(rung.classify(error))
      case TimedOut => Some(Transient)
  }

  // ----- the shared registries -----

  datatype Health = Health(dead: set<Key>, cold: set<Key>, hits: map<Key, nat>)

  const FRESH := Health({}, {}, map[])

  function Hits(h: Health, k: Key): nat {
    if k in h.hits then h.hits[k] else 0
  }

  /** The registries after a rung ended in `kind`. */
  function Noted(h: Health, k: Key, kind: FailureKind, coldAfter: nat): Health {
    match kind
    case ModelUnavailable => h.(dead := h.dead + {k})
    case Transient => h
    case RateLimited =>
      if coldAfter == 0 then h
      else h.(hits := h.hits[k := Hits(h, k) + 1],
              cold := if Hits(h, k) + 1 >= coldAfter then h.cold + {k} else h.cold)
  }

  /** The cold keys are exactly those with enough rate-limit hits; a disabled breaker records nothing. */
  ghost predicate Consistent(h: Health, coldAfter: nat) {
    forall k :: k in h.cold <==> coldAfter > 0 && Hits(h, k) >= coldAfter
  }

  ghost predicate Grows(h: Health, h': Health) {
    h.dead <= h'.dead && h.cold <= h'.cold && forall k :: Hits(h, k) <= Hits(h', k)
  }

  lemma NotedKeepsConsistent(h: Health, k: Key, kind: FailureKind, coldAfter: nat)
    requires Consistent(h, coldAfter)
    ensures Consistent(Noted(h, k, kind, coldAfter), coldAfter)
    ensures Grows(h, Noted(h, k, kind, coldAfter))
    ensures Noted(h, k, kind, coldAfter).dead == h.dead + (if kind.ModelUnavailable? then {k} else {})
  {
    var h' := Noted(h, k, kind, coldAfter);
    forall x ensures x in h'.cold <==> coldAfter > 0 && Hits(h', x) >= coldAfter {
    }
  }

  class ModelHealth {
    const retry: RetryConfig
    var dead: set<Key>
    var cold: set<Key>
    var rateLimitHits: map<Key, nat>

    constructor (retry: RetryConfig)
      ensures this.retry == retry && State() == FRESH
      ensures Consistent(State(), retry.coldAfter)
    {
      this.retry, dead, cold, rateLimitHits := retry, {}, {}, map[];
    }

    function State(): Health
      reads this
    {
      Health(dead, cold, rateLimitHits)
    }

    method MarkDead(k: Key)
      modifies this
      ensures State() == Noted(old(State()), k, ModelUnavailable, retry.coldAfter)
    {
      dead := dead + {k};
    }

    /** Counts a rate-limited rung and trips the breaker at the configured count. */
    method RecordRateLimit(k: Key) returns (tripped: bool)
      modifies this
      ensures State() == Noted(old(State()), k, RateLimited, retry.coldAfter)
      ensures tripped <==> retry.coldAfter > 0 && Hits(State(), k) >= retry.coldAfter
    {
      if retry.coldAfter == 0 {
        return false;
      }
      if k !in rateLimitHits {
        rateLimitHits := rateLimitHits[k := 0];
      }
      rateLimitHits := rateLimitHits[k := rateLimitHits[k] + 1];
      if rateLimitHits[k] >= retry.coldAfter {
        cold := cold + {k};
        return true;
      }
      return false;
    }
  }

  // ----- one rung -----

  predicate TimesOut(a: AttemptResult) {
    a.Success? && a.value.status.TimedOut?
  }

  /** The `i`-th attempt on a rung is followed by another. */
  predicate Continues(rung: Rung, retry: RetryConfig, a: AttemptResult, i: nat) {
    && (ClassifyAttempt(rung, a) == Some(Transient) || ClassifyAttempt(rung, a) == Some(RateLimited))
    && i < retry.maxRetries
    && !(i >= 1 && TimesOut(a))
  }

  predicate ContinuesAt(rung: Rung, retry: RetryConfig, answers: nat -> AttemptResult, t: nat, i: nat) {
    Continues(rung, retry, answers(t + i), i)
  }

  predicate TimesOutAt(answers: nat -> AttemptResult, t: nat, i: nat) {
    TimesOut(answers(t + i))
  }

  /** `n` attempts were made from tick `t`: all but the last continue. */
  ghost predicate RungRun(rung: Rung, retry: RetryConfig, answers: nat -> AttemptResult, t: nat, n: nat) {
    && n >= 1
    && (forall i: nat :: i < n - 1 ==> ContinuesAt(rung, retry, answers, t, i))
    && !ContinuesAt(rung, retry, answers, t, n - 1)
  }

  /** At most one attempt beyond the retries, and a timeout only on the first or the last of them. */
  lemma RungIsBounded(rung: Rung, retry: RetryConfig, answers: nat -> AttemptResult, t: nat, n: nat)
    requires RungRun(rung, retry, answers, t, n)
    ensures n <= retry.maxRetries + 1
    ensures forall i: nat :: i < n && TimesOutAt(answers, t, i) ==> i == 0 || i == n - 1
  {
    if n >= 2 {
      assert ContinuesAt(rung, retry, answers, t, n - 2);
    }
    forall i: nat | i < n && TimesOutAt(answers, t, i) ensures i == 0 || i == n - 1 {
      assert i < n - 1 ==> ContinuesAt(rung, retry, answers, t, i);
    }
  }

  /** The attempt failed in a way that may pass: at launch, by timeout, or with an error its adapter reads so. */
  predicate MayPass(rung: Rung, a: AttemptResult) {
    match a
    case Failure(_) => true
    case Success(o) =>
      o.status.TimedOut?
      || (o.status.Broken? && (rung.classify(o.status.error) == Transient
                               || rung.classify(o.status.error) == RateLimited))
  }

  /**
    Which of a rung's attempts is followed by another: one that failed in passing, within the retries, unless it
    timed out after a retry. Launch failures are always retried, and a model that is gone never is.
   */
  lemma RetriedExactly(rung: Rung, retry: RetryConfig, answers: nat -> AttemptResult, t: nat, n: nat, i: nat)
    requires RungRun(rung, retry, answers, t, n) && i < n
    ensures var a := answers(t + i);
      i < n - 1 <==>
        i < retry.maxRetries && MayPass(rung, a) && !(i >= 1 && a.Success? && a.value.status == TimedOut)
  {
    assert i < n - 1 ==> ContinuesAt(rung, retry, answers, t, i);
  }

  /** A rung under the production policy sleeps 2, 4 and 8 seconds at most. */
  lemma ProdSleeps14Seconds(rung: Rung, answers: nat -> AttemptResult, t: nat, n: nat)
    requires RungRun(rung, PROD, answers, t, n)
    ensures TotalSleep(PROD.backoffBase, n - 1) == (Pow2(n) - 2) * SECOND <= 14 * SECOND
  {
    RungIsBounded(rung, PROD, answers, t, n);
    assert Pow2(1) == 2 && Pow2(2) == 4 && Pow2(3) == 8 && Pow2(4) == 16;
    assert TotalSleep(2 * SECOND, 1) == 2 * SECOND;
    assert TotalSleep(2 * SECOND, 2) == 6 * SECOND;
    assert TotalSleep(2 * SECOND, 3) == 14 * SECOND;
  }

  /** A rung sleeps at most `CAP` a retry. */
  lemma SleepFits(rung: Rung, retry: RetryConfig, answers: nat -> AttemptResult, t: nat, n: nat)
    requires RungRun(rung, retry, answers, t, n)
    ensures TotalSleep(retry.backoffBase, n - 1) <= CAP * retry.maxRetries
    ensures retry == PROD ==> TotalSleep(retry.backoffBase, n - 1) <= 14 * SECOND
  {
    RungIsBounded(rung, retry, answers, t, n);
    TotalSleepIsBounded(retry.backoffBase, n - 1, retry.maxRetries);
    if retry == PROD {
      ProdSleeps14Seconds(rung, answers, t, n);
    }
  }

  method RunRung(rung: Rung, retry: RetryConfig, answers: nat -> AttemptResult, t: nat)
    returns (result: AttemptResult, kind: Option<FailureKind>, n: nat, slept: nat)
    ensures RungRun(rung, retry, answers, t, n)
    ensures result == answers(t + n - 1) && kind == ClassifyAttempt(rung, result)
    ensures kind == None <==> result.Success? && result.value.status == Done
    ensures result.Failure? || result.value.status == TimedOut ==> kind == Some(Transient)
    ensures result.Success? && result.value.status.Broken? ==> kind == Some(rung.classify(result.value.status.error))
    ensures slept == TotalSleep(retry.backoffBase, n - 1) <= CAP * retry.maxRetries
    ensures retry == PROD ==> slept <= 14 * SECOND
  {
    result := answers(t);
    kind := ClassifyAttempt(rung, result);
    slept := 0;
    var retries := 0;
    while (kind == Some(Transient) || kind == Some(RateLimited)) && retries < retry.maxRetries
      invariant result == answers(t + retries) && kind == ClassifyAttempt(rung, result)
      invariant forall i: nat :: i < retries ==> ContinuesAt(rung, retry, answers, t, i)
      invariant slept == TotalSleep(retry.backoffBase, retries) && retries <= retry.maxRetries
      decreases retry.maxRetries - retries
    {
      if retries >= 1 && TimesOut(result) {
        break;
      }
      var backoff := BackoffFor(retry.backoffBase, retries);
      if backoff != 0 {
        slept := slept + backoff;
      }
      result := answers(t + retries + 1);
      kind := ClassifyAttempt(rung, result);
      retries := retries + 1;
    }
    n := retries + 1;
    SleepFits(rung, retry, answers, t, n);
  }

  // ----- the ladder -----

  datatype RungEnd = KnownDead | RateLimitCold | FailedWith(kind: FailureKind) | Succeeded

  datatype Fallback = Fallback(from: Key, to: Key, reason: RungEnd)

  datatype FailoverResult = FailoverResult(modelUsed: Key, outcome: RunOutcome, rungUsed: nat, fallbacks: seq<Fallback>)

  datatype FailoverError = NoRungs | AllFailed(reasons: seq<(Key, RungEnd)>)

  /** What happened on one rung: how it ended, and the attempts it made from `tick`. */
  datatype Visit = Visit(end: RungEnd, tick: nat, tries: nat)

  /** A rung is skipped when dead or cold; otherwise its last attempt decides, and only a failure is noted. */
  ghost predicate VisitOk(rung: Rung, retry: RetryConfig, answers: nat -> AttemptResult, v: Visit, h: Health,
                          h': Health)
  {
    if rung.key in h.dead then v.end == KnownDead && v.tries == 0 && h' == h
    else if rung.key in h.cold then v.end == RateLimitCold && v.tries == 0 && h' == h
    else
      && RungRun(rung, retry, answers, v.tick, v.tries)
      && match ClassifyAttempt(rung, answers(v.tick + v.tries - 1))
         case None => v.end == Succeeded && h' == h
         case Some(kind) => v.end == FailedWith(kind) && h' == Noted(h, rung.key, kind, retry.coldAfter)
  }

  /** A descent of the ladder: one visit a rung, one attempt after the other. */
  ghost predicate Descent(ladder: seq<Rung>, retry: RetryConfig, answers: nat -> AttemptResult, t: nat,
                          visits: seq<Visit>, hs: seq<Health>)
  {
    && |visits| <= |ladder| && |hs| == |visits| + 1
    && (forall j {:trigger VisitAt(ladder, retry, answers, t, visits, hs, j)} :: 0 <= j < |visits| ==>
          VisitAt(ladder, retry, answers, t, visits, hs, j))
  }

  ghost predicate VisitAt(ladder: seq<Rung>, retry: RetryConfig, answers: nat -> AttemptResult, t: nat,
                          visits: seq<Visit>, hs: seq<Health>, j: nat)
    requires j < |visits| <= |ladder| && |hs| == |visits| + 1
  {
    VisitOk(ladder[j], retry, answers, visits[j], hs[j], hs[j + 1]) && visits[j].tick == TickAt(t, visits, j)
  }

  ghost function TickAt(t: nat, visits: seq<Visit>, j: nat): nat
    requires j <= |visits|
  {
    if j == 0 then t else TickAt(t, visits, j - 1) + visits[j - 1].tries
  }

  lemma {:induction false} TickAtPrefix(t: nat, visits: seq<Visit>, more: seq<Visit>, j: nat)
    requires j <= |visits|
    ensures TickAt(t, visits + more, j) == TickAt(t, visits, j)
  {
    if j > 0 {
      TickAtPrefix(t, visits, more, j - 1);
    }
  }

  lemma Descend(ladder: seq<Rung>, retry: RetryConfig, answers: nat -> AttemptResult, t: nat,
                visits: seq<Visit>, hs: seq<Health>, v: Visit, h: Health)
    requires Descent(ladder, retry, answers, t, visits, hs) && |visits| < |ladder|
    requires VisitOk(ladder[|visits|], retry, answers, v, hs[|visits|], h) && v.tick == TickAt(t, visits, |visits|)
    ensures Descent(ladder, retry, answers, t, visits + [v], hs + [h])
    ensures TickAt(t, visits + [v], |visits| + 1) == v.tick + v.tries
  {
    forall j | 0 <= j <= |visits| ensures VisitAt(ladder, retry, answers, t, visits + [v], hs + [h], j) {
      TickAtPrefix(t, visits, [v], j);
      assert j < |visits| ==> VisitAt(ladder, retry, answers, t, visits, hs, j);
    }
    TickAtPrefix(t, visits, [v], |visits|);
  }

  /** The j-th fallback goes from rung j to rung j + 1, for the reason rung j ended. */
  ghost predicate Chained(ladder: seq<Rung>, visits: seq<Visit>, fallbacks: seq<Fallback>) {
    forall j :: 0 <= j < |fallbacks| && j < |visits| && j + 1 < |ladder| ==>
      fallbacks[j] == Fallback(ladder[j].key, ladder[j + 1].key, visits[j].end)
  }

  ghost predicate NoneSucceeded(visits: seq<Visit>) {
    forall j :: 0 <= j < |visits| ==> visits[j].end != Succeeded
  }

  ghost predicate ReasonsOf(ladder: seq<Rung>, visits: seq<Visit>, reasons: seq<(Key, RungEnd)>) {
    |reasons| == |visits| <= |ladder| && forall j :: 0 <= j < |visits| ==> reasons[j] == (ladder[j].key, visits[j].end)
  }

  method VisitRung(rung: Rung, health: ModelHealth, answers: nat -> AttemptResult, t: nat)
    returns (end: RungEnd, result: AttemptResult, tries: nat, slept: nat)
    modifies health
    ensures VisitOk(rung, health.retry, answers, Visit(end, t, tries), old(health.State()), health.State())
    ensures end.Succeeded? ==>
      tries >= 1 && result == answers(t + tries - 1) && result.Success? && result.value.status.Done?
    ensures slept == (if tries == 0 then 0 else TotalSleep(health.retry.backoffBase, tries - 1))
  {
    if rung.key in health.dead {
      return KnownDead, Failure(""), 0, 0;
    }
    if rung.key in health.cold {
      return RateLimitCold, Failure(""), 0, 0;
    }
    var kind;
    result, kind, tries, slept := RunRung(rung, health.retry, answers, t);
    if kind.None? {
      return Succeeded, result, tries, slept;
    }
    if kind.value.ModelUnavailable? {
      health.MarkDead(rung.key);
    } else if kind.value.RateLimited? {
      var tripped := health.RecordRateLimit(rung.key);
    }
    end := FailedWith(kind.value);
  }

  /** Visits the rung after those visited so far, at tick `now`. */
  method NextRung(ladder: seq<Rung>, health: ModelHealth, answers: nat -> AttemptResult, ghost t: nat, now: nat,
                  ghost visits: seq<Visit>, ghost hs: seq<Health>, i: nat)
    returns (end: RungEnd, result: AttemptResult, now': nat, ghost visits': seq<Visit>, ghost hs': seq<Health>)
    requires Descent(ladder, health.retry, answers, t, visits, hs) && |visits| == i < |ladder|
    requires now == TickAt(t, visits, i) && hs[i] == health.State()
    modifies health
    ensures Descent(ladder, health.retry, answers, t, visits', hs') && |visits'| == i + 1
    ensures visits'[..i] == visits && visits'[i].end == end && hs'[0] == hs[0] && hs'[i + 1] == health.State()
    ensures now' == TickAt(t, visits', i + 1) >= now
    ensures end.Succeeded? ==> now' > now && result == answers(now' - 1) && result.Success? && result.value.status.Done?
  {
    var tries, slept;
    end, result, tries, slept := VisitRung(ladder[i], health, answers, now);
    ghost var v := Visit(end, now, tries);
    Descend(ladder, health.retry, answers, t, visits, hs, v, health.State());
    visits', hs', now' := visits + [v], hs + [health.State()], now + tries;
  }

  /** What a descent comes to: the first rung that succeeded, or that none did. */
  ghost predicate Concludes(ladder: seq<Rung>, answers: nat -> AttemptResult, t': nat, visits: seq<Visit>,
                            r: Result<FailoverResult, FailoverError>)
  {
    match r
    case Success(f) =>
      && |visits| == f.rungUsed + 1 <= |ladder|
      && NoneSucceeded(visits[..f.rungUsed]) && visits[f.rungUsed].end == Succeeded
      && t' > 0 && answers(t' - 1) == Success(f.outcome) && f.outcome.status == Done
      && f.modelUsed == ladder[f.rungUsed].key
      && |f.fallbacks| == f.rungUsed && Chained(ladder, visits, f.fallbacks)
    case Failure(e) =>
      && NoneSucceeded(visits) && |visits| == |ladder|
      && match e
         case NoRungs => ladder == []
         case AllFailed(reasons) => ladder != [] && ReasonsOf(ladder, visits, reasons)
  }

  /** Walks the ladder until a rung succeeds. */
  method RunWithFailover(ladder: seq<Rung>, health: ModelHealth, answers: nat -> AttemptResult, t: nat)
    returns (r: Result<FailoverResult, FailoverError>, t': nat, ghost visits: seq<Visit>, ghost hs: seq<Health>)
    modifies health
    ensures Descent(ladder, health.retry, answers, t, visits, hs) && t' == TickAt(t, visits, |visits|)
    ensures hs[0] == old(health.State()) && hs[|visits|] == health.State()
    ensures Concludes(ladder, answers, t', visits, r)
  {
    visits, hs, t' := [], [health.State()], t;
    if ladder == [] {
      return Failure(NoRungs), t, visits, hs;
    }
    var fallbacks: seq<Fallback> := [];
    var reasons: seq<(Key, RungEnd)> := [];
    for i := 0 to |ladder|
      invariant |visits| == i && Descent(ladder, health.retry, answers, t, visits, hs)
      invariant t' == TickAt(t, visits, i) >= t
      invariant hs[0] == old(health.State()) && hs[i] == health.State()
      invariant NoneSucceeded(visits)
      invariant |fallbacks| == (if i < |ladder| then i else i - 1) && Chained(ladder, visits, fallbacks)
      invariant ReasonsOf(ladder, visits, reasons)
    {
      var end, result;
      end, result, t', visits, hs := NextRung(ladder, health, answers, t, t', visits, hs, i);
      if end.Succeeded? {
        return Success(FailoverResult(ladder[i].key, result.value, i, fallbacks)), t', visits, hs;
      }
      reasons := reasons + [(ladder[i].key, end)];
      if i + 1 < |ladder| {
        fallbacks := fallbacks + [Fallback(ladder[i].key, ladder[i + 1].key, end)];
      }
    }
    return Failure(AllFailed(reasons)), t', visits, hs;
  }

  // ----- how rungs end, read off the raw answers -----

  /** The rung was tried, and its last answer was a completed session. */
  predicate EndsDone(answers: nat -> AttemptResult, v: Visit) {
    v.tries > 0 && var a := answers(v.tick + v.tries - 1); a.Success? && a.value.status == Done
  }

  /** The rung was tried, and its last answer was an error that its adapter reads as `kind`. */
  predicate EndsBroken(rung: Rung, answers: nat -> AttemptResult, v: Visit, kind: FailureKind) {
    && v.tries > 0
    && var a := answers(v.tick + v.tries - 1);
       a.Success? && a.value.status.Broken? && rung.classify(a.value.status.error) == kind
  }

  /** The rung was tried, and its last answer was a launch failure or a timeout. */
  predicate EndsUnreached(answers: nat -> AttemptResult, v: Visit) {
    v.tries > 0 && var a := answers(v.tick + v.tries - 1); a.Failure? || a.value.status == TimedOut
  }

  /**
    How a rung ends. A launch failure and a timeout are transient, whatever the adapter makes of error messages;
    only an error that the adapter reads so makes the model unavailable.
   */
  lemma RungEndsExactly(rung: Rung, retry: RetryConfig, answers: nat -> AttemptResult, v: Visit, h: Health, h': Health)
    requires VisitOk(rung, retry, answers, v, h, h')
    ensures v.tries == 0 <==> rung.key in h.dead || rung.key in h.cold
    ensures v.end == Succeeded <==> EndsDone(answers, v)
    ensures v.end == FailedWith(Transient) <==> EndsUnreached(answers, v) || EndsBroken(rung, answers, v, Transient)
    ensures v.end == FailedWith(RateLimited) <==> EndsBroken(rung, answers, v, RateLimited)
    ensures v.end == FailedWith(ModelUnavailable) <==> EndsBroken(rung, answers, v, ModelUnavailable)
  {
  }

  // ----- a descent is determined -----

  lemma RungIsDetermined(rung: Rung, retry: RetryConfig, answers: nat -> AttemptResult, t: nat, m: nat, n: nat)
    requires RungRun(rung, retry, answers, t, m) && RungRun(rung, retry, answers, t, n)
    ensures m == n
  {
  }

  lemma {:induction false} DescentsAgree(ladder: seq<Rung>, retry: RetryConfig, answers: nat -> AttemptResult, t: nat,
                                         a: seq<Visit>, g: seq<Health>, b: seq<Visit>, h: seq<Health>, n: nat)
    requires Descent(ladder, retry, answers, t, a, g) && Descent(ladder, retry, answers, t, b, h) && g[0] == h[0]
    requires n <= |a| && n <= |b|
    ensures a[..n] == b[..n] && g[n] == h[n] && TickAt(t, a, n) == TickAt(t, b, n)
  {
    if n > 0 {
      DescentsAgree(ladder, retry, answers, t, a, g, b, h, n - 1);
      assert VisitAt(ladder, retry, answers, t, a, g, n - 1) && VisitAt(ladder, retry, answers, t, b, h, n - 1);
      if a[n - 1].end.FailedWith? || a[n - 1].end.Succeeded? {
        RungIsDetermined(ladder[n - 1], retry, answers, a[n - 1].tick, a[n - 1].tries, b[n - 1].tries);
      }
      assert a[..n] == a[..n - 1] + [a[n - 1]] && b[..n] == b[..n - 1] + [b[n - 1]];
    }
  }

  lemma SameVisits(a: seq<Visit>, b: seq<Visit>, n: nat)
    requires n <= |a| && n <= |b| && a[..n] == b[..n]
    ensures forall j :: 0 <= j < n ==> a[j] == b[j]
  {
    forall j | 0 <= j < n ensures a[j] == b[j] {
      assert a[..n][j] == b[..n][j];
    }
  }

  lemma NoneSucceededAt(visits: seq<Visit>, n: nat, i: nat)
    requires i < n <= |visits| && NoneSucceeded(visits[..n])
    ensures visits[i].end != Succeeded
  {
    assert visits[..n][i] == visits[i];
  }

  /** The visits of a descent are over when, and only when, a rung succeeded or none is left. */
  lemma ConcludesOnce(ladder: seq<Rung>, answers: nat -> AttemptResult, t: nat, a: seq<Visit>,
                      r: Result<FailoverResult, FailoverError>, t': nat, b: seq<Visit>,
                      s: Result<FailoverResult, FailoverError>)
    requires Concludes(ladder, answers, t, a, r) && Concludes(ladder, answers, t', b, s)
    requires |a| <= |b| <= |ladder| && forall j :: 0 <= j < |a| ==> a[j] == b[j]
    ensures |a| == |b|
  {
    if r.Success? && s.Success? && r.value.rungUsed < s.value.rungUsed {
      NoneSucceededAt(b, s.value.rungUsed, r.value.rungUsed);
    }
  }

  /** The ladder, the answers and the registries before determine the result, and every visit behind it. */
  lemma FailoverIsDetermined(ladder: seq<Rung>, retry: RetryConfig, answers: nat -> AttemptResult, t: nat,
                             a: seq<Visit>, g: seq<Health>, r: Result<FailoverResult, FailoverError>,
                             b: seq<Visit>, h: seq<Health>, s: Result<FailoverResult, FailoverError>)
    requires Descent(ladder, retry, answers, t, a, g) && Descent(ladder, retry, answers, t, b, h) && g[0] == h[0]
    requires Concludes(ladder, answers, TickAt(t, a, |a|), a, r) && Concludes(ladder, answers, TickAt(t, b, |b|), b, s)
    ensures a == b && r == s && g[|a|] == h[|b|]
  {
    var n := if |a| <= |b| then |a| else |b|;
    DescentsAgree(ladder, retry, answers, t, a, g, b, h, n);
    SameVisits(a, b, n);
    if |a| <= |b| {
      ConcludesOnce(ladder, answers, TickAt(t, a, |a|), a, r, TickAt(t, b, |b|), b, s);
    } else {
      ConcludesOnce(ladder, answers, TickAt(t, b, |b|), b, s, TickAt(t, a, |a|), a, r);
    }
    assert a == b;
    SameResult(ladder, answers, TickAt(t, a, |a|), a, r, s);
  }

  lemma FallbackAt(ladder: seq<Rung>, visits: seq<Visit>, fallbacks: seq<Fallback>, j: nat)
    requires Chained(ladder, visits, fallbacks) && j < |fallbacks| && j < |visits| && j + 1 < |ladder|
    ensures fallbacks[j] == Fallback(ladder[j].key, ladder[j + 1].key, visits[j].end)
  {
  }

  lemma SameResult(ladder: seq<Rung>, answers: nat -> AttemptResult, t': nat, visits: seq<Visit>,
                   r: Result<FailoverResult, FailoverError>, s: Result<FailoverResult, FailoverError>)
    requires Concludes(ladder, answers, t', visits, r) && Concludes(ladder, answers, t', visits, s)
    ensures r == s
  {
    if r.Success? && s.Success? {
      forall j | 0 <= j < r.value.rungUsed ensures r.value.fallbacks[j] == s.value.fallbacks[j] {
        FallbackAt(ladder, visits, r.value.fallbacks, j);
        FallbackAt(ladder, visits, s.value.fallbacks, j);
      }
      assert r.value.fallbacks == s.value.fallbacks;
    } else if r.Failure? && s.Failure? && r.error.AllFailed? && s.error.AllFailed? {
      assert r.error.reasons == s.error.reasons;
    }
  }

  // ----- what a descent does to the registries -----

  /** Descending only ever adds to the registries, and keeps the cold keys those with enough hits. */
  lemma {:induction false} HealthAlong(ladder: seq<Rung>, retry: RetryConfig, answers: nat -> AttemptResult, t: nat,
                                       visits: seq<Visit>, hs: seq<Health>, i: nat, j: nat)
    requires Descent(ladder, retry, answers, t, visits, hs) && i <= j < |hs|
    requires Consistent(hs[i], retry.coldAfter)
    ensures Consistent(hs[j], retry.coldAfter) && Grows(hs[i], hs[j])
    decreases j
  {
    if i < j {
      HealthAlong(ladder, retry, answers, t, visits, hs, i, j - 1);
      assert VisitAt(ladder, retry, answers, t, visits, hs, j - 1);
      if visits[j - 1].end.FailedWith? {
        NotedKeepsConsistent(hs[j - 1], ladder[j - 1].key, visits[j - 1].end.kind, retry.coldAfter);
      }
    }
  }

  /** Rung `j` has the key, and its last answer was an error that its adapter reads as `kind`. */
  ghost predicate EndedAs(ladder: seq<Rung>, answers: nat -> AttemptResult, visits: seq<Visit>, k: Key, j: int,
                          kind: FailureKind)
  {
    0 <= j < |visits| && j < |ladder| && ladder[j].key == k && EndsBroken(ladder[j], answers, visits[j], kind)
  }

  /** A key dies in a descent exactly when the last answer of one of its rungs said that the model is unavailable. */
  lemma {:induction false} OnlyUnavailableKills(ladder: seq<Rung>, retry: RetryConfig, answers: nat -> AttemptResult,
                                                t: nat, visits: seq<Visit>, hs: seq<Health>, k: Key, n: nat)
    requires Descent(ladder, retry, answers, t, visits, hs) && n < |hs|
    ensures k in hs[n].dead <==>
      k in hs[0].dead || exists j :: j < n && EndedAs(ladder, answers, visits, k, j, ModelUnavailable)
  {
    if n > 0 {
      OnlyUnavailableKills(ladder, retry, answers, t, visits, hs, k, n - 1);
      assert VisitAt(ladder, retry, answers, t, visits, hs, n - 1);
      RungEndsExactly(ladder[n - 1], retry, answers, visits[n - 1], hs[n - 1], hs[n]);
      assert k in hs[n].dead <==> k in hs[n - 1].dead || EndedAs(ladder, answers, visits, k, n - 1, ModelUnavailable);
    }
  }

  /** The rungs, among the first `n`, at which the key was throttled. */
  ghost function Throttled(ladder: seq<Rung>, answers: nat -> AttemptResult, visits: seq<Visit>, k: Key,
                           n: nat): set<int>
    requires n <= |visits|
  {
    set j | 0 <= j < n && EndedAs(ladder, answers, visits, k, j, RateLimited)
  }

  lemma ThrottledStep(ladder: seq<Rung>, answers: nat -> AttemptResult, visits: seq<Visit>, k: Key, n: nat)
    requires n < |visits|
    ensures |Throttled(ladder, answers, visits, k, n + 1)| ==
      |Throttled(ladder, answers, visits, k, n)| + if EndedAs(ladder, answers, visits, k, n, RateLimited) then 1 else 0
  {
    var before := Throttled(ladder, answers, visits, k, n);
    assert Throttled(ladder, answers, visits, k, n + 1) ==
      if EndedAs(ladder, answers, visits, k, n, RateLimited) then before + {n as int} else before;
  }

  /** A key gains one hit for each of its rungs that ended throttled, unless the breaker is disabled. */
  lemma {:induction false} HitsAreCounted(ladder: seq<Rung>, retry: RetryConfig, answers: nat -> AttemptResult,
                                          t: nat, visits: seq<Visit>, hs: seq<Health>, k: Key, n: nat)
    requires Descent(ladder, retry, answers, t, visits, hs) && n < |hs|
    ensures Hits(hs[n], k) ==
      Hits(hs[0], k) + if retry.coldAfter == 0 then 0 else |Throttled(ladder, answers, visits, k, n)|
  {
    if n > 0 {
      HitsAreCounted(ladder, retry, answers, t, visits, hs, k, n - 1);
      assert VisitAt(ladder, retry, answers, t, visits, hs, n - 1);
      RungEndsExactly(ladder[n - 1], retry, answers, visits[n - 1], hs[n - 1], hs[n]);
      ThrottledStep(ladder, answers, visits, k, n - 1);
    }
  }

  /** A model found unavailable is not tried again further down the ladder. */
  lemma DeadIsSkipped(ladder: seq<Rung>, retry: RetryConfig, answers: nat -> AttemptResult, t: nat,
                      visits: seq<Visit>, hs: seq<Health>, i: nat, j: nat)
    requires Descent(ladder, retry, answers, t, visits, hs) && i < j < |visits| && ladder[i].key == ladder[j].key
    requires EndsBroken(ladder[i], answers, visits[i], ModelUnavailable)
    ensures visits[j].end == KnownDead && visits[j].tries == 0
  {
    assert EndedAs(ladder, answers, visits, ladder[j].key, i, ModelUnavailable);
    OnlyUnavailableKills(ladder, retry, answers, t, visits, hs, ladder[j].key, j);
    assert VisitAt(ladder, retry, answers, t, visits, hs, j);
  }

  /** A whole descent makes at most one attempt beyond the retries on each rung. */
  lemma {:induction false} AttemptsAreBounded(ladder: seq<Rung>, retry: RetryConfig, answers: nat -> AttemptResult,
                                              t: nat, visits: seq<Visit>, hs: seq<Health>, j: nat)
    requires Descent(ladder, retry, answers, t, visits, hs) && j <= |visits|
    ensures t <= TickAt(t, visits, j) <= t + j * (retry.maxRetries + 1)
  {
    if j > 0 {
      AttemptsAreBounded(ladder, retry, answers, t, visits, hs, j - 1);
      assert VisitAt(ladder, retry, answers, t, visits, hs, j - 1);
      if visits[j - 1].tries > 0 {
        RungIsBounded(ladder[j - 1], retry, answers, visits[j - 1].tick, visits[j - 1].tries);
      }
      assert j * (retry.maxRetries + 1) == (j - 1) * (retry.maxRetries + 1) + (retry.maxRetries + 1);
    }
  }
}
