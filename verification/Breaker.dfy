/**
  Callers sharing one `ModelHealth` (core/src/orchestrator/resilience.rs). `council` joins several
  `run_with_failover` futures (core/src/orchestrator/council.rs), which interleave wherever an attempt is
  awaited: each one checks a rung, is in flight on it, and notes how it ended, in any order.
 */
module Breaker {
  import opened Resilience

  datatype Caller =
    | Idle
    | At(ladder: seq<Key>, pos: nat)
    | InFlight(ladder: seq<Key>, pos: nat)

  datatype State = State(h: Health, callers: seq<Caller>)

  datatype Action =
    | Start(c: nat, keys: seq<Key>)
    | Check(c: nat)
    | Succeed(c: nat)
    | Fail(c: nat, kind: FailureKind)
    | GiveUp(c: nat)

  predicate WellPlaced(x: Caller) {
    (x.InFlight? ==> x.pos < |x.ladder|) && (x.At? ==> x.pos <= |x.ladder|)
  }

  predicate Enabled(s: State, a: Action) {
    && a.c < |s.callers|
    && var x := s.callers[a.c];
      match a
      case Start(_, _) => x.Idle?
      case Check(_) => x.At? && x.pos < |x.ladder|
      case Succeed(_) => x.InFlight?
      case Fail(_, _) => x.InFlight? && x.pos < |x.ladder|
      case GiveUp(_) => x.At? && x.pos == |x.ladder|
  }

  function With(s: State, c: nat, x: Caller): State
    requires c < |s.callers|
  {
    s.(callers := s.callers[c := x])
  }

  /** A dead or cold rung is skipped; a failure is noted and demotes; a success or an exhausted ladder ends the call. */
  function Next(s: State, a: Action, coldAfter: nat): State
    requires Enabled(s, a)
  {
    var x := s.callers[a.c];
    match a
    case Start(c, keys) => With(s, c, At(keys, 0))
    case Check(c) =>
      if x.ladder[x.pos] in s.h.dead || x.ladder[x.pos] in s.h.cold then With(s, c, At(x.ladder, x.pos + 1))
      else With(s, c, InFlight(x.ladder, x.pos))
    case Succeed(c) => With(s, c, Idle)
    case Fail(c, kind) => With(s, c, At(x.ladder, x.pos + 1)).(h := Noted(s.h, x.ladder[x.pos], kind, coldAfter))
    case GiveUp(c) => With(s, c, Idle)
  }

  // ----- runs -----

  function Init(w: nat): State {
    State(FRESH, seq(w, _ => Idle))
  }

  ghost predicate StepOf(states: seq<State>, actions: seq<Action>, coldAfter: nat, i: nat)
    requires |states| == |actions| + 1 && i < |actions|
  {
    Enabled(states[i], actions[i]) && states[i + 1] == Next(states[i], actions[i], coldAfter)
  }

  /** Any interleaving of `w` callers. */
  ghost predicate IsRun(states: seq<State>, actions: seq<Action>, coldAfter: nat, w: nat) {
    && |states| == |actions| + 1 && states[0] == Init(w)
    && forall i {:trigger StepOf(states, actions, coldAfter, i)} :: 0 <= i < |actions| ==>
         StepOf(states, actions, coldAfter, i)
  }

  // ----- how many callers are in flight on a key -----

  predicate On(x: Caller, k: Key) {
    x.InFlight? && x.pos < |x.ladder| && x.ladder[x.pos] == k
  }

  function Count(callers: seq<Caller>, k: Key): (n: nat)
    ensures n <= |callers|
  {
    if callers == [] then 0
    else Count(callers[..|callers| - 1], k) + (if On(callers[|callers| - 1], k) then 1 else 0)
  }

  lemma {:induction false} CountUpdate(callers: seq<Caller>, c: nat, x: Caller, k: Key)
    requires c < |callers|
    ensures Count(callers[c := x], k) + (if On(callers[c], k) then 1 else 0)
         == Count(callers, k) + (if On(x, k) then 1 else 0)
  {
    var n := |callers| - 1;
    if c == n {
      assert callers[c := x][..n] == callers[..n];
    } else {
      CountUpdate(callers[..n], c, x, k);
      assert callers[c := x][..n] == callers[..n][c := x];
    }
  }

  // ----- the invariant -----

  /** The hits of a key, with the calls in flight that may still add to them, stay within the bound. */
  predicate WithinBound(s: State, coldAfter: nat, k: Key) {
    coldAfter > 0 ==> Hits(s.h, k) + Count(s.callers, k) <= coldAfter + |s.callers| - 1
  }

  ghost predicate Inv(s: State, coldAfter: nat) {
    && Consistent(s.h, coldAfter)
    && (forall c :: 0 <= c < |s.callers| ==> WellPlaced(s.callers[c]))
    && (forall k :: WithinBound(s, coldAfter, k))
  }

  lemma {:induction false} NobodyInFlight(w: nat, k: Key)
    ensures Count(Init(w).callers, k) == 0
  {
    if w > 0 {
      assert Init(w).callers[..w - 1] == Init(w - 1).callers;
      NobodyInFlight(w - 1, k);
    }
  }

  lemma InitInv(w: nat, coldAfter: nat)
    ensures Inv(Init(w), coldAfter)
  {
    forall k ensures WithinBound(Init(w), coldAfter, k) {
      NobodyInFlight(w, k);
    }
  }

  lemma StepKeepsBound(s: State, a: Action, coldAfter: nat, k: Key)
    requires Inv(s, coldAfter) && Enabled(s, a)
    ensures WithinBound(Next(s, a, coldAfter), coldAfter, k)
  {
    var s' := Next(s, a, coldAfter);
    CountUpdate(s.callers, a.c, s'.callers[a.c], k);
    assert WithinBound(s, coldAfter, k);
  }

  lemma StepKeepsInv(s: State, a: Action, coldAfter: nat)
    requires Inv(s, coldAfter) && Enabled(s, a)
    ensures Inv(Next(s, a, coldAfter), coldAfter) && |Next(s, a, coldAfter).callers| == |s.callers|
    ensures Grows(s.h, Next(s, a, coldAfter).h)
  {
    var s' := Next(s, a, coldAfter);
    if a.Fail? {
      NotedKeepsConsistent(s.h, s.callers[a.c].ladder[s.callers[a.c].pos], a.kind, coldAfter);
    }
    forall k ensures WithinBound(s', coldAfter, k) {
      StepKeepsBound(s, a, coldAfter, k);
    }
  }

  lemma {:induction false} RunInv(states: seq<State>, actions: seq<Action>, coldAfter: nat, w: nat, i: nat)
    requires IsRun(states, actions, coldAfter, w) && i < |states|
    ensures Inv(states[i], coldAfter) && |states[i].callers| == w
  {
    if i == 0 {
      InitInv(w, coldAfter);
    } else {
      RunInv(states, actions, coldAfter, w, i - 1);
      assert StepOf(states, actions, coldAfter, i - 1);
      StepKeepsInv(states[i - 1], actions[i - 1], coldAfter);
    }
  }

  // ----- what the breaker guarantees under every interleaving -----

  /** The cold keys are exactly those with `coldAfter` hits; hits overshoot by at most one per other caller. */
  lemma BreakerIsExact(states: seq<State>, actions: seq<Action>, coldAfter: nat, w: nat, i: nat, k: Key)
    requires IsRun(states, actions, coldAfter, w) && i < |states| && w > 0
    ensures k in states[i].h.cold <==> coldAfter > 0 && Hits(states[i].h, k) >= coldAfter
    ensures coldAfter > 0 ==> Hits(states[i].h, k) <= coldAfter + w - 1
  {
    RunInv(states, actions, coldAfter, w, i);
    assert WithinBound(states[i], coldAfter, k);
  }

  /** Step `j` reported that `k` throttled its caller. */
  ghost predicate ThrottledAt(states: seq<State>, actions: seq<Action>, k: Key, j: int)
    requires |states| == |actions| + 1
  {
    && 0 <= j < |actions| && actions[j].Fail? && actions[j].kind.RateLimited?
    && actions[j].c < |states[j].callers| && On(states[j].callers[actions[j].c], k)
  }

  ghost function Throttles(states: seq<State>, actions: seq<Action>, k: Key, i: nat): set<int>
    requires |states| == |actions| + 1
  {
    set j | 0 <= j < i && ThrottledAt(states, actions, k, j)
  }

  lemma ThrottlesStep(states: seq<State>, actions: seq<Action>, k: Key, i: nat)
    requires |states| == |actions| + 1
    ensures |Throttles(states, actions, k, i + 1)| ==
      |Throttles(states, actions, k, i)| + if ThrottledAt(states, actions, k, i) then 1 else 0
  {
    var before := Throttles(states, actions, k, i);
    assert Throttles(states, actions, k, i + 1) ==
      if ThrottledAt(states, actions, k, i) then before + {i as int} else before;
  }

  /** A key's hits are the throttled calls that were noted on it; a disabled breaker counts none. */
  lemma {:induction false} HitsAreCounted(states: seq<State>, actions: seq<Action>, coldAfter: nat, w: nat, i: nat,
                                          k: Key)
    requires IsRun(states, actions, coldAfter, w) && i < |states|
    ensures Hits(states[i].h, k) == if coldAfter == 0 then 0 else |Throttles(states, actions, k, i)|
  {
    if i > 0 {
      HitsAreCounted(states, actions, coldAfter, w, i - 1, k);
      assert StepOf(states, actions, coldAfter, i - 1);
      ThrottlesStep(states, actions, k, i - 1);
    }
  }

  /** A dead or cold key stays so, and no hit is lost. */
  lemma {:induction false} RegistriesOnlyGrow(states: seq<State>, actions: seq<Action>, coldAfter: nat, w: nat, i: nat,
                                              j: nat)
    requires IsRun(states, actions, coldAfter, w) && i <= j < |states|
    ensures Grows(states[i].h, states[j].h)
    decreases j
  {
    if i < j {
      RegistriesOnlyGrow(states, actions, coldAfter, w, i, j - 1);
      RunInv(states, actions, coldAfter, w, j - 1);
      assert StepOf(states, actions, coldAfter, j - 1);
      StepKeepsInv(states[j - 1], actions[j - 1], coldAfter);
    }
  }

  /** Step `j` reported `k` unavailable. */
  ghost predicate KilledAt(states: seq<State>, actions: seq<Action>, k: Key, j: int)
    requires |states| == |actions| + 1
  {
    && 0 <= j < |actions| && actions[j].Fail? && actions[j].kind.ModelUnavailable?
    && actions[j].c < |states[j].callers| && On(states[j].callers[actions[j].c], k)
  }

  /** A key is dead exactly when some caller found it unavailable: throttling, timeouts and launch errors never kill. */
  lemma {:induction false} OnlyUnavailableKills(states: seq<State>, actions: seq<Action>, coldAfter: nat, w: nat,
                                                i: nat, k: Key)
    requires IsRun(states, actions, coldAfter, w) && i < |states|
    ensures k in states[i].h.dead <==> exists j :: j < i && KilledAt(states, actions, k, j)
  {
    if i > 0 {
      OnlyUnavailableKills(states, actions, coldAfter, w, i - 1, k);
      assert StepOf(states, actions, coldAfter, i - 1);
      assert k in states[i].h.dead <==> k in states[i - 1].h.dead || KilledAt(states, actions, k, i - 1);
    }
  }

  /** Once a key is dead or cold, no caller takes it up. */
  lemma TrippedIsNotTaken(states: seq<State>, actions: seq<Action>, coldAfter: nat, w: nat, i: nat, j: nat, k: Key,
                          c: nat)
    requires IsRun(states, actions, coldAfter, w) && i <= j < |actions| && c < w
    requires k in states[i].h.dead || k in states[i].h.cold
    ensures c < |states[j].callers| && c < |states[j + 1].callers|
    ensures On(states[j + 1].callers[c], k) ==> On(states[j].callers[c], k)
  {
    RegistriesOnlyGrow(states, actions, coldAfter, w, i, j);
    RunInv(states, actions, coldAfter, w, j);
    RunInv(states, actions, coldAfter, w, j + 1);
    assert StepOf(states, actions, coldAfter, j);
  }

  /** Whoever has not finished a call can go on with it. */
  lemma CallerCanStep(states: seq<State>, actions: seq<Action>, coldAfter: nat, w: nat, i: nat, c: nat)
    requires IsRun(states, actions, coldAfter, w) && i < |states| && c < w
    ensures c < |states[i].callers|
    ensures exists a: Action :: a.c == c && Enabled(states[i], a)
  {
    RunInv(states, actions, coldAfter, w, i);
    var x := states[i].callers[c];
    assert WellPlaced(x);
    var a := match x
      case Idle => Start(c, [])
      case At(ladder, pos) => if pos < |ladder| then Check(c) else GiveUp(c)
      case InFlight(_, _) => Succeed(c);
    assert a.c == c && Enabled(states[i], a);
  }

  // ----- the bound is attained -----

  ghost predicate IsRunTo(states: seq<State>, actions: seq<Action>, coldAfter: nat, w: nat, s: State) {
    IsRun(states, actions, coldAfter, w) && states[|actions|] == s && |s.callers| == w
  }

  lemma Extend(states: seq<State>, actions: seq<Action>, coldAfter: nat, w: nat, s: State, a: Action)
    returns (states': seq<State>, actions': seq<Action>, s': State)
    requires IsRunTo(states, actions, coldAfter, w, s) && Enabled(s, a)
    ensures s' == Next(s, a, coldAfter) && IsRunTo(states', actions', coldAfter, w, s')
  {
    s' := Next(s, a, coldAfter);
    states', actions' := states + [s'], actions + [a];
    forall i | 0 <= i < |actions'| ensures StepOf(states', actions', coldAfter, i) {
      assert i < |actions| ==> StepOf(states, actions, coldAfter, i);
    }
  }

  /** One caller is throttled until the breaker is one hit short. */
  lemma OneShort(coldAfter: nat, w: nat, k: Key) returns (states: seq<State>, actions: seq<Action>, s: State)
    requires coldAfter > 0 && w > 0
    ensures IsRunTo(states, actions, coldAfter, w, s) && k !in s.h.dead && k !in s.h.cold
    ensures Hits(s.h, k) == coldAfter - 1 && On(s.callers[0], k)
    ensures forall c :: 1 <= c < w ==> s.callers[c].Idle?
  {
    s := Init(w);
    states, actions := [s], [];
    var keys := seq(coldAfter, _ => k);
    states, actions, s := Extend(states, actions, coldAfter, w, s, Start(0, keys));
    states, actions, s := Extend(states, actions, coldAfter, w, s, Check(0));
    for n := 0 to coldAfter - 1
      invariant IsRunTo(states, actions, coldAfter, w, s) && k !in s.h.dead && k !in s.h.cold
      invariant Hits(s.h, k) == n && s.callers[0] == InFlight(keys, n)
      invariant forall c :: 1 <= c < w ==> s.callers[c].Idle?
    {
      states, actions, s := Extend(states, actions, coldAfter, w, s, Fail(0, RateLimited));
      states, actions, s := Extend(states, actions, coldAfter, w, s, Check(0));
    }
  }

  /** Callers that checked before the trip may all still be throttled: the bound cannot be lowered. */
  lemma BoundIsAttained(coldAfter: nat, w: nat, k: Key)
    requires coldAfter > 0 && w > 0
    ensures exists states, actions, s :: IsRunTo(states, actions, coldAfter, w, s) && Hits(s.h, k) == coldAfter + w - 1
  {
    var states, actions, s := OneShort(coldAfter, w, k);
    for n := 1 to w
      invariant IsRunTo(states, actions, coldAfter, w, s) && k !in s.h.dead && k !in s.h.cold
      invariant Hits(s.h, k) == coldAfter - 1
      invariant forall c :: 0 <= c < n ==> On(s.callers[c], k)
      invariant forall c :: n <= c < w ==> s.callers[c].Idle?
    {
      states, actions, s := Extend(states, actions, coldAfter, w, s, Start(n, [k]));
      states, actions, s := Extend(states, actions, coldAfter, w, s, Check(n));
    }
    for n := 0 to w
      invariant IsRunTo(states, actions, coldAfter, w, s) && Hits(s.h, k) == coldAfter - 1 + n
      invariant forall c :: n <= c < w ==> On(s.callers[c], k)
    {
      states, actions, s := Extend(states, actions, coldAfter, w, s, Fail(n, RateLimited));
    }
  }
}
