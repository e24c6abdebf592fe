/** Least-loaded routing (core/src/orchestrator/routing.rs) and the balance it maintains. */
module Routing {
  import opened Wrappers
  import opened Events
  import opened Quota

  const U64_MAX: u64 := 0xFFFF_FFFF_FFFF_FFFF

  function Load(log: seq<Row>, p: Provider, since: int): nat {
    Sum(log, p, since, Input)
  }

  /** `i` is the first of the least loaded. */
  ghost predicate IsPick(providers: seq<Provider>, log: seq<Row>, since: int, i: nat) {
    && i < |providers|
    && (forall j :: 0 <= j < |providers| ==> Load(log, providers[i], since) <= Load(log, providers[j], since))
    && (forall j :: 0 <= j < i ==> Load(log, providers[i], since) < Load(log, providers[j], since))
  }

  /** The store can answer for `p`: the query works and the sums fit. */
  predicate Answers(log: seq<Row>, since: int, p: Provider, answered: bool) {
    answered && Sum(log, p, since, Input) <= I64_MAX && Sum(log, p, since, Output) <= I64_MAX
  }

  method PickWorkerByProvider(providers: seq<Provider>, store: QuotaStore, since: int, answered: nat -> bool)
    returns (r: Result<nat, string>)
    ensures r.Success? <==>
      providers != [] && forall i: nat :: i < |providers| ==> Answers(store.log, since, providers[i], answered(i))
    ensures r.Success? ==> IsPick(providers, store.log, since, r.value)
    ensures r.Success? ==> forall j :: 0 <= j < |providers| ==>
              Sum(store.log, providers[r.value], since, Input) <= Sum(store.log, providers[j], since, Input)
  {
    if providers == [] {
      return Failure("no workers configured");
    }
    var best := 0;
    var bestLoad := U64_MAX;
    for i := 0 to |providers|
      invariant forall j: nat :: j < i ==> Answers(store.log, since, providers[j], answered(j))
      invariant i == 0 ==> best == 0 && bestLoad == U64_MAX
      invariant i > 0 ==> best < i && bestLoad == Load(store.log, providers[best], since) <= I64_MAX
      invariant i > 0 ==> forall j :: 0 <= j < i ==> bestLoad <= Load(store.log, providers[j], since)
      invariant i > 0 ==> forall j :: 0 <= j < best ==> bestLoad < Load(store.log, providers[j], since)
    {
      var t := store.TotalsSince(providers[i], since, answered(i));
      if t.Failure? {
        assert !Answers(store.log, since, providers[i], answered(i));
        return Failure(t.error);
      }
      if t.value.0 < bestLoad {
        bestLoad := t.value.0;
        best := i;
      }
    }
    return Success(best);
  }

  // ----- balance -----

  /** No listed provider is more than `c` input tokens ahead of another. */
  ghost predicate Balanced(providers: seq<Provider>, log: seq<Row>, since: int, c: nat) {
    forall i, j :: 0 <= i < |providers| && 0 <= j < |providers| ==>
      Load(log, providers[i], since) <= Load(log, providers[j], since) + c
  }

  /** One routed call: the window it routed by, its pick, and the rows it was charged. */
  datatype Call = Call(since: int, pick: nat, rows: seq<Row>)

  ghost predicate Charges(providers: seq<Provider>, log: seq<Row>, call: Call, c: nat) {
    && IsPick(providers, log, call.since, call.pick)
    && (forall r :: r in call.rows ==> r.provider == providers[call.pick])
    && Load(call.rows, providers[call.pick], call.since) <= c
  }

  function LogAfter(log: seq<Row>, calls: seq<Call>): seq<Row> {
    if calls == [] then log else LogAfter(log, calls[..|calls| - 1]) + calls[|calls| - 1].rows
  }

  /** Every call is charged to its pick, at most `c`, and no row leaves or enters the window. */
  ghost predicate Routed(providers: seq<Provider>, log: seq<Row>, calls: seq<Call>, since: int, c: nat) {
    && (forall k :: 0 <= k < |calls| ==> ChargesAt(providers, log, calls, k, c))
    && (forall k :: 0 <= k < |calls| ==> SameWindow(LogAfter(log, calls), calls[k].since, since))
  }

  ghost predicate ChargesAt(providers: seq<Provider>, log: seq<Row>, calls: seq<Call>, k: nat, c: nat)
    requires k < |calls|
  {
    Charges(providers, LogAfter(log, calls[..k]), calls[k], c)
  }

  /** The two windows count the same rows. */
  ghost predicate SameWindow(log: seq<Row>, since: int, later: int) {
    forall r :: r in log ==> (r.ts >= since <==> r.ts >= later)
  }

  lemma {:induction false} OthersUncharged(rows: seq<Row>, p: Provider, since: int)
    requires forall r :: r in rows ==> r.provider != p
    ensures Sum(rows, p, since, Input) == 0
  {
    if rows != [] {
      assert rows[|rows| - 1] in rows;
      OthersUncharged(rows[..|rows| - 1], p, since);
    }
  }

  lemma CallKeepsBalance(providers: seq<Provider>, log: seq<Row>, call: Call, c: nat)
    requires Balanced(providers, log, call.since, c) && Charges(providers, log, call, c)
    ensures Balanced(providers, log + call.rows, call.since, c)
  {
    forall i | 0 <= i < |providers|
      ensures Load(log + call.rows, providers[i], call.since) == Load(log, providers[i], call.since)
                + (if providers[i] == providers[call.pick] then
                     Load(call.rows, providers[call.pick], call.since)
                   else 0)
    {
      SumConcat(log, call.rows, providers[i], call.since, Input);
      if providers[i] != providers[call.pick] {
        OthersUncharged(call.rows, providers[i], call.since);
      }
    }
  }

  lemma BalancedInWindow(providers: seq<Provider>, log: seq<Row>, since: int, later: int, c: nat)
    requires SameWindow(log, since, later)
    requires Balanced(providers, log, since, c)
    ensures Balanced(providers, log, later, c)
  {
    forall i | 0 <= i < |providers| ensures Load(log, providers[i], since) == Load(log, providers[i], later) {
      SameRowsSameSum(log, providers[i], since, later, Input);
    }
  }

  lemma CallKeepsBalanceInWindow(providers: seq<Provider>, log: seq<Row>, call: Call, since: int, c: nat)
    requires Balanced(providers, log, since, c) && Charges(providers, log, call, c)
    requires SameWindow(log + call.rows, call.since, since)
    ensures Balanced(providers, log + call.rows, since, c)
  {
    BalancedInWindow(providers, log, since, call.since, c);
    CallKeepsBalance(providers, log, call, c);
    BalancedInWindow(providers, log + call.rows, call.since, since, c);
  }

  /** The calls before the last one were routed as well. */
  lemma RoutedFront(providers: seq<Provider>, log: seq<Row>, calls: seq<Call>, since: int, c: nat)
    requires Routed(providers, log, calls, since, c) && calls != []
    ensures Routed(providers, log, calls[..|calls| - 1], since, c)
  {
    var front := calls[..|calls| - 1];
    forall k | 0 <= k < |front| ensures ChargesAt(providers, log, front, k, c) {
      assert front[..k] == calls[..k];
      assert ChargesAt(providers, log, calls, k, c);
    }
    forall k | 0 <= k < |front| ensures SameWindow(LogAfter(log, front), front[k].since, since) {
      assert SameWindow(LogAfter(log, calls), calls[k].since, since);
    }
  }

  /** Routing keeps the providers within one call's cost of each other for ever, as long as nothing expires. */
  lemma {:induction false} BalancedForever(providers: seq<Provider>, log: seq<Row>, calls: seq<Call>, since: int,
                                           c: nat)
    requires Balanced(providers, log, since, c) && Routed(providers, log, calls, since, c)
    ensures Balanced(providers, LogAfter(log, calls), since, c)
    decreases |calls|
  {
    if calls != [] {
      var n := |calls| - 1;
      var front := calls[..n];
      RoutedFront(providers, log, calls, since, c);
      BalancedForever(providers, log, front, since, c);
      assert ChargesAt(providers, log, calls, n, c);
      assert SameWindow(LogAfter(log, calls), calls[n].since, since);
      CallKeepsBalanceInWindow(providers, LogAfter(log, front), calls[n], since, c);
    }
  }
}
