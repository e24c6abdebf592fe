/**
  The usage log (core/src/quota.rs): an append-only sequence of rows and sums over it. Whether the
  database accepts a write or answers a query is a parameter.
 */
module Quota {
  import opened Wrappers
  import opened Events
  import opened Sequences

  const I64_MAX: nat := 0x7FFF_FFFF_FFFF_FFFF

  datatype Row = Row(ts: int, provider: Provider, input: nat, output: nat, estimated: bool)

  /** The two figures of a row. */
  datatype Tokens = Input | Output

  function Amount(r: Row, t: Tokens): nat {
    if t.Input? then r.input else r.output
  }

  predicate Counts(r: Row, provider: Provider, since: int) {
    r.provider == provider && r.ts >= since
  }

  /** The combined figure, measured and estimated. */
  function Sum(log: seq<Row>, provider: Provider, since: int, t: Tokens): nat {
    if log == [] then 0
    else
      var last := log[|log| - 1];
      Sum(log[..|log| - 1], provider, since, t) + (if Counts(last, provider, since) then Amount(last, t) else 0)
  }

  function Flagged(log: seq<Row>, estimated: bool): seq<Row> {
    if log == [] then []
    else
      var front, last := log[..|log| - 1], log[|log| - 1];
      if last.estimated == estimated then Flagged(front, estimated) + [last] else Flagged(front, estimated)
  }

  lemma SumPush(log: seq<Row>, r: Row, provider: Provider, since: int, t: Tokens)
    ensures Sum(log + [r], provider, since, t) ==
      Sum(log, provider, since, t) + (if Counts(r, provider, since) then Amount(r, t) else 0)
  {
    assert (log + [r])[..|log|] == log;
  }

  lemma SumOne(r: Row, provider: Provider, since: int, t: Tokens)
    ensures Sum([r], provider, since, t) == if Counts(r, provider, since) then Amount(r, t) else 0
  {
  }

  lemma {:induction false} SumConcat(a: seq<Row>, b: seq<Row>, provider: Provider, since: int, t: Tokens)
    ensures Sum(a + b, provider, since, t) == Sum(a, provider, since, t) + Sum(b, provider, since, t)
    decreases |b|
  {
    if b == [] {
      assert a + b == a;
    } else {
      assert (a + b)[..|a + b| - 1] == a + b[..|b| - 1];
      SumConcat(a, b[..|b| - 1], provider, since, t);
    }
  }

  lemma FlaggedPush(front: seq<Row>, last: Row, estimated: bool)
    ensures Flagged(front + [last], estimated) ==
      if last.estimated == estimated then Flagged(front, estimated) + [last] else Flagged(front, estimated)
  {
    assert (front + [last])[..|front|] == front;
  }

  /** The rows of the log with that flag, in order. */
  lemma {:induction false} FlaggedExactly(log: seq<Row>, estimated: bool)
    ensures Flagged(log, estimated) == Filter(log, (r: Row) => r.estimated == estimated, r => r)
  {
    if log != [] {
      FlaggedExactly(log[..|log| - 1], estimated);
    }
  }

  /** Every counted token is either measured or estimated, and never both. */
  lemma {:induction false} MeasuredPlusEstimated(log: seq<Row>, provider: Provider, since: int, t: Tokens)
    ensures Sum(log, provider, since, t) ==
      Sum(Flagged(log, false), provider, since, t) + Sum(Flagged(log, true), provider, since, t)
  {
    if log != [] {
      var front, last := log[..|log| - 1], log[|log| - 1];
      MeasuredPlusEstimated(front, provider, since, t);
      SumPush(Flagged(front, last.estimated), last, provider, since, t);
      FlaggedPush(front, last, false);
      FlaggedPush(front, last, true);
      assert front + [last] == log;
    }
  }

  /** A later window counts at most as much. */
  lemma {:induction false} LaterWindowCountsLess(log: seq<Row>, provider: Provider, since: int, later: int, t: Tokens)
    requires since <= later
    ensures Sum(log, provider, later, t) <= Sum(log, provider, since, t)
  {
    if log != [] {
      LaterWindowCountsLess(log[..|log| - 1], provider, since, later, t);
    }
  }

  /** Nothing expires between two windows that count the same rows. */
  lemma {:induction false} SameRowsSameSum(log: seq<Row>, provider: Provider, since: int, later: int, t: Tokens)
    requires forall r :: r in log ==> (r.ts >= since <==> r.ts >= later)
    ensures Sum(log, provider, since, t) == Sum(log, provider, later, t)
  {
    if log != [] {
      assert log[|log| - 1] in log;
      SameRowsSameSum(log[..|log| - 1], provider, since, later, t);
    }
  }

  class QuotaStore {
    var log: seq<Row>

    constructor ()
      ensures log == []
    {
      log := [];
    }

    /** Appends one row, or reports why it did not. `accepted` is the database's answer. */
    method RecordAtFlagged(provider: Provider, input: nat, output: nat, ts: int, estimated: bool, accepted: bool)
      returns (r: Result<(), string>)
      modifies this
      ensures r.Success? <==> input <= I64_MAX && output <= I64_MAX && accepted
      ensures log == old(log) + (if r.Success? then [Row(ts, provider, input, output, estimated)] else [])
      ensures forall p, since {:trigger Sum(log, p, since, Input)} ::
                Sum(log, p, since, Input) ==
                Sum(old(log), p, since, Input) + (if r.Success? && p == provider && since <= ts then input else 0)
      ensures forall p, since {:trigger Sum(log, p, since, Output)} ::
                Sum(log, p, since, Output) ==
                Sum(old(log), p, since, Output) + (if r.Success? && p == provider && since <= ts then output else 0)
    {
      forall p, since, t: Tokens
        ensures Sum(log + [Row(ts, provider, input, output, estimated)], p, since, t) ==
                Sum(log, p, since, t) +
                if p == provider && since <= ts then (if t.Input? then input else output) else 0
      {
        SumPush(log, Row(ts, provider, input, output, estimated), p, since, t);
      }
      assert log + [] == log;
      if input > I64_MAX {
        return Failure("input_tokens overflows i64");
      }
      if output > I64_MAX {
        return Failure("output_tokens overflows i64");
      }
      if !accepted {
        return Failure("insert failed");
      }
      log := log + [Row(ts, provider, input, output, estimated)];
      return Success(());
    }

    /** The combined totals; sums beyond 63 bits are an error, never a wrapped figure. */
    method TotalsSince(provider: Provider, since: int, answered: bool) returns (r: Result<(u64, u64), string>)
      ensures r.Success? <==>
        answered && Sum(log, provider, since, Input) <= I64_MAX && Sum(log, provider, since, Output) <= I64_MAX
      ensures r.Success? ==> r.value == (Sum(log, provider, since, Input), Sum(log, provider, since, Output))
    {
      r := Query(log, provider, since, answered);
    }

    /** The part of the totals that was estimated. */
    method EstimatedTotalsSince(provider: Provider, since: int, answered: bool) returns (r: Result<(u64, u64), string>)
      ensures var rows := Flagged(log, true);
        && (r.Success? <==>
              answered && Sum(rows, provider, since, Input) <= I64_MAX && Sum(rows, provider, since, Output) <= I64_MAX)
        && (r.Success? ==> r.value == (Sum(rows, provider, since, Input), Sum(rows, provider, since, Output)))
    {
      r := Query(Flagged(log, true), provider, since, answered);
    }

    static method Query(rows: seq<Row>, provider: Provider, since: int, answered: bool)
      returns (r: Result<(u64, u64), string>)
      ensures r.Success? <==>
        answered && Sum(rows, provider, since, Input) <= I64_MAX && Sum(rows, provider, since, Output) <= I64_MAX
      ensures r.Success? ==> r.value == (Sum(rows, provider, since, Input), Sum(rows, provider, since, Output))
    {
      var input, output := Sum(rows, provider, since, Input), Sum(rows, provider, since, Output);
      if !answered {
        return Failure("query failed");
      }
      if input > I64_MAX || output > I64_MAX {
        return Failure("integer overflow");
      }
      return Success((input, output));
    }
  }
}
