/** Strictly ascending sequences of positions. */
module Sequences {
  predicate Ascending(s: seq<int>) {
    forall a, b :: 0 <= a < b < |s| ==> s[a] < s[b]
  }

  lemma {:induction false} AscendingSameMembers(s: seq<int>, t: seq<int>)
    requires Ascending(s) && Ascending(t)
    requires forall x :: x in s ==> x in t
    requires forall x :: x in t ==> x in s
    ensures s == t
  {
    assert t != [] ==> t[0] in t;
    if s != [] {
      assert s[0] in s && s[0] in t;
      assert t[0] in s;
      forall x | x in s[1..] ensures x in t[1..] {
        assert x in t;
      }
      forall x | x in t[1..] ensures x in s[1..] {
        assert x in s;
      }
      AscendingSameMembers(s[1..], t[1..]);
    }
  }

  // ----- selections -----

  /** The values of the elements that are kept, in order. */
  function Filter<S, T>(xs: seq<S>, keeps: S -> bool, value: S -> T): seq<T> {
    if xs == [] then []
    else
      var front, last := Filter(xs[..|xs| - 1], keeps, value), xs[|xs| - 1];
      if keeps(last) then front + [value(last)] else front
  }

  /** Value `i` of `out` is that of the kept element at position `at[i]`. */
  predicate Chosen<S, T(==)>(xs: seq<S>, keeps: S -> bool, value: S -> T, out: seq<T>, at: seq<int>, i: int)
    requires 0 <= i < |at| == |out|
  {
    0 <= at[i] < |xs| && keeps(xs[at[i]]) && out[i] == value(xs[at[i]])
  }

  /** Position `k` is listed if its element is kept. */
  predicate Covered<S>(xs: seq<S>, keeps: S -> bool, at: seq<int>, k: int) {
    0 <= k < |xs| && keeps(xs[k]) ==> k in at
  }

  /** `out` lists the values of the elements at `at`, which are all those that are kept, in order. */
  ghost predicate PicksAt<S, T>(xs: seq<S>, keeps: S -> bool, value: S -> T, out: seq<T>, at: seq<int>) {
    && |at| == |out| && Ascending(at)
    && (forall i {:trigger Chosen(xs, keeps, value, out, at, i)} :: 0 <= i < |at| ==>
          Chosen(xs, keeps, value, out, at, i))
    && (forall k {:trigger Covered(xs, keeps, at, k)} :: Covered(xs, keeps, at, k))
  }

  lemma PicksStep<S, T>(xs: seq<S>, keeps: S -> bool, value: S -> T, out: seq<T>, at: seq<int>, x: S)
    returns (at': seq<int>)
    requires PicksAt(xs, keeps, value, out, at)
    ensures PicksAt(xs + [x], keeps, value, if keeps(x) then out + [value(x)] else out, at')
  {
    at' := if keeps(x) then at + [|xs|] else at;
    var out' := if keeps(x) then out + [value(x)] else out;
    forall i | 0 <= i < |at| ensures Chosen(xs + [x], keeps, value, out', at', i) && at[i] < |xs| {
      assert Chosen(xs, keeps, value, out, at, i);
    }
    forall k ensures Covered(xs + [x], keeps, at', k) {
      assert Covered(xs, keeps, at, k);
      assert keeps(x) ==> at'[|at|] == |xs|;
    }
  }

  /** Filtering lists the kept elements, each once and in order. */
  lemma {:induction false} FilterPicks<S, T>(xs: seq<S>, keeps: S -> bool, value: S -> T) returns (at: seq<int>)
    ensures PicksAt(xs, keeps, value, Filter(xs, keeps, value), at)
  {
    if xs == [] {
      at := [];
    } else {
      var n := |xs| - 1;
      at := FilterPicks(xs[..n], keeps, value);
      at := PicksStep(xs[..n], keeps, value, Filter(xs[..n], keeps, value), at, xs[n]);
      assert xs[..n] + [xs[n]] == xs;
    }
  }

  /** Which elements are kept leaves only one selection. */
  lemma PicksAgree<S, T>(xs: seq<S>, keeps: S -> bool, value: S -> T, a: seq<T>, s: seq<int>, b: seq<T>, t: seq<int>)
    requires PicksAt(xs, keeps, value, a, s) && PicksAt(xs, keeps, value, b, t)
    ensures a == b
  {
    forall x | x in s ensures x in t {
      var i :| 0 <= i < |s| && s[i] == x;
      assert Chosen(xs, keeps, value, a, s, i) && Covered(xs, keeps, t, x);
    }
    forall x | x in t ensures x in s {
      var i :| 0 <= i < |t| && t[i] == x;
      assert Chosen(xs, keeps, value, b, t, i) && Covered(xs, keeps, s, x);
    }
    AscendingSameMembers(s, t);
    forall i | 0 <= i < |a| ensures a[i] == b[i] {
      assert Chosen(xs, keeps, value, a, s, i) && Chosen(xs, keeps, value, b, t, i);
    }
  }

  lemma FilterPush<S, T>(xs: seq<S>, keeps: S -> bool, value: S -> T, x: S)
    ensures Filter(xs + [x], keeps, value) ==
      if keeps(x) then Filter(xs, keeps, value) + [value(x)] else Filter(xs, keeps, value)
  {
    assert (xs + [x])[..|xs|] == xs;
  }
}
