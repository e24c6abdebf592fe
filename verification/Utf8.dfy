/**
  UTF-8 text and the three byte-budget truncators (changes.rs, verify.rs and conduct.rs under
  core/src/orchestrator). Well-formedness is the table of section 4 of RFC 3629.
 */
module Utf8 {
  type Byte = b: nat | b < 256

  predicate IsTail(b: Byte) {
    0x80 <= b <= 0xBF
  }

  predicate ThreeByteStart(a: Byte, b: Byte) {
    || (a == 0xE0 && 0xA0 <= b <= 0xBF)
    || (0xE1 <= a <= 0xEC && IsTail(b))
    || (a == 0xED && 0x80 <= b <= 0x9F)
    || (0xEE <= a <= 0xEF && IsTail(b))
  }

  predicate FourByteStart(a: Byte, b: Byte) {
    || (a == 0xF0 && 0x90 <= b <= 0xBF)
    || (0xF1 <= a <= 0xF3 && IsTail(b))
    || (a == 0xF4 && 0x80 <= b <= 0x8F)
  }

  /** Length of the encoded character at the front of `s`; 0 when there is none. */
  function CharLength(s: seq<Byte>): (n: nat)
    ensures n <= |s| && n <= 4
    ensures n > 0 ==> !IsTail(s[0]) && forall k :: 1 <= k < n ==> IsTail(s[k])
  {
    if |s| == 0 then 0
    else if s[0] <= 0x7F then 1
    else if |s| >= 2 && 0xC2 <= s[0] <= 0xDF && IsTail(s[1]) then 2
    else if |s| >= 3 && ThreeByteStart(s[0], s[1]) && IsTail(s[2]) then 3
    else if |s| >= 4 && FourByteStart(s[0], s[1]) && IsTail(s[2]) && IsTail(s[3]) then 4
    else 0
  }

  predicate WellFormed(s: seq<Byte>)
    decreases |s|
  {
    s == [] || (CharLength(s) > 0 && WellFormed(s[CharLength(s)..]))
  }

  type Text = s: seq<Byte> | WellFormed(s) witness []

  // ----- what well-formed text is made of -----

  /** A code point that is not a surrogate. */
  predicate Scalar(c: nat) {
    c < 0xD800 || 0xE000 <= c < 0x11_0000
  }

  function Encode(c: nat): seq<Byte>
    requires Scalar(c)
  {
    if c < 0x80 then [c]
    else if c < 0x800 then [0xC0 + c / 0x40, 0x80 + c % 0x40]
    else if c < 0x1_0000 then [0xE0 + c / 0x40 / 0x40, 0x80 + c / 0x40 % 0x40, 0x80 + c % 0x40]
    else [0xF0 + c / 0x40 / 0x40 / 0x40, 0x80 + c / 0x40 / 0x40 % 0x40, 0x80 + c / 0x40 % 0x40, 0x80 + c % 0x40]
  }

  predicate Scalars(cs: seq<nat>) {
    forall k :: 0 <= k < |cs| ==> Scalar(cs[k])
  }

  function EncodeAll(cs: seq<nat>): seq<Byte>
    requires Scalars(cs)
  {
    if cs == [] then [] else Encode(cs[0]) + EncodeAll(cs[1..])
  }

  lemma EncodedIsChar(c: nat, rest: seq<Byte>)
    requires Scalar(c)
    ensures CharLength(Encode(c) + rest) == |Encode(c)| > 0
  {
  }

  /** The bits of a tail byte behind those read so far. */
  function Shifted(high: nat, tail: Byte): (c: nat)
    requires IsTail(tail)
    ensures c / 0x40 == high && c % 0x40 == tail as int - 0x80
  {
    high * 0x40 + (tail as int - 0x80)
  }

  lemma TwoBytes(s: seq<Byte>) returns (c: nat)
    requires |s| == 2 && CharLength(s) == 2
    ensures Scalar(c) && Encode(c) == s
  {
    c := Shifted(s[0] as int - 0xC0, s[1]);
  }

  lemma ThreeBytes(s: seq<Byte>) returns (c: nat)
    requires |s| == 3 && CharLength(s) == 3
    ensures Scalar(c) && Encode(c) == s
  {
    c := Shifted(Shifted(s[0] as int - 0xE0, s[1]), s[2]);
  }

  lemma FourBytes(s: seq<Byte>) returns (c: nat)
    requires |s| == 4 && CharLength(s) == 4
    ensures Scalar(c) && Encode(c) == s
  {
    c := Shifted(Shifted(Shifted(s[0] as int - 0xF0, s[1]), s[2]), s[3]);
  }

  lemma CharIsEncoded(s: seq<Byte>) returns (c: nat)
    requires CharLength(s) > 0
    ensures Scalar(c) && Encode(c) == s[..CharLength(s)]
  {
    var n := CharLength(s);
    assert CharLength(s[..n]) == n;
    if n == 1 {
      c := s[0];
    } else if n == 2 {
      c := TwoBytes(s[..n]);
    } else if n == 3 {
      c := ThreeBytes(s[..n]);
    } else {
      c := FourBytes(s[..n]);
    }
  }

  lemma {:induction false} EncodedIsWellFormed(cs: seq<nat>)
    requires Scalars(cs)
    ensures WellFormed(EncodeAll(cs))
  {
    if cs != [] {
      EncodedIsChar(cs[0], EncodeAll(cs[1..]));
      EncodedIsWellFormed(cs[1..]);
      assert EncodeAll(cs)[|Encode(cs[0])|..] == EncodeAll(cs[1..]);
    }
  }

  lemma EncodeAllPush(c: nat, rest: seq<nat>)
    requires Scalar(c) && Scalars(rest)
    ensures Scalars([c] + rest) && EncodeAll([c] + rest) == Encode(c) + EncodeAll(rest)
  {
    assert ([c] + rest)[1..] == rest;
  }

  lemma {:induction false} WellFormedIsEncoded(s: seq<Byte>) returns (cs: seq<nat>)
    requires WellFormed(s)
    ensures Scalars(cs) && EncodeAll(cs) == s
    decreases |s|
  {
    if s == [] {
      cs := [];
    } else {
      var c := CharIsEncoded(s);
      var rest := WellFormedIsEncoded(s[CharLength(s)..]);
      EncodeAllPush(c, rest);
      cs := [c] + rest;
      assert s == s[..CharLength(s)] + s[CharLength(s)..];
    }
  }

  /** Text is well formed exactly when it is the encoding of some sequence of scalar values. */
  lemma WellFormedExactly(s: seq<Byte>)
    ensures WellFormed(s) <==> exists cs :: Scalars(cs) && EncodeAll(cs) == s
  {
    if WellFormed(s) {
      var cs := WellFormedIsEncoded(s);
    }
    if cs :| Scalars(cs) && EncodeAll(cs) == s {
      EncodedIsWellFormed(cs);
    }
  }

  /** Rust's `str::is_char_boundary`. */
  predicate IsCharBoundary(s: seq<Byte>, i: nat)
    requires i <= |s|
  {
    i == 0 || i == |s| || !IsTail(s[i])
  }

  /** The byte test decides well-formedness of both halves of a cut. */
  lemma {:induction false} BoundaryCut(s: seq<Byte>, i: nat)
    requires WellFormed(s) && i <= |s|
    ensures IsCharBoundary(s, i) <==> WellFormed(s[..i])
    ensures IsCharBoundary(s, i) <==> WellFormed(s[i..])
    decreases |s|
  {
    if i == 0 {
      assert s[i..] == s;
    } else {
      var n := CharLength(s);
      if i < n {
        assert CharLength(s[..i]) == 0;
        assert CharLength(s[i..]) == 0;
      } else {
        assert CharLength(s[..i]) == n;
        assert s[..i][n..] == s[n..][..i - n];
        assert s[i..] == s[n..][i - n..];
        BoundaryCut(s[n..], i - n);
        if i == n { assert i < |s| ==> CharLength(s[n..]) > 0; }
      }
    }
  }

  lemma {:induction false} ConcatWellFormed(a: seq<Byte>, b: seq<Byte>)
    requires WellFormed(a) && WellFormed(b)
    ensures WellFormed(a + b)
    decreases |a|
  {
    if a == [] {
      assert a + b == b;
    } else {
      var n := CharLength(a);
      assert CharLength(a + b) == n;
      assert (a + b)[n..] == a[n..] + b;
      ConcatWellFormed(a[n..], b);
    }
  }

  /** At most three bytes separate any cut from a boundary on either side. */
  lemma {:induction false} BoundaryNear(s: seq<Byte>, i: nat)
    requires WellFormed(s) && i <= |s|
    ensures exists j :: 0 <= j <= i && i - j <= 3 && IsCharBoundary(s, j)
    ensures exists j :: i <= j <= |s| && j - i <= 3 && IsCharBoundary(s, j)
    decreases |s|
  {
    if i == 0 || i == |s| {
      assert IsCharBoundary(s, i);
    } else {
      var n := CharLength(s);
      if i < n {
        assert IsCharBoundary(s, 0);
        assert n < |s| ==> CharLength(s[n..]) > 0;
        assert IsCharBoundary(s, n);
      } else {
        BoundaryNear(s[n..], i - n);
        var j :| 0 <= j <= i - n && i - n - j <= 3 && IsCharBoundary(s[n..], j);
        var k :| i - n <= k <= |s[n..]| && k - (i - n) <= 3 && IsCharBoundary(s[n..], k);
        assert j == 0 ==> CharLength(s[n..]) > 0;
        assert IsCharBoundary(s, j + n);
        assert k == 0 ==> CharLength(s[n..]) > 0;
        assert IsCharBoundary(s, k + n);
      }
    }
  }

  // ----- the truncators -----

  predicate HeadIsText(s: seq<Byte>, k: nat)
    requires k <= |s|
  {
    WellFormed(s[..k])
  }

  predicate TailIsText(s: seq<Byte>, i: nat)
    requires i <= |s|
  {
    WellFormed(s[i..])
  }

  /** `r` is the longest well-formed prefix of `s` that fits in `max` bytes. */
  ghost predicate IsLongestPrefix(s: seq<Byte>, max: nat, r: seq<Byte>) {
    && r <= s && |r| <= max && WellFormed(r)
    && (forall k :: |r| < k <= |s| && k <= max ==> !HeadIsText(s, k))
  }

  ghost predicate IsLongestSuffix(s: seq<Byte>, max: nat, r: seq<Byte>) {
    && |r| <= |s| && r == s[|s| - |r|..] && |r| <= max && WellFormed(r)
    && (forall i :: 0 <= i < |s| - |r| && |s| - i <= max ==> !TailIsText(s, i))
  }

  /** changes.rs: walks the cut back to a boundary. */
  method TruncateAtBoundary(s: Text, max: nat) returns (r: Text)
    ensures IsLongestPrefix(s, max, r)
    ensures |r| == |s| || (|s| > max && |r| + 3 >= max)
  {
    if |s| <= max {
      return s;
    }
    BoundaryNear(s, max);
    var end: nat := max;
    while !IsCharBoundary(s, end)
      invariant 0 <= end <= max
      invariant forall k :: end < k <= max ==> !IsCharBoundary(s, k)
      decreases end
    {
      end := end - 1;
    }
    PrefixIsLongest(s, max, end);
    return s[..end];
  }

  /** conduct.rs: the same walk with an explicit lower guard. */
  method TruncateHead(s: Text, max: nat) returns (r: Text)
    ensures IsLongestPrefix(s, max, r)
    ensures |r| == |s| || (|s| > max && |r| + 3 >= max)
  {
    if |s| <= max {
      return s;
    }
    BoundaryNear(s, max);
    var i: nat := max;
    while i > 0 && !IsCharBoundary(s, i)
      invariant 0 <= i <= max
      invariant forall k :: i < k <= max ==> !IsCharBoundary(s, k)
      decreases i
    {
      i := i - 1;
    }
    PrefixIsLongest(s, max, i);
    return s[..i];
  }

  /** verify.rs: keeps the tail, walking the cut forward. */
  method TruncateTail(s: Text, max: nat) returns (r: Text)
    ensures IsLongestSuffix(s, max, r)
    ensures |r| == |s| || (|s| > max && |r| + 3 >= max)
  {
    if |s| <= max {
      assert s[|s| - |s|..] == s;
      return s;
    }
    var start := |s| - max;
    BoundaryNear(s, start);
    var i: nat := start;
    while !IsCharBoundary(s, i)
      invariant start <= i <= |s|
      invariant forall k :: start <= k < i ==> !IsCharBoundary(s, k)
      decreases |s| - i
    {
      i := i + 1;
    }
    BoundaryCut(s, i);
    forall k | start <= k < i ensures !TailIsText(s, k) {
      assert !IsCharBoundary(s, k);
      BoundaryCut(s, k);
    }
    return s[i..];
  }

  lemma PrefixIsLongest(s: Text, max: nat, end: nat)
    requires end <= max <= |s| && IsCharBoundary(s, end)
    requires forall k :: end < k <= max ==> !IsCharBoundary(s, k)
    ensures IsLongestPrefix(s, max, s[..end])
  {
    BoundaryCut(s, end);
    forall k | end < k <= max ensures !HeadIsText(s, k) {
      assert !IsCharBoundary(s, k);
      BoundaryCut(s, k);
    }
  }

  /** The prefix a truncator must return is unique, so all callers agree on it. */
  lemma LongestPrefixIsUnique(s: seq<Byte>, max: nat, a: seq<Byte>, b: seq<Byte>)
    requires IsLongestPrefix(s, max, a) && IsLongestPrefix(s, max, b)
    ensures a == b
  {
    assert a == s[..|a|] && b == s[..|b|];
    assert HeadIsText(s, |a|) && HeadIsText(s, |b|);
  }

  lemma LongestSuffixIsUnique(s: seq<Byte>, max: nat, a: seq<Byte>, b: seq<Byte>)
    requires IsLongestSuffix(s, max, a) && IsLongestSuffix(s, max, b)
    ensures a == b
  {
    assert TailIsText(s, |s| - |a|) && TailIsText(s, |s| - |b|);
  }
}
