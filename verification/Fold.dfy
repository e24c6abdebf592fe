/**
  Bounded prompt blocks (core/src/orchestrator/conduct.rs): folding lines into a byte budget by
  dropping the oldest, and the memory-gated renderers built on it.
 */
module Fold {
  import opened Wrappers
  import opened Utf8

  const NEWLINE: seq<Byte> := [10]

  /** The lines separated by newlines. */
  function Join(lines: seq<Text>): (r: Text) {
    if lines == [] then []
    else if |lines| == 1 then lines[0]
    else
      ConcatWellFormed(lines[0], NEWLINE);
      ConcatWellFormed(lines[0] + NEWLINE, Join(lines[1..]));
      lines[0] + NEWLINE + Join(lines[1..])
  }

  lemma {:induction false} JoinShrinks(lines: seq<Text>, j: nat, k: nat)
    requires j <= k < |lines|
    ensures |Join(lines[k..])| <= |Join(lines[j..])|
    decreases k - j
  {
    if j < k {
      assert lines[j..][1..] == lines[j + 1..];
      JoinShrinks(lines, j + 1, k);
    }
  }

  /** `marker`, a newline, and the longest run of most recent lines that fits in `budget`. */
  ghost predicate KeepsSuffix(lines: seq<Text>, budget: nat, marker: Text, r: Text, k: nat) {
    && 0 < k < |lines|
    && r == marker + NEWLINE + Join(lines[k..])
    && |Join(lines[k..])| <= budget
    && (forall j :: 0 <= j < k ==> Overruns(lines, j, budget))
  }

  predicate Overruns(lines: seq<Text>, j: nat, budget: nat)
    requires j <= |lines|
  {
    |Join(lines[j..])| > budget
  }

  /** Not even the last line fits: `marker`, a newline, and a bounded prefix of that line. */
  ghost predicate KeepsHead(lines: seq<Text>, budget: nat, marker: Text, r: Text) {
    && lines != [] && |lines[|lines| - 1]| > budget
    && exists head :: IsLongestPrefix(lines[|lines| - 1], budget, head) && r == marker + NEWLINE + head
  }

  /** What folding must produce, for every list of lines, cap and marker. */
  ghost predicate IsFolded(lines: seq<Text>, cap: nat, marker: Text, r: Text) {
    if |Join(lines)| <= cap then r == Join(lines) else IsShortened(lines, cap, marker, r)
  }

  ghost predicate IsShortened(lines: seq<Text>, cap: nat, marker: Text, r: Text) {
    if cap < |marker| + 1 then IsLongestPrefix(marker, cap, r) else IsElided(lines, cap - (|marker| + 1), marker, r)
  }

  ghost predicate IsElided(lines: seq<Text>, budget: nat, marker: Text, r: Text) {
    KeepsSome(lines, budget, marker, r) || KeepsHead(lines, budget, marker, r)
  }

  ghost predicate KeepsSome(lines: seq<Text>, budget: nat, marker: Text, r: Text) {
    exists k :: KeepsSuffix(lines, budget, marker, r, k)
  }

  lemma JoinExtends(lines: seq<Text>, i: nat)
    requires i < |lines|
    ensures |Join(lines[i..])| == |lines[i]| + (if i + 1 == |lines| then 0 else 1 + |Join(lines[i + 1..])|)
  {
    assert lines[i..][1..] == lines[i + 1..];
  }

  method FoldLines(lines: seq<Text>, cap: nat, marker: Text) returns (r: Text)
    ensures |r| <= cap
    ensures IsFolded(lines, cap, marker, r)
  {
    var full := Join(lines);
    if |full| <= cap {
      return full;
    }
    r := Shorten(lines, cap, marker);
  }

  /** The marker and the most recent lines that fit beside it, or a piece of the marker alone. */
  method Shorten(lines: seq<Text>, cap: nat, marker: Text) returns (r: Text)
    requires |Join(lines)| > cap
    ensures |r| <= cap && IsShortened(lines, cap, marker, r)
  {
    if cap < |marker| + 1 {
      r := TruncateHead(marker, cap);
    } else {
      r := Elide(lines, cap - (|marker| + 1), marker);
    }
  }

  method Elide(lines: seq<Text>, budget: nat, marker: Text) returns (r: Text)
    requires |Join(lines)| > budget
    ensures |r| <= |marker| + 1 + budget && IsElided(lines, budget, marker, r)
  {
    var kept, i := KeepLines(lines, budget);
    r := Assemble(lines, budget, marker, kept, i);
  }

  /** The longest run of most recent lines that fits. */
  method KeepLines(lines: seq<Text>, budget: nat) returns (kept: seq<Text>, i: nat)
    requires |Join(lines)| > budget
    ensures 0 < i <= |lines| && kept == lines[i..] && |Join(kept)| <= budget < |Join(lines[i - 1..])|
  {
    kept := [];
    var used := 0;
    i := |lines|;
    assert lines[|lines|..] == [] && lines[0..] == lines;
    while i > 0
      invariant 0 <= i <= |lines|
      invariant kept == lines[i..]
      invariant used == |Join(kept)| <= budget
    {
      var line := lines[i - 1];
      var add := |line| + if kept == [] then 0 else 1;
      JoinExtends(lines, i - 1);
      if used + add > budget {
        break;
      }
      used := used + add;
      kept := [line] + kept;
      i := i - 1;
      assert kept == lines[i..];
    }
  }

  /** The marker, then the kept lines, or a piece of the last one when not even it fits. */
  method Assemble(lines: seq<Text>, budget: nat, marker: Text, kept: seq<Text>, ghost i: nat) returns (r: Text)
    requires 0 < i <= |lines| && kept == lines[i..] && |Join(kept)| <= budget < |Join(lines[i - 1..])|
    ensures |r| <= |marker| + 1 + budget
    ensures IsElided(lines, budget, marker, r)
  {
    ConcatWellFormed(marker, NEWLINE);
    if kept == [] {
      var last := lines[|lines| - 1];
      assert lines[i - 1..] == [last];
      var head := TruncateHead(last, budget);
      ConcatWellFormed(marker + NEWLINE, head);
      r := marker + NEWLINE + head;
    } else {
      ConcatWellFormed(marker + NEWLINE, Join(kept));
      r := marker + NEWLINE + Join(kept);
      forall j | 0 <= j < i ensures Overruns(lines, j, budget) {
        JoinShrinks(lines, j, i - 1);
      }
      assert KeepsSuffix(lines, budget, marker, r, i);
    }
  }

  /** Folding leaves no freedom: the bound, the marker and the kept lines determine the block. */
  lemma FoldIsDetermined(lines: seq<Text>, cap: nat, marker: Text, a: Text, b: Text)
    requires IsFolded(lines, cap, marker, a) && IsFolded(lines, cap, marker, b)
    ensures a == b
  {
    if IsShortened(lines, cap, marker, a) && IsShortened(lines, cap, marker, b) {
      ShortenedAgree(lines, cap, marker, a, b);
    }
  }

  lemma ShortenedAgree(lines: seq<Text>, cap: nat, marker: Text, a: Text, b: Text)
    requires IsShortened(lines, cap, marker, a) && IsShortened(lines, cap, marker, b)
    ensures a == b
  {
    if cap < |marker| + 1 {
      LongestPrefixIsUnique(marker, cap, a, b);
    } else {
      ElidedAgree(lines, cap - (|marker| + 1), marker, a, b);
    }
  }

  lemma ElidedAgree(lines: seq<Text>, budget: nat, marker: Text, a: Text, b: Text)
    requires IsElided(lines, budget, marker, a) && IsElided(lines, budget, marker, b)
    ensures a == b
  {
    SuffixOrHead(lines, budget, marker, a);
    SuffixOrHead(lines, budget, marker, b);
    if KeepsHead(lines, budget, marker, a) {
      HeadsAgree(lines, budget, marker, a, b);
    } else {
      SuffixesAgree(lines, budget, marker, a, b);
    }
  }

  /** Some line is kept whole exactly when the last line fits. */
  lemma SuffixOrHead(lines: seq<Text>, budget: nat, marker: Text, r: Text)
    ensures KeepsSome(lines, budget, marker, r) ==> lines != [] && |lines[|lines| - 1]| <= budget
    ensures KeepsHead(lines, budget, marker, r) ==> lines != [] && |lines[|lines| - 1]| > budget
  {
    if KeepsSome(lines, budget, marker, r) {
      var k :| KeepsSuffix(lines, budget, marker, r, k);
      JoinShrinks(lines, k, |lines| - 1);
      assert lines[|lines| - 1..] == [lines[|lines| - 1]];
    }
  }

  lemma HeadsAgree(lines: seq<Text>, budget: nat, marker: Text, a: Text, b: Text)
    requires KeepsHead(lines, budget, marker, a) && KeepsHead(lines, budget, marker, b)
    ensures a == b
  {
    var last := lines[|lines| - 1];
    var x :| IsLongestPrefix(last, budget, x) && a == marker + NEWLINE + x;
    var y :| IsLongestPrefix(last, budget, y) && b == marker + NEWLINE + y;
    LongestPrefixIsUnique(last, budget, x, y);
  }

  lemma SuffixesAgree(lines: seq<Text>, budget: nat, marker: Text, a: Text, b: Text)
    requires KeepsSome(lines, budget, marker, a) && KeepsSome(lines, budget, marker, b)
    ensures a == b
  {
    var k: nat :| KeepsSuffix(lines, budget, marker, a, k);
    var l: nat :| KeepsSuffix(lines, budget, marker, b, l);
    assert !Overruns(lines, k, budget) && !Overruns(lines, l, budget);
    assert k == l;
  }

  /** The ledger, history and operator-note renderers: nothing when memory is off or nothing was recorded. */
  method MemBlock(on: bool, lines: seq<Text>, cap: nat, marker: Text) returns (r: Option<Text>)
    ensures r.Some? <==> on && lines != []
    ensures r.Some? ==> |r.value| <= cap && IsFolded(lines, cap, marker, r.value)
  {
    if !on || lines == [] {
      return None;
    }
    var block := FoldLines(lines, cap, marker);
    return Some(block);
  }

  /** The worker blackboard: the roster, then one line for the files this run modified. */
  method MemBlackboard(on: bool, roster: seq<Text>, files: seq<Text>, filesLine: Text, cap: nat, marker: Text)
    returns (r: Option<Text>)
    ensures r.Some? <==> on && (roster != [] || files != [])
    ensures r.Some? ==>
      |r.value| <= cap && IsFolded(roster + (if files == [] then [] else [filesLine]), cap, marker, r.value)
  {
    if !on || (roster == [] && files == []) {
      return None;
    }
    var lines := roster;
    if files != [] {
      lines := lines + [filesLine];
    }
    assert lines == roster + (if files == [] then [] else [filesLine]);
    var block := FoldLines(lines, cap, marker);
    return Some(block);
  }

  // ----- reading a block back -----

  /** The pieces between newlines. */
  function Split(b: seq<Byte>): (pieces: seq<seq<Byte>>)
    ensures pieces != []
  {
    if b == [] then [[]]
    else
      var rest := Split(b[1..]);
      if b[0] == 10 then [[]] + rest else [[b[0]] + rest[0]] + rest[1..]
  }

  predicate IsLine(b: seq<Byte>) {
    forall k :: 0 <= k < |b| ==> b[k] != 10
  }

  predicate AreLines(lines: seq<Text>) {
    forall k :: 0 <= k < |lines| ==> IsLine(lines[k])
  }

  lemma {:induction false} SplitLine(line: seq<Byte>, rest: seq<Byte>)
    requires IsLine(line)
    ensures Split(line) == [line] && Split(line + NEWLINE + rest) == [line] + Split(rest)
  {
    if line == [] {
      assert (line + NEWLINE + rest)[1..] == rest;
    } else {
      SplitLine(line[1..], rest);
      assert (line + NEWLINE + rest)[1..] == line[1..] + NEWLINE + rest;
      assert [line[0]] + line[1..] == line;
    }
  }

  /** Joined lines read back as they were, in order. */
  lemma {:induction false} JoinReadsBack(lines: seq<Text>)
    requires lines != [] && AreLines(lines)
    ensures Split(Join(lines)) == lines
  {
    if |lines| == 1 {
      SplitLine(lines[0], []);
    } else {
      JoinReadsBack(lines[1..]);
      SplitLine(lines[0], Join(lines[1..]));
      assert [lines[0]] + lines[1..] == lines;
    }
  }

  /** A folded block reads back as all lines, or as the marker followed by the most recent ones, or is cut short. */
  lemma FoldReadsBack(lines: seq<Text>, cap: nat, marker: Text, r: Text)
    requires lines != [] && AreLines(lines) && IsLine(marker) && IsFolded(lines, cap, marker, r)
    ensures |Join(lines)| <= cap ==> Split(r) == lines
    ensures |Join(lines)| > cap && |marker| + 1 + |lines[|lines| - 1]| <= cap ==>
              exists k :: 0 < k < |lines| && Split(r) == [marker] + lines[k..]
  {
    JoinReadsBack(lines);
    if |Join(lines)| > cap && |marker| + 1 + |lines[|lines| - 1]| <= cap {
      SuffixOrHead(lines, cap - (|marker| + 1), marker, r);
      var k: nat :| KeepsSuffix(lines, cap - (|marker| + 1), marker, r, k);
      JoinReadsBack(lines[k..]);
      SplitLine(marker, Join(lines[k..]));
      assert Split(r) == [marker] + lines[k..];
    }
  }
}
