/**
  The budgeted diff a subtask is judged on (core/src/orchestrator/changes.rs). Git and the disk are
  oracles: the diff, the untracked paths and each file's text are inputs.
 */
module Changes {
  import opened Wrappers
  import opened Utf8

  const PER_FILE_CAP := 8 * 1024
  const TOTAL_BUDGET := 40 * 1024

  /** An ASCII literal as bytes; any other character would read as a question mark. */
  function Ascii(s: string): (r: Text)
    ensures |r| == |s|
  {
    var bytes: seq<Byte> := seq(|s|, i requires 0 <= i < |s| => if s[i] < 128 as char then s[i] as int else 63);
    SingleBytes(bytes);
    bytes
  }

  lemma AsciiExactly(s: string, i: nat)
    requires i < |s| && s[i] < 128 as char
    ensures Ascii(s)[i] == s[i] as int
  {
  }

  lemma {:induction false} SingleBytes(b: seq<Byte>)
    requires forall i :: 0 <= i < |b| ==> b[i] < 128
    ensures WellFormed(b)
  {
    if b != [] {
      SingleBytes(b[1..]);
    }
  }

  /** Rust's `String::push_str`. */
  function Push(a: Text, b: Text): (r: Text)
    ensures |r| == |a| + |b|
  {
    ConcatWellFormed(a, b);
    a + b
  }

  const TRUNCATED: Text := Ascii("\n[truncated]")
  const NO_CHANGES: Text := Ascii("(no changes)")

  function Total(parts: seq<Text>): (n: nat) {
    if parts == [] then 0 else Total(parts[..|parts| - 1]) + |parts[|parts| - 1]|
  }

  function Flat(parts: seq<Text>): (r: Text)
    ensures |r| == Total(parts)
  {
    if parts == [] then [] else Push(Flat(parts[..|parts| - 1]), parts[|parts| - 1])
  }

  function Header(path: Text): (r: Text) {
    Push(Push(Ascii("--- new file: "), path), Ascii(" ---\n"))
  }

  function Tail(content: Text): (r: Text) {
    if |content| > PER_FILE_CAP then TRUNCATED else []
  }

  function Entry(path: Text, content: Text, body: Text): (r: Text) {
    Push(Push(Header(path), body), Tail(content))
  }

  /** `e` is what one readable file contributes before the total budget is applied. */
  ghost predicate IsEntry(path: Text, content: Text, e: Text) {
    exists body :: IsLongestPrefix(content, PER_FILE_CAP, body) && e == Entry(path, content, body)
  }

  /** `entries` are the contributions of the readable, non-blank paths, in order. */
  ghost predicate AreEntries(paths: seq<Text>, read: Text -> Option<Text>, entries: seq<Text>)
    decreases |paths|
  {
    if paths == [] then entries == []
    else if paths[0] == [] || read(paths[0]).None? then AreEntries(paths[1..], read, entries)
    else
      && |entries| > 0 && IsEntry(paths[0], read(paths[0]).value, entries[0])
      && AreEntries(paths[1..], read, entries[1..])
  }

  /** Entries 0 up to `k` fit whole in the total budget. */
  ghost predicate FitsWhole(diff: Text, entries: seq<Text>, k: nat) {
    && k <= |entries|
    && (k > 0 ==> |diff| + Total(entries[..k - 1]) < TOTAL_BUDGET && |diff| + Total(entries[..k]) <= TOTAL_BUDGET)
  }

  /**
    The text is the diff followed by as many whole entries as fit; an entry that starts inside the
    budget but overruns it is cut to its longest prefix that fits, and marked.
   */
  ghost predicate IsCapture(diff: Text, entries: seq<Text>, r: Text) {
    exists k :: CaptureStopsAt(diff, entries, k, r)
  }

  ghost predicate CapturesPaths(diff: Text, paths: seq<Text>, read: Text -> Option<Text>, r: Text) {
    exists entries :: AreEntries(paths, read, entries) && IsCapture(diff, entries, r)
  }

  ghost predicate CaptureStopsAt(diff: Text, entries: seq<Text>, k: nat, r: Text) {
    && k <= |entries|
    && (forall j :: 0 <= j <= k ==> FitsWhole(diff, entries, j))
    && (if k == |entries| || |diff| + Total(entries[..k]) >= TOTAL_BUDGET then
          r == diff + Flat(entries[..k])
        else
          && |diff| + Total(entries[..k]) + |entries[k]| > TOTAL_BUDGET
          && EndsCut(diff + Flat(entries[..k]), entries[k], TOTAL_BUDGET - (|diff| + Total(entries[..k])), r))
  }

  ghost predicate EndsCut(start: seq<Byte>, entry: Text, room: nat, r: Text) {
    exists cut :: IsLongestPrefix(entry, room, cut) && r == start + cut + TRUNCATED
  }

  method RenderEntry(path: Text, content: Text) returns (e: Text)
    ensures IsEntry(path, content, e)
  {
    var body := TruncateAtBoundary(content, PER_FILE_CAP);
    e := Entry(path, content, body);
  }

  method CaptureChanges(diff: Option<Text>, untracked: Option<seq<Text>>, blank: Text -> bool,
                        read: Text -> Option<Text>)
    returns (r: Option<Text>)
    ensures r.Some? <==> diff.Some? && untracked.Some?
    ensures r.Some? ==>
      (var nothing := blank(diff.value) && forall p :: p in untracked.value ==> p == [];
       if nothing then r.value == NO_CHANGES
       else CapturesPaths(diff.value, untracked.value, read, r.value))
    ensures r.Some? ==> |r.value| <= Max(|diff.value|, TOTAL_BUDGET) + 12
  {
    if diff.None? || untracked.None? {
      return None;
    }
    var paths := untracked.value;
    if blank(diff.value) && forall p :: p in paths ==> p == [] {
      return Some(NO_CHANGES);
    }
    var text := AppendEntries(diff.value, paths, read);
    return Some(text);
  }

  function Max(a: nat, b: nat): nat {
    if a >= b then a else b
  }

  /** The loop has appended the first `n` entries whole. */
  ghost predicate CapturedSoFar(diff: Text, entries: seq<Text>, n: nat, total: nat, result: Text) {
    && n <= |entries|
    && (forall j :: 0 <= j <= n ==> FitsWhole(diff, entries, j))
    && total == |diff| + Total(entries[..n])
    && result == diff + Flat(entries[..n])
  }

  lemma AppendWhole(diff: Text, entries: seq<Text>, n: nat, total: nat, result: Text)
    requires CapturedSoFar(diff, entries, n, total, result) && n < |entries|
    requires total < TOTAL_BUDGET && total + |entries[n]| <= TOTAL_BUDGET
    ensures CapturedSoFar(diff, entries, n + 1, total + |entries[n]|, Push(result, entries[n]))
  {
    TakeOneMore(entries, n);
    assert FitsWhole(diff, entries, n + 1);
    assert result + entries[n] == diff + (Flat(entries[..n]) + entries[n]);
  }

  lemma TakeOneMore(entries: seq<Text>, n: nat)
    requires n < |entries|
    ensures Total(entries[..n + 1]) == Total(entries[..n]) + |entries[n]|
    ensures Flat(entries[..n + 1]) == Flat(entries[..n]) + entries[n]
  {
    assert entries[..n + 1][..n] == entries[..n];
  }

  lemma AppendCut(diff: Text, entries: seq<Text>, n: nat, total: nat, result: Text, cut: Text)
    requires CapturedSoFar(diff, entries, n, total, result) && n < |entries|
    requires total < TOTAL_BUDGET < total + |entries[n]|
    requires IsLongestPrefix(entries[n], TOTAL_BUDGET - total, cut)
    ensures IsCapture(diff, entries, Push(Push(result, cut), TRUNCATED))
  {
    assert EndsCut(result, entries[n], TOTAL_BUDGET - total, Push(Push(result, cut), TRUNCATED));
    assert CaptureStopsAt(diff, entries, n, Push(Push(result, cut), TRUNCATED));
  }

  ghost predicate Remaining(paths: seq<Text>, p: nat, read: Text -> Option<Text>, entries: seq<Text>, n: nat) {
    p <= |paths| && n <= |entries| && AreEntries(paths[p..], read, entries[n..])
  }

  lemma NextPath(paths: seq<Text>, p: nat, read: Text -> Option<Text>, entries: seq<Text>, n: nat)
    requires Remaining(paths, p, read, entries, n) && p < |paths|
    ensures paths[p] == [] || read(paths[p]).None? ==> Remaining(paths, p + 1, read, entries, n)
    ensures paths[p] != [] && read(paths[p]).Some? ==>
      n < |entries| && IsEntry(paths[p], read(paths[p]).value, entries[n]) &&
        Remaining(paths, p + 1, read, entries, n + 1)
  {
    assert paths[p..][1..] == paths[p + 1..];
    if n < |entries| {
      assert entries[n..][1..] == entries[n + 1..];
    }
  }

  lemma CaptureEnds(diff: Text, paths: seq<Text>, read: Text -> Option<Text>, entries: seq<Text>, n: nat, total: nat,
                    result: Text)
    requires AreEntries(paths, read, entries) && CapturedSoFar(diff, entries, n, total, result)
    requires n == |entries| || total >= TOTAL_BUDGET
    ensures CapturesPaths(diff, paths, read, result)
  {
    assert CaptureStopsAt(diff, entries, n, result);
  }

  /** Appends one file's entry, cut if it overruns the budget. */
  method AppendEntry(ghost diff: Text, path: Text, content: Text, ghost entries: seq<Text>, ghost n: nat, total: nat,
                     result: Text)
    returns (cut: bool, total': nat, result': Text)
    requires CapturedSoFar(diff, entries, n, total, result) && n < |entries| && IsEntry(path, content, entries[n])
    requires |result| == total < TOTAL_BUDGET
    ensures cut ==> IsCapture(diff, entries, result') && |result'| <= TOTAL_BUDGET + 12
    ensures !cut ==> CapturedSoFar(diff, entries, n + 1, total', result') && |result'| == total' <= TOTAL_BUDGET
  {
    var entry := RenderEntry(path, content);
    EntryIsDetermined(path, content, entry, entries[n]);
    var remaining := TOTAL_BUDGET - total;
    if |entry| > remaining {
      var piece := TruncateAtBoundary(entry, remaining);
      AppendCut(diff, entries, n, total, result, piece);
      return true, total, Push(Push(result, piece), TRUNCATED);
    }
    AppendWhole(diff, entries, n, total, result);
    return false, total + |entry|, Push(result, entry);
  }

  /** One round of the loop: `done` says that it returns. */
  method AppendPath(ghost diff: Text, paths: seq<Text>, p: nat, read: Text -> Option<Text>, ghost entries: seq<Text>,
                    ghost n: nat, total: nat, result: Text)
    returns (done: bool, ghost n': nat, total': nat, result': Text)
    requires p < |paths| && AreEntries(paths, read, entries) && Remaining(paths, p, read, entries, n)
    requires CapturedSoFar(diff, entries, n, total, result) && |result| == total <= Max(|diff|, TOTAL_BUDGET)
    ensures done ==> CapturesPaths(diff, paths, read, result') && |result'| <= Max(|diff|, TOTAL_BUDGET) + 12
    ensures !done ==>
      && CapturedSoFar(diff, entries, n', total', result') && Remaining(paths, p + 1, read, entries, n')
      && |result'| == total' <= Max(|diff|, TOTAL_BUDGET)
  {
    NextPath(paths, p, read, entries, n);
    done, n', total', result' := false, n, total, result;
    if paths[p] == [] {
      return;
    }
    if total >= TOTAL_BUDGET {
      CaptureEnds(diff, paths, read, entries, n, total, result);
      done := true;
      return;
    }
    var content := read(paths[p]);
    if content.None? {
      return;
    }
    done, total', result' := AppendEntry(diff, paths[p], content.value, entries, n, total, result);
    n' := n + 1;
  }

  method AppendEntries(diff: Text, paths: seq<Text>, read: Text -> Option<Text>) returns (result: Text)
    ensures CapturesPaths(diff, paths, read, result)
    ensures |result| <= Max(|diff|, TOTAL_BUDGET) + 12
  {
    result := diff;
    var total: nat := |result|;
    ghost var entries := AllEntries(paths, read);
    ghost var n := 0;
    assert entries[0..] == entries && entries[..0] == [] && paths[0..] == paths;
    for p := 0 to |paths|
      invariant CapturedSoFar(diff, entries, n, total, result)
      invariant Remaining(paths, p, read, entries, n)
      invariant |result| == total <= Max(|diff|, TOTAL_BUDGET)
    {
      var done;
      done, n, total, result := AppendPath(diff, paths, p, read, entries, n, total, result);
      if done {
        return;
      }
    }
    CaptureEnds(diff, paths, read, entries, n, total, result);
  }

  lemma EntryIsDetermined(path: Text, content: Text, a: Text, b: Text)
    requires IsEntry(path, content, a) && IsEntry(path, content, b)
    ensures a == b
  {
    var x :| IsLongestPrefix(content, PER_FILE_CAP, x) && a == Entry(path, content, x);
    var y :| IsLongestPrefix(content, PER_FILE_CAP, y) && b == Entry(path, content, y);
    LongestPrefixIsUnique(content, PER_FILE_CAP, x, y);
  }

  /** The contributions of all paths exist; the loop only ever looks at a prefix of them. */
  lemma AllEntries(paths: seq<Text>, read: Text -> Option<Text>) returns (entries: seq<Text>)
    ensures AreEntries(paths, read, entries)
  {
    if paths == [] {
      entries := [];
    } else {
      var rest := AllEntries(paths[1..], read);
      if paths[0] == [] || read(paths[0]).None? {
        entries := rest;
      } else {
        var e := RenderedEntry(paths[0], read(paths[0]).value);
        entries := [e] + rest;
        assert entries[1..] == rest;
      }
    }
  }

  lemma RenderedEntry(path: Text, content: Text) returns (e: Text)
    ensures IsEntry(path, content, e)
  {
    var body := LongestPrefixExists(content, PER_FILE_CAP);
    e := Entry(path, content, body);
  }

  lemma {:induction false} LongestPrefixExists(s: Text, max: nat) returns (r: Text)
    ensures IsLongestPrefix(s, max, r)
    decreases max
  {
    if |s| <= max {
      r := s;
    } else if WellFormed(s[..max]) {
      r := s[..max];
    } else {
      assert max > 0 by { assert s[..0] == []; }
      r := LongestPrefixExists(s, max - 1);
    }
  }

  lemma WholeIsLongest(content: Text, max: nat, body: seq<Byte>)
    requires IsLongestPrefix(content, max, body) && |content| <= max
    ensures body == content
  {
    assert content[..|content|] == content;
    assert HeadIsText(content, |content|);
  }

  /**
    What one readable file contributes: a header line with its path, then its whole text if that has at most 8192
    bytes, and otherwise the longest prefix that fits, marked.
   */
  lemma EntryExactly(path: Text, content: Text, e: Text) returns (body: seq<Byte>)
    requires IsEntry(path, content, e)
    ensures IsLongestPrefix(content, 8192, body) && (|content| <= 8192 ==> body == content)
    ensures e == Ascii("--- new file: ") + path + Ascii(" ---\n") + body
                 + if |content| > 8192 then Ascii("\n[truncated]") else []
  {
    var b: Text :| IsLongestPrefix(content, PER_FILE_CAP, b) && e == Entry(path, content, b);
    body := b;
    if |content| <= 8192 {
      WholeIsLongest(content, 8192, body);
    }
  }

  // ----- the rules leave one text -----

  lemma {:induction false} EntriesAgree(paths: seq<Text>, read: Text -> Option<Text>, a: seq<Text>, b: seq<Text>)
    requires AreEntries(paths, read, a) && AreEntries(paths, read, b)
    ensures a == b
    decreases |paths|
  {
    if paths != [] {
      if paths[0] == [] || read(paths[0]).None? {
        EntriesAgree(paths[1..], read, a, b);
      } else {
        EntryIsDetermined(paths[0], read(paths[0]).value, a[0], b[0]);
        EntriesAgree(paths[1..], read, a[1..], b[1..]);
        assert a == [a[0]] + a[1..] && b == [b[0]] + b[1..];
      }
    }
  }

  lemma FitsBefore(diff: Text, entries: seq<Text>, l: nat, r: Text, k: nat)
    requires CaptureStopsAt(diff, entries, l, r) && k < l
    ensures |diff| + Total(entries[..k]) < TOTAL_BUDGET && |diff| + Total(entries[..k + 1]) <= TOTAL_BUDGET
  {
    assert FitsWhole(diff, entries, k + 1);
  }

  lemma StopsOnce(diff: Text, entries: seq<Text>, k: nat, a: Text, l: nat, b: Text)
    requires CaptureStopsAt(diff, entries, k, a) && CaptureStopsAt(diff, entries, l, b)
    ensures k >= l
  {
    if k < l {
      TakeOneMore(entries, k);
      FitsBefore(diff, entries, l, b, k);
    }
  }

  lemma CutsAgree(start: seq<Byte>, entry: Text, room: nat, a: Text, b: Text)
    requires EndsCut(start, entry, room, a) && EndsCut(start, entry, room, b)
    ensures a == b
  {
    var x :| IsLongestPrefix(entry, room, x) && a == start + x + TRUNCATED;
    var y :| IsLongestPrefix(entry, room, y) && b == start + y + TRUNCATED;
    LongestPrefixIsUnique(entry, room, x, y);
  }

  lemma StoppedAgree(diff: Text, entries: seq<Text>, k: nat, a: Text, b: Text)
    requires CaptureStopsAt(diff, entries, k, a) && CaptureStopsAt(diff, entries, k, b)
    ensures a == b
  {
    if k < |entries| && |diff| + Total(entries[..k]) < TOTAL_BUDGET {
      CutsAgree(diff + Flat(entries[..k]), entries[k], TOTAL_BUDGET - (|diff| + Total(entries[..k])), a, b);
    }
  }

  lemma CapturesAgree(diff: Text, entries: seq<Text>, a: Text, b: Text)
    requires IsCapture(diff, entries, a) && IsCapture(diff, entries, b)
    ensures a == b
  {
    var k: nat :| CaptureStopsAt(diff, entries, k, a);
    var l: nat :| CaptureStopsAt(diff, entries, l, b);
    StopsOnce(diff, entries, k, a, l, b);
    StopsOnce(diff, entries, l, b, k, a);
    StoppedAgree(diff, entries, k, a, b);
  }

  /** The diff, the paths and the files' texts determine what is captured. */
  lemma CaptureIsDetermined(diff: Text, paths: seq<Text>, read: Text -> Option<Text>, a: Text, b: Text)
    requires CapturesPaths(diff, paths, read, a) && CapturesPaths(diff, paths, read, b)
    ensures a == b
  {
    var e :| AreEntries(paths, read, e) && IsCapture(diff, e, a);
    var f :| AreEntries(paths, read, f) && IsCapture(diff, f, b);
    EntriesAgree(paths, read, e, f);
    CapturesAgree(diff, e, a, b);
  }

  lemma {:induction false} TotalGrows(entries: seq<Text>, k: nat)
    requires k <= |entries|
    ensures Total(entries[..k]) <= Total(entries)
    decreases |entries|
  {
    if k == |entries| {
      assert entries[..k] == entries;
    } else {
      var front := entries[..|entries| - 1];
      TotalGrows(front, k);
      assert front[..k] == entries[..k];
    }
  }

  lemma NextFits(diff: Text, entries: seq<Text>, k: nat)
    requires k < |entries| && |diff| + Total(entries) < TOTAL_BUDGET
    ensures |diff| + Total(entries[..k]) < TOTAL_BUDGET
    ensures |diff| + Total(entries[..k]) + |entries[k]| <= TOTAL_BUDGET
  {
    TotalGrows(entries, k);
    TotalGrows(entries, k + 1);
    TakeOneMore(entries, k);
  }

  predicate PieceAt(r: seq<Byte>, at: nat, piece: seq<Byte>) {
    at + |piece| <= |r| && r[at..at + |piece|] == piece
  }

  /** Entry `k` sits in the text behind the entries before it. */
  ghost predicate SitsAt(r: seq<Byte>, start: nat, entries: seq<Text>, k: nat)
    requires k < |entries|
  {
    PieceAt(r, start + Total(entries[..k]), entries[k])
  }

  lemma PieceStays(r: seq<Byte>, more: seq<Byte>, at: nat, piece: seq<Byte>)
    requires PieceAt(r, at, piece)
    ensures PieceAt(r + more, at, piece)
  {
    assert (r + more)[at..at + |piece|] == r[at..at + |piece|];
  }

  lemma LastPiece(a: seq<Byte>, b: seq<Byte>)
    ensures PieceAt(a + b, |a|, b)
  {
    assert (a + b)[|a|..|a| + |b|] == b;
  }

  lemma FlatLast(start: seq<Byte>, entries: seq<Text>, n: nat)
    requires |entries| == n + 1
    ensures start + Flat(entries) == start + Flat(entries[..n]) + entries[n]
    ensures |start + Flat(entries[..n])| == |start| + Total(entries[..n])
  {
  }

  /** The piece at the end, or one that was there before. */
  lemma SitsAtLast(r: seq<Byte>, start: nat, entries: seq<Text>, n: nat, k: nat)
    requires |entries| == n + 1 && k <= n && |r| == start + Total(entries[..n])
    requires k < n ==> SitsAt(r, start, entries[..n], k)
    ensures SitsAt(r + entries[n], start, entries, k)
  {
    if k == n {
      LastPiece(r, entries[n]);
    } else {
      assert entries[..n][..k] == entries[..k];
      PieceStays(r, entries[n], start + Total(entries[..k]), entries[k]);
    }
  }

  lemma {:induction false} FlatSitsAt(start: seq<Byte>, entries: seq<Text>, k: nat)
    requires k < |entries|
    ensures SitsAt(start + Flat(entries), |start|, entries, k)
    decreases |entries|
  {
    var n := |entries| - 1;
    if k < n {
      FlatSitsAt(start, entries[..n], k);
    }
    FlatLast(start, entries, n);
    SitsAtLast(start + Flat(entries[..n]), |start|, entries, n, k);
  }

  lemma AllIsCaptured(diff: Text, entries: seq<Text>, r: Text)
    requires IsCapture(diff, entries, r) && |diff| + Total(entries) < TOTAL_BUDGET
    ensures r == diff + Flat(entries)
  {
    var k: nat :| CaptureStopsAt(diff, entries, k, r);
    if k < |entries| {
      NextFits(diff, entries, k);
    }
    assert entries[..|entries|] == entries;
  }

  /** When everything together has less than 40960 bytes, nothing is left out: the diff, then every file in order. */
  lemma CaptureKeepsAll(diff: Text, paths: seq<Text>, read: Text -> Option<Text>, entries: seq<Text>, r: Text)
    requires AreEntries(paths, read, entries) && CapturesPaths(diff, paths, read, r)
    requires |diff| + Total(entries) < 40960
    ensures |r| == |diff| + Total(entries) && r[..|diff|] == diff
    ensures forall k :: 0 <= k < |entries| ==> SitsAt(r, |diff|, entries, k)
  {
    var e :| AreEntries(paths, read, e) && IsCapture(diff, e, r);
    EntriesAgree(paths, read, e, entries);
    AllIsCaptured(diff, entries, r);
    forall k | 0 <= k < |entries| ensures SitsAt(r, |diff|, entries, k) {
      FlatSitsAt(diff, entries, k);
    }
  }
}
