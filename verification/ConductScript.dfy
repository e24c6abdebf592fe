/**
  Runs under a plain configuration whose attempts are all accepted except at chosen ticks: the concrete
  histories behind the counterexamples (core/src/orchestrator/conduct.rs).
 */
module ConductScript {
  import opened Wrappers
  import opened Topology
  import opened ConductModel
  import opened ConductHistory

  /** No supervisor, reviewer, arbiter or budget. */
  function PlainConfig(maxReplans: nat): Config {
    Config(false, false, false, maxReplans, None)
  }

  function Judged(d: EvalDecision): Answers {
    Answers(Success(0), Success(""), Success(""), [], Failure(""), Success(Some(Evaluation(d, Said("")))), Failure(""),
            Failure(""))
  }

  /** The attempt at tick `t` fails its evaluation, or is accepted. */
  ghost predicate Scripted(w: World, t: nat, fails: bool) {
    w.attempt(t) == Judged(if fails then Fail else Accept)
  }

  function StepFor(s: Subtask, completed: seq<nat>, t: nat, fails: bool): Step {
    if Unmet(s.dependsOn, completed) != [] then
      Step(Entry(s.id, s.title, Skipped, [], [], None),
           Some(UnmetDependencies(s.id, Unmet(s.dependsOn, completed))), t, 0, 0)
    else if fails then
      Step(Entry(s.id, s.title, FailedSubtask, [Attempt(0, 0, Fail, Said(""), 0, NotRun, NotReviewed)], [], None),
           Some(EvaluatedFail(s.id, Said(""))), t, 1, 0)
    else
      Step(Entry(s.id, s.title, Completed, [Attempt(0, 0, Accept, Said(""), 0, NotRun, NotReviewed)], [], None),
           None, t, 1, 0)
  }

  lemma JudgedMeans(n: nat, w: World, id: nat, d: EvalDecision)
    ensures Grounded(Judged(d)) == Evaluation(d, Said(""))
    ensures MeaningOf(PlainConfig(n), w, id, Judged(Accept), 0, []) == Complete(None)
    ensures MeaningOf(PlainConfig(n), w, id, Judged(Fail), 0, []) == FailWith(EvaluatedFail(id, Said("")), None)
  {
    assert Grounded(Judged(Accept)) == Evaluation(Accept, Said(""));
    assert Grounded(Judged(Fail)) == Evaluation(Fail, Said(""));
  }

  lemma StepForIsOk(n: nat, w: World, s: Subtask, completed: seq<nat>, t: nat, fails: bool)
    requires Scripted(w, t, fails)
    ensures StepOk(PlainConfig(n), w, s, completed, StepFor(s, completed, t, fails))
  {
    var cfg, st := PlainConfig(n), StepFor(s, completed, t, fails);
    var d := if fails then Fail else Accept;
    if Unmet(s.dependsOn, completed) == [] {
      JudgedMeans(n, w, s.id, d);
      assert MeaningAt(cfg, w, s.id, t, 0) == MeaningOf(cfg, w, s.id, Judged(d), 0, []);
      assert RecordsAttempt(cfg, w.attempt(t + 0), 0, st.entry.attempts[0]);
      assert NotesUpTo(cfg, w, t, 1) == NotesUpTo(cfg, w, t, 0) + NoteOf(cfg, w.attempt(t));
    }
  }

  /** Step `k` is the one the script makes of its subtask: it fails if it is attempted at tick `start` + `bad`. */
  ghost predicate PlayedAt(p: Pass, start: nat, bad: nat, k: nat)
    requires k < |p.steps| <= |OrderOf(p)|
  {
    var t := TickAt(p, k);
    && OrderOf(p)[k] < |p.plan| && start <= t <= start + k
    && p.steps[k] == StepFor(p.plan[OrderOf(p)[k]], CompletedAt(p, k), t, t == start + bad)
  }

  ghost predicate AllPlayed(p: Pass, start: nat, bad: nat)
    requires |p.steps| <= |OrderOf(p)|
  {
    forall k {:trigger PlayedAt(p, start, bad, k)} :: 0 <= k < |p.steps| ==> PlayedAt(p, start, bad, k)
  }

  ghost predicate Played(n: nat, w: World, p: Pass, start: nat, bad: nat) {
    StepsOk(PlainConfig(n), w, p) && p.tick == start && p.first == 0 && AllPlayed(p, start, bad)
  }

  ghost predicate ScriptedAt(w: World, start: nat, bad: nat, j: nat) {
    Scripted(w, start + j, j == bad)
  }

  lemma PlayedAppend(p: Pass, start: nat, bad: nat, st: Step)
    requires |p.steps| < |OrderOf(p)| && OrderOf(p)[|p.steps|] < |p.plan| && start <= TickAfter(p) <= start + |p.steps|
    requires AllPlayed(p, start, bad)
    requires st == StepFor(p.plan[OrderOf(p)[|p.steps|]], CompletedAfter(p), TickAfter(p), TickAfter(p) == start + bad)
    ensures AllPlayed(p.(steps := p.steps + [st]), start, bad)
  {
    var q := p.(steps := p.steps + [st]);
    forall k | 0 <= k < |q.steps| ensures PlayedAt(q, start, bad, k) {
      assert q.steps[..k] == p.steps[..k];
      if k < |p.steps| {
        assert PlayedAt(p, start, bad, k);
      } else {
        assert p.steps[..k] == p.steps;
      }
    }
  }

  lemma TickInRange(p: Pass, start: nat, bad: nat)
    requires |p.steps| <= |OrderOf(p)| && p.tick == start && AllPlayed(p, start, bad)
    ensures start <= TickAfter(p) <= start + |p.steps|
  {
    assert p.steps != [] ==> PlayedAt(p, start, bad, |p.steps| - 1);
  }

  lemma PlayOn(n: nat, w: World, p: Pass, start: nat, bad: nat) returns (q: Pass)
    requires Played(n, w, p, start, bad) && |p.steps| < |OrderOf(p)| && OrderOf(p)[|p.steps|] < |p.plan|
    requires forall j: nat :: j <= |p.steps| ==> ScriptedAt(w, start, bad, j)
    ensures q == p.(steps := q.steps) && |q.steps| == |p.steps| + 1 && Played(n, w, q, start, bad)
  {
    var k, t := |p.steps|, TickAfter(p);
    TickInRange(p, start, bad);
    var s := p.plan[OrderOf(p)[k]];
    var st := StepFor(s, CompletedAfter(p), t, t == start + bad);
    assert ScriptedAt(w, start, bad, t - start);
    StepForIsOk(n, w, s, CompletedAfter(p), t, t == start + bad);
    AppendStep(PlainConfig(n), w, p, st);
    PlayedAppend(p, start, bad, st);
    q := p.(steps := p.steps + [st]);
  }

  /** The first `k` dispatches of the pass that the script makes of a plan. */
  lemma {:induction false} Play(n: nat, w: World, plan: seq<Subtask>, before: seq<nat>, waves: seq<seq<nat>>,
                                start: nat, bad: nat, k: nat)
    returns (p: Pass)
    requires ValidPlan(plan, before) && IsLayering(plan, before, waves) && k <= |Flat(waves)|
    requires forall j: nat :: j < |Flat(waves)| ==> ScriptedAt(w, start, bad, j)
    ensures p == Pass(plan, before, waves, start, 0, p.steps, Ran, 0) && |p.steps| == k && Played(n, w, p, start, bad)
  {
    if k == 0 {
      p := Pass(plan, before, waves, start, 0, [], Ran, 0);
    } else {
      p := Play(n, w, plan, before, waves, start, bad, k - 1);
      LayeringIsOrder(plan, before, waves);
      p := PlayOn(n, w, p, start, bad);
    }
  }

  lemma PlayedIsOk(n: nat, w: World, p: Pass, start: nat, bad: nat)
    requires ValidPlan(p.plan, p.before) && IsLayering(p.plan, p.before, p.waves)
    requires Played(n, w, p, start, bad) && p.end.Ran? && p.read == 0 && |p.steps| == |OrderOf(p)|
    ensures PassOk(PlainConfig(n), w, p)
  {
    forall k | 0 <= k < |p.steps| ensures p.steps[k].entry.status != Halted {
      assert PlayedAt(p, start, bad, k);
    }
  }

  // ----- a pass that completes given ids, and fails -----

  /** Independent subtasks for the ids, and one more. */
  function ChunkPlan(chunk: seq<nat>, extra: nat): (plan: seq<Subtask>)
    ensures |plan| == |chunk| + 1
    ensures forall i :: 0 <= i < |plan| ==> plan[i] == Subtask(if i < |chunk| then chunk[i] else extra, "", "", [])
  {
    seq(|chunk| + 1, i requires 0 <= i < |chunk| + 1 => Subtask(if i < |chunk| then chunk[i] else extra, "", "", []))
  }

  function Line(n: nat): (s: seq<nat>)
    ensures |s| == n && forall i :: 0 <= i < n ==> s[i] == i
  {
    seq(n, i => i)
  }

  predicate Distinct(ids: seq<nat>) {
    forall i, j :: 0 <= i < j < |ids| ==> ids[i] != ids[j]
  }

  lemma ChunkIsLayered(chunk: seq<nat>, extra: nat, before: seq<nat>)
    requires Distinct(chunk) && extra !in chunk
    ensures var plan, waves := ChunkPlan(chunk, extra), [Line(|chunk| + 1)];
      ValidPlan(plan, before) && IsLayering(plan, before, waves) && Flat(waves) == Line(|chunk| + 1)
  {
    var plan := ChunkPlan(chunk, extra);
    var line := Line(|plan|);
    var waves := [line];
    var level: seq<nat> := seq(|plan|, _ => 0);
    assert forall i, j :: !Needs(plan, before, i, j);
    assert IsLevel(plan, before, level);
    forall i | 0 <= i < |level| ensures i in waves[level[i]] {
      assert line[i] == i;
    }
    assert WavesOf(level, waves);
    LevelsImplyAcyclic(plan, before, level);
    assert waves[..0] == [];
  }

  lemma CompletedNext(p: Pass, k: nat)
    requires k < |p.steps|
    ensures var e := p.steps[k].entry;
      CompletedAt(p, k + 1) == Added(CompletedAt(p, k), e.status == Completed, e.id)
  {
    var es := Entries(p.steps[..k + 1]);
    assert p.steps[..k + 1][..k] == p.steps[..k];
    assert es[..k] == Entries(p.steps[..k]) && es[k] == p.steps[k].entry;
  }

  lemma CompletedNone(p: Pass)
    ensures CompletedAt(p, 0) == p.before
  {
    assert p.steps[..0] == [];
  }

  /** Each subtask of such a plan is attempted; the extra one fails and the others are completed. */
  lemma ChunkStep(chunk: seq<nat>, extra: nat, p: Pass, start: nat, k: nat)
    requires p.plan == ChunkPlan(chunk, extra) && OrderOf(p) == Line(|chunk| + 1) && k < |p.steps| <= |chunk| + 1
    requires PlayedAt(p, start, |chunk|, k) && TickAt(p, k) == start + k
    ensures p.steps[k].reason.Some? <==> k == |chunk|
    ensures p.steps[k].entry.status == (if k == |chunk| then FailedSubtask else Completed)
    ensures p.steps[k].entry.id == (if k == |chunk| then extra else chunk[k])
    ensures TickAt(p, k + 1) == start + k + 1
  {
    assert p.plan[k].dependsOn == [];
  }

  lemma ChunkCompletesNext(chunk: seq<nat>, extra: nat, p: Pass, start: nat, k: nat)
    requires p.plan == ChunkPlan(chunk, extra) && OrderOf(p) == Line(|chunk| + 1) && |p.steps| == |chunk| + 1
    requires k < |chunk| && PlayedAt(p, start, |chunk|, k) && TickAt(p, k) == start + k
    requires CompletedAt(p, k) == p.before + chunk[..k]
    ensures CompletedAt(p, k + 1) == p.before + chunk[..k + 1] && TickAt(p, k + 1) == start + k + 1
  {
    ChunkStep(chunk, extra, p, start, k);
    CompletedNext(p, k);
    assert p.before + chunk[..k + 1] == (p.before + chunk[..k]) + [chunk[k]];
  }

  /** In a scripted pass over such a plan, the ids are completed in order. */
  lemma {:induction false} ChunkCompletes(chunk: seq<nat>, extra: nat, p: Pass, start: nat, k: nat)
    requires p.plan == ChunkPlan(chunk, extra) && OrderOf(p) == Line(|chunk| + 1) && |p.steps| == |chunk| + 1
    requires p.tick == start && AllPlayed(p, start, |chunk|) && k <= |chunk|
    ensures CompletedAt(p, k) == p.before + chunk[..k] && TickAt(p, k) == start + k
  {
    if k == 0 {
      CompletedNone(p);
      assert chunk[..0] == [];
    } else {
      ChunkCompletes(chunk, extra, p, start, k - 1);
      assert PlayedAt(p, start, |chunk|, k - 1);
      ChunkCompletesNext(chunk, extra, p, start, k - 1);
    }
  }

  /** Such a pass completes the chunk and leaves a failure. */
  lemma ChunkEnds(chunk: seq<nat>, extra: nat, p: Pass, start: nat)
    requires p.plan == ChunkPlan(chunk, extra) && OrderOf(p) == Line(|chunk| + 1) && |p.steps| == |chunk| + 1
    requires p.tick == start && AllPlayed(p, start, |chunk|)
    ensures FirstReason(p.steps).Some? && CompletedAfter(p) == p.before + chunk && TickAfter(p) == start + |chunk| + 1
  {
    ChunkCompletes(chunk, extra, p, start, |chunk|);
    assert PlayedAt(p, start, |chunk|, |chunk|);
    ChunkStep(chunk, extra, p, start, |chunk|);
    CompletedNext(p, |chunk|);
    FirstReasonIsFirst(p.steps);
    assert chunk[..|chunk|] == chunk;
  }

  /** One scripted pass over a chunk: it ran out, completed the chunk and left a failure. */
  lemma ChunkPass(n: nat, w: World, chunk: seq<nat>, extra: nat, before: seq<nat>, start: nat) returns (p: Pass)
    requires Distinct(chunk) && extra !in chunk
    requires forall j: nat :: j <= |chunk| ==> ScriptedAt(w, start, |chunk|, j)
    ensures PassOk(PlainConfig(n), w, p) && p.plan == ChunkPlan(chunk, extra) && p.before == before
    ensures p.end.Ran? && FirstReason(p.steps).Some? && CompletedAfter(p) == before + chunk
    ensures p.tick == start && TickAfter(p) == start + |chunk| + 1 && p.first == p.read == 0
  {
    var plan, waves := ChunkPlan(chunk, extra), [Line(|chunk| + 1)];
    ChunkIsLayered(chunk, extra, before);
    p := Play(n, w, plan, before, waves, start, |chunk|, |chunk| + 1);
    PlayedIsOk(n, w, p, start, |chunk|);
    ChunkEnds(chunk, extra, p, start);
  }

  // ----- a run that completes any ids before any plan -----

  ghost function Concat(chunks: seq<seq<nat>>): seq<nat> {
    if chunks == [] then [] else Concat(chunks[..|chunks| - 1]) + chunks[|chunks| - 1]
  }

  /** The tick at which pass `k` begins. */
  ghost function StartOf(chunks: seq<seq<nat>>, k: nat): nat
    requires k <= |chunks|
  {
    if k == 0 then 0 else StartOf(chunks, k - 1) + |chunks[k - 1]| + 1
  }

  lemma {:induction false} StartsGrow(chunks: seq<seq<nat>>, k: nat, l: nat)
    requires k < l <= |chunks|
    ensures StartOf(chunks, k) + |chunks[k]| < StartOf(chunks, l)
    decreases l
  {
    if k < l - 1 {
      StartsGrow(chunks, k, l - 1);
    }
  }

  /** The ticks that fail: the last of each chunk's pass, and position `bad` of the pass after them. */
  ghost predicate FailsAt(chunks: seq<seq<nat>>, bad: nat, t: nat) {
    || (exists k :: EndsChunk(chunks, k, t))
    || t == StartOf(chunks, |chunks|) + bad
  }

  ghost predicate EndsChunk(chunks: seq<seq<nat>>, k: int, t: nat) {
    0 <= k < |chunks| && t == StartOf(chunks, k) + |chunks[k]|
  }

  ghost function Answer(chunks: seq<seq<nat>>, extra: nat, plan: seq<Subtask>,
                        k: nat): Result<Option<seq<Subtask>>, string>
  {
    Success(Some(if k < |chunks| then ChunkPlan(chunks[k], extra) else plan))
  }

  /** Plans for the chunks in turn, then `plan`. */
  ghost function Script(chunks: seq<seq<nat>>, extra: nat, plan: seq<Subtask>, bad: nat): World {
    World(Answer(chunks, extra, plan, 0), (t: nat) => Judged(if FailsAt(chunks, bad, t) then Fail else Accept),
          (k: nat) => Answer(chunks, extra, plan, k), (k: nat) => 0, (diff, summary) => 0)
  }

  lemma ChunkScripted(chunks: seq<seq<nat>>, extra: nat, plan: seq<Subtask>, bad: nat, k: nat)
    requires k < |chunks|
    ensures forall j: nat :: j <= |chunks[k]| ==>
      ScriptedAt(Script(chunks, extra, plan, bad), StartOf(chunks, k), |chunks[k]|, j)
  {
    forall j: nat | j <= |chunks[k]|
      ensures ScriptedAt(Script(chunks, extra, plan, bad), StartOf(chunks, k), |chunks[k]|, j)
    {
      var t := StartOf(chunks, k) + j;
      StartsGrow(chunks, k, |chunks|);
      if j == |chunks[k]| {
        assert EndsChunk(chunks, k, t);
      }
      forall l | 0 <= l < |chunks| && l != k ensures !EndsChunk(chunks, l, t) {
        if l < k { StartsGrow(chunks, l, k); } else { StartsGrow(chunks, k, l); }
      }
      assert FailsAt(chunks, bad, t) <==> j == |chunks[k]|;
    }
  }

  lemma LastScripted(chunks: seq<seq<nat>>, extra: nat, plan: seq<Subtask>, bad: nat)
    ensures forall j: nat :: ScriptedAt(Script(chunks, extra, plan, bad), StartOf(chunks, |chunks|), bad, j)
  {
    forall j: nat ensures ScriptedAt(Script(chunks, extra, plan, bad), StartOf(chunks, |chunks|), bad, j) {
      var t := StartOf(chunks, |chunks|) + j;
      forall l | 0 <= l < |chunks| ensures !EndsChunk(chunks, l, t) {
        StartsGrow(chunks, l, |chunks|);
      }
      assert FailsAt(chunks, bad, t) <==> j == bad;
    }
  }

  ghost predicate Usable(chunks: seq<seq<nat>>, extra: nat) {
    forall k :: 0 <= k < |chunks| ==> Distinct(chunks[k]) && extra !in chunks[k]
  }

  /** The passes so far are a run that completed the chunks so far and asks for another plan. */
  ghost predicate Reached(chunks: seq<seq<nat>>, extra: nat, plan: seq<Subtask>, bad: nat, passes: seq<Pass>) {
    var w, cfg, n := Script(chunks, extra, plan, bad), PlainConfig(|chunks|), |passes|;
    n <= |chunks| && (n > 0 ==>
      && RunOk(cfg, w, passes) && StartsAt(passes, 0, 0) && WantsReplan(cfg, w, passes[n - 1], n - 1)
      && CompletedAfter(passes[n - 1]) == Concat(chunks[..n])
      && TickAfter(passes[n - 1]) == StartOf(chunks, n) && passes[n - 1].read == 0)
  }

  /** The pass over chunk `k` in the scripted run. */
  lemma ChunkPassAt(chunks: seq<seq<nat>>, extra: nat, plan: seq<Subtask>, bad: nat, k: nat) returns (p: Pass)
    requires Usable(chunks, extra) && k < |chunks|
    ensures var w, cfg := Script(chunks, extra, plan, bad), PlainConfig(|chunks|);
      && PassOk(cfg, w, p) && WantsReplan(cfg, w, p, k) && p.plan == ChunkPlan(chunks[k], extra)
      && p.before == Concat(chunks[..k]) && CompletedAfter(p) == Concat(chunks[..k + 1])
      && p.tick == StartOf(chunks, k) && TickAfter(p) == StartOf(chunks, k + 1) && p.first == p.read == 0
  {
    ChunkScripted(chunks, extra, plan, bad, k);
    p := ChunkPass(|chunks|, Script(chunks, extra, plan, bad), chunks[k], extra, Concat(chunks[..k]),
      StartOf(chunks, k));
    assert chunks[..k + 1][..k] == chunks[..k];
  }

  /** The first `k` passes of the scripted run. */
  lemma {:induction false} ScriptedRun(chunks: seq<seq<nat>>, extra: nat, plan: seq<Subtask>, bad: nat, k: nat)
    returns (passes: seq<Pass>)
    requires Usable(chunks, extra) && k <= |chunks|
    ensures |passes| == k && Reached(chunks, extra, plan, bad, passes)
  {
    if k == 0 {
      passes := [];
    } else {
      passes := ScriptedRun(chunks, extra, plan, bad, k - 1);
      passes := OneChunkMore(chunks, extra, plan, bad, passes);
    }
  }

  lemma OneChunkMore(chunks: seq<seq<nat>>, extra: nat, plan: seq<Subtask>, bad: nat, passes: seq<Pass>)
    returns (passes': seq<Pass>)
    requires Usable(chunks, extra) && |passes| < |chunks| && Reached(chunks, extra, plan, bad, passes)
    ensures |passes'| == |passes| + 1 && Reached(chunks, extra, plan, bad, passes')
  {
    var p := ChunkPassAt(chunks, extra, plan, bad, |passes|);
    passes' := OnePassMore(chunks, extra, plan, bad, passes, p);
    assert passes'[|passes|] == p;
  }

  /** A pass over the scripted plan, from where the run stands, extends it. */
  lemma OnePassMore(chunks: seq<seq<nat>>, extra: nat, plan: seq<Subtask>, bad: nat, passes: seq<Pass>, p: Pass)
    returns (passes': seq<Pass>)
    requires Reached(chunks, extra, plan, bad, passes)
    requires PassOk(PlainConfig(|chunks|), Script(chunks, extra, plan, bad), p) &&
      p.before == Concat(chunks[..|passes|])
    requires p.plan != [] && Success(Some(p.plan)) == Answer(chunks, extra, plan, |passes|)
    requires p.tick == StartOf(chunks, |passes|) && p.first == 0
    ensures passes' == passes + [p] && StartsAt(passes', 0, 0)
    ensures RunOk(PlainConfig(|chunks|), Script(chunks, extra, plan, bad), passes')
  {
    passes' := passes + [p];
    if passes == [] {
      assert chunks[..0] == [];
    } else {
      AppendPass(PlainConfig(|chunks|), Script(chunks, extra, plan, bad), passes, p);
    }
  }
}
