/**
  What a skip means when a replanned plan reuses an id that an earlier plan already completed. The skip
  check of `run_conduct` reads `completed`, so an edge to a reused id counts as satisfied whatever
  becomes of the new subtask (core/src/orchestrator/conduct.rs).
 */
module ConductReuse {
  import opened Wrappers
  import opened Topology
  import opened ConductModel
  import opened ConductHistory
  import opened ConductLoop
  import opened ConductExact
  import opened ConductScript

  /** Subtask `i` depends in the plan, directly or through others, on one that failed in this pass. */
  ghost predicate DependsOnFailure(p: Pass, i: nat) {
    exists path: seq<nat> :: |path| >= 2 && path[0] == i && Walk(p.plan, [], path)
                         && HasStatus(p, path[|path| - 1], FailedSubtask)
  }

  /** Some subtask depends on a subtask of the same plan whose id is already completed. */
  ghost predicate DependsOnReusedId(plan: seq<Subtask>, before: seq<nat>) {
    exists i, j :: Needs(plan, [], i, j) && plan[j].id in before
  }

  ghost predicate SkipsMatch(cfg: Config, w: World, p: Pass) {
    PassOk(cfg, w, p) && p.end.Ran? ==>
      forall i: nat :: i < |p.plan| ==> (HasStatus(p, i, Skipped) <==> DependsOnFailure(p, i))
  }

  lemma SameEdges(plan: seq<Subtask>, before: seq<nat>, path: seq<nat>)
    requires !DependsOnReusedId(plan, before)
    ensures Walk(plan, before, path) <==> Walk(plan, [], path)
  {
    forall k | 0 <= k < |path| - 1 ensures StepAt(plan, before, path, k) <==> StepAt(plan, [], path, k) {
    }
    if Walk(plan, before, path) {
      forall k | 0 <= k < |path| - 1 ensures StepAt(plan, [], path, k) {
        assert StepAt(plan, before, path, k);
      }
    }
    if Walk(plan, [], path) {
      forall k | 0 <= k < |path| - 1 ensures StepAt(plan, before, path, k) {
        assert StepAt(plan, [], path, k);
      }
    }
  }

  /** Without such an edge, skipped means exactly: a transitive dependency in the plan failed. */
  lemma SkipsMatchWithoutReuse(cfg: Config, w: World, p: Pass)
    requires !DependsOnReusedId(p.plan, p.before)
    ensures SkipsMatch(cfg, w, p)
  {
    if PassOk(cfg, w, p) && p.end.Ran? {
      forall i: nat | i < |p.plan| ensures HasStatus(p, i, Skipped) <==> DependsOnFailure(p, i) {
        SkippedExactlyBehindFailure(cfg, w, p, i);
        if BehindFailure(p, i) {
          var path: seq<nat> :| |path| >= 2 && path[0] == i && Walk(p.plan, p.before, path)
                             && HasStatus(p, path[|path| - 1], FailedSubtask);
          SameEdges(p.plan, p.before, path);
        }
        if DependsOnFailure(p, i) {
          var path: seq<nat> :| |path| >= 2 && path[0] == i && Walk(p.plan, [], path)
                             && HasStatus(p, path[|path| - 1], FailedSubtask);
          SameEdges(p.plan, p.before, path);
        }
      }
    }
  }

  // ----- with such an edge, a run in which one subtask fails tells the two apart -----

  lemma DirectDependency(p: Pass, i: nat, j: nat)
    requires Needs(p.plan, [], i, j) && HasStatus(p, j, FailedSubtask)
    ensures DependsOnFailure(p, i)
  {
    var path: seq<nat> := [i, j];
    assert StepAt(p.plan, [], path, 0);
    assert Walk(p.plan, [], path);
  }

  /** What made the pass skip its `k`-th subtask: one it waited for had stopped. */
  lemma SkipHasCause(cfg: Config, w: World, p: Pass, k: nat) returns (l: nat)
    requires PassOk(cfg, w, p) && p.end.Ran? && IsOrder(p.plan, p.before, OrderOf(p))
    requires k < |p.steps| && p.steps[k].entry.status == Skipped
    ensures l < k && OrderOf(p)[l] < |p.plan| && p.plan[OrderOf(p)[l]].id !in p.before &&
      Stopped(p.steps[l].entry.status)
  {
    StepReasonAt(cfg, w, p, k);
    var i := OrderOf(p)[k];
    var u := Unmet(p.plan[i].dependsOn, CompletedAt(p, k));
    assert u[0] in u && HasId(p.plan, u[0]);
    var j :| 0 <= j < |p.plan| && p.plan[j].id == u[0];
    l := EveryoneDispatched(p, OrderOf(p), j);
    NeedIsMetByCompletion(cfg, w, p, i, k, j, l);
  }

  /** The first `k` subtasks were attempted, one tick each. */
  ghost predicate AttemptedUpTo(p: Pass, k: nat)
    requires k <= |p.steps|
  {
    TickAt(p, k) == p.tick + k && forall l :: 0 <= l < k ==> AttemptedInTurn(p, l)
  }

  ghost predicate AttemptedInTurn(p: Pass, l: nat)
    requires l < |p.steps|
  {
    p.steps[l].entry.status != Skipped && TickAt(p, l) == p.tick + l
  }

  lemma AttemptedNext(n: nat, w: World, p: Pass, start: nat, bad: nat, k: nat)
    requires PassOk(PlainConfig(n), w, p) && p.end.Ran? && IsOrder(p.plan, p.before, OrderOf(p))
    requires Played(n, w, p, start, bad) && k < |p.steps| && AttemptedUpTo(p, k)
    requires bad < |OrderOf(p)| && OrderOf(p)[bad] < |p.plan| && p.plan[OrderOf(p)[bad]].id in p.before
    ensures AttemptedUpTo(p, k + 1)
  {
    OnlyBadStops(p, start, bad, k);
    if p.steps[k].entry.status == Skipped {
      var l := SkipHasCause(PlainConfig(n), w, p, k);
    }
    StepAtIsOk(PlainConfig(n), w, p, k);
    OneMoreAttempted(p, start, bad, k);
  }

  lemma OneMoreAttempted(p: Pass, start: nat, bad: nat, k: nat)
    requires k < |p.steps| <= |OrderOf(p)| && PlayedAt(p, start, bad, k) && AttemptedUpTo(p, k)
    requires p.steps[k].entry.status != Skipped && p.steps[k].tick == TickAt(p, k)
    ensures AttemptedUpTo(p, k + 1)
  {
  }

  lemma OnlyBadStops(p: Pass, start: nat, bad: nat, k: nat)
    requires k <= |p.steps| <= |OrderOf(p)| && p.tick == start && AllPlayed(p, start, bad) && AttemptedUpTo(p, k)
    ensures forall l :: 0 <= l < k && Stopped(p.steps[l].entry.status) ==> l == bad
  {
    forall l | 0 <= l < k && Stopped(p.steps[l].entry.status) ensures l == bad {
      assert PlayedAt(p, start, bad, l) && AttemptedInTurn(p, l);
    }
  }

  /** Nothing is skipped in a scripted pass in which only a subtask with a reused id can fail. */
  lemma {:induction false} NobodySkipped(n: nat, w: World, p: Pass, start: nat, bad: nat, k: nat)
    requires PassOk(PlainConfig(n), w, p) && p.end.Ran? && IsOrder(p.plan, p.before, OrderOf(p))
    requires Played(n, w, p, start, bad) && k <= |p.steps|
    requires bad < |OrderOf(p)| && OrderOf(p)[bad] < |p.plan| && p.plan[OrderOf(p)[bad]].id in p.before
    ensures AttemptedUpTo(p, k)
  {
    if k > 0 {
      NobodySkipped(n, w, p, start, bad, k - 1);
      AttemptedNext(n, w, p, start, bad, k - 1);
    }
  }

  /** The pass over `plan` in which the subtask `j`, whose id is reused, fails; nothing is skipped. */
  lemma PassFailingAt(n: nat, w: World, plan: seq<Subtask>, before: seq<nat>, waves: seq<seq<nat>>, start: nat,
                      j: nat, bad: nat)
    returns (p: Pass)
    requires ValidPlan(plan, before) && IsLayering(plan, before, waves) && j < |plan| && plan[j].id in before
    requires bad < |Flat(waves)| && Flat(waves)[bad] == j
    requires forall k: nat :: ScriptedAt(w, start, bad, k)
    ensures p.plan == plan && p.before == before && p.end.Ran? && PassOk(PlainConfig(n), w, p)
    ensures p.tick == start && p.first == 0
    ensures HasStatus(p, j, FailedSubtask) && forall i: nat :: i < |plan| ==> !HasStatus(p, i, Skipped)
  {
    LayeringIsOrder(plan, before, waves);
    p := Play(n, w, plan, before, waves, start, bad, |Flat(waves)|);
    PlayedIsOk(n, w, p, start, bad);
    NobodySkipped(n, w, p, start, bad, |p.steps|);
    forall i: nat | i < |plan| ensures !HasStatus(p, i, Skipped) {
      forall k | DispatchedAt(p, i, k) ensures p.steps[k].entry.status != Skipped {
        assert AttemptedInTurn(p, k);
      }
    }
    assert DispatchedAt(p, j, bad) && PlayedAt(p, start, bad, bad) && AttemptedInTurn(p, bad);
  }

  lemma PositionOf(plan: seq<Subtask>, before: seq<nat>, waves: seq<seq<nat>>, j: nat) returns (bad: nat)
    requires ValidPlan(plan, before) && IsLayering(plan, before, waves) && j < |plan|
    ensures bad < |Flat(waves)| && Flat(waves)[bad] == j
  {
    LayeringIsOrder(plan, before, waves);
    var order := Flat(waves);
    if forall k :: 0 <= k < |order| ==> order[k] != j {
      DistinctBelow(order + [j], |plan|);
    }
    bad :| 0 <= bad < |order| && order[bad] == j;
  }

  /**
    The last pass of the run is one over `plan`, with `before` completed, whose skips do not follow the plan's
    edges.
   */
  ghost predicate BreaksSkips(cfg: Config, w: World, passes: seq<Pass>, plan: seq<Subtask>, before: seq<nat>)
    requires passes != []
  {
    var last := passes[|passes| - 1];
    last.plan == plan && last.before == before && !SkipsMatch(cfg, w, last)
  }

  /** The last pass of the run, in which the subtask dispatched at `bad` fails. */
  lemma LastPass(plan: seq<Subtask>, before: seq<nat>, waves: seq<seq<nat>>, chunks: seq<seq<nat>>, extra: nat, j: nat,
                 bad: nat)
    returns (p: Pass)
    requires ValidPlan(plan, before) && IsLayering(plan, before, waves) && j < |plan| && plan[j].id in before
    requires bad < |Flat(waves)| && Flat(waves)[bad] == j
    ensures p.plan == plan && p.before == before && p.end.Ran?
    ensures PassOk(PlainConfig(|chunks|), Script(chunks, extra, plan, bad), p)
    ensures p.tick == StartOf(chunks, |chunks|) && p.first == 0
    ensures HasStatus(p, j, FailedSubtask) && forall i: nat :: i < |plan| ==> !HasStatus(p, i, Skipped)
  {
    LastScripted(chunks, extra, plan, bad);
    p := PassFailingAt(|chunks|, Script(chunks, extra, plan, bad), plan, before, waves, StartOf(chunks, |chunks|), j,
      bad);
  }

  lemma AttemptedAnyway(cfg: Config, w: World, p: Pass, i: nat)
    requires PassOk(cfg, w, p) && p.end.Ran? && i < |p.plan|
    requires DependsOnFailure(p, i) && !HasStatus(p, i, Skipped)
    ensures !SkipsMatch(cfg, w, p)
  {
  }

  /** The run returns an outcome after these passes. */
  ghost predicate Finishes(cfg: Config, w: World, passes: seq<Pass>) {
    Monotone(w.clock) && exists o :: Returns(cfg, w, 0, 0, Success(o), passes)
  }

  lemma WholeRun(plan: seq<Subtask>, chunks: seq<seq<nat>>, extra: nat, bad: nat, p: Pass) returns (passes: seq<Pass>)
    requires Usable(chunks, extra) && p.plan == plan != [] && p.before == Concat(chunks)
    requires PassOk(PlainConfig(|chunks|), Script(chunks, extra, plan, bad), p)
    requires p.tick == StartOf(chunks, |chunks|) && p.first == 0
    ensures Finishes(PlainConfig(|chunks|), Script(chunks, extra, plan, bad), passes)
    ensures |passes| == |chunks| + 1 && passes[|chunks|] == p
  {
    var run := ScriptedRun(chunks, extra, plan, bad, |chunks|);
    assert chunks[..|chunks|] == chunks;
    passes := OnePassMore(chunks, extra, plan, bad, run, p);
    OutOfReplans(PlainConfig(|chunks|), Script(chunks, extra, plan, bad), passes);
  }

  /** With its replans spent, the run is over. */
  lemma OutOfReplans(cfg: Config, w: World, passes: seq<Pass>)
    requires RunOk(cfg, w, passes) && StartsAt(passes, 0, 0) && |passes| == cfg.maxReplans + 1 && Monotone(w.clock)
    ensures Finishes(cfg, w, passes)
  {
    var last := passes[|passes| - 1];
    var o := Outcome(CompletedAfter(last), IdsWith(Skipped, AllEntries(passes)), HaltNote(last.end), FailedAfter(last),
                     AllEntries(passes));
    assert Returns(cfg, w, 0, 0, Success(o), passes);
  }

  /** The run that completes the chunks one replan after another, and then attempts a subtask behind a failed one. */
  lemma RunOverChunks(plan: seq<Subtask>, before: seq<nat>, waves: seq<seq<nat>>, chunks: seq<seq<nat>>, extra: nat)
    returns (w: World, passes: seq<Pass>)
    requires ValidPlan(plan, before) && IsLayering(plan, before, waves) && DependsOnReusedId(plan, before)
    requires Usable(chunks, extra) && Concat(chunks) == before
    ensures Finishes(PlainConfig(|chunks|), w, passes) && |passes| == |chunks| + 1
    ensures BreaksSkips(PlainConfig(|chunks|), w, passes, plan, before)
  {
    var i, j :| Needs(plan, [], i, j) && plan[j].id in before;
    var bad := PositionOf(plan, before, waves, j);
    w := Script(chunks, extra, plan, bad);
    var p := LastPass(plan, before, waves, chunks, extra, j, bad);
    DirectDependency(p, i, j);
    AttemptedAnyway(PlainConfig(|chunks|), w, p, i);
    passes := WholeRun(plan, chunks, extra, bad, p);
  }

  function Singletons(ids: seq<nat>): (chunks: seq<seq<nat>>)
    ensures |chunks| == |ids| && forall k :: 0 <= k < |ids| ==> chunks[k] == [ids[k]]
  {
    seq(|ids|, k requires 0 <= k < |ids| => [ids[k]])
  }

  lemma {:induction false} SingletonsConcat(ids: seq<nat>)
    ensures Concat(Singletons(ids)) == ids
  {
    if ids != [] {
      var front := ids[..|ids| - 1];
      assert Singletons(ids)[..|ids| - 1] == Singletons(front);
      SingletonsConcat(front);
    }
  }

  lemma {:induction false} Unused(ids: seq<nat>) returns (id: nat)
    ensures forall x :: x in ids ==> x < id
  {
    if ids == [] {
      id := 0;
    } else {
      var last := ids[|ids| - 1];
      id := Unused(ids[..|ids| - 1]);
      id := if id <= last then last + 1 else id;
      assert ids == ids[..|ids| - 1] + [last];
    }
  }

  /**
    With an edge into a reused id, some run of the program reaches this plan with these ids completed and
    attempts a subtask although its dependency in the plan failed.
   */
  lemma ReuseBreaksSkips(plan: seq<Subtask>, before: seq<nat>, waves: seq<seq<nat>>)
    requires ValidPlan(plan, before) && IsLayering(plan, before, waves) && DependsOnReusedId(plan, before)
    ensures exists cfg, w, passes :: Finishes(cfg, w, passes) && BreaksSkips(cfg, w, passes, plan, before)
  {
    var extra := Unused(before);
    SingletonsConcat(before);
    forall k | 0 <= k < |before| ensures Distinct(Singletons(before)[k]) && extra !in Singletons(before)[k] {
      assert before[k] in before;
    }
    var w, passes := RunOverChunks(plan, before, waves, Singletons(before), extra);
  }

  /** One replan is enough when the completed ids are distinct, as one plan completes them. */
  lemma OneReplanBreaksSkips(plan: seq<Subtask>, before: seq<nat>, waves: seq<seq<nat>>)
    requires ValidPlan(plan, before) && IsLayering(plan, before, waves) && DependsOnReusedId(plan, before)
    requires Distinct(before)
    ensures exists cfg, w, passes ::
              Finishes(cfg, w, passes) && |passes| == 2 && BreaksSkips(cfg, w, passes, plan, before)
  {
    var extra := Unused(before);
    assert [before][..0] == [] && Concat([before]) == [] + before;
    var w, passes := RunOverChunks(plan, before, waves, [before], extra);
  }

  /** Some run makes the pass, whatever it returns. */
  ghost predicate PassOfRun(cfg: Config, w: World, p: Pass) {
    Monotone(w.clock) && exists r, passes :: Returns(cfg, w, 0, 0, r, passes) && p in passes
  }

  lemma LastPassIsOfRun(cfg: Config, w: World, passes: seq<Pass>)
    requires Finishes(cfg, w, passes) && passes != []
    ensures PassOfRun(cfg, w, passes[|passes| - 1])
  {
    var o :| Returns(cfg, w, 0, 0, Success(o), passes);
    assert Returns(cfg, w, 0, 0, Success(o), passes) && passes[|passes| - 1] in passes;
  }

  /** Over all passes of all runs, skips follow the plan's own edges exactly when no subtask depends on a reused id. */
  lemma SkipsMatchExactlyWithoutReuse(plan: seq<Subtask>, before: seq<nat>, waves: seq<seq<nat>>)
    requires ValidPlan(plan, before) && IsLayering(plan, before, waves)
    ensures (forall cfg, w, p: Pass ::
               PassOfRun(cfg, w, p) && p.plan == plan && p.before == before ==> SkipsMatch(cfg, w, p))
            <==> !DependsOnReusedId(plan, before)
  {
    if DependsOnReusedId(plan, before) {
      ReuseBreaksSkips(plan, before, waves);
      var cfg, w, passes :| Finishes(cfg, w, passes) && BreaksSkips(cfg, w, passes, plan, before);
      LastPassIsOfRun(cfg, w, passes);
    } else {
      forall cfg, w, p: Pass | PassOfRun(cfg, w, p) && p.plan == plan && p.before == before
        ensures SkipsMatch(cfg, w, p)
      {
        SkipsMatchWithoutReuse(cfg, w, p);
      }
    }
  }
}
