/**
  Dependency layering of a conduct plan (core/src/orchestrator/topology.rs).

  A plan is a sequence of subtasks; `completed` holds the ids shipped by earlier plans. An edge to a
  completed id is already satisfied, so only the remaining edges order the plan.
 */
module Topology {
  import opened Wrappers
  import opened Sequences

  datatype Subtask = Subtask(id: nat, title: string, prompt: string, dependsOn: seq<nat>)

  datatype PlanError =
    | DuplicateId(id: nat)
    | SelfEdge(id: nat)
    | UnknownDependency(id: nat, dep: nat)
    | Cycle

  // ----- what a valid plan is -----

  ghost predicate UniqueIds(plan: seq<Subtask>) {
    forall i, j :: 0 <= i < j < |plan| ==> plan[i].id != plan[j].id
  }

  ghost predicate HasId(plan: seq<Subtask>, id: nat) {
    exists i :: 0 <= i < |plan| && plan[i].id == id
  }

  ghost predicate NoSelfEdge(plan: seq<Subtask>) {
    forall i :: 0 <= i < |plan| ==> plan[i].id !in plan[i].dependsOn
  }

  ghost predicate KnownDependencies(plan: seq<Subtask>, completed: seq<nat>) {
    forall i, d :: 0 <= i < |plan| && d in plan[i].dependsOn ==> HasId(plan, d) || d in completed
  }

  /** Subtask `i` has an edge to subtask `j` that no earlier plan satisfied. */
  ghost predicate Needs(plan: seq<Subtask>, completed: seq<nat>, i: int, j: int) {
    && 0 <= i < |plan| && 0 <= j < |plan|
    && plan[j].id in plan[i].dependsOn
    && plan[j].id !in completed
  }

  /** A path along unsatisfied edges. */
  ghost predicate Walk(plan: seq<Subtask>, completed: seq<nat>, p: seq<nat>) {
    forall k :: 0 <= k < |p| - 1 ==> StepAt(plan, completed, p, k)
  }

  ghost predicate StepAt(plan: seq<Subtask>, completed: seq<nat>, p: seq<nat>, k: int)
    requires 0 <= k < |p| - 1
  {
    Needs(plan, completed, p[k], p[k + 1])
  }

  ghost predicate IsCycle(plan: seq<Subtask>, completed: seq<nat>, p: seq<nat>) {
    |p| >= 2 && p[0] == p[|p| - 1] && Walk(plan, completed, p)
  }

  ghost predicate Acyclic(plan: seq<Subtask>, completed: seq<nat>) {
    forall p :: !IsCycle(plan, completed, p)
  }

  ghost predicate ValidPlan(plan: seq<Subtask>, completed: seq<nat>) {
    && UniqueIds(plan)
    && NoSelfEdge(plan)
    && KnownDependencies(plan, completed)
    && Acyclic(plan, completed)
  }

  // ----- what the waves must be -----

  /** `level[i]` is 0 without unsatisfied edges, else one more than the largest level among them. */
  ghost predicate IsLevel(plan: seq<Subtask>, completed: seq<nat>, level: seq<nat>) {
    && |level| == |plan|
    && (forall i, j :: Needs(plan, completed, i, j) ==> level[j] < level[i])
    && (forall i {:trigger HasNeedAt(plan, completed, level, i, level[i] - 1)} ::
          0 <= i < |plan| && level[i] > 0 ==> HasNeedAt(plan, completed, level, i, level[i] - 1))
  }

  ghost predicate HasNeedAt(plan: seq<Subtask>, completed: seq<nat>, level: seq<nat>, i: int, l: int)
    requires |level| == |plan|
  {
    exists j :: Needs(plan, completed, i, j) && level[j] == l
  }

  /** Wave `w` lists, in slice order and without repetition, exactly the subtasks of level `w`. */
  ghost predicate WavesOf(level: seq<nat>, waves: seq<seq<nat>>) {
    && (forall i :: 0 <= i < |level| ==> level[i] < |waves| && i in waves[level[i]])
    && (forall w :: 0 <= w < |waves| ==> Ascending(waves[w]) && waves[w] != [])
    && (forall w, k :: 0 <= w < |waves| && 0 <= k < |waves[w]| ==>
          waves[w][k] < |level| && level[waves[w][k]] == w)
  }

  ghost predicate IsLayering(plan: seq<Subtask>, completed: seq<nat>, waves: seq<seq<nat>>) {
    exists level :: IsLevel(plan, completed, level) && WavesOf(level, waves)
  }

  // ----- levels rule out cycles, and a stuck layering exhibits one -----

  lemma {:induction false} WalkDescends(plan: seq<Subtask>, completed: seq<nat>, level: seq<nat>, p: seq<nat>)
    requires IsLevel(plan, completed, level)
    requires |p| >= 2 && Walk(plan, completed, p)
    ensures p[0] < |plan| && p[|p| - 1] < |plan| && level[p[|p| - 1]] < level[p[0]]
  {
    assert StepAt(plan, completed, p, 0);
    if |p| > 2 {
      assert Walk(plan, completed, p[1..]) by {
        forall k | 0 <= k < |p[1..]| - 1 ensures StepAt(plan, completed, p[1..], k) {
          assert StepAt(plan, completed, p, k + 1);
        }
      }
      WalkDescends(plan, completed, level, p[1..]);
    }
  }

  lemma LevelsImplyAcyclic(plan: seq<Subtask>, completed: seq<nat>, level: seq<nat>)
    requires IsLevel(plan, completed, level)
    ensures Acyclic(plan, completed)
  {
    forall p ensures !IsCycle(plan, completed, p) {
      if IsCycle(plan, completed, p) {
        WalkDescends(plan, completed, level, p);
      }
    }
  }

  lemma {:induction false} DistinctBelow(p: seq<nat>, n: nat)
    requires forall k :: 0 <= k < |p| ==> p[k] < n
    requires forall a, b :: 0 <= a < b < |p| ==> p[a] != p[b]
    ensures |p| <= n
    decreases n
  {
    if |p| > 0 {
      assert p[0] < n;
      if n - 1 in p {
        var k :| 0 <= k < |p| && p[k] == n - 1;
        DistinctBelow(p[..k] + p[k + 1..], n - 1);
      } else {
        DistinctBelow(p, n - 1);
      }
    }
  }

  ghost predicate Stuck(plan: seq<Subtask>, completed: seq<nat>, undone: set<nat>) {
    && undone != {}
    && (forall i :: i in undone ==> i < |plan|)
    && (forall i {:trigger NeedsOneOf(plan, completed, undone, i)} :: i in undone ==>
          NeedsOneOf(plan, completed, undone, i))
  }

  ghost predicate NeedsOneOf(plan: seq<Subtask>, completed: seq<nat>, undone: set<nat>, i: nat) {
    exists j :: j in undone && Needs(plan, completed, i, j)
  }

  lemma {:induction false} StuckWalk(plan: seq<Subtask>, completed: seq<nat>, undone: set<nat>, n: nat)
    returns (p: seq<nat>)
    requires Stuck(plan, completed, undone)
    ensures |p| == n + 1 && Walk(plan, completed, p)
    ensures forall k :: 0 <= k < |p| ==> p[k] in undone
  {
    if n == 0 {
      var i :| i in undone;
      p := [i];
    } else {
      var q := StuckWalk(plan, completed, undone, n - 1);
      assert NeedsOneOf(plan, completed, undone, q[n - 1]);
      var j :| j in undone && Needs(plan, completed, q[n - 1], j);
      p := q + [j];
      forall k | 0 <= k < |p| - 1 ensures StepAt(plan, completed, p, k) {
        if k < n - 1 {
          assert StepAt(plan, completed, q, k);
        }
      }
    }
  }

  lemma StuckIsCyclic(plan: seq<Subtask>, completed: seq<nat>, undone: set<nat>)
    requires Stuck(plan, completed, undone)
    ensures !Acyclic(plan, completed)
  {
    var p := StuckWalk(plan, completed, undone, |plan|);
    if forall a, b :: 0 <= a < b < |p| ==> p[a] != p[b] {
      forall k | 0 <= k < |p| ensures p[k] < |plan| {
        assert p[k] in undone;
      }
      DistinctBelow(p, |plan|);
    }
    var a, b :| 0 <= a < b < |p| && p[a] == p[b];
    var c := p[a..b + 1];
    forall k | 0 <= k < |c| - 1 ensures StepAt(plan, completed, c, k) {
      assert StepAt(plan, completed, p, a + k);
    }
    assert IsCycle(plan, completed, c);
  }

  // ----- the layering is unique -----

  lemma {:induction false} LevelAtLeast(plan: seq<Subtask>, completed: seq<nat>, l1: seq<nat>, l2: seq<nat>, i: nat)
    requires IsLevel(plan, completed, l1) && IsLevel(plan, completed, l2) && i < |plan|
    ensures l1[i] <= l2[i]
    decreases l1[i]
  {
    if l1[i] > 0 {
      assert HasNeedAt(plan, completed, l1, i, l1[i] - 1);
      var j :| Needs(plan, completed, i, j) && l1[j] == l1[i] - 1;
      LevelAtLeast(plan, completed, l1, l2, j);
    }
  }

  lemma WaveCountForced(level: seq<nat>, v: seq<seq<nat>>, w: seq<seq<nat>>)
    requires WavesOf(level, v) && WavesOf(level, w)
    ensures |w| <= |v|
  {
    if |w| > 0 {
      var last := w[|w| - 1];
      assert level[last[0]] == |w| - 1;
    }
  }

  /** The specification of the waves leaves no choice. */
  lemma LayeringIsUnique(plan: seq<Subtask>, completed: seq<nat>, v: seq<seq<nat>>, w: seq<seq<nat>>)
    requires IsLayering(plan, completed, v) && IsLayering(plan, completed, w)
    ensures v == w
  {
    var lv :| IsLevel(plan, completed, lv) && WavesOf(lv, v);
    var lw :| IsLevel(plan, completed, lw) && WavesOf(lw, w);
    forall i | 0 <= i < |plan| ensures lv[i] == lw[i] {
      LevelAtLeast(plan, completed, lv, lw, i);
      LevelAtLeast(plan, completed, lw, lv, i);
    }
    assert lv == lw;
    WaveCountForced(lv, v, w);
    WaveCountForced(lv, w, v);
    forall k | 0 <= k < |v| ensures k < |w| && v[k] == w[k] {
      AscendingSameMembers(v[k], w[k]);
    }
  }

  // ----- plan_waves -----

  /** Which error is reported, and the earliest offender it names. */
  ghost predicate ReportsEdge(plan: seq<Subtask>, completed: seq<nat>, e: PlanError, i: int, k: int) {
    && 0 <= i < |plan| && 0 <= k < |plan[i].dependsOn|
    && (var d := plan[i].dependsOn[k];
        if d == plan[i].id then e == SelfEdge(plan[i].id)
        else !HasId(plan, d) && d !in completed && e == UnknownDependency(plan[i].id, d))
    && (forall a, b :: 0 <= a < |plan| && 0 <= b < |plan[a].dependsOn| && (a < i || (a == i && b < k)) ==>
          EdgeOk(plan, completed, a, b))
  }

  ghost predicate EdgeOk(plan: seq<Subtask>, completed: seq<nat>, i: nat, k: nat)
    requires i < |plan| && k < |plan[i].dependsOn|
  {
    var d := plan[i].dependsOn[k];
    d != plan[i].id && (HasId(plan, d) || d in completed)
  }

  ghost predicate Reports(plan: seq<Subtask>, completed: seq<nat>, e: PlanError) {
    match e
    case DuplicateId(id) =>
      exists i, j :: 0 <= i < j < |plan| && plan[i].id == id == plan[j].id && UniqueIds(plan[..j])
    case Cycle =>
      UniqueIds(plan) && NoSelfEdge(plan) && KnownDependencies(plan, completed) && !Acyclic(plan, completed)
    case _ =>
      UniqueIds(plan) && exists i, k :: ReportsEdge(plan, completed, e, i, k)
  }

  lemma EdgeReportIsUnique(plan: seq<Subtask>, completed: seq<nat>, e: PlanError, i: int, k: int, f: PlanError, j: int,
                           l: int)
    requires ReportsEdge(plan, completed, e, i, k) && ReportsEdge(plan, completed, f, j, l)
    ensures i == j && k == l && e == f
  {
    assert !EdgeOk(plan, completed, i, k) && !EdgeOk(plan, completed, j, l);
  }

  lemma DistinctInPrefix(plan: seq<Subtask>, n: nat, a: nat, b: nat)
    requires a < b < n <= |plan| && UniqueIds(plan[..n])
    ensures plan[a].id != plan[b].id
  {
    assert plan[..n][a] == plan[a] && plan[..n][b] == plan[b];
  }

  lemma DuplicateIsUnique(plan: seq<Subtask>, i: nat, j: nat, k: nat, l: nat)
    requires i < j < |plan| && plan[i].id == plan[j].id && UniqueIds(plan[..j])
    requires k < l < |plan| && plan[k].id == plan[l].id && UniqueIds(plan[..l])
    ensures j == l
  {
    if j < l {
      DistinctInPrefix(plan, l, i, j);
    } else if l < j {
      DistinctInPrefix(plan, j, k, l);
    }
  }

  /** An unusable plan has one error to report. */
  lemma ReportIsUnique(plan: seq<Subtask>, completed: seq<nat>, e: PlanError, f: PlanError)
    requires Reports(plan, completed, e) && Reports(plan, completed, f)
    ensures e == f
  {
    if e.DuplicateId? && f.DuplicateId? {
      var i, j :| 0 <= i < j < |plan| && plan[i].id == e.id == plan[j].id && UniqueIds(plan[..j]);
      var k, l :| 0 <= k < l < |plan| && plan[k].id == f.id == plan[l].id && UniqueIds(plan[..l]);
      DuplicateIsUnique(plan, i, j, k, l);
    } else if !e.DuplicateId? && !f.DuplicateId? {
      EdgeOrCycle(plan, completed, e, f);
    }
  }

  lemma EdgeIsNoCycle(plan: seq<Subtask>, completed: seq<nat>, e: PlanError)
    requires Reports(plan, completed, e) && !e.DuplicateId? && !e.Cycle?
    ensures !NoSelfEdge(plan) || !KnownDependencies(plan, completed)
  {
    var i, k :| ReportsEdge(plan, completed, e, i, k);
    assert !EdgeOk(plan, completed, i, k);
  }

  lemma EdgeOrCycle(plan: seq<Subtask>, completed: seq<nat>, e: PlanError, f: PlanError)
    requires Reports(plan, completed, e) && Reports(plan, completed, f) && !e.DuplicateId? && !f.DuplicateId?
    ensures e == f
  {
    if !e.Cycle? && !f.Cycle? {
      var i, k :| ReportsEdge(plan, completed, e, i, k);
      var j, l :| ReportsEdge(plan, completed, f, j, l);
      EdgeReportIsUnique(plan, completed, e, i, k, f, j, l);
    } else if !e.Cycle? {
      EdgeIsNoCycle(plan, completed, e);
    } else if !f.Cycle? {
      EdgeIsNoCycle(plan, completed, f);
    }
  }

  ghost predicate EdgesOkBefore(plan: seq<Subtask>, completed: seq<nat>, i: nat, k: nat) {
    forall a, b :: 0 <= a < |plan| && 0 <= b < |plan[a].dependsOn| && (a < i || (a == i && b < k)) ==>
      EdgeOk(plan, completed, a, b)
  }

  method CheckIds(plan: seq<Subtask>) returns (e: Option<PlanError>, ids: set<nat>)
    ensures e.None? ==> UniqueIds(plan) && |ids| == |plan|
    ensures e.None? ==> forall d :: d in ids <==> HasId(plan, d)
    ensures e.Some? ==> e.value.DuplicateId? && Reports(plan, [], e.value)
  {
    ids := {};
    for i := 0 to |plan|
      invariant UniqueIds(plan[..i]) && |ids| == i
      invariant forall d :: d in ids <==> exists j :: 0 <= j < i && plan[j].id == d
    {
      if plan[i].id in ids {
        e := Some(DuplicateId(plan[i].id));
        assert exists j :: 0 <= j < i && plan[j].id == plan[i].id;
        return;
      }
      ids := ids + {plan[i].id};
      assert plan[..i + 1] == plan[..i] + [plan[i]];
    }
    assert plan[..|plan|] == plan;
    e := None;
  }

  method CheckEdges(plan: seq<Subtask>, completed: seq<nat>, ids: set<nat>) returns (e: Option<PlanError>)
    requires UniqueIds(plan)
    requires forall d :: d in ids <==> HasId(plan, d)
    ensures e.None? ==> NoSelfEdge(plan) && KnownDependencies(plan, completed)
    ensures e.Some? ==> !e.value.DuplicateId? && !e.value.Cycle? && Reports(plan, completed, e.value)
  {
    for i := 0 to |plan|
      invariant EdgesOkBefore(plan, completed, i, 0)
    {
      var deps := plan[i].dependsOn;
      for k := 0 to |deps|
        invariant EdgesOkBefore(plan, completed, i, k)
      {
        if deps[k] == plan[i].id {
          e := Some(SelfEdge(plan[i].id));
          assert ReportsEdge(plan, completed, e.value, i, k);
          return;
        }
        if deps[k] !in ids && deps[k] !in completed {
          e := Some(UnknownDependency(plan[i].id, deps[k]));
          assert ReportsEdge(plan, completed, e.value, i, k);
          return;
        }
        assert EdgeOk(plan, completed, i, k);
      }
    }
    forall i | 0 <= i < |plan|
      ensures forall d :: d in plan[i].dependsOn ==> d != plan[i].id && (HasId(plan, d) || d in completed)
    {
      forall d | d in plan[i].dependsOn ensures d != plan[i].id && (HasId(plan, d) || d in completed) {
        var k :| 0 <= k < |plan[i].dependsOn| && plan[i].dependsOn[k] == d;
        assert EdgeOk(plan, completed, i, k);
      }
    }
    e := None;
  }

  /** All edges of `i` lead to placed or completed ids. */
  predicate Ready(plan: seq<Subtask>, completed: seq<nat>, placed: set<nat>, i: nat)
    requires i < |plan|
  {
    forall d :: d in plan[i].dependsOn ==> d in placed || d in completed
  }

  ghost predicate PlacedIds(plan: seq<Subtask>, done: seq<bool>, placed: set<nat>)
    requires |done| == |plan|
  {
    forall d :: d in placed <==> exists i :: 0 <= i < |plan| && done[i] && plan[i].id == d
  }

  lemma ReadyMeansPlaced(plan: seq<Subtask>, completed: seq<nat>, done: seq<bool>, placed: set<nat>, i: nat)
    requires |done| == |plan| && PlacedIds(plan, done, placed) && i < |plan|
    requires UniqueIds(plan) && KnownDependencies(plan, completed)
    ensures Ready(plan, completed, placed, i) <==> !Blocked(plan, completed, done, i)
  {
    if Ready(plan, completed, placed, i) {
      forall j | Needs(plan, completed, i, j) ensures done[j] {
        var i' :| 0 <= i' < |plan| && done[i'] && plan[i'].id == plan[j].id;
        assert i' == j;
      }
    }
    if !Blocked(plan, completed, done, i) {
      forall d | d in plan[i].dependsOn ensures d in placed || d in completed {
        if d !in completed {
          var j :| 0 <= j < |plan| && plan[j].id == d;
          assert Needs(plan, completed, i, j);
        }
      }
    }
  }

  lemma {:induction false} CountPlaced(plan: seq<Subtask>, done: seq<bool>, ids: set<nat>, placed: set<nat>)
    requires UniqueIds(plan) && |ids| == |plan| && |done| == |plan|
    requires forall d :: d in ids <==> HasId(plan, d)
    requires PlacedIds(plan, done, placed)
    ensures |placed| <= |plan|
    ensures |placed| == |plan| <==> forall i :: 0 <= i < |plan| ==> done[i]
  {
    assert placed <= ids;
    SubsetSize(placed, ids);
    if forall i :: 0 <= i < |plan| ==> done[i] {
      forall d | d in ids ensures d in placed {
        var i :| 0 <= i < |plan| && plan[i].id == d;
        assert done[i];
      }
      assert placed == ids;
    }
    if |placed| == |plan| {
      assert placed == ids;
      forall i | 0 <= i < |plan| ensures done[i] {
        assert plan[i].id in ids;
        var j :| 0 <= j < |plan| && done[j] && plan[j].id == plan[i].id;
        assert j == i;
      }
    }
  }

  lemma {:induction false} SubsetSize<T>(a: set<T>, b: set<T>)
    requires a <= b
    ensures |a| <= |b|
    ensures |a| == |b| ==> a == b
  {
    if a != {} {
      var x :| x in a;
      SubsetSize(a - {x}, b - {x});
      assert a == (a - {x}) + {x};
      assert b == (b - {x}) + {x};
    }
  }

  ghost predicate NeedPlacedAt(plan: seq<Subtask>, completed: seq<nat>, level: seq<int>, i: int, l: int)
    requires |level| == |plan|
  {
    exists j :: Needs(plan, completed, i, j) && level[j] == l
  }

  /** Some need of `i` was not placed before wave `last`. */
  ghost predicate NeedMissedLast(plan: seq<Subtask>, completed: seq<nat>, level: seq<int>, i: int, last: int)
    requires |level| == |plan|
  {
    exists j :: Needs(plan, completed, i, j) && (level[j] < 0 || level[j] == last)
  }

  /** The state between two waves: `level[i]` is the wave of a placed subtask and -1 otherwise. */
  ghost predicate LayeringSoFar(plan: seq<Subtask>, completed: seq<nat>, done: seq<bool>,
                                waves: seq<seq<nat>>, level: seq<int>)
  {
    && |done| == |plan| == |level|
    && LevelsFit(done, level, |waves|)
    && InTheirWaves(done, waves, level)
    && (forall i, j :: Needs(plan, completed, i, j) && done[i] ==> done[j] && level[j] < level[i])
    && (forall i {:trigger NeedPlacedAt(plan, completed, level, i, level[i] - 1)} ::
          0 <= i < |plan| && level[i] > 0 ==> NeedPlacedAt(plan, completed, level, i, level[i] - 1))
    && (forall i {:trigger NeedMissedLast(plan, completed, level, i, |waves| - 1)} ::
          0 <= i < |plan| && !done[i] && |waves| > 0 ==> NeedMissedLast(plan, completed, level, i, |waves| - 1))
    && (forall w :: 0 <= w < |waves| ==> Ascending(waves[w]) && waves[w] != [])
    && MembersPlaced(waves, level)
  }

  /** What is placed has a level below `n`. */
  ghost predicate LevelsFit(done: seq<bool>, level: seq<int>, n: nat)
    requires |done| == |level|
  {
    forall i :: 0 <= i < |level| ==> -1 <= level[i] < n && (done[i] <==> level[i] >= 0)
  }

  /** What is placed is in the wave of its level. */
  ghost predicate InTheirWaves(done: seq<bool>, waves: seq<seq<nat>>, level: seq<int>)
    requires |done| == |level| && LevelsFit(done, level, |waves|)
  {
    forall i {:trigger done[i]} :: 0 <= i < |level| && done[i] ==> i in waves[level[i]]
  }

  /** Every member of a wave has its level. */
  ghost predicate MembersPlaced(waves: seq<seq<nat>>, level: seq<int>) {
    forall w, k :: 0 <= w < |waves| && 0 <= k < |waves[w]| ==> waves[w][k] < |level| && level[waves[w][k]] == w
  }

  ghost predicate IsWave(plan: seq<Subtask>, completed: seq<nat>, done: seq<bool>, wave: seq<nat>)
    requires |done| == |plan|
  {
    && Ascending(wave)
    && (forall i: nat {:trigger i in wave} :: i in wave ==>
          i < |plan| && !done[i] && !Blocked(plan, completed, done, i))
    && (forall i {:trigger Blocked(plan, completed, done, i)} :: 0 <= i < |plan| && !done[i] && i !in wave ==>
          Blocked(plan, completed, done, i))
  }

  /** Subtask `i` waits for a subtask that is not yet placed. */
  ghost predicate Blocked(plan: seq<Subtask>, completed: seq<nat>, done: seq<bool>, i: int)
    requires |done| == |plan|
  {
    exists j :: Needs(plan, completed, i, j) && !done[j]
  }

  lemma WaveExtends(plan: seq<Subtask>, completed: seq<nat>, done: seq<bool>, waves: seq<seq<nat>>, level: seq<int>,
                    wave: seq<nat>, done': seq<bool>) returns (level': seq<int>)
    requires LayeringSoFar(plan, completed, done, waves, level) && AddsWave(plan, completed, done, wave, done')
    ensures LayeringSoFar(plan, completed, done', waves + [wave], level')
  {
    level' := Raised(level, wave, |waves|);
    forall i | 0 <= i < |plan| && level'[i] > 0 ensures NeedPlacedAt(plan, completed, level', i, level'[i] - 1) {
      RaisedIsPlaced(plan, completed, done, waves, level, wave, done', i);
    }
    forall i | 0 <= i < |plan| && !done'[i] ensures NeedMissedLast(plan, completed, level', i, |waves|) {
      BlockedMissesLast(plan, completed, done, waves, level, wave, done', i);
    }
    RaisedFit(plan, completed, done, waves, level, wave, done');
    MembersAreRaised(plan, completed, done, waves, level, wave, done');
    NeedsAreBelow(plan, completed, done, waves, level, wave, done');
  }

  lemma RaisedFit(plan: seq<Subtask>, completed: seq<nat>, done: seq<bool>, waves: seq<seq<nat>>, level: seq<int>,
                  wave: seq<nat>, done': seq<bool>)
    requires LayeringSoFar(plan, completed, done, waves, level) && AddsWave(plan, completed, done, wave, done')
    ensures LevelsFit(done', Raised(level, wave, |waves|), |waves| + 1)
    ensures InTheirWaves(done', waves + [wave], Raised(level, wave, |waves|))
  {
    var level' := Raised(level, wave, |waves|);
    forall i | 0 <= i < |plan| && done'[i] ensures i in (waves + [wave])[level'[i]] {
      assert i !in wave ==> done[i];
    }
  }

  lemma NeedsAreBelow(plan: seq<Subtask>, completed: seq<nat>, done: seq<bool>, waves: seq<seq<nat>>, level: seq<int>,
                      wave: seq<nat>, done': seq<bool>)
    requires LayeringSoFar(plan, completed, done, waves, level) && AddsWave(plan, completed, done, wave, done')
    ensures var level' := Raised(level, wave, |waves|);
      forall i, j :: Needs(plan, completed, i, j) && done'[i] ==> done'[j] && level'[j] < level'[i]
  {
    var level' := Raised(level, wave, |waves|);
    forall i, j | Needs(plan, completed, i, j) && done'[i] ensures done'[j] && level'[j] < level'[i] {
      if i in wave {
        assert !Blocked(plan, completed, done, i);
        assert done[j];
      } else {
        assert done[i];
      }
    }
  }

  lemma MembersAreRaised(plan: seq<Subtask>, completed: seq<nat>, done: seq<bool>, waves: seq<seq<nat>>,
                         level: seq<int>, wave: seq<nat>, done': seq<bool>)
    requires LayeringSoFar(plan, completed, done, waves, level) && AddsWave(plan, completed, done, wave, done')
    ensures MembersPlaced(waves + [wave], Raised(level, wave, |waves|))
  {
    forall w, k | 0 <= w <= |waves| && 0 <= k < |(waves + [wave])[w]|
      ensures (waves + [wave])[w][k] < |plan| && Raised(level, wave, |waves|)[(waves + [wave])[w][k]] == w
    {
      MemberIsRaised(plan, completed, done, waves, level, wave, done', w, k);
    }
  }

  /** The members of the wave are placed on level `n`. */
  function Raised(level: seq<int>, wave: seq<nat>, n: nat): (r: seq<int>)
    ensures |r| == |level| && forall i :: 0 <= i < |level| ==> r[i] == if i in wave then n else level[i]
  {
    seq(|level|, i requires 0 <= i < |level| => if i in wave then n else level[i])
  }

  /** The next wave, and what is placed with it. */
  ghost predicate AddsWave(plan: seq<Subtask>, completed: seq<nat>, done: seq<bool>, wave: seq<nat>, done': seq<bool>) {
    && |done| == |plan| == |done'| && IsWave(plan, completed, done, wave) && wave != []
    && forall i {:trigger done'[i]} :: 0 <= i < |plan| ==> done'[i] == (done[i] || i in wave)
  }

  lemma RaisedIsPlaced(plan: seq<Subtask>, completed: seq<nat>, done: seq<bool>, waves: seq<seq<nat>>, level: seq<int>,
                       wave: seq<nat>, done': seq<bool>, i: nat)
    requires LayeringSoFar(plan, completed, done, waves, level) && AddsWave(plan, completed, done, wave, done')
    requires i < |plan| && Raised(level, wave, |waves|)[i] > 0
    ensures NeedPlacedAt(plan, completed, Raised(level, wave, |waves|), i, Raised(level, wave, |waves|)[i] - 1)
  {
    var level' := Raised(level, wave, |waves|);
    if i in wave {
      assert NeedMissedLast(plan, completed, level, i, |waves| - 1);
      var j :| Needs(plan, completed, i, j) && (level[j] < 0 || level[j] == |waves| - 1);
      assert done[j];
      assert Needs(plan, completed, i, j) && level'[j] == level'[i] - 1;
    } else {
      assert NeedPlacedAt(plan, completed, level, i, level[i] - 1);
      var j :| Needs(plan, completed, i, j) && level[j] == level[i] - 1;
      assert Needs(plan, completed, i, j) && level'[j] == level'[i] - 1;
    }
  }

  lemma BlockedMissesLast(plan: seq<Subtask>, completed: seq<nat>, done: seq<bool>, waves: seq<seq<nat>>,
                          level: seq<int>, wave: seq<nat>, done': seq<bool>, i: nat)
    requires LayeringSoFar(plan, completed, done, waves, level) && AddsWave(plan, completed, done, wave, done')
    requires i < |plan| && !done'[i]
    ensures NeedMissedLast(plan, completed, Raised(level, wave, |waves|), i, |waves|)
  {
    assert Blocked(plan, completed, done, i);
    var j :| Needs(plan, completed, i, j) && !done[j];
    assert level[j] < 0;
  }

  lemma MemberIsRaised(plan: seq<Subtask>, completed: seq<nat>, done: seq<bool>, waves: seq<seq<nat>>, level: seq<int>,
                       wave: seq<nat>, done': seq<bool>, w: nat, k: nat)
    requires LayeringSoFar(plan, completed, done, waves, level) && AddsWave(plan, completed, done, wave, done')
    requires w <= |waves| && k < |(waves + [wave])[w]|
    ensures var x := (waves + [wave])[w][k]; x < |plan| && Raised(level, wave, |waves|)[x] == w
  {
    if w < |waves| {
      assert (waves + [wave])[w] == waves[w];
      assert level[waves[w][k]] == w;
    } else {
      assert wave[k] in wave;
    }
  }

  lemma LayeringDone(plan: seq<Subtask>, completed: seq<nat>, done: seq<bool>, waves: seq<seq<nat>>, level: seq<int>)
    requires LayeringSoFar(plan, completed, done, waves, level)
    requires forall i :: 0 <= i < |plan| ==> done[i]
    ensures IsLayering(plan, completed, waves) && Acyclic(plan, completed)
  {
    var l: seq<nat> := seq(|plan|, i requires 0 <= i < |plan| => level[i]);
    forall i | 0 <= i < |plan| && l[i] > 0 ensures HasNeedAt(plan, completed, l, i, l[i] - 1) {
      assert NeedPlacedAt(plan, completed, level, i, level[i] - 1);
      var j :| Needs(plan, completed, i, j) && level[j] == level[i] - 1;
      assert Needs(plan, completed, i, j) && l[j] == l[i] - 1;
    }
    assert IsLevel(plan, completed, l);
    LevelsImplyAcyclic(plan, completed, l);
    assert WavesOf(l, waves);
  }

  method CollectWave(plan: seq<Subtask>, completed: seq<nat>, placed: set<nat>, done: array<bool>)
    returns (wave: seq<nat>)
    requires done.Length == |plan| && PlacedIds(plan, done[..], placed)
    requires UniqueIds(plan) && KnownDependencies(plan, completed)
    ensures IsWave(plan, completed, done[..], wave)
  {
    wave := [];
    for i := 0 to |plan|
      invariant Ascending(wave)
      invariant forall k {:trigger k in wave} :: k in wave ==>
        k < i && !done[k] && !Blocked(plan, completed, done[..], k)
      invariant forall k {:trigger Blocked(plan, completed, done[..], k)} ::
                  0 <= k < i && !done[k] && k !in wave ==> Blocked(plan, completed, done[..], k)
    {
      ReadyMeansPlaced(plan, completed, done[..], placed, i);
      if !done[i] && Ready(plan, completed, placed, i) {
        forall k | 0 <= k < |wave| ensures wave[k] < i {
          assert wave[k] in wave;
        }
        wave := wave + [i];
      }
    }
  }

  method MarkWave(plan: seq<Subtask>, wave: seq<nat>, placed: set<nat>, done: array<bool>) returns (placed': set<nat>)
    requires done.Length == |plan| && PlacedIds(plan, done[..], placed)
    requires forall i: nat :: i in wave ==> i < |plan|
    modifies done
    ensures forall i {:trigger done[i]} :: 0 <= i < |plan| ==> done[i] == (old(done[i]) || i in wave)
    ensures PlacedIds(plan, done[..], placed')
  {
    placed' := placed;
    for k := 0 to |wave|
      invariant forall i :: 0 <= i < |plan| ==> done[i] == (old(done[i]) || i in wave[..k])
      invariant PlacedIds(plan, done[..], placed')
    {
      assert wave[k] in wave;
      ghost var before := done[..];
      done[wave[k]] := true;
      placed' := placed' + {plan[wave[k]].id};
      assert wave[..k + 1] == wave[..k] + [wave[k]];
      forall d ensures d in placed' <==> exists i :: 0 <= i < |plan| && done[..][i] && plan[i].id == d {
        if exists i :: 0 <= i < |plan| && before[i] && plan[i].id == d {
          var i :| 0 <= i < |plan| && before[i] && plan[i].id == d;
          assert done[..][i];
        }
        if d == plan[wave[k]].id { assert done[..][wave[k]]; }
      }
    }
    assert wave[..|wave|] == wave;
  }

  /** Groups the plan into waves, or reports why it cannot be layered. */
  method PlanWaves(plan: seq<Subtask>, completed: seq<nat>) returns (r: Result<seq<seq<nat>>, PlanError>)
    ensures r.Success? <==> ValidPlan(plan, completed)
    ensures r.Success? ==> IsLayering(plan, completed, r.value)
    ensures r.Failure? ==> Reports(plan, completed, r.error)
  {
    var e, ids := CheckIds(plan);
    if e.Some? {
      return Failure(e.value);
    }
    e := CheckEdges(plan, completed, ids);
    if e.Some? {
      EdgeErrorIsInvalid(plan, completed, e.value);
      return Failure(e.value);
    }
    var placed: set<nat> := {};
    var done := new bool[|plan|](_ => false);
    var waves: seq<seq<nat>> := [];
    ghost var level: seq<int> := seq(|plan|, _ => -1);
    CountPlaced(plan, done[..], ids, placed);
    while |placed| < |plan|
      invariant PlacedIds(plan, done[..], placed)
      invariant LayeringSoFar(plan, completed, done[..], waves, level)
      invariant |placed| <= |plan|
      invariant |placed| == |plan| <==> forall i :: 0 <= i < |plan| ==> done[i]
      decreases |plan| - |placed|
    {
      var wave := CollectWave(plan, completed, placed, done);
      if wave == [] {
        EmptyWaveIsCyclic(plan, completed, done[..]);
        return Failure(Cycle);
      }
      ghost var before := done[..];
      ghost var placedBefore := placed;
      placed := MarkWave(plan, wave, placed, done);
      level := WaveExtends(plan, completed, before, waves, level, wave, done[..]);
      waves := waves + [wave];
      CountPlaced(plan, done[..], ids, placed);
      PlacedGrows(plan, before, done[..], placedBefore, placed, wave);
    }
    LayeringDone(plan, completed, done[..], waves, level);
    return Success(waves);
  }

  lemma EdgeErrorIsInvalid(plan: seq<Subtask>, completed: seq<nat>, e: PlanError)
    requires !e.DuplicateId? && !e.Cycle? && Reports(plan, completed, e)
    ensures !ValidPlan(plan, completed)
  {
    var i, k :| ReportsEdge(plan, completed, e, i, k);
    var d := plan[i].dependsOn[k];
    assert d in plan[i].dependsOn;
  }

  lemma EmptyWaveIsCyclic(plan: seq<Subtask>, completed: seq<nat>, done: seq<bool>)
    requires |done| == |plan| && IsWave(plan, completed, done, [])
    requires exists i :: 0 <= i < |plan| && !done[i]
    ensures !Acyclic(plan, completed)
  {
    var undone: set<nat> := set i | 0 <= i < |plan| && !done[i];
    var i0 :| 0 <= i0 < |plan| && !done[i0];
    assert i0 in undone;
    forall i | i in undone ensures NeedsOneOf(plan, completed, undone, i) {
      var none: seq<nat> := [];
      assert i !in none;
      assert Blocked(plan, completed, done, i);
      var j :| Needs(plan, completed, i, j) && !done[j];
      assert j in undone;
    }
    StuckIsCyclic(plan, completed, undone);
  }

  lemma PlacedGrows(plan: seq<Subtask>, done: seq<bool>, done': seq<bool>, placed: set<nat>, placed': set<nat>,
                    wave: seq<nat>)
    requires UniqueIds(plan) && |done| == |done'| == |plan|
    requires PlacedIds(plan, done, placed) && PlacedIds(plan, done', placed')
    requires wave != [] && forall i: nat :: i in wave ==> i < |plan| && !done[i]
    requires forall i {:trigger done'[i]} :: 0 <= i < |plan| ==> done'[i] == (done[i] || i in wave)
    ensures |placed| < |placed'|
  {
    assert wave[0] in wave;
    var x := plan[wave[0]].id;
    assert done'[wave[0]];
    assert x in placed' && x !in placed;
    forall d | d in placed ensures d in placed' {
      var i :| 0 <= i < |plan| && done[i] && plan[i].id == d;
      assert done'[i];
    }
    SubsetSize(placed, placed' - {x});
  }

  // ----- the order in which the waves are executed -----

  function Flat(waves: seq<seq<nat>>): seq<nat> {
    if waves == [] then [] else Flat(waves[..|waves| - 1]) + waves[|waves| - 1]
  }

  lemma FlatStep(waves: seq<seq<nat>>, w: nat)
    requires w < |waves|
    ensures Flat(waves[..w + 1]) == Flat(waves[..w]) + waves[w]
  {
    assert waves[..w + 1][..w] == waves[..w];
  }

  lemma {:induction false} FlatExtends(waves: seq<seq<nat>>, w: nat)
    requires w <= |waves|
    ensures Flat(waves[..w]) <= Flat(waves)
    decreases |waves| - w
  {
    if w == |waves| {
      assert waves[..w] == waves;
    } else {
      FlatStep(waves, w);
      FlatExtends(waves, w + 1);
    }
  }

  /** An execution order: every subtask once, after everything it needs. */
  ghost predicate IsOrder(plan: seq<Subtask>, completed: seq<nat>, order: seq<nat>) {
    && |order| == |plan|
    && (forall k :: 0 <= k < |order| ==> order[k] < |plan|)
    && (forall a, b :: 0 <= a < b < |order| ==> order[a] != order[b])
    && (forall a, b :: 0 <= a < |order| && 0 <= b < |order| && Needs(plan, completed, order[a], order[b]) ==> b < a)
  }

  ghost predicate OrderedBelow(level: seq<nat>, w: nat, order: seq<nat>) {
    && (forall k :: 0 <= k < |order| ==> order[k] < |level| && level[order[k]] < w)
    && (forall i :: 0 <= i < |level| && level[i] < w ==> i in order)
    && (forall a, b :: 0 <= a < b < |order| ==>
          order[a] != order[b] && (order[a] < |level| && order[b] < |level| ==> level[order[a]] <= level[order[b]]))
  }

  lemma {:induction false} FlatIsOrderedBelow(level: seq<nat>, waves: seq<seq<nat>>, w: nat)
    requires WavesOf(level, waves) && w <= |waves|
    ensures OrderedBelow(level, w, Flat(waves[..w]))
  {
    if w > 0 {
      FlatIsOrderedBelow(level, waves, w - 1);
      FlatStep(waves, w - 1);
      AppendWave(level, w - 1, Flat(waves[..w - 1]), waves[w - 1]);
    }
  }

  lemma AppendWave(level: seq<nat>, w: nat, front: seq<nat>, last: seq<nat>)
    requires OrderedBelow(level, w, front) && Ascending(last)
    requires forall k :: 0 <= k < |last| ==> last[k] < |level| && level[last[k]] == w
    requires forall i :: 0 <= i < |level| && level[i] == w ==> i in last
    ensures OrderedBelow(level, w + 1, front + last)
  {
    var order := front + last;
    forall i | 0 <= i < |level| && level[i] < w + 1 ensures i in order {
      if level[i] < w { assert i in front; } else { assert i in last; }
    }
    forall k | 0 <= k < |order| ensures order[k] < |level| && level[order[k]] < w + 1 {
      assert order[k] == if k < |front| then front[k] else last[k - |front|];
    }
  }

  lemma StillIn(order: seq<nat>, k: nat, i: nat)
    requires k < |order| && i in order && i != order[k]
    ensures i in order[..k] + order[k + 1..]
  {
    var j :| 0 <= j < |order| && order[j] == i;
    var rest := order[..k] + order[k + 1..];
    assert if j < k then rest[j] == i else rest[j - 1] == i;
  }

  lemma {:induction false} DistinctCoverSize(order: seq<nat>, n: nat)
    requires forall k :: 0 <= k < |order| ==> order[k] < n
    requires forall a, b :: 0 <= a < b < |order| ==> order[a] != order[b]
    requires forall i :: 0 <= i < n ==> i in order
    ensures |order| == n
    decreases n
  {
    assert order != [] ==> order[0] < n;
    if n > 0 {
      assert n - 1 in order;
      var k :| 0 <= k < |order| && order[k] == n - 1;
      var rest := order[..k] + order[k + 1..];
      forall i | 0 <= i < n - 1 ensures i in rest {
        StillIn(order, k, i);
      }
      DistinctCoverSize(rest, n - 1);
    }
  }

  /** Running the waves one after the other respects every unsatisfied edge. */
  lemma LayeringIsOrder(plan: seq<Subtask>, completed: seq<nat>, waves: seq<seq<nat>>)
    requires IsLayering(plan, completed, waves)
    ensures IsOrder(plan, completed, Flat(waves))
  {
    var level :| IsLevel(plan, completed, level) && WavesOf(level, waves);
    FlatIsOrderedBelow(level, waves, |waves|);
    assert waves[..|waves|] == waves;
    OrderedIsOrder(plan, completed, level, Flat(waves), |waves|);
  }

  lemma OrderedIsOrder(plan: seq<Subtask>, completed: seq<nat>, level: seq<nat>, order: seq<nat>, w: nat)
    requires IsLevel(plan, completed, level) && OrderedBelow(level, w, order)
    requires forall i :: 0 <= i < |level| ==> level[i] < w
    ensures IsOrder(plan, completed, order)
  {
    DistinctCoverSize(order, |plan|);
    forall a, b | 0 <= a < |order| && 0 <= b < |order| && Needs(plan, completed, order[a], order[b]) ensures b < a {
      assert level[order[b]] < level[order[a]];
    }
  }
}
