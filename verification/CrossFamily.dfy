/** Reviewer ladders that prefer another model family than the worker's (core/src/orchestrator/conduct.rs). */
module CrossFamily {
  import opened Events
  import opened Resilience
  import opened Sequences

  datatype Member = Member(name: string, ladder: seq<Rung>)

  predicate Foreign(r: Rung, family: Provider) {
    r.key.provider != family
  }

  /** The rungs of a ladder on the given side of the family line, in order. */
  function Select(ladder: seq<Rung>, family: Provider, foreign: bool): seq<Rung> {
    if ladder == [] then []
    else
      var front, last := Select(ladder[..|ladder| - 1], family, foreign), ladder[|ladder| - 1];
      if Foreign(last, family) == foreign then front + [last] else front
  }

  predicate LeadsForeign(m: Member, family: Provider) {
    m.ladder != [] && Foreign(m.ladder[0], family)
  }

  /** The first rungs of the workers that another family leads. */
  function ForeignFronts(workers: seq<Member>, family: Provider): seq<Rung> {
    if workers == [] then []
    else
      var front, last := ForeignFronts(workers[..|workers| - 1], family), workers[|workers| - 1];
      if LeadsForeign(last, family) then front + [last.ladder[0]] else front
  }

  function Reordered(role: seq<Rung>, workers: seq<Member>, family: Provider): seq<Rung> {
    Select(role, family, true) + ForeignFronts(workers, family) + Select(role, family, false)
  }

  /** Another family is configured, for the role or at the front of some worker's ladder. */
  ghost predicate ForeignConfigured(role: seq<Rung>, workers: seq<Member>, family: Provider) {
    || (exists k :: 0 <= k < |role| && Foreign(role[k], family))
    || (exists k :: 0 <= k < |workers| && LeadsForeign(workers[k], family))
  }

  method CrossFamilyLadder(role: seq<Rung>, workers: seq<Member>, family: Provider)
    returns (out: seq<Rung>, degraded: bool)
    ensures out == Reordered(role, workers, family)
    ensures degraded <==> !ForeignConfigured(role, workers, family)
  {
    out := Select(role, family, true);
    for k := 0 to |workers|
      invariant out == Select(role, family, true) + ForeignFronts(workers[..k], family)
    {
      assert workers[..k + 1][..k] == workers[..k];
      if LeadsForeign(workers[k], family) {
        out := out + [workers[k].ladder[0]];
      }
    }
    assert workers[..|workers|] == workers;
    out := AppendOwn(role, family, out);
    degraded := out == [] || !Foreign(out[0], family);
    FirstTells(role, workers, family);
  }

  method AppendOwn(role: seq<Rung>, family: Provider, foreign: seq<Rung>) returns (out: seq<Rung>)
    ensures out == foreign + Select(role, family, false)
  {
    out := foreign;
    for k := 0 to |role|
      invariant out == foreign + Select(role[..k], family, false)
    {
      assert role[..k + 1][..k] == role[..k];
      if !Foreign(role[k], family) {
        out := out + [role[k]];
      }
    }
    assert role[..|role|] == role;
  }

  lemma {:induction false} SelectSide(ladder: seq<Rung>, family: Provider, foreign: bool)
    ensures var s := Select(ladder, family, foreign);
      && (forall k :: 0 <= k < |s| ==> (Foreign(s[k], family) <==> foreign))
      && (s == [] <==> forall k :: 0 <= k < |ladder| ==> Foreign(ladder[k], family) != foreign)
  {
    if ladder != [] {
      SelectSide(ladder[..|ladder| - 1], family, foreign);
    }
  }

  lemma {:induction false} FrontsAreForeign(workers: seq<Member>, family: Provider)
    ensures var s := ForeignFronts(workers, family);
      && (forall k :: 0 <= k < |s| ==> Foreign(s[k], family))
      && (s == [] <==> forall k :: 0 <= k < |workers| ==> !LeadsForeign(workers[k], family))
  {
    if workers != [] {
      FrontsAreForeign(workers[..|workers| - 1], family);
    }
  }

  lemma FirstTells(role: seq<Rung>, workers: seq<Member>, family: Provider)
    ensures var out := Reordered(role, workers, family);
      (out == [] || !Foreign(out[0], family)) <==> !ForeignConfigured(role, workers, family)
  {
    FrontsAreForeign(workers, family);
    SelectSide(role, family, true);
    SelectSide(role, family, false);
  }

  lemma {:induction false} SelectExactly(ladder: seq<Rung>, family: Provider)
    ensures Select(ladder, family, true) == Filter(ladder, (r: Rung) => r.key.provider != family, r => r)
    ensures Select(ladder, family, false) == Filter(ladder, (r: Rung) => r.key.provider == family, r => r)
  {
    if ladder != [] {
      SelectExactly(ladder[..|ladder| - 1], family);
    }
  }

  /** The workers whose ladder starts with another family. */
  function Leaders(workers: seq<Member>, family: Provider): seq<Member> {
    Filter(workers, (m: Member) => m.ladder != [] && m.ladder[0].key.provider != family, m => m)
  }

  lemma {:induction false} FrontsExactly(workers: seq<Member>, family: Provider)
    ensures var fronts, leaders := ForeignFronts(workers, family), Leaders(workers, family);
      |fronts| == |leaders| &&
        forall k :: 0 <= k < |fronts| ==> leaders[k].ladder != [] && fronts[k] == leaders[k].ladder[0]
  {
    if workers != [] {
      FrontsExactly(workers[..|workers| - 1], family);
    }
  }

  /**
    The ladder is the role's rungs of other families in order, then the first rung of each worker that another family
    leads in the workers' order, then the role's rungs of the worker's own family in order.
   */
  lemma LadderExactly(role: seq<Rung>, workers: seq<Member>, family: Provider) returns (fronts: seq<Rung>)
    ensures Reordered(role, workers, family) ==
      Filter(role, (r: Rung) => r.key.provider != family, r => r) + fronts
      + Filter(role, (r: Rung) => r.key.provider == family, r => r)
    ensures var leaders := Leaders(workers, family);
      |fronts| == |leaders| &&
        forall k :: 0 <= k < |fronts| ==> leaders[k].ladder != [] && fronts[k] == leaders[k].ladder[0]
  {
    fronts := ForeignFronts(workers, family);
    SelectExactly(role, family);
    FrontsExactly(workers, family);
  }

  lemma SplitPush<T>(a: seq<T>, b: seq<T>, all: seq<T>, x: T)
    requires multiset(a) + multiset(b) == multiset(all)
    ensures multiset(a + [x]) + multiset(b) == multiset(all + [x]) == multiset(a) + multiset(b + [x])
  {
  }

  lemma {:induction false} SelectSplits(ladder: seq<Rung>, family: Provider)
    ensures multiset(Select(ladder, family, true)) + multiset(Select(ladder, family, false)) == multiset(ladder)
  {
    if ladder != [] {
      var front, last := ladder[..|ladder| - 1], ladder[|ladder| - 1];
      SelectSplits(front, family);
      assert ladder == front + [last];
      var a, b := Select(front, family, true), Select(front, family, false);
      SplitPush(a, b, front, last);
      assert Select(ladder, family, true) == (if Foreign(last, family) then a + [last] else a);
      assert Select(ladder, family, false) == (if Foreign(last, family) then b else b + [last]);
    }
  }

  /** No rung of the role is lost or duplicated, and only other families' worker fronts are added. */
  lemma LadderIsConserved(role: seq<Rung>, workers: seq<Member>, family: Provider)
    ensures multiset(Reordered(role, workers, family)) == multiset(role) + multiset(ForeignFronts(workers, family))
  {
    SelectSplits(role, family);
  }

  /** Whenever another family is configured anywhere, it reviews before the worker's own family does. */
  lemma OwnFamilyComesLast(role: seq<Rung>, workers: seq<Member>, family: Provider, a: nat, b: nat)
    requires a < |Reordered(role, workers, family)| && b < |Reordered(role, workers, family)|
    requires Foreign(Reordered(role, workers, family)[a], family) &&
      !Foreign(Reordered(role, workers, family)[b], family)
    ensures a < b
  {
    SelectSide(role, family, true);
    FrontsAreForeign(workers, family);
    SelectSide(role, family, false);
  }
}
