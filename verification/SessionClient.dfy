/** The server's sessions composed with the client's reducer. */
module SessionClient {
  import opened Wrappers
  import opened Events
  import S = Session
  import R = Reducer
  import Runner
  import Quota

  /** What a client shows after the frames of a session that sent `events` and then `t`. */
  ghost predicate ShowsOutcome(s: R.SessionState, events: seq<AgentEvent>, t: ServerFrame) {
    && R.Shows(s, events) && !s.paused
    && (s.phase == R.Finished <==> t.RunComplete? || t.RunCancelled?)
    && (s.phase == R.Errored <==> t.RunError? || t.Error?)
    && s.cancelled == t.RunCancelled?
    && s.terminal == (if t.RunComplete? then Some(t) else None)
    && (t.RunError? || t.Error? ==> s.error == Some(t.error))
  }

  lemma FramesShowOutcome(events: seq<AgentEvent>, t: ServerFrame)
    requires t.Error? ==> events == []
    ensures ShowsOutcome(R.FoldFrames(R.OPENED, AsFrames(events) + [Server(t)]), events, t)
  {
    R.EventsAreShown(events);
    R.FoldPush(R.OPENED, AsFrames(events), Server(t));
  }

  // ----- through the reducer's own actions -----

  /** Each frame as the action the client dispatches for it. */
  function Receives(frames: seq<Frame>): (actions: seq<R.Action>)
    ensures |actions| == |frames|
    ensures forall k :: 0 <= k < |frames| ==> actions[k] == R.Receive(frames[k])
  {
    seq(|frames|, k requires 0 <= k < |frames| => R.Receive(frames[k]))
  }

  lemma {:induction false} ReduceConcat(s: R.SessionState, a: seq<R.Action>, b: seq<R.Action>)
    ensures R.ReduceAll(s, a + b) == R.ReduceAll(R.ReduceAll(s, a), b)
    decreases |b|
  {
    if b == [] {
      assert a + b == a;
    } else {
      assert (a + b)[..|a + b| - 1] == a + b[..|b| - 1];
      ReduceConcat(s, a, b[..|b| - 1]);
    }
  }

  lemma {:induction false} ReceivesFold(s: R.SessionState, frames: seq<Frame>)
    ensures R.ReduceAll(s, Receives(frames)) == R.FoldFrames(s, frames)
  {
    if frames != [] {
      var n := |frames| - 1;
      ReceivesFold(s, frames[..n]);
      assert Receives(frames)[..n] == Receives(frames[..n]);
    }
  }

  /** A pressed start and an opened socket, from whatever the client showed before. */
  lemma StartThenOpen(s: R.SessionState)
    ensures R.ReduceAll(s, [R.Start, R.SocketOpen]) == R.OPENED
  {
    assert [R.Start, R.SocketOpen][..1] == [R.Start];
    assert [R.Start][..0] == [];
  }

  /** All that a client is dispatched for one session. */
  function Dispatched(frames: seq<Frame>, trouble: seq<R.Action>): seq<R.Action> {
    [R.Start, R.SocketOpen] + Receives(frames) + trouble
  }

  lemma DispatchedFolds(s: R.SessionState, frames: seq<Frame>, trouble: seq<R.Action>)
    ensures R.ReduceAll(s, Dispatched(frames, trouble)) == R.ReduceAll(R.FoldFrames(R.OPENED, frames), trouble)
  {
    ReduceConcat(s, [R.Start, R.SocketOpen] + Receives(frames), trouble);
    ReduceConcat(s, [R.Start, R.SocketOpen], Receives(frames));
    StartThenOpen(s);
    ReceivesFold(R.OPENED, frames);
  }

  /**
    For every session that closes with its frames delivered, whatever the other sessions do and whatever the
    client showed before, the client ends with the run's events in order, its usage summed and its files listed
    once each, unpaused, and with the outcome: cancelled if it cancelled, else what the run ended with, or the
    refusal. Nothing the socket does afterwards changes that.
   */
  lemma ClientShowsSessionOutcome(states: seq<S.ServerState>, actions: seq<S.ServerAction>, n: nat, i: nat,
                                  before: R.SessionState, trouble: seq<R.Action>)
    returns (h: S.Story, t: ServerFrame)
    requires S.IsRun(states, actions) && n < |states| && i < |states[n].sessions|
    requires var s := states[n].sessions[i]; s.phase.Closed? && s.text && !s.broken
    requires forall k :: 0 <= k < |trouble| ==> R.SocketTrouble(trouble[k])
    ensures S.IsStory(states, actions, i, n, h)
    ensures if !h.started then t.Error? && h.events == []
            else if h.cancelled then t == RunCancelled
            else h.ended == Some(t) && (t.RunComplete? || t.RunError?)
    ensures states[n].sessions[i].delivered == AsFrames(h.events) + [Server(t)]
    ensures ShowsOutcome(R.ReduceAll(before, Dispatched(states[n].sessions[i].delivered, trouble)), h.events, t)
  {
    h := S.OneServerFrame(states, actions, n, i);
    var frames := states[n].sessions[i].delivered;
    t := frames[|frames| - 1].frame;
    assert frames == AsFrames(h.events) + [Server(t)];
    FramesShowOutcome(h.events, t);
    R.SocketKeepsOutcome(R.FoldFrames(R.OPENED, frames), trouble);
    DispatchedFolds(before, frames, trouble);
  }

  /** The client's sums are those by which the run is charged. */
  lemma {:induction false} ClientSumsAsCharged(events: seq<AgentEvent>)
    ensures R.TokenSum(events) == R.Tokens(Runner.UsageSum(events, Quota.Input), Runner.UsageSum(events, Quota.Output))
  {
    if events != [] {
      ClientSumsAsCharged(events[..|events| - 1]);
    }
  }
}
