/**
  Any number of client sessions on one server (core/src/server.rs, `handle_session`): the first frame, the
  one-permit semaphore, the run task and its sink, the two channel senders, the writer task and the
  terminal frame, as interleaved steps. Which frames clients send, what runs emit and how they end, and
  whether the socket still accepts a write are free choices.
 */
module Session {
  import opened Wrappers
  import opened Events
  import opened Sequences

  datatype Phase =
    | AwaitFirst
    | DropThenSend
    | SendRefusal
    | SendThenDrop
    | DropRunSender
    | Running
    | Aborting
    | Joined(outcome: ServerFrame)
    | Releasing
    | DropLastSender
    | AwaitWriter
    | Closed

  /** `tx` and `termTx` say which senders are alive; `emitted` is all that was ever sent into the channel or socket. */
  datatype Session = Session(
    phase: Phase, text: bool, permit: bool, live: bool, result: Option<ServerFrame>, tx: bool, termTx: bool,
    writer: bool, broken: bool, emitted: seq<Frame>, queue: seq<Frame>, delivered: seq<Frame>)

  const NEW := Session(AwaitFirst, false, false, false, None, false, false, false, false, [], [], [])

  datatype ServerState = ServerState(sessions: seq<Session>, permits: nat)

  datatype Action =
    | FirstGone
    | FirstBad(error: string, accepted: bool)
    | FirstControl
    | FirstConduct(inRoot: bool)
    | Refuse(error: string)
    | DropTx
    | RunEmits(event: AgentEvent)
    | RunEnds(outcome: ServerFrame)
    | ClientCancels
    | RunIsKilled
    | Join
    | SendTerminal
    | ReleasePermit
    | DropTermTx
    | WriterSends(accepted: bool)
    | WriterEnds
    | WriterJoined

  function Enqueue(s: Session, f: Frame): Session {
    s.(emitted := s.emitted + [f], queue := if s.writer then s.queue + [f] else s.queue)
  }

  /** What a finished run may report: it cannot itself claim cancellation or a protocol error. */
  predicate RunOutcome(f: ServerFrame) {
    f.RunComplete? || f.RunError?
  }

  predicate Enabled(s: Session, a: Action) {
    match a
    case FirstGone => s.phase.AwaitFirst?
    case FirstBad(_, _) => s.phase.AwaitFirst?
    case FirstControl => s.phase.AwaitFirst?
    case FirstConduct(_) => s.phase.AwaitFirst?
    case Refuse(_) => s.phase.SendRefusal? || s.phase.SendThenDrop?
    case DropTx => s.phase.DropThenSend? || s.phase.DropRunSender?
    case RunEmits(_) => s.live
    case RunEnds(outcome) => s.live && RunOutcome(outcome)
    case ClientCancels => s.phase.Running?
    case RunIsKilled => s.phase.Aborting? && s.live
    case Join => (s.phase.Running? && !s.live && s.result.Some?) || (s.phase.Aborting? && !s.live)
    case SendTerminal => s.phase.Joined?
    case ReleasePermit => s.phase.Releasing?
    case DropTermTx => s.phase.DropLastSender?
    case WriterSends(_) => s.writer && s.queue != []
    case WriterEnds => s.writer && s.queue == [] && !s.tx && !s.termTx
    case WriterJoined => s.phase.AwaitWriter? && !s.writer
  }

  function Opened(s: Session, phase: Phase): Session {
    s.(phase := phase, text := true, tx := true, termTx := true, writer := true)
  }

  /** One step of one session; `free` says whether the permit is available. */
  function Next(s: Session, a: Action, free: bool): Session
    requires Enabled(s, a)
  {
    match a
    case FirstGone => s.(phase := Closed)
    case FirstBad(error, accepted) =>
      var f := Frame.Server(Error(error));
      s.(phase := Closed, text := true, emitted := [f], delivered := if accepted then [f] else [], broken := !accepted)
    case FirstControl => Opened(s, DropThenSend)
    case FirstConduct(inRoot) =>
      if inRoot && free then Opened(s, Running).(permit := true, live := true) else Opened(s, SendThenDrop)
    case Refuse(error) =>
      Enqueue(s, Frame.Server(Error(error))).(phase := if s.phase.SendRefusal? then DropLastSender else DropRunSender)
    case DropTx => s.(tx := false, phase := if s.phase.DropThenSend? then SendRefusal else DropLastSender)
    case RunEmits(e) => Enqueue(s, Event(e))
    case RunEnds(outcome) => s.(live := false, tx := false, result := Some(outcome))
    case ClientCancels => s.(phase := Aborting)
    case RunIsKilled => s.(live := false, tx := false)
    case Join => s.(phase := Joined(if s.phase.Running? then s.result.value else RunCancelled))
    case SendTerminal => Enqueue(s, Frame.Server(s.phase.outcome)).(phase := Releasing)
    case ReleasePermit => s.(permit := false, phase := DropLastSender)
    case DropTermTx => s.(termTx := false, phase := AwaitWriter)
    case WriterSends(accepted) =>
      if accepted then s.(delivered := s.delivered + [s.queue[0]], queue := s.queue[1..])
      else s.(writer := false, broken := true, queue := [])
    case WriterEnds => s.(writer := false)
    case WriterJoined => s.(phase := Closed)
  }

  // ----- senders and delivery -----

  predicate SendersInv(s: Session) {
    match s.phase
    case AwaitFirst => s == NEW
    case DropThenSend => s.tx && s.termTx && !s.live && !s.permit && s.text
    case SendRefusal => !s.tx && s.termTx && !s.live && !s.permit && s.text
    case SendThenDrop => s.tx && s.termTx && !s.live && !s.permit && s.text
    case DropRunSender => s.tx && s.termTx && !s.live && !s.permit && s.text
    case Running => (s.tx <==> s.live) && s.termTx && s.permit && s.text && (!s.live ==> s.result.Some?)
    case Aborting => (s.tx <==> s.live) && s.termTx && s.permit && s.text
    case Joined(_) => !s.tx && s.termTx && !s.live && s.permit && s.text
    case Releasing => !s.tx && s.termTx && !s.live && s.permit && s.text
    case DropLastSender => !s.tx && s.termTx && !s.live && !s.permit && s.text
    case AwaitWriter => !s.tx && !s.termTx && !s.live && !s.permit && s.text
    case Closed => !s.tx && !s.termTx && !s.live && !s.permit && !s.writer
  }

  predicate Flows(delivered: seq<Frame>, queue: seq<Frame>, emitted: seq<Frame>, writer: bool, broken: bool) {
    && (writer ==> delivered + queue == emitted && !broken)
    && (!writer ==> queue == [])
    && delivered <= emitted
    && (!writer && !broken ==> delivered == emitted)
  }

  /** Delivery is a prefix of what was sent, and complete until the socket breaks. */
  predicate DeliveryInv(s: Session) {
    && Flows(s.delivered, s.queue, s.emitted, s.writer, s.broken)
    && (!s.writer && !s.broken ==> s.phase.AwaitFirst? || s.phase.AwaitWriter? || s.phase.Closed?)
  }

  predicate Inv(s: Session) {
    SendersInv(s) && DeliveryInv(s)
  }

  lemma StepKeepsSenders(s: Session, a: Action, free: bool)
    requires Inv(s) && Enabled(s, a)
    ensures SendersInv(Next(s, a, free))
  {
  }

  lemma FlowsEnqueued(d: seq<Frame>, q: seq<Frame>, e: seq<Frame>, writer: bool, broken: bool, f: Frame)
    requires Flows(d, q, e, writer, broken) && (writer || broken)
    ensures Flows(d, if writer then q + [f] else q, e + [f], writer, broken)
  {
    if writer {
      assert d + (q + [f]) == e + [f];
    }
  }

  lemma FlowsSent(d: seq<Frame>, q: seq<Frame>, e: seq<Frame>)
    requires Flows(d, q, e, true, false) && q != []
    ensures Flows(d + [q[0]], q[1..], e, true, false)
  {
    assert d + [q[0]] + q[1..] == d + q;
  }

  lemma StepKeepsDelivery(s: Session, a: Action, free: bool)
    requires Inv(s) && Enabled(s, a)
    ensures DeliveryInv(Next(s, a, free))
  {
    match a {
      case RunEmits(e) => FlowsEnqueued(s.delivered, s.queue, s.emitted, s.writer, s.broken, Event(e));
      case Refuse(error) => FlowsEnqueued(s.delivered, s.queue, s.emitted, s.writer, s.broken,
        Frame.Server(Error(error)));
      case SendTerminal => FlowsEnqueued(s.delivered, s.queue, s.emitted, s.writer, s.broken,
        Frame.Server(s.phase.outcome));
      case WriterSends(accepted) =>
        if accepted {
          FlowsSent(s.delivered, s.queue, s.emitted);
        }
      case _ =>
    }
  }

  lemma StepKeepsInv(s: Session, a: Action, free: bool)
    requires Inv(s) && Enabled(s, a)
    ensures Inv(Next(s, a, free))
  {
    StepKeepsSenders(s, a, free);
    StepKeepsDelivery(s, a, free);
  }

  // ----- the server -----

  datatype ServerAction = Connect | Act(i: nat, a: Action)

  predicate ServerEnabled(v: ServerState, a: ServerAction) {
    a.Act? ==> a.i < |v.sessions| && Enabled(v.sessions[a.i], a.a)
  }

  function ServerNext(v: ServerState, a: ServerAction): ServerState
    requires ServerEnabled(v, a)
  {
    match a
    case Connect => v.(sessions := v.sessions + [NEW])
    case Act(i, step) =>
      var before, after := v.sessions[i], Next(v.sessions[i], step, v.permits > 0);
      ServerState(v.sessions[i := after],
             if after.permit && !before.permit && v.permits > 0 then v.permits - 1
             else if before.permit && !after.permit then v.permits + 1
             else v.permits)
  }

  ghost predicate StepOf(states: seq<ServerState>, actions: seq<ServerAction>, i: nat)
    requires |states| == |actions| + 1 && i < |actions|
  {
    ServerEnabled(states[i], actions[i]) && states[i + 1] == ServerNext(states[i], actions[i])
  }

  /** Any number of sessions, in any order of frames and steps. */
  ghost predicate IsRun(states: seq<ServerState>, actions: seq<ServerAction>) {
    && |states| == |actions| + 1 && states[0] == ServerState([], 1)
    && forall i {:trigger StepOf(states, actions, i)} :: 0 <= i < |actions| ==> StepOf(states, actions, i)
  }

  function Held(sessions: seq<Session>): nat {
    if sessions == [] then 0
    else Held(sessions[..|sessions| - 1]) + One(sessions[|sessions| - 1].permit)
  }

  function One(b: bool): nat {
    if b then 1 else 0
  }

  lemma {:induction false} HeldUpdate(sessions: seq<Session>, i: nat, s: Session)
    requires i < |sessions|
    ensures Held(sessions[i := s]) + One(sessions[i].permit) == Held(sessions) + One(s.permit)
  {
    var n := |sessions| - 1;
    if i == n {
      assert sessions[i := s][..n] == sessions[..n];
    } else {
      HeldUpdate(sessions[..n], i, s);
      assert sessions[i := s][..n] == sessions[..n][i := s];
    }
  }

  lemma {:induction false} TwoHoldersCount(sessions: seq<Session>, i: nat, j: nat)
    requires i < |sessions| && j < |sessions| && sessions[i].permit
    ensures Held(sessions) >= 1
    ensures i != j && sessions[j].permit ==> Held(sessions) >= 2
  {
    var n := |sessions| - 1;
    if i < n && j < n {
      TwoHoldersCount(sessions[..n], i, j);
    } else if i < n {
      TwoHoldersCount(sessions[..n], i, i);
    } else if j < n && sessions[j].permit {
      TwoHoldersCount(sessions[..n], j, j);
    }
  }

  ghost predicate ServerInv(v: ServerState) {
    && v.permits + Held(v.sessions) == 1
    && forall i :: 0 <= i < |v.sessions| ==> Inv(v.sessions[i])
  }

  lemma ServerStepKeepsInv(v: ServerState, a: ServerAction)
    requires ServerInv(v) && ServerEnabled(v, a)
    ensures ServerInv(ServerNext(v, a))
  {
    match a {
      case Connect => ConnectKeepsInv(v);
      case Act(i, step) =>
        StepKeepsInv(v.sessions[i], step, v.permits > 0);
        PermitIsConserved(v, i, step);
    }
  }

  lemma HeldPush(sessions: seq<Session>, s: Session)
    ensures Held(sessions + [s]) == Held(sessions) + One(s.permit)
  {
    assert (sessions + [s])[..|sessions|] == sessions;
  }

  lemma ConnectKeepsInv(v: ServerState)
    requires ServerInv(v)
    ensures ServerInv(ServerNext(v, Connect))
  {
    HeldPush(v.sessions, NEW);
    assert Inv(NEW);
  }

  lemma PermitIsConserved(v: ServerState, i: nat, step: Action)
    requires ServerInv(v) && i < |v.sessions| && Enabled(v.sessions[i], step)
    ensures var v' := ServerNext(v, Act(i, step)); v'.permits + Held(v'.sessions) == 1
  {
    HeldUpdate(v.sessions, i, Next(v.sessions[i], step, v.permits > 0));
    assert Inv(v.sessions[i]);
  }

  lemma {:induction false} RunInv(states: seq<ServerState>, actions: seq<ServerAction>, n: nat)
    requires IsRun(states, actions) && n < |states|
    ensures ServerInv(states[n])
  {
    if n > 0 {
      RunInv(states, actions, n - 1);
      assert StepOf(states, actions, n - 1);
      ServerStepKeepsInv(states[n - 1], actions[n - 1]);
    }
  }

  // ----- the protocol's promises -----

  /** At most one run is live on the whole server, at every moment. */
  lemma OneRunAtATime(states: seq<ServerState>, actions: seq<ServerAction>, n: nat, i: nat, j: nat)
    requires IsRun(states, actions) && n < |states| && i < |states[n].sessions| && j < |states[n].sessions|
    requires states[n].sessions[i].live && states[n].sessions[j].live
    ensures i == j && states[n].permits == 0
  {
    RunInv(states, actions, n);
    assert Inv(states[n].sessions[i]) && Inv(states[n].sessions[j]);
    TwoHoldersCount(states[n].sessions, i, j);
  }

  // ----- what a session was told, and what it says -----

  /** What happened to one session: whether it got to run, how the run went, and whether its client cancelled. */
  datatype Story = Story(started: bool, cancelled: bool, ended: Option<ServerFrame>, events: seq<AgentEvent>)

  const UNTOLD := Story(false, false, None, [])

  function StoryNext(h: Story, a: Action, free: bool): Story {
    match a
    case FirstConduct(inRoot) => h.(started := inRoot && free)
    case ClientCancels => h.(cancelled := true)
    case RunEnds(outcome) => h.(ended := Some(outcome))
    case RunEmits(e) => h.(events := h.events + [e])
    case _ => h
  }

  /** The client of session `i` cancelled, or closed the socket, before step `n`. */
  ghost predicate CancelledBefore(actions: seq<ServerAction>, i: nat, n: int) {
    exists j :: 0 <= j < n && j < |actions| && actions[j] == Act(i, ClientCancels)
  }

  /** The run of session `i` ended with `outcome` before step `n`. */
  ghost predicate EndedBefore(actions: seq<ServerAction>, i: nat, outcome: ServerFrame, n: int) {
    exists j :: 0 <= j < n && j < |actions| && actions[j] == Act(i, RunEnds(outcome))
  }

  ghost predicate NobodyRuns(v: ServerState) {
    forall j :: 0 <= j < |v.sessions| ==> !v.sessions[j].permit
  }

  /** Step `j` is a first frame of session `i` that describes a run inside the root, while no session runs. */
  ghost predicate StartsAt(states: seq<ServerState>, actions: seq<ServerAction>, i: nat, j: int)
    requires |states| == |actions| + 1
  {
    0 <= j < |actions| && actions[j] == Act(i, FirstConduct(true)) && NobodyRuns(states[j])
  }

  ghost predicate StartedBefore(states: seq<ServerState>, actions: seq<ServerAction>, i: nat, n: int)
    requires |states| == |actions| + 1
  {
    exists j :: j < n && StartsAt(states, actions, i, j)
  }

  predicate EmitsFor(i: nat, a: ServerAction) {
    a.Act? && a.i == i && a.a.RunEmits?
  }

  function EventIn(a: ServerAction): AgentEvent {
    if a.Act? && a.a.RunEmits? then a.a.event else Paused
  }

  /** `events` are those that the run of session `i` emitted before step `n`, in order. */
  ghost predicate EmittedBefore(actions: seq<ServerAction>, i: nat, events: seq<AgentEvent>, n: nat) {
    n <= |actions| && events == Filter(actions[..n], a => EmitsFor(i, a), EventIn)
  }

  /** `h` is what the first `n` steps tell of session `i`. */
  ghost predicate IsStory(states: seq<ServerState>, actions: seq<ServerAction>, i: nat, n: nat, h: Story)
    requires |states| == |actions| + 1
  {
    && (h.started <==> StartedBefore(states, actions, i, n))
    && (h.cancelled <==> CancelledBefore(actions, i, n))
    && EndedAs(actions, i, n, h.ended)
    && EmittedBefore(actions, i, h.events, n)
  }

  /** The one frame by which a session that ran reports how. */
  ghost predicate Reports(h: Story, t: ServerFrame) {
    if h.cancelled then t == RunCancelled else h.ended == Some(t) && RunOutcome(t)
  }

  /** The run's events, then that frame. */
  ghost predicate SaysAll(emitted: seq<Frame>, h: Story) {
    && |emitted| == |h.events| + 1 && emitted[..|h.events|] == AsFrames(h.events)
    && emitted[|h.events|].Server? && Reports(h, emitted[|h.events|].frame)
  }

  /** A refusal, and nothing else. */
  predicate SaysNo(emitted: seq<Frame>) {
    |emitted| == 1 && emitted[0].Server? && emitted[0].frame.Error?
  }

  /** The run's end as the session knows it. */
  predicate TellsEnd(s: Session, h: Story) {
    s.result == h.ended && (s.live ==> h.ended == None) && (h.ended.Some? ==> RunOutcome(h.ended.value))
  }

  /** The session's frames against what it was told, by phase. */
  ghost predicate Speaks(s: Session, h: Story) {
    match s.phase
    case AwaitFirst => h == UNTOLD && s.emitted == []
    case DropThenSend => h == UNTOLD && s.emitted == []
    case SendRefusal => h == UNTOLD && s.emitted == []
    case SendThenDrop => h == UNTOLD && s.emitted == []
    case DropRunSender => h == UNTOLD && SaysNo(s.emitted)
    case Running => h.started && !h.cancelled && s.emitted == AsFrames(h.events)
    case Aborting => h.started && h.cancelled && s.emitted == AsFrames(h.events)
    case Joined(outcome) => h.started && Reports(h, outcome) && s.emitted == AsFrames(h.events)
    case Releasing => h.started && SaysAll(s.emitted, h)
    case _ =>
      if h.started then s.text && SaysAll(s.emitted, h)
      else h == UNTOLD && if s.text then SaysNo(s.emitted) else s.emitted == []
  }

  ghost predicate Tells(s: Session, h: Story) {
    TellsEnd(s, h) && Speaks(s, h)
  }

  lemma EventTold(h: Story, e: AgentEvent)
    ensures AsFrames(h.events) + [Event(e)] == AsFrames(h.events + [e])
  {
  }

  lemma StepKeepsEnd(s: Session, a: Action, free: bool, h: Story)
    requires Inv(s) && Enabled(s, a) && Tells(s, h)
    ensures TellsEnd(Next(s, a, free), StoryNext(h, a, free))
  {
    match a {
      case FirstConduct(_) =>
      case RunEnds(_) =>
      case RunIsKilled =>
      case _ =>
    }
  }

  lemma StepKeepsSpeech(s: Session, a: Action, free: bool, h: Story)
    requires Inv(s) && Enabled(s, a) && Tells(s, h)
    ensures Speaks(Next(s, a, free), StoryNext(h, a, free))
  {
    match a {
      case RunEmits(e) => EventTold(h, e);
      case SendTerminal =>
        var emitted := s.emitted + [Frame.Server(s.phase.outcome)];
        assert emitted[..|h.events|] == AsFrames(h.events);
      case _ =>
    }
  }

  lemma StepKeepsStory(s: Session, a: Action, free: bool, h: Story)
    requires Inv(s) && Enabled(s, a) && Tells(s, h)
    ensures Tells(Next(s, a, free), StoryNext(h, a, free))
  {
    StepKeepsEnd(s, a, free, h);
    StepKeepsSpeech(s, a, free, h);
  }

  lemma CancelledStep(actions: seq<ServerAction>, i: nat, n: nat)
    requires n < |actions|
    ensures CancelledBefore(actions, i, n + 1) <==>
      CancelledBefore(actions, i, n) || actions[n] == Act(i, ClientCancels)
  {
    assert 0 <= n < n + 1;
  }

  /** The run of session `i` ended before step `n` exactly as `ended` says. */
  ghost predicate EndedAs(actions: seq<ServerAction>, i: nat, n: nat, ended: Option<ServerFrame>) {
    forall o :: ended == Some(o) <==> EndedBefore(actions, i, o, n)
  }

  lemma EndedStep(actions: seq<ServerAction>, i: nat, n: nat, ended: Option<ServerFrame>)
    requires n < |actions| && EndedAs(actions, i, n, ended)
    requires actions[n].Act? && actions[n].i == i && actions[n].a.RunEnds? ==> ended == None
    ensures EndedAs(actions, i, n + 1,
                    if actions[n].Act? && actions[n].i == i && actions[n].a.RunEnds? then Some(actions[n].a.outcome)
                    else ended)
  {
    forall o ensures EndedBefore(actions, i, o, n + 1) <==>
                     EndedBefore(actions, i, o, n) || actions[n] == Act(i, RunEnds(o))
    {
      assert 0 <= n < n + 1;
    }
  }

  lemma StartedStep(states: seq<ServerState>, actions: seq<ServerAction>, i: nat, n: nat)
    requires |states| == |actions| + 1 && n < |actions|
    ensures StartedBefore(states, actions, i, n + 1) <==>
      StartedBefore(states, actions, i, n) || StartsAt(states, actions, i, n)
  {
  }

  lemma EmittedStep(actions: seq<ServerAction>, i: nat, events: seq<AgentEvent>, n: nat)
    requires n < |actions| && EmittedBefore(actions, i, events, n)
    ensures EmittedBefore(actions, i, if EmitsFor(i, actions[n]) then events + [EventIn(actions[n])] else events, n + 1)
  {
    assert actions[..n + 1] == actions[..n] + [actions[n]];
    FilterPush(actions[..n], a => EmitsFor(i, a), EventIn, actions[n]);
  }

  lemma {:induction false} NobodyHolds(sessions: seq<Session>)
    ensures Held(sessions) == 0 <==> forall j :: 0 <= j < |sessions| ==> !sessions[j].permit
  {
    if sessions != [] {
      NobodyHolds(sessions[..|sessions| - 1]);
    }
  }

  lemma NothingTold(states: seq<ServerState>, actions: seq<ServerAction>, i: nat)
    requires |states| == |actions| + 1
    ensures IsStory(states, actions, i, 0, UNTOLD)
  {
    assert actions[..0] == [];
  }

  /** What one step of the server tells of session `i`. */
  function StoryAfter(h: Story, i: nat, a: ServerAction, free: bool): Story {
    if a.Act? && a.i == i then StoryNext(h, a.a, free) else h
  }

  lemma StoryAfterIs(h: Story, i: nat, a: ServerAction, free: bool)
    requires a.Act? && a.i == i && a.a.FirstConduct? ==> !h.started
    ensures var h' := StoryAfter(h, i, a, free);
      && (h'.started <==> h.started || (a == Act(i, FirstConduct(true)) && free))
      && (h'.cancelled <==> h.cancelled || a == Act(i, ClientCancels))
      && h'.ended == (if a.Act? && a.i == i && a.a.RunEnds? then Some(a.a.outcome) else h.ended)
      && h'.events == (if EmitsFor(i, a) then h.events + [EventIn(a)] else h.events)
  {
  }

  lemma StoryStep(states: seq<ServerState>, actions: seq<ServerAction>, i: nat, n: nat, h: Story)
    requires |states| == |actions| + 1 && n < |actions| && IsStory(states, actions, i, n, h)
    requires NobodyRuns(states[n]) <==> states[n].permits > 0
    requires actions[n].Act? && actions[n].i == i && actions[n].a.RunEnds? ==> h.ended == None
    requires actions[n].Act? && actions[n].i == i && actions[n].a.FirstConduct? ==> !h.started
    ensures IsStory(states, actions, i, n + 1, StoryAfter(h, i, actions[n], states[n].permits > 0))
  {
    StoryAfterIs(h, i, actions[n], states[n].permits > 0);
    CancelledStep(actions, i, n);
    EndedStep(actions, i, n, h.ended);
    StartedStep(states, actions, i, n);
    EmittedStep(actions, i, h.events, n);
  }

  /** Nothing is told of a session that does not exist yet. */
  ghost predicate TellsAt(v: ServerState, i: nat, h: Story) {
    if i < |v.sessions| then Tells(v.sessions[i], h) else h == UNTOLD
  }

  lemma ServerStepTells(v: ServerState, a: ServerAction, i: nat, h: Story)
    requires ServerInv(v) && ServerEnabled(v, a) && TellsAt(v, i, h)
    ensures TellsAt(ServerNext(v, a), i, StoryAfter(h, i, a, v.permits > 0))
    ensures NobodyRuns(v) <==> v.permits > 0
    ensures a.Act? && a.i == i && a.a.RunEnds? ==> h.ended == None
    ensures a.Act? && a.i == i && a.a.FirstConduct? ==> !h.started
  {
    NobodyHolds(v.sessions);
    if a.Act? && a.i == i {
      StepKeepsStory(v.sessions[i], a.a, v.permits > 0, h);
    }
  }

  /** The story along a run. */
  lemma {:induction false} StoryAlong(states: seq<ServerState>, actions: seq<ServerAction>, n: nat, i: nat)
    returns (h: Story)
    requires IsRun(states, actions) && n < |states|
    ensures IsStory(states, actions, i, n, h) && TellsAt(states[n], i, h)
  {
    if n == 0 {
      h := UNTOLD;
      NothingTold(states, actions, i);
    } else {
      h := StoryAlong(states, actions, n - 1, i);
      RunInv(states, actions, n - 1);
      assert StepOf(states, actions, n - 1);
      ServerStepTells(states[n - 1], actions[n - 1], i, h);
      StoryStep(states, actions, i, n - 1, h);
      h := StoryAfter(h, i, actions[n - 1], states[n - 1].permits > 0);
    }
  }

  /**
    A closed session that got to run sent its run's events, in order, and then exactly one frame: the cancellation
    if its client cancelled, else the outcome with which the run ended. One that was refused sent one error, and
    one that never spoke sent nothing. What the client got is a prefix, and all of it unless the socket broke.
   */
  lemma OneServerFrame(states: seq<ServerState>, actions: seq<ServerAction>, n: nat, i: nat) returns (h: Story)
    requires IsRun(states, actions) && n < |states| && i < |states[n].sessions| && states[n].sessions[i].phase.Closed?
    ensures IsStory(states, actions, i, n, h) && (!h.started ==> h == UNTOLD)
    ensures var s := states[n].sessions[i];
      && (if h.started then
            s.text && exists t ::
              && s.emitted == AsFrames(h.events) + [Frame.Server(t)]
              && (if h.cancelled then t == RunCancelled else h.ended == Some(t) && (t.RunComplete? || t.RunError?))
          else if s.text then exists error :: s.emitted == [Frame.Server(Error(error))]
          else s.emitted == [])
      && s.delivered <= s.emitted && (!s.broken ==> s.delivered == s.emitted)
  {
    h := StoryAlong(states, actions, n, i);
    RunInv(states, actions, n);
    var s := states[n].sessions[i];
    assert Inv(s);
    if h.started {
      assert s.emitted == AsFrames(h.events) + [Frame.Server(s.emitted[|h.events|].frame)];
    } else if s.text {
      assert s.emitted == [Frame.Server(Error(s.emitted[0].frame.error))];
    }
  }

  /** Phases in which a session that ran has sent its last frame. */
  predicate Reported(p: Phase) {
    p.Releasing? || p.DropLastSender? || p.AwaitWriter? || p.Closed?
  }

  /**
    Once a session that got to run has sent its last frame, that is the cancellation exactly when its client
    cancelled before the join, whether or not the run had already finished; otherwise it is the run's own outcome.
   */
  lemma CancelDecides(states: seq<ServerState>, actions: seq<ServerAction>, n: nat, i: nat)
    requires IsRun(states, actions) && n < |states| && i < |states[n].sessions|
    requires StartedBefore(states, actions, i, n) && Reported(states[n].sessions[i].phase)
    ensures var s := states[n].sessions[i];
      && s.emitted != []
      && (s.emitted[|s.emitted| - 1] == Frame.Server(RunCancelled) <==> CancelledBefore(actions, i, n))
      && (!CancelledBefore(actions, i, n) ==>
           && s.result.Some? && EndedBefore(actions, i, s.result.value, n)
           && s.emitted[|s.emitted| - 1] == Frame.Server(s.result.value))
  {
    var h := StoryAlong(states, actions, n, i);
  }

  /** A first frame gets its session a run exactly when it describes one inside the root while no session runs. */
  lemma RunsExactlyWhenFree(states: seq<ServerState>, actions: seq<ServerAction>, n: nat, i: nat, inRoot: bool)
    requires IsRun(states, actions) && n < |actions| && actions[n] == Act(i, FirstConduct(inRoot))
    ensures i < |states[n].sessions| == |states[n + 1].sessions|
    ensures states[n + 1].sessions[i].live <==> inRoot && NobodyRuns(states[n])
  {
    RunInv(states, actions, n);
    assert StepOf(states, actions, n);
    NobodyHolds(states[n].sessions);
    assert Inv(states[n].sessions[i]);
  }

  lemma Extend(states: seq<ServerState>, actions: seq<ServerAction>, a: ServerAction)
    returns (states': seq<ServerState>, actions': seq<ServerAction>)
    requires IsRun(states, actions) && ServerEnabled(states[|actions|], a)
    ensures IsRun(states', actions') && actions' == actions + [a]
    ensures states'[|actions'|] == ServerNext(states[|actions|], a)
  {
    states', actions' := states + [ServerNext(states[|actions|], a)], actions + [a];
    forall k | 0 <= k < |actions'| ensures StepOf(states', actions', k) {
      assert k < |actions| ==> StepOf(states, actions, k);
    }
  }

  /** A run that had finished with any outcome can still be reported as cancelled. */
  lemma FinishedRunReportedCancelled(outcome: ServerFrame)
    returns (states: seq<ServerState>, actions: seq<ServerAction>)
    requires RunOutcome(outcome)
    ensures IsRun(states, actions) && |states[|actions|].sessions| == 1
    ensures var s := states[|actions|].sessions[0];
      s.result == Some(outcome) && s.emitted == [Frame.Server(RunCancelled)]
  {
    states, actions := [ServerState([], 1)], [];
    states, actions := Extend(states, actions, Connect);
    states, actions := Extend(states, actions, Act(0, FirstConduct(true)));
    states, actions := Extend(states, actions, Act(0, RunEnds(outcome)));
    states, actions := Extend(states, actions, Act(0, ClientCancels));
    states, actions := Extend(states, actions, Act(0, Join));
    states, actions := Extend(states, actions, Act(0, SendTerminal));
  }

  /** When the writer is awaited no sender is alive, so the writer ends once its queue is empty. */
  lemma NoSenderWhileAwaitingWriter(states: seq<ServerState>, actions: seq<ServerAction>, n: nat, i: nat)
    requires IsRun(states, actions) && n < |states| && i < |states[n].sessions|
    requires states[n].sessions[i].phase.AwaitWriter?
    ensures var s := states[n].sessions[i];
      && !s.tx && !s.termTx
      && (s.writer && s.queue == [] ==> Enabled(s, WriterEnds))
      && (s.writer && s.queue != [] ==> forall accepted :: Enabled(s, WriterSends(accepted)))
      && (!s.writer ==> Enabled(s, WriterJoined))
  {
    RunInv(states, actions, n);
    assert Inv(states[n].sessions[i]);
  }

  /** Steps the server itself takes; the others wait for the client or the run. */
  predicate ByServer(a: Action) {
    a.Refuse? || a.DropTx? || a.RunIsKilled? || a.Join? || a.SendTerminal? || a.ReleasePermit? || a.DropTermTx?
    || a.WriterSends? || a.WriterEnds? || a.WriterJoined?
  }

  function Rank(p: Phase): nat {
    match p
    case AwaitFirst => 0
    case Closed => 0
    case AwaitWriter => 1
    case DropLastSender => 2
    case DropRunSender => 3
    case Releasing => 3
    case SendRefusal => 5
    case SendThenDrop => 6
    case DropThenSend => 6
    case Joined(_) => 6
    case Aborting => 7
    case Running => 7
  }

  /** Server steps left before the session closes, once it no longer waits. */
  function Left(s: Session): nat {
    2 * Rank(s.phase) + |s.queue| + One(s.writer) + One(s.live)
  }

  /**
    No deadlock: a session that is not closed can take a step of its own, unless it waits for its client's first frame
    or for its own live run.
   */
  lemma NeverDeadlocks(s: Session)
    requires Inv(s) && !s.phase.AwaitFirst? && !s.phase.Closed? && !(s.phase.Running? && s.live)
    ensures exists b :: ByServer(b) && Enabled(s, b)
  {
    var b := match s.phase
      case DropThenSend => DropTx
      case SendRefusal => Refuse("")
      case SendThenDrop => Refuse("")
      case DropRunSender => DropTx
      case Aborting => if s.live then RunIsKilled else Join
      case Joined(_) => SendTerminal
      case Releasing => ReleasePermit
      case DropLastSender => DropTermTx
      case AwaitWriter => if !s.writer then WriterJoined else if s.queue == [] then WriterEnds else WriterSends(true)
      case _ => Join;
    assert ByServer(b) && Enabled(s, b);
  }

  /** Every step of its own brings the session closer to its end. */
  lemma ServerStepsRunOut(s: Session, a: Action, free: bool)
    requires Inv(s) && Enabled(s, a) && ByServer(a)
    ensures Left(Next(s, a, free)) < Left(s)
  {
  }
}
