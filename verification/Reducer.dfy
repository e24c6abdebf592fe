/** The client's fold over server frames and socket actions (ui/src/session/reducer.ts). */
module Reducer {
  import opened Wrappers
  import opened Events
  import opened Sequences

  datatype Connection = NotConnected | Connecting | Open | Closed | Broken

  datatype Phase = Idle | Running | Finished | Errored

  datatype SessionInfo = SessionInfo(sessionId: string, provider: Provider, model: Option<string>)

  datatype Tokens = Tokens(input: nat, output: nat)

  datatype SessionState = SessionState(
    phase: Phase, connection: Connection, session: Option<SessionInfo>, events: seq<AgentEvent>, usage: Tokens,
    files: seq<string>, terminal: Option<ServerFrame>, cancelled: bool, paused: bool, error: Option<string>)

  const INITIAL := SessionState(Idle, NotConnected, None, [], Tokens(0, 0), [], None, false, false, None)

  datatype Action =
    | Start
    | SocketOpen
    | Receive(frame: Frame)
    | ParseError(raw: string)
    | SocketClosed
    | SocketError(message: string)
    | Reset

  const UNPARSEABLE := "unparseable frame: "

  function Keep(error: Option<string>, message: string): Option<string> {
    if error.Some? then error else Some(message)
  }

  function AfterTrouble(s: SessionState, message: string): SessionState {
    s.(phase := if s.phase.Finished? then Finished else Errored, error := Keep(s.error, message))
  }

  function Reduce(s: SessionState, a: Action): SessionState {
    match a
    case Start => INITIAL.(phase := Running, connection := Connecting)
    case SocketOpen => s.(connection := Open)
    case Receive(f) => FoldFrame(s, f)
    case ParseError(raw) => AfterTrouble(s, UNPARSEABLE + raw)
    case SocketError(message) => AfterTrouble(s, message).(connection := Broken)
    case SocketClosed => s.(connection := Closed)
    case Reset => INITIAL
  }

  function FoldFrame(s: SessionState, f: Frame): SessionState {
    match f
    case Event(e) =>
      if e.Paused? then AppendEvent(s, e).(paused := true)
      else if e.Resumed? then AppendEvent(s, e).(paused := false)
      else AppendEvent(s, e)
    case Server(t) =>
      match t
      case RunComplete(_, _, _) => s.(phase := Finished, terminal := Some(t), error := None, paused := false)
      case RunCancelled => s.(phase := Finished, cancelled := true, error := None, paused := false)
      case RunError(error) => s.(phase := Errored, error := Some(error), paused := false)
      case Error(error) => s.(phase := Errored, error := Some(error))
  }

  function AppendEvent(s: SessionState, e: AgentEvent): SessionState {
    var t := s.(events := s.events + [e]);
    match e
    case SessionStarted(id, provider, model) => t.(session := Some(SessionInfo(id, provider, model)))
    case Usage(input, output) => t.(usage := Tokens(s.usage.input + input, s.usage.output + output))
    case FileChanged(path) => t.(files := if path in s.files then s.files else s.files + [path])
    case _ => t
  }

  function FoldFrames(s: SessionState, frames: seq<Frame>): SessionState {
    if frames == [] then s else FoldFrame(FoldFrames(s, frames[..|frames| - 1]), frames[|frames| - 1])
  }

  function ReduceAll(s: SessionState, actions: seq<Action>): SessionState {
    if actions == [] then s else Reduce(ReduceAll(s, actions[..|actions| - 1]), actions[|actions| - 1])
  }

  // ----- what the summary slices must be -----

  function TokenSum(events: seq<AgentEvent>): Tokens {
    if events == [] then Tokens(0, 0)
    else
      var before, last := TokenSum(events[..|events| - 1]), events[|events| - 1];
      if last.Usage? then Tokens(before.input + last.inputTokens, before.output + last.outputTokens) else before
  }

  /** Event `k` is the first to name its path. */
  predicate FirstMention(events: seq<AgentEvent>, k: int, path: string) {
    && 0 <= k < |events| && events[k] == FileChanged(path)
    && forall j :: 0 <= j < k ==> events[j] != FileChanged(path)
  }

  /** `files` lists the distinct changed paths in the order of their first mention, at the positions `at`. */
  ghost predicate Mentions(events: seq<AgentEvent>, files: seq<string>, at: seq<int>) {
    && |at| == |files|
    && (forall i :: 0 <= i < |files| ==> FirstMention(events, at[i], files[i]))
    && Ascending(at)
    && (forall k :: 0 <= k < |events| && events[k].FileChanged? ==> events[k].path in files)
  }

  /** Event `k` announces a pause, and no later one a resume. */
  predicate PausedSince(events: seq<AgentEvent>, k: int) {
    0 <= k < |events| && events[k].Paused? && forall j :: k < j < |events| ==> !events[j].Resumed?
  }

  /** A pause was announced and no resume after it. */
  ghost predicate OnHold(events: seq<AgentEvent>) {
    exists k :: PausedSince(events, k)
  }

  /** Event `k` is the latest start of a session. */
  predicate StartedAt(events: seq<AgentEvent>, k: int, info: SessionInfo) {
    && 0 <= k < |events| && events[k] == SessionStarted(info.sessionId, info.provider, info.model)
    && forall j :: k < j < |events| ==> !events[j].SessionStarted?
  }

  /** `session` is what the latest start announced, if there was one. */
  ghost predicate Announced(events: seq<AgentEvent>, session: Option<SessionInfo>) {
    match session
    case None => forall k :: 0 <= k < |events| ==> !events[k].SessionStarted?
    case Some(info) => exists k :: StartedAt(events, k, info)
  }

  const OPENED := INITIAL.(phase := Running, connection := Open)

  /** The state of a client that opened a session and then received `events`. */
  ghost predicate Shows(s: SessionState, events: seq<AgentEvent>) {
    s.events == events && s.usage == TokenSum(events) && ListsFiles(events, s.files) && Announced(events, s.session)
  }

  /** The distinct changed paths, in the order of their first mention. */
  ghost predicate ListsFiles(events: seq<AgentEvent>, files: seq<string>) {
    exists at :: Mentions(events, files, at)
  }

  /** These rules leave only one list of files. */
  lemma FilesAreDetermined(events: seq<AgentEvent>, f: seq<string>, g: seq<string>)
    requires ListsFiles(events, f) && ListsFiles(events, g)
    ensures f == g
  {
    var a :| Mentions(events, f, a);
    var b :| Mentions(events, g, b);
    SameMentions(events, f, a, g, b);
    SameMentions(events, g, b, f, a);
    AscendingSameMembers(a, b);
    forall i | 0 <= i < |f| ensures f[i] == g[i] {
      assert FirstMention(events, a[i], f[i]) && FirstMention(events, b[i], g[i]);
    }
  }

  lemma SameMentions(events: seq<AgentEvent>, f: seq<string>, a: seq<int>, g: seq<string>, b: seq<int>)
    requires Mentions(events, f, a) && Mentions(events, g, b)
    ensures forall x :: x in a ==> x in b
  {
    forall x | x in a ensures x in b {
      var i :| 0 <= i < |a| && a[i] == x;
      assert FirstMention(events, a[i], f[i]) && events[x].FileChanged?;
      var j :| 0 <= j < |g| && g[j] == f[i];
      assert FirstMention(events, b[j], g[j]);
      assert b[j] == x;
    }
  }

  lemma MentionsStep(events: seq<AgentEvent>, files: seq<string>, at: seq<int>, e: AgentEvent) returns (at': seq<int>)
    requires Mentions(events, files, at)
    ensures Mentions(events + [e], if e.FileChanged? && e.path !in files then files + [e.path] else files, at')
  {
    var n := |events|;
    at' := if e.FileChanged? && e.path !in files then at + [n] else at;
    forall i | 0 <= i < |files| ensures FirstMention(events + [e], at[i], files[i]) {
      assert FirstMention(events, at[i], files[i]);
    }
    if e.FileChanged? && e.path !in files {
      NewMention(events, files, at, e);
    }
  }

  lemma NewMention(events: seq<AgentEvent>, files: seq<string>, at: seq<int>, e: AgentEvent)
    requires Mentions(events, files, at) && e.FileChanged? && e.path !in files
    ensures FirstMention(events + [e], |events|, e.path)
  {
    forall j | 0 <= j < |events| ensures events[j] != e {
      assert events[j].FileChanged? ==> events[j].path in files;
    }
  }

  lemma ListsFilesStep(events: seq<AgentEvent>, files: seq<string>, e: AgentEvent)
    requires ListsFiles(events, files)
    ensures ListsFiles(events + [e], if e.FileChanged? && e.path !in files then files + [e.path] else files)
  {
    var at :| Mentions(events, files, at);
    var at' := MentionsStep(events, files, at, e);
  }

  lemma FoldPush(s: SessionState, frames: seq<Frame>, f: Frame)
    ensures FoldFrames(s, frames + [f]) == FoldFrame(FoldFrames(s, frames), f)
  {
    assert (frames + [f])[..|frames|] == frames;
  }

  /** What one event changes. */
  lemma EventIsFolded(s: SessionState, e: AgentEvent)
    ensures var s' := FoldFrame(s, Event(e));
      && s'.events == s.events + [e]
      && s'.usage ==
           (if e.Usage? then Tokens(s.usage.input + e.inputTokens, s.usage.output + e.outputTokens) else s.usage)
      && s'.session ==
           (if e.SessionStarted? then Some(SessionInfo(e.sessionId, e.provider, e.model)) else s.session)
      && s'.files == (if e.FileChanged? && e.path !in s.files then s.files + [e.path] else s.files)
      && s'.paused == (e.Paused? || (s.paused && !e.Resumed?))
      && s'.phase == s.phase && s'.connection == s.connection && s'.terminal == s.terminal
      && s'.cancelled == s.cancelled && s'.error == s.error
  {
  }

  lemma EventIsShown(s: SessionState, events: seq<AgentEvent>, e: AgentEvent)
    requires Shows(s, events)
    ensures Shows(FoldFrame(s, Event(e)), events + [e])
  {
    EventIsFolded(s, e);
    AnnouncedStep(events, s.session, e);
    TokensStep(events, e);
    ListsFilesStep(events, s.files, e);
  }

  lemma AnnouncedStep(events: seq<AgentEvent>, session: Option<SessionInfo>, e: AgentEvent)
    requires Announced(events, session)
    ensures Announced(events + [e],
                      if e.SessionStarted? then Some(SessionInfo(e.sessionId, e.provider, e.model)) else session)
  {
    var all := events + [e];
    if e.SessionStarted? {
      assert StartedAt(all, |events|, SessionInfo(e.sessionId, e.provider, e.model));
    } else if session.Some? {
      var k :| StartedAt(events, k, session.value);
      assert StartedAt(all, k, session.value);
    }
  }

  lemma OnHoldStep(events: seq<AgentEvent>, e: AgentEvent)
    ensures OnHold(events + [e]) <==> e.Paused? || (OnHold(events) && !e.Resumed?)
  {
    var all := events + [e];
    if e.Paused? {
      assert PausedSince(all, |events|);
    } else if OnHold(events) && !e.Resumed? {
      var k :| PausedSince(events, k);
      assert PausedSince(all, k);
    }
    if k :| PausedSince(all, k) {
      if !e.Paused? {
        assert !all[|events|].Resumed?;
        forall j | k < j < |events| ensures !events[j].Resumed? {
          assert !all[j].Resumed?;
        }
        assert PausedSince(events, k);
      }
    }
  }

  lemma TokensStep(events: seq<AgentEvent>, e: AgentEvent)
    ensures TokenSum(events + [e]) ==
      (if e.Usage? then Tokens(TokenSum(events).input + e.inputTokens, TokenSum(events).output + e.outputTokens)
       else TokenSum(events))
  {
    assert (events + [e])[..|events|] == events;
  }

  /** The state of an open session after exactly these events. */
  ghost predicate Follows(s: SessionState, events: seq<AgentEvent>) {
    && Shows(s, events)
    && s.phase == Running && s.connection == Open && s.terminal == None && !s.cancelled && s.error == None
    && (s.paused <==> OnHold(events))
  }

  lemma FollowsStep(s: SessionState, events: seq<AgentEvent>, e: AgentEvent)
    requires Follows(s, events)
    ensures Follows(FoldFrame(s, Event(e)), events + [e])
  {
    EventIsFolded(s, e);
    EventIsShown(s, events, e);
    OnHoldStep(events, e);
  }

  lemma NothingFollows()
    ensures Follows(OPENED, [])
  {
    assert Mentions([], [], []);
  }

  lemma LastFrame(events: seq<AgentEvent>, n: nat)
    requires |events| == n + 1
    ensures events[..n] + [events[n]] == events
    ensures FoldFrames(OPENED, AsFrames(events)) == FoldFrame(FoldFrames(OPENED, AsFrames(events[..n])),
                                                              Event(events[n]))
  {
    FoldPush(OPENED, AsFrames(events[..n]), Event(events[n]));
    assert AsFrames(events) == AsFrames(events[..n]) + [Event(events[n])];
  }

  /**
    The log in order, the sums, the distinct files in order of first mention, the session announced last, and the
    pause badge exactly when a pause has had no resume since.
   */
  lemma {:induction false} EventsAreShown(events: seq<AgentEvent>)
    ensures Follows(FoldFrames(OPENED, AsFrames(events)), events)
  {
    if events == [] {
      NothingFollows();
    } else {
      var n := |events| - 1;
      EventsAreShown(events[..n]);
      LastFrame(events, n);
      FollowsStep(FoldFrames(OPENED, AsFrames(events[..n])), events[..n], events[n]);
    }
  }

  // ----- terminal frames -----

  /** Every server frame clears the pause, except an `error` frame received while paused. */
  lemma PauseIsClearedExactly(s: SessionState, t: ServerFrame)
    ensures !FoldFrame(s, Server(t)).paused <==> !(t.Error? && s.paused)
  {
  }

  predicate SocketTrouble(a: Action) {
    a.ParseError? || a.SocketClosed? || a.SocketError?
  }

  predicate Ended(s: SessionState) {
    s.phase == Finished || s.phase == Errored
  }

  /** Whatever the socket does after the end, the outcome stands; only the first complaint is noted. */
  lemma {:induction false} SocketKeepsOutcome(s: SessionState, actions: seq<Action>)
    requires Ended(s) && forall k :: 0 <= k < |actions| ==> SocketTrouble(actions[k])
    ensures var s' := ReduceAll(s, actions);
      && s'.phase == s.phase && s'.paused == s.paused && s'.terminal == s.terminal && s'.cancelled == s.cancelled
      && s'.events == s.events && s'.usage == s.usage && s'.files == s.files && s'.session == s.session
      && (s.error.Some? ==> s'.error == s.error)
  {
    if actions != [] {
      SocketKeepsOutcome(s, actions[..|actions| - 1]);
    }
  }

  // ----- trouble on the socket -----

  predicate Complains(a: Action) {
    a.ParseError? || a.SocketError?
  }

  /** Action `k` is the first complaint, and this is what it says. */
  predicate FirstComplaint(actions: seq<Action>, k: nat, message: string) {
    && k < |actions| && (forall j :: 0 <= j < k ==> !Complains(actions[j]))
    && (actions[k] == SocketError(message)
        || (actions[k].ParseError? && message == UNPARSEABLE + actions[k].raw))
  }

  /** What the client shows of trouble: the first complaint, and an ended phase unless the run had finished. */
  ghost predicate ShowsTrouble(s: SessionState, actions: seq<Action>, s': SessionState) {
    if forall k :: 0 <= k < |actions| ==> !Complains(actions[k]) then s'.phase == s.phase && s'.error == s.error
    else
      && s'.phase == (if s.phase == Finished then Finished else Errored)
      && exists k, message :: FirstComplaint(actions, k, message) &&
           s'.error == (if s.error.Some? then s.error else Some(message))
  }

  lemma ComplaintStep(s: SessionState, front: seq<Action>, t: SessionState, a: Action)
    requires SocketTrouble(a) && ShowsTrouble(s, front, t)
    ensures ShowsTrouble(s, front + [a], Reduce(t, a))
  {
    var all := front + [a];
    if k :| 0 <= k < |front| && Complains(front[k]) {
      assert Complains(all[k]);
      var l, message :| FirstComplaint(front, l, message) &&
        t.error == (if s.error.Some? then s.error else Some(message));
      assert FirstComplaint(all, l, message);
    } else if a.SocketError? {
      assert Complains(all[|front|]) && FirstComplaint(all, |front|, a.message);
    } else if a.ParseError? {
      assert Complains(all[|front|]) && FirstComplaint(all, |front|, UNPARSEABLE + a.raw);
    }
  }

  /** In any state, whatever goes wrong on the socket, and however often, the first complaint is the one shown. */
  lemma {:induction false} FirstComplaintIsShown(s: SessionState, actions: seq<Action>)
    requires forall k :: 0 <= k < |actions| ==> SocketTrouble(actions[k])
    ensures ShowsTrouble(s, actions, ReduceAll(s, actions))
  {
    if actions != [] {
      var n := |actions| - 1;
      FirstComplaintIsShown(s, actions[..n]);
      ComplaintStep(s, actions[..n], ReduceAll(s, actions[..n]), actions[n]);
      assert actions == actions[..n] + [actions[n]];
    }
  }

  /** The connection shows the latest of the closes and errors. */
  lemma {:induction false} LastBreakIsShown(s: SessionState, actions: seq<Action>, k: nat)
    requires k < |actions| && (actions[k].SocketClosed? || actions[k].SocketError?)
    requires forall j :: k < j < |actions| ==> actions[j].ParseError?
    ensures ReduceAll(s, actions).connection == if actions[k].SocketClosed? then Closed else Broken
    decreases |actions|
  {
    if k < |actions| - 1 {
      LastBreakIsShown(s, actions[..|actions| - 1], k);
    }
  }
}
