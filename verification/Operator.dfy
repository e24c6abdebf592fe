/**
  Live control of a run (core/src/orchestrator/operator.rs): the pause level, the note queue, and the
  checkpoint that `run_conduct` awaits before each subtask, interleaved with the operator's commands.
 */
module Operator {
  import opened Events
  import opened Sequences

  class OperatorHandle {
    var paused: bool
    var queue: seq<string>

    constructor ()
      ensures !paused && queue == []
    {
      paused, queue := false, [];
    }

    method Pause()
      modifies `paused
      ensures paused
    {
      paused := true;
    }

    method Resume()
      modifies `paused
      ensures !paused
    {
      paused := false;
    }

    method Interject(text: string)
      modifies `queue
      ensures queue == old(queue) + [text]
    {
      queue := queue + [text];
    }

    /** Takes every queued note, oldest first. */
    method DrainNotes() returns (out: seq<string>)
      modifies `queue
      ensures out == old(queue) && queue == []
    {
      out := [];
      while queue != []
        invariant out + queue == old(queue)
        decreases |queue|
      {
        out := out + [queue[0]];
        queue := queue[1..];
      }
    }
  }

  // ----- interleaved with the operator -----

  /** Where the run is: between boundaries, or somewhere inside a checkpoint. */
  datatype Phase = Working | Draining | Drained | MustPark | Parked | Released | Delivering

  datatype State = State(paused: bool, queue: seq<string>, phase: Phase, inHand: seq<string>, delivered: seq<string>,
                         events: seq<AgentEvent>, interjected: seq<string>)

  const INIT := State(false, [], Working, [], [], [], [])

  datatype Action =
    | Pause
    | Resume
    | Interject(text: string)
    | Emit(event: AgentEvent)
    | EnterCheckpoint
    | TakeNote
    | FindQueueEmpty
    | ReadLevel
    | AnnouncePause
    | SeeResume
    | AnnounceResume
    | Deliver
    | Dispatch

  predicate ByRun(a: Action) {
    !a.Pause? && !a.Resume? && !a.Interject?
  }

  predicate Enabled(s: State, a: Action) {
    match a
    case Pause => true
    case Resume => true
    case Interject(_) => true
    case Emit(e) => s.phase.Working? && !e.Paused? && !e.Resumed? && !e.OperatorNote?
    case EnterCheckpoint => s.phase.Working?
    case TakeNote => s.phase.Draining? && s.queue != []
    case FindQueueEmpty => s.phase.Draining? && s.queue == []
    case ReadLevel => s.phase.Drained?
    case AnnouncePause => s.phase.MustPark?
    case SeeResume => s.phase.Parked? && !s.paused
    case AnnounceResume => s.phase.Released?
    case Deliver => s.phase.Delivering? && s.inHand != []
    case Dispatch => s.phase.Delivering? && s.inHand == []
  }

  function Next(s: State, a: Action): State
    requires Enabled(s, a)
  {
    match a
    case Pause => s.(paused := true)
    case Resume => s.(paused := false)
    case Interject(text) => s.(queue := s.queue + [text], interjected := s.interjected + [text])
    case Emit(e) => s.(events := s.events + [e])
    case EnterCheckpoint => s.(phase := Draining)
    case TakeNote => s.(queue := s.queue[1..], inHand := s.inHand + [s.queue[0]])
    case FindQueueEmpty => s.(phase := Drained)
    case ReadLevel => s.(phase := if s.paused then MustPark else Delivering)
    case AnnouncePause => s.(phase := Parked, events := s.events + [Paused])
    case SeeResume => s.(phase := Released)
    case AnnounceResume => s.(phase := Delivering, events := s.events + [Resumed])
    case Deliver =>
      s.(inHand := s.inHand[1..], delivered := s.delivered + [s.inHand[0]],
         events := s.events + [OperatorNote(s.inHand[0])])
    case Dispatch => s.(phase := Working)
  }

  ghost predicate StepOf(states: seq<State>, actions: seq<Action>, i: nat)
    requires |states| == |actions| + 1 && i < |actions|
  {
    Enabled(states[i], actions[i]) && states[i + 1] == Next(states[i], actions[i])
  }

  ghost predicate IsRun(states: seq<State>, actions: seq<Action>) {
    && |states| == |actions| + 1 && states[0] == INIT
    && forall i {:trigger StepOf(states, actions, i)} :: 0 <= i < |actions| ==> StepOf(states, actions, i)
  }

  // ----- what the event stream shows -----

  /** The pause events of the stream, in order. */
  function Toggles(events: seq<AgentEvent>): seq<AgentEvent> {
    Filter(events, (e: AgentEvent) => e.Paused? || e.Resumed?, e => e)
  }

  function NoteText(e: AgentEvent): string {
    if e.OperatorNote? then e.text else ""
  }

  /** The texts of the operator notes in the stream, in order. */
  function Notes(events: seq<AgentEvent>): seq<string> {
    Filter(events, (e: AgentEvent) => e.OperatorNote?, NoteText)
  }

  /** What the stream shows apart from the checkpoints' own events. */
  function Others(events: seq<AgentEvent>): seq<AgentEvent> {
    Filter(events, (e: AgentEvent) => !e.OperatorNote? && !e.Paused? && !e.Resumed?, e => e)
  }

  /** Paused, Resumed, Paused, … from the start. */
  predicate Alternates(toggles: seq<AgentEvent>) {
    forall k :: 0 <= k < |toggles| ==> toggles[k] == (if k % 2 == 0 then Paused else Resumed)
  }

  lemma AlternatesPush(toggles: seq<AgentEvent>, e: AgentEvent)
    requires Alternates(toggles) && e == (if |toggles| % 2 == 0 then Paused else Resumed)
    ensures Alternates(toggles + [e])
  {
  }

  lemma TogglesPush(events: seq<AgentEvent>, e: AgentEvent)
    ensures Toggles(events + [e]) == if e.Paused? || e.Resumed? then Toggles(events) + [e] else Toggles(events)
  {
    FilterPush(events, (e: AgentEvent) => e.Paused? || e.Resumed?, e => e, e);
  }

  lemma NotesPush(events: seq<AgentEvent>, e: AgentEvent)
    ensures Notes(events + [e]) == if e.OperatorNote? then Notes(events) + [e.text] else Notes(events)
  {
    FilterPush(events, (e: AgentEvent) => e.OperatorNote?, NoteText, e);
  }

  // ----- invariants -----

  predicate Holding(p: Phase) {
    p.Parked? || p.Released?
  }

  predicate NotesInv(s: State) {
    && Accounted(s.delivered, s.inHand, s.queue, s.interjected)
    && Notes(s.events) == s.delivered
    && (s.phase.Working? ==> s.inHand == [])
  }

  predicate Accounted(delivered: seq<string>, inHand: seq<string>, queue: seq<string>, interjected: seq<string>) {
    delivered + inHand + queue == interjected
  }

  predicate TogglesInv(s: State) {
    && Alternates(Toggles(s.events))
    && (Holding(s.phase) <==> |Toggles(s.events)| % 2 == 1)
  }

  predicate Inv(s: State) {
    NotesInv(s) && TogglesInv(s)
  }

  lemma Interjected(d: seq<string>, h: seq<string>, q: seq<string>, all: seq<string>, text: string)
    requires Accounted(d, h, q, all)
    ensures Accounted(d, h, q + [text], all + [text])
  {
    assert d + h + (q + [text]) == d + h + q + [text];
  }

  lemma Taken(d: seq<string>, h: seq<string>, q: seq<string>, all: seq<string>)
    requires Accounted(d, h, q, all) && q != []
    ensures Accounted(d, h + [q[0]], q[1..], all)
  {
    assert d + (h + [q[0]]) + q[1..] == d + h + q;
  }

  lemma Delivered(d: seq<string>, h: seq<string>, q: seq<string>, all: seq<string>)
    requires Accounted(d, h, q, all) && h != []
    ensures Accounted(d + [h[0]], h[1..], q, all)
  {
    assert d + [h[0]] + h[1..] + q == d + h + q;
  }

  lemma StepKeepsNotes(s: State, a: Action)
    requires NotesInv(s) && Enabled(s, a)
    ensures NotesInv(Next(s, a))
  {
    match a {
      case Interject(text) => Interjected(s.delivered, s.inHand, s.queue, s.interjected, text);
      case TakeNote => Taken(s.delivered, s.inHand, s.queue, s.interjected);
      case Deliver =>
        Delivered(s.delivered, s.inHand, s.queue, s.interjected);
        NotesPush(s.events, OperatorNote(s.inHand[0]));
      case Emit(e) => NotesPush(s.events, e);
      case AnnouncePause => NotesPush(s.events, Paused);
      case AnnounceResume => NotesPush(s.events, Resumed);
      case _ =>
    }
  }

  lemma StepKeepsToggles(s: State, a: Action)
    requires TogglesInv(s) && Enabled(s, a)
    ensures TogglesInv(Next(s, a))
  {
    match a {
      case AnnouncePause => ToggleKeeps(s.events, Paused);
      case AnnounceResume => ToggleKeeps(s.events, Resumed);
      case Emit(e) => TogglesPush(s.events, e);
      case Deliver => TogglesPush(s.events, OperatorNote(s.inHand[0]));
      case _ =>
    }
  }

  lemma ToggleKeeps(events: seq<AgentEvent>, e: AgentEvent)
    requires Alternates(Toggles(events)) && e == (if |Toggles(events)| % 2 == 0 then Paused else Resumed)
    ensures Alternates(Toggles(events + [e])) && |Toggles(events + [e])| == |Toggles(events)| + 1
  {
    TogglesPush(events, e);
    AlternatesPush(Toggles(events), e);
  }

  lemma StepKeepsInv(s: State, a: Action)
    requires Inv(s) && Enabled(s, a)
    ensures Inv(Next(s, a))
  {
    StepKeepsNotes(s, a);
    StepKeepsToggles(s, a);
  }

  lemma {:induction false} RunInv(states: seq<State>, actions: seq<Action>, i: nat)
    requires IsRun(states, actions) && i < |states|
    ensures Inv(states[i])
  {
    if i > 0 {
      RunInv(states, actions, i - 1);
      assert StepOf(states, actions, i - 1);
      StepKeepsInv(states[i - 1], actions[i - 1]);
    }
  }

  // ----- what was given, and what was shown -----

  function GivenText(a: Action): string {
    if a.Interject? then a.text else ""
  }

  /** The texts that the operator interjected, in order. */
  function Given(actions: seq<Action>): seq<string> {
    Filter(actions, (a: Action) => a.Interject?, GivenText)
  }

  function EmittedBy(a: Action): AgentEvent {
    if a.Emit? then a.event else Paused
  }

  function Emitted(actions: seq<Action>): seq<AgentEvent> {
    Filter(actions, (a: Action) => a.Emit?, EmittedBy)
  }

  lemma GivenPush(actions: seq<Action>, a: Action)
    ensures Given(actions + [a]) == if a.Interject? then Given(actions) + [a.text] else Given(actions)
    ensures Emitted(actions + [a]) == if a.Emit? then Emitted(actions) + [a.event] else Emitted(actions)
  {
    FilterPush(actions, (a: Action) => a.Interject?, GivenText, a);
    FilterPush(actions, (a: Action) => a.Emit?, EmittedBy, a);
  }

  lemma OthersPush(events: seq<AgentEvent>, e: AgentEvent)
    ensures Others(events + [e]) ==
      if e.OperatorNote? || e.Paused? || e.Resumed? then Others(events) else Others(events) + [e]
  {
    FilterPush(events, (e: AgentEvent) => !e.OperatorNote? && !e.Paused? && !e.Resumed?, e => e, e);
  }

  lemma StepKeepsOthers(s: State, a: Action)
    requires Enabled(s, a)
    ensures Others(Next(s, a).events) == if a.Emit? then Others(s.events) + [a.event] else Others(s.events)
  {
    match a {
      case Emit(e) => OthersPush(s.events, e);
      case AnnouncePause => OthersPush(s.events, Paused);
      case AnnounceResume => OthersPush(s.events, Resumed);
      case Deliver => OthersPush(s.events, OperatorNote(s.inHand[0]));
      case _ =>
    }
  }

  lemma {:induction false} HistoryIsKept(states: seq<State>, actions: seq<Action>, i: nat)
    requires IsRun(states, actions) && i < |states|
    ensures states[i].interjected == Given(actions[..i])
    ensures Others(states[i].events) == Emitted(actions[..i])
  {
    if i == 0 {
      assert actions[..0] == [];
    } else {
      HistoryIsKept(states, actions, i - 1);
      assert StepOf(states, actions, i - 1);
      StepKeepsOthers(states[i - 1], actions[i - 1]);
      GivenPush(actions[..i - 1], actions[i - 1]);
      assert actions[..i] == actions[..i - 1] + [actions[i - 1]];
    }
  }

  /**
    Nothing is lost, duplicated or reordered: the notes in the stream, then those held, then those queued are the
    texts that the operator interjected; and the rest of the stream is what the run emitted.
   */
  lemma NotesAreConserved(states: seq<State>, actions: seq<Action>, i: nat)
    requires IsRun(states, actions) && i < |states|
    ensures var s := states[i];
      && Notes(s.events) + s.inHand + s.queue == Given(actions[..i])
      && (s.phase.Working? ==> Notes(s.events) + s.queue == Given(actions[..i]))
      && Others(s.events) == Emitted(actions[..i])
  {
    RunInv(states, actions, i);
    HistoryIsKept(states, actions, i);
  }

  /** The stream alternates Paused and Resumed, and ends in Paused exactly while the run is held. */
  lemma PausesAlternate(states: seq<State>, actions: seq<Action>, i: nat)
    requires IsRun(states, actions) && i < |states|
    ensures var t := Toggles(states[i].events);
      Alternates(t) && (Holding(states[i].phase) <==> t != [] && t[|t| - 1] == Paused)
  {
    RunInv(states, actions, i);
  }

  // ----- the level -----

  /** Step `m` is a command, and no later step before `i` is one. */
  ghost predicate LastCommand(actions: seq<Action>, m: int, i: int) {
    && 0 <= m < i <= |actions| && (actions[m].Pause? || actions[m].Resume?)
    && forall l :: m < l < i ==> !actions[l].Pause? && !actions[l].Resume?
  }

  ghost predicate NoCommand(actions: seq<Action>, i: int) {
    forall m :: 0 <= m < i <= |actions| ==> !actions[m].Pause? && !actions[m].Resume?
  }

  /** The last command before state `i`, or -1. */
  lemma {:induction false} LastCommandBefore(states: seq<State>, actions: seq<Action>, i: nat) returns (m: int)
    requires IsRun(states, actions) && i < |states|
    ensures m == -1 ==> NoCommand(actions, i) && !states[i].paused
    ensures m != -1 ==> LastCommand(actions, m, i) && (states[i].paused <==> actions[m].Pause?)
  {
    m := -1;
    if i > 0 {
      m := LastCommandBefore(states, actions, i - 1);
      assert StepOf(states, actions, i - 1);
      if actions[i - 1].Pause? || actions[i - 1].Resume? {
        m := i - 1;
      }
    }
  }

  lemma OneLastCommand(actions: seq<Action>, m: int, l: int, i: int)
    requires LastCommand(actions, m, i) && LastCommand(actions, l, i)
    ensures m == l
  {
  }

  /** The level is the last command, whatever the run did in between. */
  lemma LevelIsLastCommand(states: seq<State>, actions: seq<Action>, i: nat)
    requires IsRun(states, actions) && i < |states|
    ensures states[i].paused <==> exists m :: LastCommand(actions, m, i) && actions[m].Pause?
    ensures NoCommand(actions, i) || exists m :: LastCommand(actions, m, i)
  {
    var m := LastCommandBefore(states, actions, i);
    if l :| LastCommand(actions, l, i) && actions[l].Pause? {
      if m != -1 {
        OneLastCommand(actions, m, l, i);
      }
    }
  }

  /** Between two states whose levels differ, the last command was given in between. */
  lemma {:induction false} LevelChangedBetween(states: seq<State>, actions: seq<Action>, i: nat, j: nat)
    requires IsRun(states, actions) && i <= j < |states| && states[i].paused && !states[j].paused
    ensures exists m :: i <= m && LastCommand(actions, m, j) && actions[m].Resume?
    decreases j
  {
    assert StepOf(states, actions, j - 1);
    var a := actions[j - 1];
    if a.Resume? {
      assert LastCommand(actions, j - 1, j);
    } else {
      LevelChangedBetween(states, actions, i, j - 1);
      var m :| i <= m && LastCommand(actions, m, j - 1) && actions[m].Resume?;
      assert LastCommand(actions, m, j);
    }
  }

  /**
    A hold that began at step `i`, on reading the level true, ends at step `j` only after a resume given in
    between and not overridden by a later pause: an earlier resume cannot release it.
   */
  lemma ReleaseNeedsNewResume(states: seq<State>, actions: seq<Action>, i: nat, j: nat)
    requires IsRun(states, actions) && i < j < |actions|
    requires actions[i].ReadLevel? && states[i + 1].phase.MustPark?
    requires actions[j].SeeResume?
    ensures exists m :: i < m < j && actions[m].Resume? && forall l :: m < l < j ==> !actions[l].Pause?
  {
    assert StepOf(states, actions, i) && StepOf(states, actions, j);
    LevelChangedBetween(states, actions, i + 1, j);
    var m :| i + 1 <= m && LastCommand(actions, m, j) && actions[m].Resume?;
  }

  /** Step `i` let the run through a checkpoint, on reading the level false. */
  ghost predicate LetThrough(states: seq<State>, actions: seq<Action>, i: int)
    requires |states| == |actions| + 1
  {
    0 <= i < |actions| && (actions[i].ReadLevel? || actions[i].SeeResume?) && !states[i].paused
  }

  /** Since step `i` nothing was dispatched. */
  ghost predicate NoDispatchSince(actions: seq<Action>, i: int, j: int) {
    0 <= i <= j <= |actions| && forall k :: i <= k < j ==> !actions[k].Dispatch?
  }

  /** Whoever is past the level was let through since the last dispatch. */
  lemma {:induction false} LetThroughBefore(states: seq<State>, actions: seq<Action>, j: nat) returns (i: nat)
    requires IsRun(states, actions) && j < |states|
    requires states[j].phase.Released? || states[j].phase.Delivering?
    ensures i < j && LetThrough(states, actions, i) && NoDispatchSince(actions, i, j)
  {
    assert StepOf(states, actions, j - 1);
    if states[j - 1].phase.Released? || states[j - 1].phase.Delivering? {
      i := LetThroughBefore(states, actions, j - 1);
    } else {
      i := j - 1;
    }
  }

  /** Every dispatch comes after the level was read false, at its own checkpoint. */
  lemma DispatchNeedsLevelFalse(states: seq<State>, actions: seq<Action>, j: nat)
    requires IsRun(states, actions) && j < |actions| && actions[j].Dispatch?
    ensures exists i :: i < j && LetThrough(states, actions, i) && NoDispatchSince(actions, i, j)
  {
    assert StepOf(states, actions, j);
    var i := LetThroughBefore(states, actions, j);
  }

  /** The run can always go on, except while it is parked and the level is true: no wake-up is missed. */
  lemma StuckOnlyWhilePaused(s: State)
    ensures (forall a :: ByRun(a) ==> !Enabled(s, a)) <==> s.phase.Parked? && s.paused
  {
    var a := match s.phase
      case Working => EnterCheckpoint
      case Draining => if s.queue != [] then TakeNote else FindQueueEmpty
      case Drained => ReadLevel
      case MustPark => AnnouncePause
      case Parked => SeeResume
      case Released => AnnounceResume
      case Delivering => if s.inHand != [] then Deliver else Dispatch;
    assert ByRun(a);
  }

  /** Commands are never refused: a pause given before the level is read parks the run, and a resume releases it. */
  lemma CommandsTakeEffect(s: State, text: string)
    ensures Enabled(s, Interject(text)) && Next(s, Interject(text)).queue == s.queue + [text]
    ensures Enabled(s, Pause) && Enabled(s, Resume)
    ensures s.phase.Drained? ==>
      Enabled(Next(s, Pause), ReadLevel) && Next(Next(s, Pause), ReadLevel).phase == MustPark
    ensures s.phase.Parked? ==>
      Enabled(Next(s, Resume), SeeResume) && Next(Next(s, Resume), SeeResume).phase == Released
  {
  }

  /** Steps a checkpoint has left if no further note arrives. */
  function Remaining(s: State): nat {
    match s.phase
    case Working => 0
    case Draining => 2 * |s.queue| + |s.inHand| + 6
    case Drained => |s.inHand| + 5
    case MustPark => |s.inHand| + 4
    case Parked => |s.inHand| + 3
    case Released => |s.inHand| + 2
    case Delivering => |s.inHand| + 1
  }

  /** Each of the run's steps brings the next dispatch closer, and commands put it off only by adding notes. */
  lemma CheckpointAdvances(s: State, a: Action)
    requires Enabled(s, a) && !s.phase.Working?
    ensures if ByRun(a) then Remaining(Next(s, a)) < Remaining(s)
            else Remaining(Next(s, a)) <= Remaining(s) + (if a.Interject? then 2 else 0)
  {
  }
}
