/**
  The event and frame vocabulary shared by the engine, the server and the client (core/src/event.rs,
  core/src/protocol.rs).
 */
module Events {
  import opened Wrappers

  type u64 = x: nat | x < 0x1_0000_0000_0000_0000

  datatype Provider = Claude | Codex | Gemini | Grok

  datatype AgentEvent =
    | SessionStarted(sessionId: string, provider: Provider, model: Option<string>)
    | Thinking(text: string)
    | Message(text: string)
    | ToolCall(name: string, detail: string)
    | FileChanged(path: string)
    | Usage(inputTokens: u64, outputTokens: u64)
    | Completed(result: Option<string>)
    | Failed(error: string)
    | Paused
    | Resumed
    | OperatorNote(text: string)

  datatype ServerFrame =
    | RunComplete(completed: seq<nat>, halted: Option<string>, failed: Option<string>)
    | RunError(error: string)
    | RunCancelled
    | Error(error: string)

  /** What travels from the server to a client. */
  datatype Frame = Event(event: AgentEvent) | Server(frame: ServerFrame)

  function AsFrames(events: seq<AgentEvent>): (frames: seq<Frame>)
    ensures |frames| == |events|
    ensures forall k :: 0 <= k < |events| ==> frames[k] == Event(events[k])
  {
    seq(|events|, k requires 0 <= k < |events| => Event(events[k]))
  }
}
