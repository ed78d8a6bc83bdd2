/** Wire events of one session, reduced to the fields the runtime reads (schema/agent/events.py). */
module Events {

  /** The nested call an event was streamed from; empty at top level. */
  datatype Scope = Scope(nestedFor: string, nestedCallId: string)

  datatype Kind = Text | Thinking

  datatype Event =
    | UserMessage(text: string)
    | TurnBoundary(scope: Scope)
    | RunState(running: bool)
    | Delta(kind: Kind, scope: Scope, segmentId: string, delta: string, text: string)
    | Complete(kind: Kind, scope: Scope, segmentId: string, text: string)
    | ToolCall(scope: Scope, callId: string, name: string)
    | ToolResult(scope: Scope, callId: string, output: string)
    | SubagentTask(scope: Scope, runId: string, status: string)
    | Done(scope: Scope)
    | Error(scope: Scope, message: string)
}
