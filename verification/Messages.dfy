/**
  The message stream every agent is driven through (Claude Code's), as far as
  the engine's turn logic looks at it. Ids and texts are strings; JSON is not
  modelled.
 */
module Messages {
  import opened Wrappers

  datatype Kind = Text | Thinking

  /** A content block of a complete assistant message. */
  datatype Content =
    | TextBlock(text: string)
    | ThinkingBlock(text: string)
    | ToolBlock(tool: string)
    | OtherBlock

  /** The error an assistant message carries, as the engine tells them apart. */
  datatype AssistantError = NoError | SignedOut(contended: bool) | OtherError

  datatype Message =
    | MessageStart(id: string)
    | BlockStart(index: string, blockKind: Option<Kind>)
    | Delta(index: string, deltaKind: Kind, text: string)
    | StreamOther            // any other stream event
    | StreamChild            // a stream event of a subagent
    | Assistant(id: string, content: seq<Content>, error: AssistantError)
    | ToolResult(tool: string, output: string, failed: bool)
    | ControlRequest(req: string, tool: string)
    | ControlCancel(req: string)
    | Result(ok: bool, contextFull: bool, resultText: string)
    | System(logs: bool)     // settings and usage, or something for the timeline
    | Ignored                // a type the engine does not know

  function BlockOf(kind: Kind, text: string): Content {
    if kind == Text then TextBlock(text) else ThinkingBlock(text)
  }
}
