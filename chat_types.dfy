/** The values the chat client passes around (cli/src/types/chat.ts), with the
    fields other files use but that file leaves out: `isInterrupted` and
    `feedback` on a message, and the tool-call record. */
module ChatTypes {
  import opened Common
  import opened Json

  /** The editable input: text, cursor offset in code units, and whether the
      last edit counts as navigation. */
  datatype InputValue = InputValue(text: string, cursorPosition: int, lastEditDueToNav: bool)

  const EmptyInput := InputValue("", 0, false)

  datatype ChatVariant = User | Ai | System | Error

  datatype FeedbackValue = Bad | Good | Great

  type MessageId = string

  /** A chat message; an absent `isStreaming` or `isInterrupted` reads as false.
      The timestamp is not modelled. */
  datatype ChatMessage = ChatMessage(
    id: MessageId,
    variant: ChatVariant,
    content: string,
    isComplete: bool,
    isStreaming: bool,
    isInterrupted: bool,
    feedback: Option<FeedbackValue>)

  /** A `Partial<ChatMessage>` as `updateMessage` receives it: only the fields
      given are assigned. */
  datatype MessagePatch = MessagePatch(
    content: Option<string>,
    variant: Option<ChatVariant>,
    isComplete: Option<bool>,
    isStreaming: Option<bool>,
    isInterrupted: Option<bool>)

  /** `Object.assign(message, patch)` */
  function ApplyPatch(m: ChatMessage, p: MessagePatch): (r: ChatMessage)
    ensures r.id == m.id && r.feedback == m.feedback
    ensures r.content == Get(p.content, m.content) && r.variant == Get(p.variant, m.variant)
    ensures r.isComplete == Get(p.isComplete, m.isComplete) && r.isStreaming == Get(p.isStreaming, m.isStreaming)
    ensures r.isInterrupted == Get(p.isInterrupted, m.isInterrupted)
  {
    m.(content := Get(p.content, m.content),
       variant := Get(p.variant, m.variant),
       isComplete := Get(p.isComplete, m.isComplete),
       isStreaming := Get(p.isStreaming, m.isStreaming),
       isInterrupted := Get(p.isInterrupted, m.isInterrupted))
  }

  /** `{ isComplete: true, isStreaming: false }`, the patch that finalises a message. */
  const Finalise := MessagePatch(None, None, Some(true), Some(false), None)

  datatype ToolCallStatus = Executing | Complete | Failed

  /** A tool-call record shown under the assistant message that requested it. */
  datatype ToolCall = ToolCall(
    id: string,
    toolName: string,
    params: map<string, Json>,
    status: ToolCallStatus,
    summary: Option<string>,
    fullResult: Option<string>,
    messageId: MessageId)

  /** A tool-call request as the streaming backend delivers it. */
  datatype ToolCallRequest = ToolCallRequest(id: string, name: string, args: map<string, Json>)

  /** What every tool returns. */
  datatype ToolResult = ToolResult(success: bool, summary: string, fullResult: string)
}
