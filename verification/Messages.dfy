/** A message history: requests and responses with the parts that compaction looks at. */
module Messages {
  import opened Options

  /** `typed` marks a subclass with structured content that must not be blanked. A user prompt is `pinned` or a
      `receipt` when its content carries that marker. */
  datatype RequestPart =
    | SystemPrompt(content: string)
    | UserPrompt(content: string, pinned: bool, receipt: bool)
    | ToolReturn(id: string, content: string, typed: bool)
    | RetryPrompt(id: string, content: string)
    | InstructionDelta(content: string)
    | RequestSpeech(content: string)
    | ToolAvailability

  datatype ResponsePart =
    | Text(content: string)
    | Thinking(content: string)
    | ToolCall(id: string, name: string, args: string)
    | NativeCall(name: string, args: string)
    | NativeReturn(name: string, content: string)
    | ResponseSpeech(content: string)
    | File

  /** `baseline` is whether the request replaced the instruction baseline. */
  datatype Message =
    | Request(parts: seq<RequestPart>, instructions: Option<string>, baseline: bool)
    | Response(replies: seq<ResponsePart>)

  predicate IsPrompt(part: RequestPart) {
    part.UserPrompt?
  }

  predicate IsPinned(part: RequestPart) {
    part.UserPrompt? && part.pinned
  }

  /** Message `i` calls a tool under `id`; an empty id is no id. */
  ghost predicate CallAt(m: seq<Message>, i: int, id: string) {
    0 <= i < |m| && m[i].Response? && id != "" &&
    exists k :: 0 <= k < |m[i].replies| && m[i].replies[k].ToolCall? && m[i].replies[k].id == id
  }

  /** Message `i` holds a tool return under `id`. */
  ghost predicate ReturnAt(m: seq<Message>, i: int, id: string) {
    0 <= i < |m| && m[i].Request? &&
    exists k :: 0 <= k < |m[i].parts| && m[i].parts[k].ToolReturn? && m[i].parts[k].id == id
  }
}
