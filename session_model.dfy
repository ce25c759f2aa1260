/**
 * The in-memory shapes of a Strands session as the viewer reads them from
 * JSON. Every key the viewer looks up is a field; `None` means the key is
 * absent. A content block is a record, not a union: one block may carry
 * `text`, `toolUse` and `toolResult` at once, and each consumer tests the
 * keys independently.
 */
module SessionModel {
  import opened Wrappers

  /** A parsed JSON value, kept whole where the viewer only passes it on (tool inputs, agent metadata). */
  datatype Json =
    | JNull
    | JBool(b: bool)
    | JNumber(n: int)
    | JString(s: string)
    | JArray(items: seq<Json>)
    | JObject(members: seq<(string, Json)>)

  /** A string-valued key of a session dictionary: absent, present and null, or a string. */
  datatype Field = Absent | Null | Value(s: string)

  /** A looked-up key as a format string prints it: the default when absent, `None` when null. */
  function Show(f: Field, default: string): string
  {
    match f
    case Absent => default
    case Null => "None"
    case Value(s) => s
  }

  datatype ToolUse = ToolUse(toolUseId: Option<string>, name: Option<string>, input: Option<Json>)
  {
    /** A dictionary is true in Python when it has at least one key. */
    predicate Truthy() { toolUseId.Some? || name.Some? || input.Some? }
  }

  datatype ToolResult = ToolResult(toolUseId: Option<string>, status: Option<string>, content: Option<seq<ContentBlock>>)
  {
    predicate Truthy() { toolUseId.Some? || status.Some? || content.Some? }

    /** The result items, none when the key is absent. */
    function Items(): seq<ContentBlock> { content.GetOr([]) }
  }

  datatype ContentBlock = ContentBlock(text: Option<string>, toolUse: Option<ToolUse>, toolResult: Option<ToolResult>)
  {
    /** The block's text is truthy: present and not the empty string. */
    predicate HasText() { text.Some? && text.value != "" }

    /** The block's tool call is truthy: present and not an empty object. */
    predicate HasToolUse() { toolUse.Some? && toolUse.value.Truthy() }

    /** The block's tool result is truthy: present and not an empty object. */
    predicate HasToolResult() { toolResult.Some? && toolResult.value.Truthy() }
  }

  /** The nested `message` object; a missing object reads as no role and no content. */
  datatype Body = Body(role: Option<string>, content: seq<ContentBlock>)

  /** One `message_<n>.json` file, plus the `agent_id` the reader stamps on it. */
  datatype Message = Message(messageId: Option<int>, createdAt: Option<string>, agentId: Option<string>, body: Body)

  /** A session dictionary as `get_session` returns it or as an exporter receives it. */
  datatype Session = Session(
    sessionId: Field,
    sessionType: Field,
    createdAt: Field,
    updatedAt: Field,
    agents: seq<Json>,
    messages: seq<Message>)
}
