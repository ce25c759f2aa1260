/**
 * The session exporters: a Markdown and a plain-text renderer, each building
 * a list of lines and joining it with newlines, a JSON renderer, the
 * dispatcher that picks one by format name, and the download file name.
 *
 * Each content block is tested for `text`, `toolUse` and `toolResult` by
 * three independent `if`s, so a block carrying several keys is rendered once
 * per key, in that order.
 */
module ExportFormatter {
  import opened Wrappers
  import opened SessionModel
  import opened Strings
  import opened Sequences

  /**
   * The library calls the renderers make, as parameters:
   * `reformatIso` is `datetime.fromisoformat` followed by
   * `strftime("%Y-%m-%d %I:%M %p")`, None when the parse raises;
   * `dumpInput` is `json.dumps(input, indent=2)` of a tool input;
   * `dumpSession` is `json.dumps(session, indent=2, ensure_ascii=False)`
   * and `loadSession` is `json.loads` back into a session.
   */
  datatype Collaborators = Collaborators(
    reformatIso: string -> Option<string>,
    dumpInput: Json -> string,
    dumpSession: Session -> string,
    loadSession: string -> Option<Session>)

  // ---------------------------------------------------------------------------
  // format_timestamp

  /** `format_timestamp`: a trailing `Z` is read as `+00:00`; input the parser rejects is returned as it is. */
  function FormatTimestamp(c: Collaborators, timestamp: string): string
  {
    match c.reformatIso(ReplaceChar(timestamp, 'Z', "+00:00"))
    case Some(readable) => readable
    case None => timestamp
  }

  /**
   * A session-level timestamp: a missing key is formatted from "", and a null one
   * makes `replace` raise AttributeError, so it comes back as null and prints `None`.
   */
  function FieldTimestamp(c: Collaborators, f: Field): string
  {
    match f
    case Absent => FormatTimestamp(c, "")
    case Null => "None"
    case Value(s) => FormatTimestamp(c, s)
  }

  /**
   * Formatting either yields what the parser printed or hands the timestamp back;
   * on a timestamp without `Z` the parser sees exactly the input.
   */
  lemma TimestampFallback(c: Collaborators, timestamp: string)
    ensures c.reformatIso(ReplaceChar(timestamp, 'Z', "+00:00")).None? ==> FormatTimestamp(c, timestamp) == timestamp
    ensures (forall i :: 0 <= i < |timestamp| ==> timestamp[i] != 'Z') ==>
      FormatTimestamp(c, timestamp) == c.reformatIso(timestamp).GetOr(timestamp)
  {
    if forall i :: 0 <= i < |timestamp| ==> timestamp[i] != 'Z' {
      ReplaceAbsentChar(timestamp, 'Z', "+00:00");
    }
  }

  // ---------------------------------------------------------------------------
  // What both renderers read from a message

  /** The role of a message, "unknown" when it has none. */
  function RoleOf(m: Message): string
  {
    m.body.role.GetOr("unknown")
  }

  /** The message id as the heading prints it: its decimal digits, or "?" when it is missing. */
  function IdText(m: Message): string
  {
    match m.messageId
    case None => "?"
    case Some(id) => IntToString(id)
  }

  function MessageTimestamp(c: Collaborators, m: Message): string
  {
    FormatTimestamp(c, m.createdAt.GetOr(""))
  }

  /** The tool input, an empty object when there is none. */
  function InputOf(t: ToolUse): Json
  {
    t.input.GetOr(JObject([]))
  }

  /** The result status, "unknown" when there is none. */
  function StatusOf(r: ToolResult): string
  {
    r.status.GetOr("unknown")
  }

  /** The text of a block with a true `text`, as a list of zero or one strings. */
  function BlockText(b: ContentBlock): seq<string>
  {
    if b.HasText() then [b.text.value] else []
  }

  /** The non-empty texts of a message's blocks, in block order. */
  function MessageTexts(m: Message): seq<string>
  {
    FlatMap(BlockText, m.body.content)
  }

  /** The non-empty texts of all blocks of all messages, in message and block order. */
  function SessionTexts(s: Session): seq<string>
  {
    FlatMap(MessageTexts, s.messages)
  }

  // ---------------------------------------------------------------------------
  // format_markdown

  /** The role icon: a bust, a robot, a gear (with its emoji variation selector), or a speech balloon. */
  function RoleIcon(role: string): string
  {
    if role == "user" then "\U{1F464}"
    else if role == "assistant" then "\U{1F916}"
    else if role == "system" then "\U{2699}\U{FE0F}"
    else "\U{1F4AC}"
  }

  function ResultEmoji(status: string): string
  {
    if status == "success" then "\U{2705}" else "\U{274C}"
  }

  function MarkdownHeader(c: Collaborators, s: Session): seq<string>
  {
    [ "# Session: " + Show(s.sessionId, "Unknown"),
      "",
      "**Type:** " + Show(s.sessionType, "N/A"),
      "**Created:** " + FieldTimestamp(c, s.createdAt),
      "**Updated:** " + FieldTimestamp(c, s.updatedAt),
      "**Messages:** " + NatToString(|s.messages|),
      "",
      "---",
      "",
      "## Messages",
      "" ]
  }

  function MarkdownHeading(c: Collaborators, m: Message): seq<string>
  {
    [ "### " + RoleIcon(RoleOf(m)) + " " + Title(RoleOf(m)) + " #" + IdText(m),
      "*" + MessageTimestamp(c, m) + "*",
      "" ]
  }

  function MarkdownToolCall(c: Collaborators, t: ToolUse): seq<string>
  {
    [ "**\U{1F527} Tool Call:** `" + t.name.GetOr("unknown") + "`",
      "",
      "```json",
      c.dumpInput(InputOf(t)),
      "```",
      "" ]
  }

  /** A result item with a true `text` is shown in a bare fenced block. */
  function MarkdownResultItem(item: ContentBlock): seq<string>
  {
    if item.HasText() then ["```", item.text.value, "```", ""] else []
  }

  function MarkdownToolResult(r: ToolResult): seq<string>
  {
    [ "**" + ResultEmoji(StatusOf(r)) + " Tool Result:** `" + r.toolUseId.GetOr("unknown") + "`",
      "*Status: " + StatusOf(r) + "*",
      "" ]
    + FlatMap(MarkdownResultItem, r.Items())
  }

  /** One content block: its text, then its tool call, then its tool result, each when present. */
  function MarkdownBlock(c: Collaborators, b: ContentBlock): seq<string>
  {
    (if b.HasText() then [b.text.value, ""] else [])
    + (if b.HasToolUse() then MarkdownToolCall(c, b.toolUse.value) else [])
    + (if b.HasToolResult() then MarkdownToolResult(b.toolResult.value) else [])
  }

  function MarkdownBlockOf(c: Collaborators): ContentBlock -> seq<string>
  {
    b => MarkdownBlock(c, b)
  }

  /** One message: heading, blocks, and a closing rule. */
  function MarkdownMessage(c: Collaborators, m: Message): seq<string>
  {
    MarkdownHeading(c, m) + FlatMap(MarkdownBlockOf(c), m.body.content) + ["---", ""]
  }

  function MarkdownMessageOf(c: Collaborators): Message -> seq<string>
  {
    m => MarkdownMessage(c, m)
  }

  /** The line list `format_markdown` joins. */
  function MarkdownLines(c: Collaborators, s: Session): seq<string>
  {
    MarkdownHeader(c, s) + FlatMap(MarkdownMessageOf(c), s.messages)
  }

  /** The lines `format_markdown` appends for a tool result, its fenced texts included. */
  method AppendMarkdownToolResult(lines: seq<string>, result: ToolResult) returns (out: seq<string>)
    ensures out == lines + MarkdownToolResult(result)
  {
    var status := result.status.GetOr("unknown");
    var emoji := if status == "success" then "\U{2705}" else "\U{274C}";
    var heading := ["**" + emoji + " Tool Result:** `" + result.toolUseId.GetOr("unknown") + "`",
                    "*Status: " + status + "*", ""];
    out := lines + heading;
    var items := result.Items();
    var k := 0;
    while k < |items|
      invariant 0 <= k <= |items|
      invariant out == lines + heading + FlatMap(MarkdownResultItem, items[..k])
    {
      ghost var before := out;
      if items[k].HasText() {
        out := out + ["```", items[k].text.value, "```", ""];
      }
      assert out == before + MarkdownResultItem(items[k]);
      FlatMapStep(MarkdownResultItem, items, k);
      AppendAssoc(lines + heading, FlatMap(MarkdownResultItem, items[..k]), MarkdownResultItem(items[k]));
      k := k + 1;
    }
    assert items[..k] == items;
    AppendAssoc(lines, heading, FlatMap(MarkdownResultItem, items));
  }

  /** The body of `format_markdown`'s block loop: the lines one content block appends. */
  method AppendMarkdownBlock(c: Collaborators, lines: seq<string>, block: ContentBlock) returns (out: seq<string>)
    ensures out == lines + MarkdownBlock(c, block)
  {
    var textLines := if block.HasText() then [block.text.value, ""] else [];
    out := lines + textLines;
    var callLines := [];
    if block.HasToolUse() {
      var tool := block.toolUse.value;
      callLines := ["**\U{1F527} Tool Call:** `" + tool.name.GetOr("unknown") + "`", "",
                    "```json", c.dumpInput(tool.input.GetOr(JObject([]))), "```", ""];
      out := out + callLines;
    }
    ghost var called := out;
    if block.HasToolResult() {
      out := AppendMarkdownToolResult(out, block.toolResult.value);
    }
    ghost var resultLines := if block.HasToolResult() then MarkdownToolResult(block.toolResult.value) else [];
    assert called == lines + textLines + callLines;
    assert out == called + resultLines;
    AppendAssoc(lines, textLines, callLines);
    AppendAssoc(lines, textLines + callLines, resultLines);
  }

  /** The body of `format_markdown`'s message loop: heading, blocks, closing rule. */
  method AppendMarkdownMessage(c: Collaborators, lines: seq<string>, msg: Message) returns (out: seq<string>)
    ensures out == lines + MarkdownMessage(c, msg)
  {
    var heading := MarkdownHeading(c, msg);
    out := lines + heading;
    ghost var headed := out;
    var blocks := msg.body.content;
    var j := 0;
    while j < |blocks|
      invariant 0 <= j <= |blocks|
      invariant out == headed + FlatMap(MarkdownBlockOf(c), blocks[..j])
    {
      out := AppendMarkdownBlock(c, out, blocks[j]);
      FlatMapStep(MarkdownBlockOf(c), blocks, j);
      assert MarkdownBlockOf(c)(blocks[j]) == MarkdownBlock(c, blocks[j]);
      AppendAssoc(headed, FlatMap(MarkdownBlockOf(c), blocks[..j]), MarkdownBlock(c, blocks[j]));
      j := j + 1;
    }
    assert blocks[..j] == blocks;
    out := out + ["---", ""];
    AppendAssoc(lines, heading, FlatMap(MarkdownBlockOf(c), blocks));
    AppendAssoc(lines, heading + FlatMap(MarkdownBlockOf(c), blocks), ["---", ""]);
  }

  /** `format_markdown`. */
  method FormatMarkdown(c: Collaborators, session: Session) returns (out: string)
    ensures out == Join(MarkdownLines(c, session), "\n")
  {
    var header := MarkdownHeader(c, session);
    var lines := header;
    var messages := session.messages;
    var i := 0;
    while i < |messages|
      invariant 0 <= i <= |messages|
      invariant lines == header + FlatMap(MarkdownMessageOf(c), messages[..i])
    {
      lines := AppendMarkdownMessage(c, lines, messages[i]);
      FlatMapStep(MarkdownMessageOf(c), messages, i);
      assert MarkdownMessageOf(c)(messages[i]) == MarkdownMessage(c, messages[i]);
      AppendAssoc(header, FlatMap(MarkdownMessageOf(c), messages[..i]), MarkdownMessage(c, messages[i]));
      i := i + 1;
    }
    assert messages[..i] == messages;
    out := Join(lines, "\n");
  }

  // ---------------------------------------------------------------------------
  // format_text

  /** An 80-character rule. */
  function Rule(c: char): string
  {
    Repeat(c, 80)
  }

  function TextHeader(c: Collaborators, s: Session): seq<string>
  {
    [ Rule('='),
      "Session: " + Show(s.sessionId, "Unknown"),
      Rule('='),
      "",
      "Type:     " + Show(s.sessionType, "N/A"),
      "Created:  " + FieldTimestamp(c, s.createdAt),
      "Updated:  " + FieldTimestamp(c, s.updatedAt),
      "Messages: " + NatToString(|s.messages|),
      "",
      Rule('='),
      "" ]
  }

  /** The line naming a message in the text export. */
  function TextHeadingLine(c: Collaborators, m: Message): string
  {
    "[" + Upper(RoleOf(m)) + " #" + IdText(m) + "] - " + MessageTimestamp(c, m)
  }

  function TextToolCall(c: Collaborators, t: ToolUse): seq<string>
  {
    ["[TOOL CALL: " + t.name.GetOr("unknown") + "]", c.dumpInput(InputOf(t)), ""]
  }

  function TextResultItem(item: ContentBlock): seq<string>
  {
    if item.HasText() then [item.text.value, ""] else []
  }

  function TextToolResult(r: ToolResult): seq<string>
  {
    ["[TOOL RESULT: " + r.toolUseId.GetOr("unknown") + " - " + Upper(StatusOf(r)) + "]"]
    + FlatMap(TextResultItem, r.Items())
  }

  function TextBlock(c: Collaborators, b: ContentBlock): seq<string>
  {
    (if b.HasText() then [b.text.value, ""] else [])
    + (if b.HasToolUse() then TextToolCall(c, b.toolUse.value) else [])
    + (if b.HasToolResult() then TextToolResult(b.toolResult.value) else [])
  }

  function TextBlockOf(c: Collaborators): ContentBlock -> seq<string>
  {
    b => TextBlock(c, b)
  }

  /** One message: its heading line between two `-` rules, its blocks, and a blank line. */
  function TextMessage(c: Collaborators, m: Message): seq<string>
  {
    [Rule('-'), TextHeadingLine(c, m), Rule('-'), ""] + FlatMap(TextBlockOf(c), m.body.content) + [""]
  }

  function TextMessageOf(c: Collaborators): Message -> seq<string>
  {
    m => TextMessage(c, m)
  }

  /** The line list `format_text` joins. */
  function TextLines(c: Collaborators, s: Session): seq<string>
  {
    TextHeader(c, s) + FlatMap(TextMessageOf(c), s.messages)
  }

  method AppendTextToolResult(lines: seq<string>, result: ToolResult) returns (out: seq<string>)
    ensures out == lines + TextToolResult(result)
  {
    var status := result.status.GetOr("unknown");
    var heading := ["[TOOL RESULT: " + result.toolUseId.GetOr("unknown") + " - " + Upper(status) + "]"];
    out := lines + heading;
    var items := result.Items();
    var k := 0;
    while k < |items|
      invariant 0 <= k <= |items|
      invariant out == lines + heading + FlatMap(TextResultItem, items[..k])
    {
      ghost var before := out;
      if items[k].HasText() {
        out := out + [items[k].text.value, ""];
      }
      assert out == before + TextResultItem(items[k]);
      FlatMapStep(TextResultItem, items, k);
      AppendAssoc(lines + heading, FlatMap(TextResultItem, items[..k]), TextResultItem(items[k]));
      k := k + 1;
    }
    assert items[..k] == items;
    AppendAssoc(lines, heading, FlatMap(TextResultItem, items));
  }

  /** The body of `format_text`'s block loop. */
  method AppendTextBlock(c: Collaborators, lines: seq<string>, block: ContentBlock) returns (out: seq<string>)
    ensures out == lines + TextBlock(c, block)
  {
    var textLines := if block.HasText() then [block.text.value, ""] else [];
    out := lines + textLines;
    var callLines := [];
    if block.HasToolUse() {
      var tool := block.toolUse.value;
      callLines := ["[TOOL CALL: " + tool.name.GetOr("unknown") + "]", c.dumpInput(tool.input.GetOr(JObject([]))), ""];
      out := out + callLines;
    }
    ghost var called := out;
    if block.HasToolResult() {
      out := AppendTextToolResult(out, block.toolResult.value);
    }
    ghost var resultLines := if block.HasToolResult() then TextToolResult(block.toolResult.value) else [];
    assert called == lines + textLines + callLines;
    assert out == called + resultLines;
    AppendAssoc(lines, textLines, callLines);
    AppendAssoc(lines, textLines + callLines, resultLines);
  }

  /** The body of `format_text`'s message loop. */
  method AppendTextMessage(c: Collaborators, lines: seq<string>, msg: Message) returns (out: seq<string>)
    ensures out == lines + TextMessage(c, msg)
  {
    var role := msg.body.role.GetOr("unknown");
    var heading := [Repeat('-', 80), "[" + Upper(role) + " #" + IdText(msg) + "] - " + MessageTimestamp(c, msg),
                    Repeat('-', 80), ""];
    out := lines + heading;
    ghost var headed := out;
    var blocks := msg.body.content;
    var j := 0;
    while j < |blocks|
      invariant 0 <= j <= |blocks|
      invariant out == headed + FlatMap(TextBlockOf(c), blocks[..j])
    {
      out := AppendTextBlock(c, out, blocks[j]);
      FlatMapStep(TextBlockOf(c), blocks, j);
      assert TextBlockOf(c)(blocks[j]) == TextBlock(c, blocks[j]);
      AppendAssoc(headed, FlatMap(TextBlockOf(c), blocks[..j]), TextBlock(c, blocks[j]));
      j := j + 1;
    }
    assert blocks[..j] == blocks;
    out := out + [""];
    AppendAssoc(lines, heading, FlatMap(TextBlockOf(c), blocks));
    AppendAssoc(lines, heading + FlatMap(TextBlockOf(c), blocks), [""]);
  }

  /** `format_text`. */
  method FormatText(c: Collaborators, session: Session) returns (out: string)
    ensures out == Join(TextLines(c, session), "\n")
  {
    var header := TextHeader(c, session);
    var lines := header;
    var messages := session.messages;
    var i := 0;
    while i < |messages|
      invariant 0 <= i <= |messages|
      invariant lines == header + FlatMap(TextMessageOf(c), messages[..i])
    {
      lines := AppendTextMessage(c, lines, messages[i]);
      FlatMapStep(TextMessageOf(c), messages, i);
      assert TextMessageOf(c)(messages[i]) == TextMessage(c, messages[i]);
      AppendAssoc(header, FlatMap(TextMessageOf(c), messages[..i]), TextMessage(c, messages[i]));
      i := i + 1;
    }
    assert messages[..i] == messages;
    out := Join(lines, "\n");
  }

  // ---------------------------------------------------------------------------
  // format_json, format_session, get_filename

  /** `format_json`: the whole session dictionary, pretty-printed. */
  function FormatJson(c: Collaborators, session: Session): string
  {
    c.dumpSession(session)
  }

  /** The renderers `format_session` can dispatch to. */
  datatype Format = Markdown | JsonFormat | PlainText

  /** The renderer registered under a format name, if any. */
  function FormatOf(formatType: string): Option<Format>
  {
    if formatType == "markdown" then Some(Markdown)
    else if formatType == "json" then Some(JsonFormat)
    else if formatType == "text" then Some(PlainText)
    else None
  }

  /** The ValueError message for a format name with no renderer. */
  function UnsupportedFormat(formatType: string): string
  {
    "Unsupported format: " + formatType + ". Must be one of: ['markdown', 'json', 'text']"
  }

  /** `format_session`: the renderer named by `formatType`, or the ValueError for any other name. */
  method FormatSession(c: Collaborators, session: Session, formatType: string) returns (r: Result<string, string>)
    ensures formatType == "markdown" ==> r == Success(Join(MarkdownLines(c, session), "\n"))
    ensures formatType == "json" ==> r == Success(c.dumpSession(session))
    ensures formatType == "text" ==> r == Success(Join(TextLines(c, session), "\n"))
    ensures formatType !in ["markdown", "json", "text"] ==> r == Failure(UnsupportedFormat(formatType))
  {
    var formatter := FormatOf(formatType);
    match formatter
    case None =>
      r := Failure(UnsupportedFormat(formatType));
    case Some(Markdown) =>
      var out := FormatMarkdown(c, session);
      r := Success(out);
    case Some(JsonFormat) =>
      r := Success(FormatJson(c, session));
    case Some(PlainText) =>
      var out := FormatText(c, session);
      r := Success(out);
  }

  /** The file extension of a format name; "txt" for every unknown name. */
  function Extension(formatType: string): string
  {
    if formatType == "markdown" then "md"
    else if formatType == "json" then "json"
    else "txt"
  }

  /** `get_filename`. */
  function GetFilename(sessionId: string, formatType: string): string
  {
    "session_" + sessionId + "." + Extension(formatType)
  }

  /**
   * A file name is `session_`, the id, a dot and an extension without dots, so the id can be
   * read back; the extension follows the renderer, and a name with no renderer still gets `txt`.
   */
  lemma FilenameParts(sessionId: string, formatType: string)
    ensures var name := GetFilename(sessionId, formatType);
      var ext := Extension(formatType);
      && name[..8] == "session_"
      && name[8..8 + |sessionId|] == sessionId
      && name[8 + |sessionId|] == '.'
      && name[9 + |sessionId|..] == ext
      && '.' !in ext
    ensures Extension(formatType) == (match FormatOf(formatType)
                                      case Some(Markdown) => "md"
                                      case Some(JsonFormat) => "json"
                                      case _ => "txt")
  {
    var name := GetFilename(sessionId, formatType);
    assert name == "session_" + sessionId + "." + Extension(formatType);
  }

  /** The JSON export loses nothing, given that `json.loads` inverts `json.dumps` on sessions. */
  lemma JsonExportRoundTrip(c: Collaborators, session: Session, other: Session)
    requires forall s :: c.loadSession(c.dumpSession(s)) == Some(s)
    ensures c.loadSession(FormatJson(c, session)) == Some(session)
    ensures FormatJson(c, session) == FormatJson(c, other) ==> session == other
  {
    assert c.loadSession(c.dumpSession(other)) == Some(other);
  }

  // ---------------------------------------------------------------------------
  // Properties of the Markdown export

  /** The export opens with the session title as its first line, and a whole line of its header states the number of messages. */
  lemma MarkdownHeaderFacts(c: Collaborators, s: Session)
    ensures var lines := MarkdownLines(c, s);
      && lines[0] == "# Session: " + Show(s.sessionId, "Unknown")
      && lines[5] == "**Messages:** " + NatToString(|s.messages|)
    ensures var out := Join(MarkdownLines(c, s), "\n");
      && "# Session: " + Show(s.sessionId, "Unknown") + "\n" <= out
      && exists p: nat :: OccursAt(out, "\n" + "**Messages:** " + NatToString(|s.messages|) + "\n", p)
  {
    var lines := MarkdownLines(c, s);
    JoinStartsWithFirst(lines, "\n");
    JoinContainsLabelledLine(lines, "\n", 5, "**Messages:** ", NatToString(|s.messages|));
  }

  lemma BlockTextInMarkdown(c: Collaborators, b: ContentBlock)
    ensures Subsequence(BlockText(b), MarkdownBlockOf(c)(b))
  {
    if b.HasText() {
      ElementSubsequence(MarkdownBlock(c, b), 0);
    } else {
      EmptySubsequence(MarkdownBlock(c, b));
    }
  }

  /** Every non-empty text of every message is a line of the export, verbatim, in message and block order. */
  lemma MarkdownKeepsTexts(c: Collaborators, s: Session)
    ensures Subsequence(SessionTexts(s), MarkdownLines(c, s))
  {
    forall m | m in s.messages
      ensures Subsequence(MessageTexts(m), MarkdownMessageOf(c)(m))
    {
      forall b | b in m.body.content
        ensures Subsequence(BlockText(b), MarkdownBlockOf(c)(b))
      {
        BlockTextInMarkdown(c, b);
      }
      FlatMapSubsequence(BlockText, MarkdownBlockOf(c), m.body.content);
      SubsequenceWithin(MessageTexts(m), MarkdownHeading(c, m), FlatMap(MarkdownBlockOf(c), m.body.content), ["---", ""]);
    }
    FlatMapSubsequence(MessageTexts, MarkdownMessageOf(c), s.messages);
    var body := FlatMap(MarkdownMessageOf(c), s.messages);
    SubsequenceWithin(SessionTexts(s), MarkdownHeader(c, s), body, []);
    assert MarkdownHeader(c, s) + body + [] == MarkdownLines(c, s);
  }

  /** Where the lines of message `i` start in the Markdown line list. */
  function MarkdownOffset(c: Collaborators, s: Session, i: nat): nat
    requires i <= |s.messages|
  {
    |MarkdownHeader(c, s)| + Offset(MarkdownMessageOf(c), s.messages, i)
  }

  /**
   * Each message is rendered as one contiguous run of lines after the header, and the runs
   * follow message order without overlapping.
   */
  lemma MarkdownMessagesPlaced(c: Collaborators, s: Session, i: nat, j: nat)
    requires i < |s.messages|
    ensures var lines := MarkdownLines(c, s);
      var chunk := MarkdownMessage(c, s.messages[i]);
      && 11 <= MarkdownOffset(c, s, i)
      && MarkdownOffset(c, s, i) + |chunk| <= |lines|
      && lines[MarkdownOffset(c, s, i)..MarkdownOffset(c, s, i) + |chunk|] == chunk
    ensures i < j <= |s.messages| ==>
      MarkdownOffset(c, s, i) + |MarkdownMessage(c, s.messages[i])| <= MarkdownOffset(c, s, j)
  {
    var f := MarkdownMessageOf(c);
    FlatMapPlacedAfter(MarkdownHeader(c, s), f, s.messages, i);
    assert f(s.messages[i]) == MarkdownMessage(c, s.messages[i]);
    if i < j <= |s.messages| {
      FlatMapOrdered(f, s.messages, i, j);
    }
  }

  lemma IdTextMarksMissingId(m: Message)
    ensures IdText(m) == "?" <==> m.messageId.None?
  {
    if m.messageId.Some? {
      var r := IntToString(m.messageId.value);
      assert r[0] != '?';
    }
  }

  /** The icon after `### ` identifies the role: bust, robot, gear (with its variation selector) or speech balloon. */
  lemma HeadingIcon(role: string, tail: string)
    requires |tail| > 0
    ensures var h := "### " + RoleIcon(role) + tail;
      && h[..4] == "### "
      && (role == "user" <==> h[4] == '\U{1F464}')
      && (role == "assistant" <==> h[4] == '\U{1F916}')
      && (role == "system" <==> h[4..6] == "\U{2699}\U{FE0F}")
      && (role !in {"user", "assistant", "system"} <==> h[4] == '\U{1F4AC}')
  {
    var h := "### " + RoleIcon(role) + tail;
    assert h[4] == RoleIcon(role)[0];
    assert h[4..6][0] == h[4];
    if role == "system" {
      assert h[4..6] == RoleIcon(role);
    }
  }

  /**
   * A message's run starts with its heading: the role icon after `### `, then `#` and the
   * message id, or `?` exactly when it has none; the run ends with the rule `---` and a blank line.
   */
  lemma MarkdownMessageShape(c: Collaborators, m: Message)
    ensures var h := MarkdownMessage(c, m)[0];
      && h[..4] == "### "
      && (RoleOf(m) == "user" <==> h[4] == '\U{1F464}')
      && (RoleOf(m) == "assistant" <==> h[4] == '\U{1F916}')
      && (RoleOf(m) == "system" <==> h[4..6] == "\U{2699}\U{FE0F}")
      && (RoleOf(m) !in {"user", "assistant", "system"} <==> h[4] == '\U{1F4AC}')
      && h[|h| - |IdText(m)| - 2..] == " #" + IdText(m)
    ensures IdText(m) == "?" <==> m.messageId.None?
    ensures var lines := MarkdownMessage(c, m);
      |lines| >= 5 && lines[|lines| - 2..] == ["---", ""]
  {
    var role := RoleOf(m);
    var lines := MarkdownMessage(c, m);
    var blocks := FlatMap(MarkdownBlockOf(c), m.body.content);
    var heading := MarkdownHeading(c, m);
    assert lines == heading + blocks + ["---", ""];
    var h := heading[0];
    assert lines[0] == h;
    var front := "### " + RoleIcon(role) + " " + Title(role);
    assert h == front + (" #" + IdText(m));
    assert h == "### " + RoleIcon(role) + (" " + Title(role) + " #" + IdText(m));
    HeadingIcon(role, " " + Title(role) + " #" + IdText(m));
    IdTextMarksMissingId(m);
  }

  /** The tool-result line carries a check mark exactly when the status is `success`, and a cross otherwise. */
  lemma ResultEmojiMarksSuccess(r: ToolResult)
    ensures var h := MarkdownToolResult(r)[0];
      && h[..2] == "**"
      && (h[2] == '\U{2705}' <==> r.status == Some("success"))
      && (h[2] == '\U{274C}' <==> r.status != Some("success"))
  {
    var h := MarkdownToolResult(r)[0];
    assert h == "**" + ResultEmoji(StatusOf(r)) + " Tool Result:** `" + r.toolUseId.GetOr("unknown") + "`";
    assert StatusOf(r) == "success" <==> r.status == Some("success");
  }

  /** Each non-empty result text is shown verbatim inside a bare fenced block. */
  lemma ResultTextFenced(r: ToolResult, k: nat)
    requires k < |r.Items()| && r.Items()[k].HasText()
    ensures var lines := MarkdownToolResult(r);
      exists p :: 3 <= p && p + 3 <= |lines|
        && lines[p] == "```" && lines[p + 1] == r.Items()[k].text.value && lines[p + 2] == "```"
  {
    var items := r.Items();
    FlatMapPlaced(MarkdownResultItem, items, k);
    var o := Offset(MarkdownResultItem, items, k);
    var body := FlatMap(MarkdownResultItem, items);
    var chunk := MarkdownResultItem(items[k]);
    assert chunk == ["```", items[k].text.value, "```", ""];
    assert body[o..o + 4] == chunk;
    assert body[o] == body[o..o + 4][0] == "```";
    assert body[o + 1] == body[o..o + 4][1] == items[k].text.value;
    assert body[o + 2] == body[o..o + 4][2] == "```";
    var lines := MarkdownToolResult(r);
    assert lines == lines[..3] + body;
    assert lines[3 + o] == body[o] && lines[3 + o + 1] == body[o + 1] && lines[3 + o + 2] == body[o + 2];
  }

  /** A line of a content block that is neither one of its texts nor a JSON dump. */
  lemma PrefixedLineIsNotRule(p: string, x: string)
    requires |p| > 0 && p[0] != '-'
    ensures p + x != "---"
  {
    assert (p + x)[0] == p[0];
  }

  /** No text of the session is itself the line `---`. */
  ghost predicate NoRuleText(s: Session)
  {
    forall m, b :: m in s.messages && b in m.body.content ==>
      && b.text != Some("---")
      && (b.toolResult.Some? ==> forall item :: item in b.toolResult.value.Items() ==> item.text != Some("---"))
  }

  lemma BlockHasNoRule(c: Collaborators, b: ContentBlock)
    requires forall j :: c.dumpInput(j) != "---"
    requires b.text != Some("---")
    requires b.toolResult.Some? ==> forall item :: item in b.toolResult.value.Items() ==> item.text != Some("---")
    ensures "---" !in MarkdownBlockOf(c)(b)
  {
    if b.HasToolUse() {
      var t := b.toolUse.value;
      PrefixedLineIsNotRule("**\U{1F527} Tool Call:** `", t.name.GetOr("unknown") + "`");
      assert "---" !in MarkdownToolCall(c, t);
    }
    if b.HasToolResult() {
      var r := b.toolResult.value;
      PrefixedLineIsNotRule("**", ResultEmoji(StatusOf(r)) + " Tool Result:** `" + r.toolUseId.GetOr("unknown") + "`");
      PrefixedLineIsNotRule("*Status: ", StatusOf(r) + "*");
      FlatMapAbsent("---", MarkdownResultItem, r.Items());
      assert "---" !in MarkdownToolResult(r);
    }
  }

  lemma MarkdownHeaderRuleCount(c: Collaborators, s: Session)
    ensures Count("---", MarkdownHeader(c, s)) == 1
  {
    var header := MarkdownHeader(c, s);
    PrefixedLineIsNotRule("# Session: ", Show(s.sessionId, "Unknown"));
    PrefixedLineIsNotRule("**Type:** ", Show(s.sessionType, "N/A"));
    PrefixedLineIsNotRule("**Created:** ", FieldTimestamp(c, s.createdAt));
    PrefixedLineIsNotRule("**Updated:** ", FieldTimestamp(c, s.updatedAt));
    PrefixedLineIsNotRule("**Messages:** ", NatToString(|s.messages|));
    var front, back := header[..7], header[8..];
    assert "---" !in front && "---" !in back;
    assert header == front + ["---"] + back;
    CountConcat("---", front, ["---"]);
    CountConcat("---", front + ["---"], back);
  }

  lemma MarkdownMessageRuleCount(c: Collaborators, m: Message)
    requires forall j :: c.dumpInput(j) != "---"
    requires forall b :: b in m.body.content ==>
      && b.text != Some("---")
      && (b.toolResult.Some? ==> forall item :: item in b.toolResult.value.Items() ==> item.text != Some("---"))
    ensures Count("---", MarkdownMessageOf(c)(m)) == 1
  {
    forall b | b in m.body.content
      ensures "---" !in MarkdownBlockOf(c)(b)
    {
      BlockHasNoRule(c, b);
    }
    var blocks := FlatMap(MarkdownBlockOf(c), m.body.content);
    FlatMapAbsent("---", MarkdownBlockOf(c), m.body.content);
    var heading := MarkdownHeading(c, m);
    PrefixedLineIsNotRule("### ", RoleIcon(RoleOf(m)) + " " + Title(RoleOf(m)) + " #" + IdText(m));
    PrefixedLineIsNotRule("*", MessageTimestamp(c, m) + "*");
    assert "---" !in heading;
    CountConcat("---", heading, blocks);
    CountConcat("---", heading + blocks, ["---", ""]);
    assert Count("---", ["---", ""]) == 1;
  }

  /**
   * Unless some text is itself `---`, the Markdown line list holds exactly one `---` rule
   * after the header and one after each message.
   */
  lemma MarkdownRuleCount(c: Collaborators, s: Session)
    requires forall j :: c.dumpInput(j) != "---"
    requires NoRuleText(s)
    ensures Count("---", MarkdownLines(c, s)) == |s.messages| + 1
  {
    MarkdownHeaderRuleCount(c, s);
    forall m | m in s.messages
      ensures Count("---", MarkdownMessageOf(c)(m)) == 1
    {
      MarkdownMessageRuleCount(c, m);
    }
    FlatMapCountOnce("---", MarkdownMessageOf(c), s.messages);
    CountConcat("---", MarkdownHeader(c, s), FlatMap(MarkdownMessageOf(c), s.messages));
  }

  // ---------------------------------------------------------------------------
  // Properties of the plain-text export

  /** The export opens with an `=` rule line, then a line naming the session; a whole line of its header states the number of messages. */
  lemma TextHeaderFacts(c: Collaborators, s: Session)
    ensures var lines := TextLines(c, s);
      && lines[0] == Repeat('=', 80)
      && lines[1] == "Session: " + Show(s.sessionId, "Unknown")
      && lines[7] == "Messages: " + NatToString(|s.messages|)
    ensures var out := Join(TextLines(c, s), "\n");
      && Repeat('=', 80) + "\n" <= out
      && (exists p: nat :: OccursAt(out, "\n" + "Session: " + Show(s.sessionId, "Unknown") + "\n", p))
      && (exists p: nat :: OccursAt(out, "\n" + "Messages: " + NatToString(|s.messages|) + "\n", p))
  {
    var lines := TextLines(c, s);
    JoinStartsWithFirst(lines, "\n");
    JoinContainsLabelledLine(lines, "\n", 1, "Session: ", Show(s.sessionId, "Unknown"));
    JoinContainsLabelledLine(lines, "\n", 7, "Messages: ", NatToString(|s.messages|));
  }

  lemma BlockTextInText(c: Collaborators, b: ContentBlock)
    ensures Subsequence(BlockText(b), TextBlockOf(c)(b))
  {
    if b.HasText() {
      ElementSubsequence(TextBlock(c, b), 0);
    } else {
      EmptySubsequence(TextBlock(c, b));
    }
  }

  /** Every non-empty text of every message is a line of the export, verbatim, in message and block order. */
  lemma TextKeepsTexts(c: Collaborators, s: Session)
    ensures Subsequence(SessionTexts(s), TextLines(c, s))
  {
    forall m | m in s.messages
      ensures Subsequence(MessageTexts(m), TextMessageOf(c)(m))
    {
      forall b | b in m.body.content
        ensures Subsequence(BlockText(b), TextBlockOf(c)(b))
      {
        BlockTextInText(c, b);
      }
      FlatMapSubsequence(BlockText, TextBlockOf(c), m.body.content);
      SubsequenceWithin(MessageTexts(m), [Rule('-'), TextHeadingLine(c, m), Rule('-'), ""],
                        FlatMap(TextBlockOf(c), m.body.content), [""]);
    }
    FlatMapSubsequence(MessageTexts, TextMessageOf(c), s.messages);
    var body := FlatMap(TextMessageOf(c), s.messages);
    SubsequenceWithin(SessionTexts(s), TextHeader(c, s), body, []);
    assert TextHeader(c, s) + body + [] == TextLines(c, s);
  }

  /** Where the lines of message `i` start in the text line list. */
  function TextOffset(c: Collaborators, s: Session, i: nat): nat
    requires i <= |s.messages|
  {
    |TextHeader(c, s)| + Offset(TextMessageOf(c), s.messages, i)
  }

  /** Each message is rendered as one contiguous run of lines after the header, in message order. */
  lemma TextMessageRun(c: Collaborators, s: Session, i: nat, j: nat)
    requires i < |s.messages|
    ensures var lines := TextLines(c, s);
      var chunk := TextMessage(c, s.messages[i]);
      && TextOffset(c, s, i) + |chunk| <= |lines|
      && lines[TextOffset(c, s, i)..TextOffset(c, s, i) + |chunk|] == chunk
    ensures i < j <= |s.messages| ==>
      TextOffset(c, s, i) + |TextMessage(c, s.messages[i])| <= TextOffset(c, s, j)
  {
    var f := TextMessageOf(c);
    FlatMapPlacedAfter(TextHeader(c, s), f, s.messages, i);
    assert f(s.messages[i]) == TextMessage(c, s.messages[i]);
    if i < j <= |s.messages| {
      FlatMapOrdered(f, s.messages, i, j);
    }
  }

  /**
   * Each message is announced by `[ROLE #id] - timestamp`, with the role upper-cased, on the
   * line between two 80-character `-` rules; the messages follow in order.
   */
  lemma TextMessagesPlaced(c: Collaborators, s: Session, i: nat, j: nat)
    requires i < |s.messages|
    ensures var lines := TextLines(c, s);
      var p := TextOffset(c, s, i);
      var m := s.messages[i];
      && p + 3 <= |lines|
      && lines[p] == Repeat('-', 80) && lines[p + 2] == Repeat('-', 80)
      && lines[p + 1] == "[" + Upper(RoleOf(m)) + " #" + IdText(m) + "] - " + MessageTimestamp(c, m)
    ensures i < j <= |s.messages| ==>
      TextOffset(c, s, i) + |TextMessage(c, s.messages[i])| <= TextOffset(c, s, j)
  {
    TextMessageRun(c, s, i, j);
    var chunk := TextMessage(c, s.messages[i]);
    var p := TextOffset(c, s, i);
    var lines := TextLines(c, s);
    assert chunk[0] == Rule('-') && chunk[1] == TextHeadingLine(c, s.messages[i]) && chunk[2] == Rule('-');
    assert lines[p..p + |chunk|][0] == lines[p];
    assert lines[p..p + |chunk|][1] == lines[p + 1];
    assert lines[p..p + |chunk|][2] == lines[p + 2];
  }
}
