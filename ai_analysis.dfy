/**
 * The five tools a `SessionAnalyzer` hands to its agent, and the prompt
 * `answer_question` builds from the recent chat history. Each tool reads the
 * session stored by `_create_session_tools` and returns a plain-text report.
 *
 * Every report is specified by a function of the session (`SummaryReport`,
 * `ErrorReport`, `UsageReport`, `ConversationReport`, `SearchReport`); the
 * methods of `SessionAnalyzer` compute the same report with the loops of the
 * original tools, and the lemmas state what the reports promise.
 */
module AiAnalysis {
  import opened Wrappers
  import opened SessionModel
  import opened Strings
  import opened Sequences
  import Sorting
  import Slicing

  /** The content blocks of a message; none when the message object or its content is missing. */
  function ContentOf(m: Message): seq<ContentBlock>
  {
    m.body.content
  }

  /** Every content block of the session, message after message. */
  function AllBlocks(messages: seq<Message>): seq<ContentBlock>
  {
    FlatMap(ContentOf, messages)
  }

  lemma AllBlocksStep(messages: seq<Message>, i: nat)
    requires i < |messages|
    ensures AllBlocks(messages[..i + 1]) == AllBlocks(messages[..i]) + messages[i].body.content
  {
    FlatMapStep(ContentOf, messages, i);
  }

  // ---------------------------------------------------------------------------
  // get_session_summary

  /** The message has exactly this role (a missing role matches nothing). */
  function HasRole(role: string): Message -> bool
  {
    (m: Message) => m.body.role == Some(role)
  }

  /** `"toolUse" in content`: the key is present, whatever it holds. */
  predicate HoldsToolUse(b: ContentBlock)
  {
    b.toolUse.Some?
  }

  /** `"toolResult" in content`. */
  predicate HoldsToolResult(b: ContentBlock)
  {
    b.toolResult.Some?
  }

  /** The figures the summary reports. */
  datatype SummaryCounts = SummaryCounts(total: nat, user: nat, assistant: nat, toolCalls: nat, toolResults: nat)

  function Counts(messages: seq<Message>): SummaryCounts
  {
    SummaryCounts(
      |messages|,
      CountIf(HasRole("user"), messages),
      CountIf(HasRole("assistant"), messages),
      CountIf(HoldsToolUse, AllBlocks(messages)),
      CountIf(HoldsToolResult, AllBlocks(messages)))
  }

  /** The summary text for session `s` with figures `n`; a missing key prints "Unknown". */
  function SummaryText(s: Session, n: SummaryCounts): string
  {
    "Session Summary:\n"
    + "- Session ID: " + Show(s.sessionId, "Unknown") + "\n"
    + "- Type: " + Show(s.sessionType, "Unknown") + "\n"
    + "- Created: " + Show(s.createdAt, "Unknown") + "\n"
    + "- Updated: " + Show(s.updatedAt, "Unknown") + "\n"
    + "- Total Messages: " + NatToString(n.total) + "\n"
    + "  - User messages: " + NatToString(n.user) + "\n"
    + "  - Assistant messages: " + NatToString(n.assistant) + "\n"
    + "- Tool Activity:\n"
    + "  - Tool calls made: " + NatToString(n.toolCalls) + "\n"
    + "  - Tool results received: " + NatToString(n.toolResults) + "\n"
  }

  function SummaryReport(s: Session): string
  {
    SummaryText(s, Counts(s.messages))
  }

  /** A message has one role, so user and assistant messages together are at most all of them. */
  lemma RoleCountsBounded(messages: seq<Message>)
    ensures Counts(messages).user + Counts(messages).assistant <= Counts(messages).total
  {
    CountIfDisjoint(HasRole("user"), HasRole("assistant"), messages);
  }

  /** The nested loop of the summary: one increment per block holding each key. */
  method CountToolKeys(messages: seq<Message>) returns (toolCalls: nat, toolResults: nat)
    ensures toolCalls == Counts(messages).toolCalls
    ensures toolResults == Counts(messages).toolResults
  {
    toolCalls, toolResults := 0, 0;
    var i := 0;
    while i < |messages|
      invariant 0 <= i <= |messages|
      invariant toolCalls == CountIf(HoldsToolUse, AllBlocks(messages[..i]))
      invariant toolResults == CountIf(HoldsToolResult, AllBlocks(messages[..i]))
    {
      var blocks := messages[i].body.content;
      ghost var done := AllBlocks(messages[..i]);
      var j := 0;
      while j < |blocks|
        invariant 0 <= j <= |blocks|
        invariant toolCalls == CountIf(HoldsToolUse, done) + CountIf(HoldsToolUse, blocks[..j])
        invariant toolResults == CountIf(HoldsToolResult, done) + CountIf(HoldsToolResult, blocks[..j])
      {
        CountIfStep(HoldsToolUse, blocks, j);
        CountIfStep(HoldsToolResult, blocks, j);
        if blocks[j].toolUse.Some? {
          toolCalls := toolCalls + 1;
        }
        if blocks[j].toolResult.Some? {
          toolResults := toolResults + 1;
        }
        j := j + 1;
      }
      assert blocks[..j] == blocks;
      AllBlocksStep(messages, i);
      CountIfConcat(HoldsToolUse, done, blocks);
      CountIfConcat(HoldsToolResult, done, blocks);
      i := i + 1;
    }
    assert messages[..i] == messages;
  }

  // ---------------------------------------------------------------------------
  // extract_session_errors

  /** The longest error text an entry keeps. */
  const ErrorTextLimit: nat := 500

  const NoErrors := "No errors found in this session."

  /** A block holding a `toolResult` whose status is "error". */
  predicate IsErrorResult(b: ContentBlock)
  {
    b.toolResult.Some? && b.toolResult.value.status == Some("error")
  }

  /** The first item holding a `text` key; "" when no item does. */
  function FirstText(items: seq<ContentBlock>): string
  {
    if |items| == 0 then ""
    else if items[0].text.Some? then items[0].text.value
    else FirstText(items[1..])
  }

  datatype ErrorEntry = ErrorEntry(messageNumber: nat, toolUseId: string, errorText: string)

  /** The entry a block contributes when it is in message number `n`. */
  function ErrorOf(n: nat, b: ContentBlock): seq<ErrorEntry>
  {
    if IsErrorResult(b) then
      var r := b.toolResult.value;
      [ErrorEntry(n, r.toolUseId.GetOr("unknown"), Slicing.Take(FirstText(r.Items()), ErrorTextLimit))]
    else []
  }

  function ErrorsAt(n: nat): ContentBlock -> seq<ErrorEntry>
  {
    b => ErrorOf(n, b)
  }

  /** The errors of the session, in message and block order; messages are numbered from 1. */
  function SessionErrors(messages: seq<Message>): seq<ErrorEntry>
  {
    if |messages| == 0 then []
    else SessionErrors(messages[..|messages| - 1]) + FlatMap(ErrorsAt(|messages|), messages[|messages| - 1].body.content)
  }

  function ErrorHeader(count: nat): string
  {
    "Found " + NatToString(count) + " error(s) in the session:\n"
  }

  /** The section for the `i`-th error, counting from 1. */
  function ErrorSection(i: nat, e: ErrorEntry): string
  {
    "\nError #" + NatToString(i) + ":"
    + "\n- Message: #" + NatToString(e.messageNumber)
    + "\n- Tool Use ID: " + e.toolUseId
    + "\n- Error: " + e.errorText
  }

  function ErrorSections(errors: seq<ErrorEntry>): seq<string>
  {
    if |errors| == 0 then []
    else ErrorSections(errors[..|errors| - 1]) + [ErrorSection(|errors|, errors[|errors| - 1])]
  }

  function ErrorReport(errors: seq<ErrorEntry>): string
  {
    if |errors| == 0 then NoErrors
    else Join([ErrorHeader(|errors|)] + ErrorSections(errors), "\n")
  }

  /** The scan of a result's items for the first text, stopping at it. */
  method FindErrorText(items: seq<ContentBlock>) returns (text: string)
    ensures text == FirstText(items)
  {
    text := "";
    var k := 0;
    while k < |items|
      invariant 0 <= k <= |items|
      invariant FirstText(items) == FirstText(items[k..])
    {
      if items[k].text.Some? {
        text := items[k].text.value;
        break;
      }
      assert items[k..][1..] == items[k + 1..];
      k := k + 1;
    }
  }

  /** One block's turn in the error loop. */
  method AppendErrorOf(errors: seq<ErrorEntry>, n: nat, b: ContentBlock) returns (out: seq<ErrorEntry>)
    ensures out == errors + ErrorOf(n, b)
  {
    out := errors;
    if b.toolResult.Some? {
      var result := b.toolResult.value;
      if result.status == Some("error") {
        var text := FindErrorText(result.Items());
        out := errors + [ErrorEntry(n, result.toolUseId.GetOr("unknown"), Slicing.Take(text, ErrorTextLimit))];
      }
    }
  }

  method CollectErrors(messages: seq<Message>) returns (errors: seq<ErrorEntry>)
    ensures errors == SessionErrors(messages)
  {
    errors := [];
    var i := 0;
    while i < |messages|
      invariant 0 <= i <= |messages|
      invariant errors == SessionErrors(messages[..i])
    {
      var blocks := messages[i].body.content;
      ghost var before := errors;
      var j := 0;
      while j < |blocks|
        invariant 0 <= j <= |blocks|
        invariant errors == before + FlatMap(ErrorsAt(i + 1), blocks[..j])
      {
        FlatMapStep(ErrorsAt(i + 1), blocks, j);
        assert ErrorsAt(i + 1)(blocks[j]) == ErrorOf(i + 1, blocks[j]);
        errors := AppendErrorOf(errors, i + 1, blocks[j]);
        AppendAssoc(before, FlatMap(ErrorsAt(i + 1), blocks[..j]), ErrorOf(i + 1, blocks[j]));
        j := j + 1;
      }
      assert blocks[..j] == blocks;
      assert messages[..i + 1][..i] == messages[..i];
      i := i + 1;
    }
    assert messages[..i] == messages;
  }

  /** FirstText is the text of the first item that has one, and "" when none has. */
  lemma {:induction false} FirstTextIsFirst(items: seq<ContentBlock>)
    ensures (forall k :: 0 <= k < |items| ==> items[k].text.None?) ==> FirstText(items) == ""
    ensures (exists k :: 0 <= k < |items| && items[k].text.Some?) ==>
      exists k :: 0 <= k < |items| && items[k].text == Some(FirstText(items))
        && forall q :: 0 <= q < k ==> items[q].text.None?
  {
    if |items| > 0 {
      FirstTextIsFirst(items[1..]);
      if items[0].text.None? {
        if exists k :: 0 <= k < |items| && items[k].text.Some? {
          var k :| 0 <= k < |items| && items[k].text.Some?;
          assert items[1..][k - 1].text.Some?;
          var k' :| 0 <= k' < |items[1..]| && items[1..][k'].text == Some(FirstText(items[1..]))
            && forall q :: 0 <= q < k' ==> items[1..][q].text.None?;
          assert forall q :: 0 <= q < k' + 1 ==> items[q].text.None? by {
            forall q | 0 <= q < k' + 1 ensures items[q].text.None? {
              if q > 0 {
                assert items[q] == items[1..][q - 1];
              }
            }
          }
          assert items[k' + 1].text == Some(FirstText(items));
        }
        if forall k :: 0 <= k < |items| ==> items[k].text.None? {
          assert forall k :: 0 <= k < |items[1..]| ==> items[1..][k].text.None? by {
            forall k | 0 <= k < |items[1..]| ensures items[1..][k].text.None? {
              assert items[1..][k] == items[k + 1];
            }
          }
        }
      }
    }
  }

  /** The error text keeps its first 500 characters: whole when short, a prefix of length 500 when long. */
  lemma ErrorTextTruncated(t: string)
    ensures Slicing.Take(t, ErrorTextLimit) <= t
    ensures |t| <= ErrorTextLimit ==> Slicing.Take(t, ErrorTextLimit) == t
    ensures |t| > ErrorTextLimit ==> |Slicing.Take(t, ErrorTextLimit)| == ErrorTextLimit
  {
  }

  /** The entries of one message's blocks: all numbered `n`, texts of at most 500 characters. */
  lemma {:induction false} BlockErrorsAt(n: nat, blocks: seq<ContentBlock>)
    ensures forall e :: e in FlatMap(ErrorsAt(n), blocks) ==> e.messageNumber == n && |e.errorText| <= ErrorTextLimit
    ensures |FlatMap(ErrorsAt(n), blocks)| == CountIf(IsErrorResult, blocks)
  {
    if |blocks| > 0 {
      BlockErrorsAt(n, blocks[..|blocks| - 1]);
      assert ErrorsAt(n)(blocks[|blocks| - 1]) == ErrorOf(n, blocks[|blocks| - 1]);
    }
  }

  /**
   * One entry per error result, in order: message numbers run from 1 to the
   * number of messages and never decrease, and texts are at most 500 long.
   */
  lemma {:induction false} ErrorsInOrder(messages: seq<Message>)
    ensures |SessionErrors(messages)| == CountIf(IsErrorResult, AllBlocks(messages))
    ensures forall e :: e in SessionErrors(messages) ==>
      1 <= e.messageNumber <= |messages| && |e.errorText| <= ErrorTextLimit
    ensures forall i, j :: 0 <= i < j < |SessionErrors(messages)| ==>
      SessionErrors(messages)[i].messageNumber <= SessionErrors(messages)[j].messageNumber
  {
    if |messages| > 0 {
      var init := messages[..|messages| - 1];
      var last := messages[|messages| - 1];
      ErrorsInOrder(init);
      BlockErrorsAt(|messages|, last.body.content);
      AllBlocksStep(messages, |messages| - 1);
      assert messages[..|messages|] == messages;
      CountIfConcat(IsErrorResult, AllBlocks(init), last.body.content);
      var before: seq<ErrorEntry> := SessionErrors(init);
      var added: seq<ErrorEntry> := FlatMap(ErrorsAt(|messages|), last.body.content);
      assert SessionErrors(messages) == before + added;
      forall i, j | 0 <= i < j < |before + added|
        ensures (before + added)[i].messageNumber <= (before + added)[j].messageNumber
      {
        if j >= |before| {
          assert (before + added)[j] in added;
          if i < |before| {
            assert (before + added)[i] in before;
          } else {
            assert (before + added)[i] in added;
          }
        }
      }
    }
  }

  /** An error result is a tool result, so the errors are at most the results the summary counts. */
  lemma ErrorsBoundedByResults(messages: seq<Message>)
    ensures |SessionErrors(messages)| <= Counts(messages).toolResults
  {
    ErrorsInOrder(messages);
    CountIfImplies(IsErrorResult, HoldsToolResult, AllBlocks(messages));
  }

  /** The report is exactly "No errors found in this session." when, and only when, no result has status "error". */
  lemma NoErrorsExactly(messages: seq<Message>)
    ensures ErrorReport(SessionErrors(messages)) == NoErrors <==> CountIf(IsErrorResult, AllBlocks(messages)) == 0
    ensures CountIf(IsErrorResult, AllBlocks(messages)) > 0 ==>
      ErrorHeader(CountIf(IsErrorResult, AllBlocks(messages))) <= ErrorReport(SessionErrors(messages))
  {
    ErrorsInOrder(messages);
    var errors := SessionErrors(messages);
    if |errors| > 0 {
      var parts := [ErrorHeader(|errors|)] + ErrorSections(errors);
      JoinStartsWithFirst(parts, "\n");
      assert ErrorReport(errors)[0] == 'F';
    }
  }

  // ---------------------------------------------------------------------------
  // analyze_tool_usage

  const NoTools := "No tools were used in this session."

  /** The name a block's `toolUse` reports, "unknown" when it has none. */
  function ToolNameOf(b: ContentBlock): seq<string>
  {
    if b.toolUse.Some? then [b.toolUse.value.name.GetOr("unknown")] else []
  }

  /** The tool name of every call, in message and block order. */
  function ToolNames(messages: seq<Message>): seq<string>
  {
    FlatMap(ToolNameOf, AllBlocks(messages))
  }

  /** The `tool_stats` dictionary: names with their counts, in insertion order. */
  type Stats = seq<(string, nat)>

  function Keys(stats: Stats): seq<string>
  {
    if |stats| == 0 then [] else [stats[0].0] + Keys(stats[1..])
  }

  /** The count recorded for `name`, 0 when it has none. */
  function Lookup(stats: Stats, name: string): nat
  {
    if |stats| == 0 then 0
    else if stats[0].0 == name then stats[0].1
    else Lookup(stats[1..], name)
  }

  /** Counting one more call of `name`: a known name is counted in place, a new one goes last. */
  function Bump(stats: Stats, name: string): Stats
  {
    if |stats| == 0 then [(name, 1)]
    else if stats[0].0 == name then [(name, stats[0].1 + 1)] + stats[1..]
    else [stats[0]] + Bump(stats[1..], name)
  }

  function Tally(names: seq<string>): Stats
  {
    if |names| == 0 then [] else Bump(Tally(names[..|names| - 1]), names[|names| - 1])
  }

  /** The names of `names` without repeats, each where it first occurs. */
  function Distinct(names: seq<string>): seq<string>
  {
    if |names| == 0 then []
    else
      var init := names[..|names| - 1];
      Distinct(init) + (if names[|names| - 1] in init then [] else [names[|names| - 1]])
  }

  function Total(stats: Stats): nat
  {
    if |stats| == 0 then 0 else stats[0].1 + Total(stats[1..])
  }

  function CallCount(entry: (string, nat)): int
  {
    entry.1
  }

  /** The descending order on counts: more calls first. */
  function MoreCalls(x: int, y: int): bool
  {
    x > y
  }

  function UsageLine(entry: (string, nat)): string
  {
    "- " + entry.0 + ": " + NatToString(entry.1) + " call(s)"
  }

  function UsageLineOf(entry: (string, nat)): seq<string>
  {
    [UsageLine(entry)]
  }

  function UsageReport(stats: Stats): string
  {
    if |stats| == 0 then NoTools
    else Join(["Tool Usage Analysis:\n"] + FlatMap(UsageLineOf, Sorting.SortBy(stats, CallCount, MoreCalls)), "\n")
  }

  lemma {:induction false} BumpFacts(stats: Stats, name: string)
    ensures Keys(Bump(stats, name)) == if name in Keys(stats) then Keys(stats) else Keys(stats) + [name]
    ensures forall k :: Lookup(Bump(stats, name), k) == Lookup(stats, k) + (if k == name then 1 else 0)
    ensures Total(Bump(stats, name)) == Total(stats) + 1
  {
    if |stats| > 0 {
      BumpFacts(stats[1..], name);
    }
  }

  lemma {:induction false} DistinctFacts(names: seq<string>)
    ensures forall n :: n in Distinct(names) <==> n in names
    ensures forall i, j :: 0 <= i < j < |Distinct(names)| ==> Distinct(names)[i] != Distinct(names)[j]
  {
    if |names| > 0 {
      var init := names[..|names| - 1];
      DistinctFacts(init);
      assert names == init + [names[|names| - 1]];
    }
  }

  lemma {:induction false} KeysLength(stats: Stats)
    ensures |Keys(stats)| == |stats|
    ensures forall i :: 0 <= i < |stats| ==> Keys(stats)[i] == stats[i].0
  {
    if |stats| > 0 {
      KeysLength(stats[1..]);
    }
  }

  /**
   * The tally holds each distinct name once, in order of first call, with the
   * number of its calls; the counts add up to the number of calls.
   */
  lemma {:induction false} TallyFacts(names: seq<string>)
    ensures Keys(Tally(names)) == Distinct(names)
    ensures forall k :: Lookup(Tally(names), k) == Count(k, names)
    ensures Total(Tally(names)) == |names|
  {
    if |names| > 0 {
      var init := names[..|names| - 1];
      var last := names[|names| - 1];
      TallyFacts(init);
      BumpFacts(Tally(init), last);
      DistinctFacts(init);
      forall k ensures Lookup(Tally(names), k) == Count(k, names) {
        CountConcat(k, init, [last]);
        assert names == init + [last];
      }
    }
  }

  /** Every call is counted under its name: the counts total the `toolUse` blocks of the summary. */
  lemma {:induction false} ToolNamesCountCalls(messages: seq<Message>)
    ensures |ToolNames(messages)| == Counts(messages).toolCalls
  {
    BlockNamesCount(AllBlocks(messages));
  }

  lemma {:induction false} BlockNamesCount(blocks: seq<ContentBlock>)
    ensures |FlatMap(ToolNameOf, blocks)| == CountIf(HoldsToolUse, blocks)
  {
    if |blocks| > 0 {
      BlockNamesCount(blocks[..|blocks| - 1]);
    }
  }

  /**
   * The report lists the tally sorted by count, most calls first, entries with
   * equal counts in first-call order, and nothing lost or added.
   */
  lemma UsageOrdered(stats: Stats)
    ensures multiset(Sorting.SortBy(stats, CallCount, MoreCalls)) == multiset(stats)
    ensures forall i, j :: 0 <= i < j < |Sorting.SortBy(stats, CallCount, MoreCalls)| ==>
      Sorting.SortBy(stats, CallCount, MoreCalls)[i].1 >= Sorting.SortBy(stats, CallCount, MoreCalls)[j].1
    ensures forall k :: Sorting.WithKey(Sorting.SortBy(stats, CallCount, MoreCalls), CallCount, k)
                     == Sorting.WithKey(stats, CallCount, k)
  {
    MoreCallsIsStrictTotalOrder();
    Sorting.SortByMultiset(stats, CallCount, MoreCalls);
    Sorting.SortBySorted(stats, CallCount, MoreCalls);
    Sorting.SortByKeyOrder(stats, CallCount, MoreCalls);
  }

  lemma MoreCallsIsStrictTotalOrder()
    ensures Sorting.StrictTotalOrder(MoreCalls)
  {
  }

  /** "No tools were used in this session." exactly when no block holds a `toolUse`. */
  lemma NoToolsExactly(messages: seq<Message>)
    ensures UsageReport(Tally(ToolNames(messages))) == NoTools <==> Counts(messages).toolCalls == 0
  {
    var names := ToolNames(messages);
    ToolNamesCountCalls(messages);
    TallyFacts(names);
    DistinctFacts(names);
    KeysLength(Tally(names));
    var stats := Tally(names);
    if |names| > 0 {
      assert names[0] in Distinct(names);
      var parts := ["Tool Usage Analysis:\n"] + FlatMap(UsageLineOf, Sorting.SortBy(stats, CallCount, MoreCalls));
      JoinStartsWithFirst(parts, "\n");
      assert UsageReport(stats)[0] == 'T';
    }
  }

  /** The loop filling `tool_stats`. */
  method CountTools(messages: seq<Message>) returns (stats: Stats)
    ensures stats == Tally(ToolNames(messages))
  {
    stats := [];
    ghost var seen: seq<string> := [];
    var i := 0;
    while i < |messages|
      invariant 0 <= i <= |messages|
      invariant seen == ToolNames(messages[..i])
      invariant stats == Tally(seen)
    {
      var blocks := messages[i].body.content;
      ghost var done := AllBlocks(messages[..i]);
      var j := 0;
      while j < |blocks|
        invariant 0 <= j <= |blocks|
        invariant seen == FlatMap(ToolNameOf, done) + FlatMap(ToolNameOf, blocks[..j])
        invariant stats == Tally(seen)
      {
        FlatMapStep(ToolNameOf, blocks, j);
        if blocks[j].toolUse.Some? {
          var name := blocks[j].toolUse.value.name.GetOr("unknown");
          stats := Bump(stats, name);
          assert (seen + [name])[..|seen|] == seen;
          seen := seen + [name];
        }
        AppendAssoc(FlatMap(ToolNameOf, done), FlatMap(ToolNameOf, blocks[..j]), ToolNameOf(blocks[j]));
        j := j + 1;
      }
      assert blocks[..j] == blocks;
      AllBlocksStep(messages, i);
      FlatMapConcat(ToolNameOf, done, blocks);
      i := i + 1;
    }
    assert messages[..i] == messages;
  }

  // ---------------------------------------------------------------------------
  // get_conversation_messages

  /** The longest text the conversation dump shows whole. */
  const TextLimit: nat := 1000

  const ConversationTitle := "Complete Conversation:\n"

  /** A text longer than the limit is cut to its first 1000 characters and marked as truncated. */
  function Clip(t: string): string
  {
    if |t| > TextLimit then t[..TextLimit] + "... (truncated)" else t
  }

  /** The lines of one block: its text, its tool call, its tool result, each when the key is present. */
  function ConversationBlock(b: ContentBlock): seq<string>
  {
    (if b.text.Some? then ["  " + Clip(b.text.value)] else [])
    + (if b.toolUse.Some? then ["  [Tool Call: " + b.toolUse.value.name.GetOr("unknown") + "]"] else [])
    + (if b.toolResult.Some? then ["  [Tool Result: " + b.toolResult.value.status.GetOr("unknown") + "]"] else [])
  }

  /** The heading of message number `n`, its role in upper case. */
  function ConversationHeading(n: nat, m: Message): string
  {
    "\nMessage #" + NatToString(n) + " (" + Upper(m.body.role.GetOr("unknown")) + "):"
  }

  function ConversationMessage(n: nat, m: Message): seq<string>
  {
    [ConversationHeading(n, m)] + FlatMap(ConversationBlock, m.body.content)
  }

  /** The lines after the title, messages numbered from 1. */
  function ConversationEntries(messages: seq<Message>): seq<string>
  {
    if |messages| == 0 then []
    else ConversationEntries(messages[..|messages| - 1]) + ConversationMessage(|messages|, messages[|messages| - 1])
  }

  function ConversationReport(messages: seq<Message>): string
  {
    Join([ConversationTitle] + ConversationEntries(messages), "\n")
  }

  /** The line a block's text becomes. */
  function ClippedTextOf(b: ContentBlock): seq<string>
  {
    if b.text.Some? then ["  " + Clip(b.text.value)] else []
  }

  /** The headings of all messages, numbered from 1. */
  function Headings(messages: seq<Message>): seq<string>
  {
    seq(|messages|, i requires 0 <= i < |messages| => ConversationHeading(i + 1, messages[i]))
  }

  /** A text of at most 1000 characters is shown whole; a longer one keeps its first 1000, then the marker. */
  lemma ClipKeepsShortText(t: string)
    ensures |t| <= TextLimit ==> Clip(t) == t
    ensures |t| > TextLimit ==>
      |Clip(t)| == TextLimit + 15 && t[..TextLimit] <= Clip(t) && Clip(t)[TextLimit..] == "... (truncated)"
  {
  }

  /** Every text of the session appears, clipped, in the dump, in message and block order. */
  lemma {:induction false} ConversationKeepsTexts(messages: seq<Message>)
    ensures Subsequence(FlatMap(ClippedTextOf, AllBlocks(messages)), ConversationEntries(messages))
  {
    if |messages| == 0 {
      EmptySubsequence(ConversationEntries(messages));
    } else {
      var init := messages[..|messages| - 1];
      var last := messages[|messages| - 1];
      ConversationKeepsTexts(init);
      AllBlocksStep(messages, |messages| - 1);
      assert messages[..|messages|] == messages;
      FlatMapConcat(ClippedTextOf, AllBlocks(init), last.body.content);
      forall b | b in last.body.content ensures Subsequence(ClippedTextOf(b), ConversationBlock(b)) {
        if b.text.Some? {
          ElementSubsequence(ConversationBlock(b), 0);
        } else {
          EmptySubsequence(ConversationBlock(b));
        }
      }
      FlatMapSubsequence(ClippedTextOf, ConversationBlock, last.body.content);
      var lines := FlatMap(ConversationBlock, last.body.content);
      SubsequenceWithin(FlatMap(ClippedTextOf, last.body.content), [ConversationHeading(|messages|, last)], lines, []);
      assert [ConversationHeading(|messages|, last)] + lines + [] == ConversationMessage(|messages|, last);
      SubsequenceConcat(FlatMap(ClippedTextOf, AllBlocks(init)), ConversationEntries(init),
                        FlatMap(ClippedTextOf, last.body.content), ConversationMessage(|messages|, last));
    }
  }

  /** Every message has its numbered heading in the dump, in message order. */
  lemma {:induction false} ConversationHeadingsInOrder(messages: seq<Message>)
    ensures Subsequence(Headings(messages), ConversationEntries(messages))
  {
    if |messages| == 0 {
      EmptySubsequence(ConversationEntries(messages));
    } else {
      var init := messages[..|messages| - 1];
      var last := messages[|messages| - 1];
      ConversationHeadingsInOrder(init);
      assert Headings(messages) == Headings(init) + [ConversationHeading(|messages|, last)];
      ElementSubsequence(ConversationMessage(|messages|, last), 0);
      SubsequenceConcat(Headings(init), ConversationEntries(init),
                        [ConversationHeading(|messages|, last)], ConversationMessage(|messages|, last));
    }
  }

  /** One block's turn in the dump loop. */
  method AppendConversationBlock(lines: seq<string>, b: ContentBlock) returns (out: seq<string>)
    ensures out == lines + ConversationBlock(b)
  {
    var textLines: seq<string> := [];
    if b.text.Some? {
      var text := b.text.value;
      if |text| > TextLimit {
        text := text[..TextLimit] + "... (truncated)";
      }
      textLines := ["  " + text];
    }
    var callLines: seq<string> := [];
    if b.toolUse.Some? {
      callLines := ["  [Tool Call: " + b.toolUse.value.name.GetOr("unknown") + "]"];
    }
    var resultLines: seq<string> := [];
    if b.toolResult.Some? {
      resultLines := ["  [Tool Result: " + b.toolResult.value.status.GetOr("unknown") + "]"];
    }
    out := lines + textLines + callLines + resultLines;
    AppendAssoc(lines, textLines, callLines);
    AppendAssoc(lines, textLines + callLines, resultLines);
  }

  /** One message's turn in the dump loop. */
  method AppendConversationMessage(lines: seq<string>, n: nat, m: Message) returns (out: seq<string>)
    ensures out == lines + ConversationMessage(n, m)
  {
    var heading := ConversationHeading(n, m);
    out := lines + [heading];
    var blocks := m.body.content;
    var j := 0;
    while j < |blocks|
      invariant 0 <= j <= |blocks|
      invariant out == lines + [heading] + FlatMap(ConversationBlock, blocks[..j])
    {
      FlatMapStep(ConversationBlock, blocks, j);
      out := AppendConversationBlock(out, blocks[j]);
      AppendAssoc(lines + [heading], FlatMap(ConversationBlock, blocks[..j]), ConversationBlock(blocks[j]));
      j := j + 1;
    }
    assert blocks[..j] == blocks;
    AppendAssoc(lines, [heading], FlatMap(ConversationBlock, blocks));
  }

  // ---------------------------------------------------------------------------
  // search_session_content

  /** How many characters of context a match shows on each side. */
  const ContextRadius: nat := 100

  datatype Match = Match(messageNumber: nat, role: string, context: string)

  /** `max(0, p - 100)`. */
  function ContextStart(p: nat): nat
  {
    if p >= ContextRadius then p - ContextRadius else 0
  }

  /** `min(len(text), p + len(query) + 100)`. */
  function ContextEnd(len: nat, p: nat, queryLength: nat): nat
  {
    if p + queryLength + ContextRadius <= len then p + queryLength + ContextRadius else len
  }

  /** The text around a match at `p`, with "..." where text was cut off. */
  function Context(text: string, p: nat, queryLength: nat): string
    requires p + queryLength <= |text|
  {
    var start := ContextStart(p);
    var end := ContextEnd(|text|, p, queryLength);
    (if start > 0 then "..." else "") + text[start..end] + (if end < |text| then "..." else "")
  }

  /** The role a match reports, "unknown" when the message has none. */
  function RoleName(m: Message): string
  {
    m.body.role.GetOr("unknown")
  }

  /** The match a block contributes: its first case-insensitive occurrence of the query, if any. */
  function SearchBlock(n: nat, role: string, query: string, b: ContentBlock): seq<Match>
  {
    if b.text.Some? then
      match FindFirst(Lower(b.text.value), Lower(query))
      case Some(p) => [Match(n, role, Context(b.text.value, p, |query|))]
      case None => []
    else []
  }

  function SearchAt(n: nat, role: string, query: string): ContentBlock -> seq<Match>
  {
    b => SearchBlock(n, role, query, b)
  }

  function SessionMatches(messages: seq<Message>, query: string): seq<Match>
  {
    if |messages| == 0 then []
    else
      var last := messages[|messages| - 1];
      SessionMatches(messages[..|messages| - 1], query) + FlatMap(SearchAt(|messages|, RoleName(last), query), last.body.content)
  }

  /** A block whose text contains the query, ignoring case. */
  ghost function Mentions(query: string): ContentBlock -> bool
  {
    (b: ContentBlock) => b.text.Some? && exists p: nat :: OccursAt(Lower(b.text.value), Lower(query), p)
  }

  function NoMatches(query: string): string
  {
    "No matches found for '" + query + "' in session messages."
  }

  function MatchLineOf(m: Match): seq<string>
  {
    ["\nMessage #" + NatToString(m.messageNumber) + " (" + m.role + "):" + "\n  " + m.context]
  }

  function SearchReport(query: string, matches: seq<Match>): string
  {
    if |matches| == 0 then NoMatches(query)
    else Join(["Found " + NatToString(|matches|) + " match(es) for '" + query + "':\n"] + FlatMap(MatchLineOf, matches), "\n")
  }

  /**
   * The context shows the match itself and at most 100 characters on either
   * side; "..." leads exactly when more than 100 characters precede the
   * match, and trails exactly when more than 100 follow it.
   */
  lemma ContextAroundMatch(text: string, p: nat, queryLength: nat)
    requires p + queryLength <= |text|
    ensures var c := Context(text, p, queryLength);
      OccursAt(c, text[p..p + queryLength], (if p > ContextRadius then 3 else 0) + p - ContextStart(p))
    ensures |Context(text, p, queryLength)| <= queryLength + 2 * ContextRadius + 6
    ensures ContextStart(p) > 0 <==> p > ContextRadius
    ensures ContextEnd(|text|, p, queryLength) < |text| <==> p + queryLength + ContextRadius < |text|
    ensures p <= ContextRadius ==> text[..p + queryLength] <= Context(text, p, queryLength)
  {
    var start := ContextStart(p);
    var end := ContextEnd(|text|, p, queryLength);
    var lead := if start > 0 then "..." else "";
    var trail := if end < |text| then "..." else "";
    var w := text[start..end];
    var c := Context(text, p, queryLength);
    assert c == lead + w + trail;
    var o := |lead| + (p - start);
    assert |w| == end - start && p + queryLength <= end;
    var shown := c[o..o + queryLength];
    var found := text[p..p + queryLength];
    forall k | 0 <= k < queryLength
      ensures shown[k] == found[k]
    {
      assert c[o + k] == (lead + w)[o + k] == w[p - start + k];
    }
    assert shown == found;
  }

  /** A block yields a match exactly when its text contains the query, and never more than one. */
  lemma SearchBlockMatchesMention(n: nat, role: string, query: string, b: ContentBlock)
    ensures |SearchBlock(n, role, query, b)| == if Mentions(query)(b) then 1 else 0
  {
  }

  lemma {:induction false} BlockMatchesCount(n: nat, role: string, query: string, blocks: seq<ContentBlock>)
    ensures |FlatMap(SearchAt(n, role, query), blocks)| == CountIf(Mentions(query), blocks)
  {
    if |blocks| > 0 {
      BlockMatchesCount(n, role, query, blocks[..|blocks| - 1]);
      SearchBlockMatchesMention(n, role, query, blocks[|blocks| - 1]);
    }
  }

  /** One match per block whose text contains the query, ignoring case. */
  lemma {:induction false} MatchesCountMentions(messages: seq<Message>, query: string)
    ensures |SessionMatches(messages, query)| == CountIf(Mentions(query), AllBlocks(messages))
  {
    if |messages| > 0 {
      var init := messages[..|messages| - 1];
      var last := messages[|messages| - 1];
      MatchesCountMentions(init, query);
      BlockMatchesCount(|messages|, RoleName(last), query, last.body.content);
      AllBlocksStep(messages, |messages| - 1);
      assert messages[..|messages|] == messages;
      CountIfConcat(Mentions(query), AllBlocks(init), last.body.content);
    }
  }

  /** Queries that agree once lower-cased, and in length, find the same matches. */
  lemma {:induction false} SearchIgnoresCase(messages: seq<Message>, q1: string, q2: string)
    requires Lower(q1) == Lower(q2) && |q1| == |q2|
    ensures SessionMatches(messages, q1) == SessionMatches(messages, q2)
  {
    if |messages| > 0 {
      var last := messages[|messages| - 1];
      SearchIgnoresCase(messages[..|messages| - 1], q1, q2);
      forall b | b in last.body.content
        ensures SearchAt(|messages|, RoleName(last), q1)(b) == SearchAt(|messages|, RoleName(last), q2)(b)
      {
      }
      FlatMapCongruent(SearchAt(|messages|, RoleName(last), q1), SearchAt(|messages|, RoleName(last), q2), last.body.content);
    }
  }

  /** In particular the upper-cased query finds what the query finds. */
  lemma SearchUpperQuery(messages: seq<Message>, query: string)
    ensures SessionMatches(messages, Upper(query)) == SessionMatches(messages, query)
  {
    LowerOfUpper(query);
    SearchIgnoresCase(messages, Upper(query), query);
  }

  /** "No matches found ..." exactly when no text contains the query. */
  lemma NoMatchesExactly(messages: seq<Message>, query: string)
    ensures SearchReport(query, SessionMatches(messages, query)) == NoMatches(query)
        <==> CountIf(Mentions(query), AllBlocks(messages)) == 0
  {
    MatchesCountMentions(messages, query);
    var matches := SessionMatches(messages, query);
    if |matches| > 0 {
      var parts := ["Found " + NatToString(|matches|) + " match(es) for '" + query + "':\n"] + FlatMap(MatchLineOf, matches);
      JoinStartsWithFirst(parts, "\n");
      assert SearchReport(query, matches)[0] == 'F';
    }
  }

  /** One block's turn in the search loop; `queryLower` is the lower-cased query, computed once. */
  method AppendMatch(matches: seq<Match>, n: nat, role: string, query: string, queryLower: string, b: ContentBlock)
    returns (out: seq<Match>)
    requires queryLower == Lower(query)
    ensures out == matches + SearchBlock(n, role, query, b)
  {
    out := matches;
    if b.text.Some? {
      var text := b.text.value;
      var found := FindFirst(Lower(text), queryLower);
      if found.Some? {
        var p := found.value;
        var start := ContextStart(p);
        var end := ContextEnd(|text|, p, |query|);
        var context := text[start..end];
        if start > 0 {
          context := "..." + context;
        }
        if end < |text| {
          context := context + "...";
        }
        assert context == Context(text, p, |query|);
        out := matches + [Match(n, role, context)];
      }
    }
  }

  method CollectMatches(messages: seq<Message>, query: string) returns (matches: seq<Match>)
    ensures matches == SessionMatches(messages, query)
  {
    var queryLower := Lower(query);
    matches := [];
    var i := 0;
    while i < |messages|
      invariant 0 <= i <= |messages|
      invariant matches == SessionMatches(messages[..i], query)
    {
      var role := RoleName(messages[i]);
      var blocks := messages[i].body.content;
      ghost var before := matches;
      var j := 0;
      while j < |blocks|
        invariant 0 <= j <= |blocks|
        invariant matches == before + FlatMap(SearchAt(i + 1, role, query), blocks[..j])
      {
        FlatMapStep(SearchAt(i + 1, role, query), blocks, j);
        assert SearchAt(i + 1, role, query)(blocks[j]) == SearchBlock(i + 1, role, query, blocks[j]);
        matches := AppendMatch(matches, i + 1, role, query, queryLower, blocks[j]);
        AppendAssoc(before, FlatMap(SearchAt(i + 1, role, query), blocks[..j]), SearchBlock(i + 1, role, query, blocks[j]));
        j := j + 1;
      }
      assert blocks[..j] == blocks;
      assert messages[..i + 1][..i] == messages[..i];
      i := i + 1;
    }
    assert messages[..i] == messages;
  }

  // ---------------------------------------------------------------------------
  // answer_question

  /** One entry of the chat history; a missing role reads "user", missing content "". */
  datatype ChatEntry = ChatEntry(role: Option<string>, content: Option<string>)

  /** How many of the latest history entries the prompt quotes. */
  const HistoryWindow: int := 3

  const Instruction := "Use the available tools to analyze the session and answer the user's question accurately."

  /** The last three history entries (all of them when there are fewer). */
  function RecentHistory(history: seq<ChatEntry>): seq<ChatEntry>
  {
    Slicing.Drop(history, -HistoryWindow)
  }

  function HistoryLine(e: ChatEntry): string
  {
    e.role.GetOr("user") + ": " + e.content.GetOr("") + "\n"
  }

  const HistoryTitle := "\nPrevious conversation:\n"

  /** The question and the instruction that close every prompt. */
  function QuestionPart(question: string): string
  {
    "User Question: " + question + "\n\n" + Instruction
  }

  /** The prompt for `question`; an absent or empty history is left out. */
  function Prompt(question: string, history: Option<seq<ChatEntry>>): string
  {
    if history.Some? && |history.value| > 0 then
      HistoryTitle + FlatMap(HistoryLine, RecentHistory(history.value)) + "\n\n" + QuestionPart(question)
    else
      QuestionPart(question)
  }

  /** The window is the last three entries, or all of them when there are fewer, in their order. */
  lemma RecentIsLastThree(history: seq<ChatEntry>)
    ensures |RecentHistory(history)| == if |history| < HistoryWindow then |history| else HistoryWindow
    ensures forall i :: 0 <= i < |RecentHistory(history)| ==>
      RecentHistory(history)[i] == history[|history| - |RecentHistory(history)| + i]
  {
  }

  /** An entry older than the last three does not change the prompt. */
  lemma OlderHistoryIgnored(question: string, e: ChatEntry, history: seq<ChatEntry>)
    requires |history| >= HistoryWindow
    ensures Prompt(question, Some([e] + history)) == Prompt(question, Some(history))
  {
    assert RecentHistory([e] + history) == RecentHistory(history) by {
      assert ([e] + history)[|history| + 1 - HistoryWindow..] == history[|history| - HistoryWindow..];
    }
  }

  /** The prompt quotes history exactly when there is some, and always ends with the question and the instruction. */
  lemma PromptShape(question: string, history: Option<seq<ChatEntry>>)
    ensures HistoryTitle <= Prompt(question, history) <==> history.Some? && |history.value| > 0
    ensures var p := Prompt(question, history);
      var tail := QuestionPart(question);
      |tail| <= |p| && p[|p| - |tail|..] == tail
  {
    var p := Prompt(question, history);
    var tail := QuestionPart(question);
    if history.Some? && |history.value| > 0 {
      var head := HistoryTitle + FlatMap(HistoryLine, RecentHistory(history.value)) + "\n\n";
      assert p == head + tail;
      assert p[|p| - |tail|..] == tail;
    } else {
      assert tail[0] == 'U';
    }
  }

  /** The prompt building of `answer_question`. */
  method BuildPrompt(question: string, history: Option<seq<ChatEntry>>) returns (prompt: string)
    ensures prompt == Prompt(question, history)
  {
    if history.Some? && |history.value| > 0 {
      var context := HistoryTitle;
      var recent := Slicing.Drop(history.value, -HistoryWindow);
      var i := 0;
      while i < |recent|
        invariant 0 <= i <= |recent|
        invariant context == HistoryTitle + FlatMap(HistoryLine, recent[..i])
      {
        FlatMapStep(HistoryLine, recent, i);
        var role := recent[i].role.GetOr("user");
        var content := recent[i].content.GetOr("");
        context := context + (role + ": " + content + "\n");
        AppendAssoc(HistoryTitle, FlatMap(HistoryLine, recent[..i]), HistoryLine(recent[i]));
        i := i + 1;
      }
      assert recent[..i] == recent;
      prompt := context + "\n\n" + QuestionPart(question);
    } else {
      prompt := QuestionPart(question);
    }
  }

  // ---------------------------------------------------------------------------
  // The analyzer

  /** `SessionAnalyzer`: the session its tools read is the one field that changes. */
  class SessionAnalyzer {
    var currentSession: Option<Session>

    constructor ()
      ensures currentSession == None
    {
      currentSession := None;
    }

    /** `_create_session_tools(session)`: stores the session the tools will read. */
    method CreateSessionTools(session: Session)
      modifies this
      ensures currentSession == Some(session)
    {
      currentSession := Some(session);
    }

    /** The `get_session_summary` tool. */
    method GetSessionSummary() returns (r: string)
      requires currentSession.Some?
      ensures r == SummaryReport(currentSession.value)
    {
      var s := currentSession.value;
      var messages := s.messages;
      var userMessages := CountIf(HasRole("user"), messages);
      var assistantMessages := CountIf(HasRole("assistant"), messages);
      var toolCalls, toolResults := CountToolKeys(messages);
      r := SummaryText(s, SummaryCounts(|messages|, userMessages, assistantMessages, toolCalls, toolResults));
    }

    /** The `analyze_tool_usage` tool. */
    method AnalyzeToolUsage() returns (r: string)
      requires currentSession.Some?
      ensures r == UsageReport(Tally(ToolNames(currentSession.value.messages)))
    {
      var stats := CountTools(currentSession.value.messages);
      if |stats| == 0 {
        return NoTools;
      }
      var a := new (string, nat)[|stats|](k requires 0 <= k < |stats| => stats[k]);
      assert a[..] == stats;
      MoreCallsIsStrictTotalOrder();
      Sorting.InsertionSort(a, CallCount, MoreCalls);
      var sorted := a[..];
      var result := ["Tool Usage Analysis:\n"];
      var i := 0;
      while i < |sorted|
        invariant 0 <= i <= |sorted|
        invariant result == ["Tool Usage Analysis:\n"] + FlatMap(UsageLineOf, sorted[..i])
      {
        FlatMapStep(UsageLineOf, sorted, i);
        result := result + [UsageLine(sorted[i])];
        i := i + 1;
      }
      assert sorted[..i] == sorted;
      r := Join(result, "\n");
    }

    /** The `get_conversation_messages` tool. */
    method GetConversationMessages() returns (r: string)
      requires currentSession.Some?
      ensures r == ConversationReport(currentSession.value.messages)
    {
      var messages := currentSession.value.messages;
      var result := [ConversationTitle];
      var i := 0;
      while i < |messages|
        invariant 0 <= i <= |messages|
        invariant result == [ConversationTitle] + ConversationEntries(messages[..i])
      {
        assert messages[..i + 1][..i] == messages[..i];
        AppendAssoc([ConversationTitle], ConversationEntries(messages[..i]), ConversationMessage(i + 1, messages[i]));
        result := AppendConversationMessage(result, i + 1, messages[i]);
        i := i + 1;
      }
      assert messages[..i] == messages;
      r := Join(result, "\n");
    }

    /** The `search_session_content` tool. */
    method SearchSessionContent(query: string) returns (r: string)
      requires currentSession.Some?
      ensures r == SearchReport(query, SessionMatches(currentSession.value.messages, query))
    {
      var matches := CollectMatches(currentSession.value.messages, query);
      if |matches| == 0 {
        return NoMatches(query);
      }
      var result := ["Found " + NatToString(|matches|) + " match(es) for '" + query + "':\n"];
      ghost var head := result;
      var i := 0;
      while i < |matches|
        invariant 0 <= i <= |matches|
        invariant result == head + FlatMap(MatchLineOf, matches[..i])
      {
        FlatMapStep(MatchLineOf, matches, i);
        var m := matches[i];
        result := result + ["\nMessage #" + NatToString(m.messageNumber) + " (" + m.role + "):" + "\n  " + m.context];
        i := i + 1;
      }
      assert matches[..i] == matches;
      r := Join(result, "\n");
    }

    /**
     * `answer_question`: stores the session for the tools, as `_get_agent`
     * does, and returns the prompt the agent is given.
     */
    method AnswerQuestion(session: Session, question: string, history: Option<seq<ChatEntry>>) returns (prompt: string)
      modifies this
      ensures currentSession == Some(session)
      ensures prompt == Prompt(question, history)
    {
      CreateSessionTools(session);
      prompt := BuildPrompt(question, history);
    }

    /** The `extract_session_errors` tool. */
    method ExtractSessionErrors() returns (r: string)
      requires currentSession.Some?
      ensures r == ErrorReport(SessionErrors(currentSession.value.messages))
    {
      var errors := CollectErrors(currentSession.value.messages);
      if |errors| == 0 {
        return NoErrors;
      }
      var result := [ErrorHeader(|errors|)];
      var i := 0;
      while i < |errors|
        invariant 0 <= i <= |errors|
        invariant result == [ErrorHeader(|errors|)] + ErrorSections(errors[..i])
      {
        assert errors[..i + 1][..i] == errors[..i];
        result := result + [ErrorSection(i + 1, errors[i])];
        i := i + 1;
      }
      assert errors[..i] == errors;
      r := Join(result, "\n");
    }
  }
}
