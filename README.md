# Strands session viewer: reader, exporters and analysis tools

This project models the core of the Strands session viewer, and proves
properties of the model.

- **The session reader** turns a storage directory, written by the Strands
  file session manager, into three things:
  - a session listing;
  - full sessions, with their agents and one merged message timeline;
  - pages of that timeline.
- **The export formatters** render a session as Markdown, JSON or plain
  text, and name the download file.
- **The analysis tools** are the five tools a `SessionAnalyzer` gives its
  agent: a summary, error extraction, tool-usage statistics, a conversation
  dump and a text search. The model also covers the prompt that
  `answer_question` builds from the last three chat-history entries.

Each operation with a loop in the original is a `method` with that loop and
its invariants. The `SessionReader` and `SessionAnalyzer` objects are
classes. Each method is proved equal to a specification function, and
lemmas state what those functions promise. The functions cover the
listing, the merged timeline, the Markdown line list and the error report,
among others.

Shared pieces:

- `Sorting`: Python's stable `list.sort`. An in-place insertion sort is
  proved to give exactly the stable order defined by `SortBy`.
- `Strings`: Python string operations used by the core, restricted to
  ASCII case mapping.
- `Slicing`: Python slice-bound rules, including negative bounds.
- `Sequences`: line-list reasoning, namely concatenated renderings,
  in-order occurrence and counting.

The filesystem is an input value:

- Entries appear in enumeration order.
- A file that cannot be opened or parsed is marked unreadable, so every
  failure the reader swallows and logs is an input case.
- Three collaborators are function-valued parameters of `Collaborators`:
  - timestamp reformatting (`datetime.fromisoformat` and `strftime`);
  - `json.dumps`;
  - `json.loads`.

The listing does not guard its own sort:

- **Reading one session can fail without failing the listing.** A
  `session.json` that cannot be opened or parsed is caught and logged for
  that directory alone (session_reader.py:27-45), and the listing goes on.
- **The listing as a whole can fail.** The sort on `updated_at` with
  `reverse=True` (session_reader.py:47-48) has no guard. With two or more
  rows, every row takes part in some comparison, so a row with a null or
  missing `updated_at` is always compared. Python raises `TypeError` whenever it compares `None` with
  a string or with another `None`.
  - `Reader.SortRaises` models that `TypeError` condition.
  - `Reader.Listing` returns `Failure(UnorderableUpdatedAt)` in exactly
    that case.
- **The `""` default in the sort key is never used.** The listing builds
  its rows with key lookups, so `updated_at` is always present, possibly
  null.

## Model

| member | source | states |
|---|---|---|
| Reader.SessionReader.constructor | src/strands_viewer/session_reader.py:14-17 | A reader over an existing storage directory keeps that directory. |
| Reader.SessionReader.Open | src/strands_viewer/session_reader.py:14-17 | Construction fails exactly when the storage directory does not exist, with the message naming it. Otherwise the reader holds that storage. |
| Reader.SessionReader.CountMessages | src/strands_viewer/session_reader.py:51-61 | Counts the `message_*.json` entries of every agent directory that has a `messages/` directory, without opening them. |
| Reader.SessionReader.ListSessions | src/strands_viewer/session_reader.py:19-49 | The loop and sort of `list_sessions` compute `Listing`: the rows, sorted newest first, or the sort failure. |
| Reader.SummariesExactlyListed | src/strands_viewer/session_reader.py:23-45 | A row is listed if and only if it comes from a `session_*` directory whose `session.json` parses. Every listed row carries that directory's message count and path. There is exactly one row per such directory. |
| Reader.ListingOrdered | src/strands_viewer/session_reader.py:47-48 | Listing fails exactly under `SortRaises`, the modelled `TypeError` condition. That clause restates `Listing`'s guard. Otherwise the result is a permutation of the rows, in non-increasing `updated_at`, with ties in enumeration order. |
| Reader.SessionReader.GetSession | src/strands_viewer/session_reader.py:63-94 | Returns the session of `session_<id>`: its metadata, its agents and its merged timeline. Returns None when the directory or its readable `session.json` is missing. |
| Reader.SessionForNone | src/strands_viewer/session_reader.py:63-72 | With distinct entry names, `get_session` returns None if and only if no `session_<id>` directory has a `session.json` that parses. |
| Reader.FindEntryFirst | src/strands_viewer/session_reader.py:65 | With distinct names, the entry that `storage_dir / name` finds is the only entry with that name. |
| Reader.SessionReader.GetAgents | src/strands_viewer/session_reader.py:96-115 | Collects the parsed `agent.json` of every agent directory in enumeration order. Unreadable ones are skipped. |
| Reader.AgentsKept | src/strands_viewer/session_reader.py:96-115 | A value is kept if and only if it is the parsed `agent.json` of some agent directory. There is one value per directory whose file parses, so a missing or unreadable file skips only that agent. |
| Reader.SessionReader.GetAllMessages | src/strands_viewer/session_reader.py:117-142 | The nested loop collects every parsed message stamped with its agent. The in-place sort then orders them exactly as `MergedMessages` does. |
| Reader.StampedMembers | src/strands_viewer/session_reader.py:129-136 | A message is collected from an agent directory if and only if it is the stamped contents of one of its message files that parsed. |
| Reader.CollectedExactlyParsedFiles | src/strands_viewer/session_reader.py:125-138 | A message is in the merge if and only if some agent directory's message file yields it. |
| Reader.MergedMessagesAreStamped | src/strands_viewer/session_reader.py:135 | Every merged message carries, as `agent_id`, the name of an agent directory holding it. |
| Reader.MergedSortedById | src/strands_viewer/session_reader.py:141 | The timeline is non-decreasing in `message_id`, a missing id counting as 0. |
| Reader.MergedIsPermutation | src/strands_viewer/session_reader.py:140-142 | Sorting neither loses nor invents messages: the timeline is a permutation of what was collected. |
| Reader.MergedIsStable | src/strands_viewer/session_reader.py:141 | Messages sharing a `message_id` keep their enumeration order. |
| Reader.StampedCount | src/strands_viewer/session_reader.py:129-138 | An agent contributes at most one message per file. It contributes exactly one per file if and only if every file parses. |
| Reader.CollectedCount | src/strands_viewer/session_reader.py:125-138 | The merge has at most as many messages as there are message files. It has exactly as many if and only if every file parses. |
| Reader.MessageCountBoundsMerge | src/strands_viewer/session_reader.py:51-61 | The listing's `message_count` is at least the number of merged messages. It is equal exactly when every message file parses. |
| Reader.SessionReader.GetMessages | src/strands_viewer/session_reader.py:144-160 | Equals `MessagesPage`: the session's timeline, sliced by a non-zero offset and then by a non-zero limit, Python slice rules included. |
| Reader.PageUnsliced | src/strands_viewer/session_reader.py:154-158 | An offset of 0 with no limit, or with a limit of 0, returns the whole timeline. |
| Reader.PageWindow | src/strands_viewer/session_reader.py:154-158 | With non-negative bounds, a page is the run starting at `offset` of length min(limit, rest), and element i is message offset+i. |
| Reader.MessagesPageOfSession | src/strands_viewer/session_reader.py:148-152 | Without bounds, the page is the timeline of `get_session`. An unknown session gives no messages. |
| Sorting.InsertionSort | src/strands_viewer/session_reader.py:141 | Sorting an array in place leaves exactly `SortBy` of its old contents: sorted, and stable for each key. |
| Sorting.SortedUnique | src/strands_viewer/session_reader.py:141 | Two sorted sequences with the same elements in the same order for every key are equal. So any stable sort gives `SortBy`. |
| Slicing.ClampIndex | src/strands_viewer/session_reader.py:154-158 | A slice bound becomes an index within the list. A negative bound counts from the end and is clamped at 0. A large bound is clamped at the length. |
| ExportFormatter.TimestampFallback | src/strands_viewer/export_formatter.py:10-16 | Without a `Z`, the parser sees the timestamp itself, and the result is the parser's output, or the input when the parser rejects it. The first clause, that a rejected timestamp is returned unchanged, restates the fallback branch of `FormatTimestamp`. |
| ExportFormatter.FormatMarkdown | src/strands_viewer/export_formatter.py:19-88 | The loops of `format_markdown` produce the newline-join of `MarkdownLines`. |
| ExportFormatter.AppendMarkdownMessage | src/strands_viewer/export_formatter.py:38-86 | One message appends its heading, then its blocks' lines in order, then the closing rule. |
| ExportFormatter.AppendMarkdownBlock | src/strands_viewer/export_formatter.py:51-83 | One block appends its truthy text, then its truthy tool call, then its truthy tool result. |
| ExportFormatter.AppendMarkdownToolResult | src/strands_viewer/export_formatter.py:68-83 | A tool result appends its title, its status and every truthy item text in a fence. |
| ExportFormatter.MarkdownHeaderFacts | src/strands_viewer/export_formatter.py:24-32 | The export opens with `# Session: ` and the session id, and it contains the line stating the number of messages. |
| ExportFormatter.MarkdownKeepsTexts | src/strands_viewer/export_formatter.py:51-55 | Every non-empty text of every message appears verbatim as a line, in message and block order. No content is truncated. |
| ExportFormatter.MarkdownMessagesPlaced | src/strands_viewer/export_formatter.py:38-86 | Each message's lines form one contiguous run after the 11 header lines, and the runs are in message order. |
| ExportFormatter.IdTextMarksMissingId | src/strands_viewer/export_formatter.py:40 | The heading shows `?` if and only if the message has no `message_id`. |
| ExportFormatter.HeadingIcon | src/strands_viewer/export_formatter.py:44 | The icon after `### ` is the bust, robot, gear or speech balloon exactly for the roles user, assistant, system and any other role. |
| ExportFormatter.MarkdownMessageShape | src/strands_viewer/export_formatter.py:39-48 | A message renders as its role's icon, its id (`?` exactly when missing) and, as its last two lines, a `---` rule and a blank line. |
| ExportFormatter.ResultEmojiMarksSuccess | src/strands_viewer/export_formatter.py:70-73 | The result line shows a check mark exactly when the status is `success`, and a cross otherwise. |
| ExportFormatter.ResultTextFenced | src/strands_viewer/export_formatter.py:78-83 | Every truthy result text appears verbatim between two bare fence lines. |
| ExportFormatter.BlockHasNoRule | src/strands_viewer/export_formatter.py:51-83 | A block whose texts and JSON dumps are not `---` renders no `---` line. |
| ExportFormatter.MarkdownHeaderRuleCount | src/strands_viewer/export_formatter.py:24-36 | The header holds exactly one `---` line. |
| ExportFormatter.MarkdownMessageRuleCount | src/strands_viewer/export_formatter.py:85-86 | A message whose texts are not `---` renders exactly one `---` line, its closing rule. |
| ExportFormatter.MarkdownRuleCount | src/strands_viewer/export_formatter.py:31-86 | When no text or JSON dump is itself `---`, the export has exactly one `---` per message plus one. |
| ExportFormatter.FormatText | src/strands_viewer/export_formatter.py:96-155 | The loops of `format_text` produce the newline-join of `TextLines`. |
| ExportFormatter.AppendTextMessage | src/strands_viewer/export_formatter.py:114-153 | One message appends its heading between two 80-dash rules, its blocks, then a blank line. |
| ExportFormatter.AppendTextBlock | src/strands_viewer/export_formatter.py:125-151 | One block appends its truthy text, tool call and tool result, in that order. |
| ExportFormatter.AppendTextToolResult | src/strands_viewer/export_formatter.py:139-151 | A tool result appends its id with its upper-cased status, then every truthy item text. |
| ExportFormatter.TextHeaderFacts | src/strands_viewer/export_formatter.py:101-111 | The export opens with an 80-character `=` rule. It contains the `Session:` line and the line stating the number of messages. |
| ExportFormatter.TextKeepsTexts | src/strands_viewer/export_formatter.py:125-151 | Every non-empty text appears verbatim as a line, in message and block order. |
| ExportFormatter.TextMessageRun | src/strands_viewer/export_formatter.py:114-153 | Each message's lines form one contiguous run after the header, and the runs are in message order. |
| ExportFormatter.TextMessagesPlaced | src/strands_viewer/export_formatter.py:119-122 | Each message's run starts with a dash rule, its `[ROLE #id] - time` line and a second dash rule. |
| ExportFormatter.FormatSession | src/strands_viewer/export_formatter.py:165-187 | `markdown`, `json` and `text` pick their renderer. Every other name fails with the ValueError message listing the three. |
| ExportFormatter.FilenameParts | src/strands_viewer/export_formatter.py:158-162 | The file name is `session_` + id + `.` + an extension without dots. The extension is `md`, `json` or `txt` for the three formats, and `txt` for any other name. |
| ExportFormatter.JsonExportRoundTrip | src/strands_viewer/export_formatter.py:91-93 | When `json.loads` inverts `json.dumps`, the JSON export loads back to the same session, and distinct sessions export differently. |
| AiAnalysis.SessionAnalyzer.constructor | src/strands_viewer/ai_analysis.py:30-32 | A new analyzer holds no session. |
| AiAnalysis.SessionAnalyzer.CreateSessionTools | src/strands_viewer/ai_analysis.py:34-45 | Stores the session that the tools then read. |
| AiAnalysis.SessionAnalyzer.GetSessionSummary | src/strands_viewer/ai_analysis.py:48-84 | Returns the summary text of the stored session with the figures of `Counts`. |
| AiAnalysis.CountToolKeys | src/strands_viewer/ai_analysis.py:63-71 | The nested loop counts the blocks holding a `toolUse` key and those holding a `toolResult` key, whatever the keys hold. |
| AiAnalysis.RoleCountsBounded | src/strands_viewer/ai_analysis.py:57-61 | User messages plus assistant messages are at most the total number of messages. |
| AiAnalysis.SessionAnalyzer.ExtractSessionErrors | src/strands_viewer/ai_analysis.py:87-132 | Returns `ErrorReport` of the session's errors: either the no-errors sentence, or the count header and one numbered section per error. |
| AiAnalysis.CollectErrors | src/strands_viewer/ai_analysis.py:93-118 | The nested loop collects exactly `SessionErrors`. |
| AiAnalysis.AppendErrorOf | src/strands_viewer/ai_analysis.py:99-118 | A block adds one entry exactly when it holds a `toolResult` with status `error`. The entry has the 1-based message number, the `toolUseId` (default `unknown`) and the truncated first text. |
| AiAnalysis.FindErrorText | src/strands_viewer/ai_analysis.py:103-107 | The loop that stops at the first item with text computes `FirstText`. |
| AiAnalysis.FirstTextIsFirst | src/strands_viewer/ai_analysis.py:103-107 | The error text is the text of the first item holding one, with no earlier item holding one. It is empty when no item has text. |
| AiAnalysis.ErrorTextTruncated | src/strands_viewer/ai_analysis.py:116 | The stored text is a prefix of the error text: the whole text when it has at most 500 characters, and exactly 500 characters otherwise. |
| AiAnalysis.BlockErrorsAt | src/strands_viewer/ai_analysis.py:98-118 | Within one message, entries carry that message's number. There is one entry per error result, and every text has at most 500 characters. |
| AiAnalysis.ErrorsInOrder | src/strands_viewer/ai_analysis.py:96-118 | There is one entry per error-status result in the session. Message numbers lie between 1 and the number of messages and never decrease. Texts have at most 500 characters. |
| AiAnalysis.ErrorsBoundedByResults | src/strands_viewer/ai_analysis.py:99-101 | There are no more errors than the tool results the summary counts. |
| AiAnalysis.NoErrorsExactly | src/strands_viewer/ai_analysis.py:120-123 | The report is exactly the no-errors sentence if and only if no result has status `error`. Otherwise it opens with the header counting the errors. |
| AiAnalysis.SessionAnalyzer.AnalyzeToolUsage | src/strands_viewer/ai_analysis.py:135-158 | Returns `UsageReport` of the tally of tool names: the no-tools sentence, or the title and one line per tool, sorted by count. |
| AiAnalysis.CountTools | src/strands_viewer/ai_analysis.py:141-149 | The nested loop updating the statistics dictionary builds exactly `Tally` of the session's tool names. |
| AiAnalysis.BumpFacts | src/strands_viewer/ai_analysis.py:149 | Counting a call adds one to that name and leaves every other count alone. A new name is appended to the key order. The total grows by one. |
| AiAnalysis.TallyFacts | src/strands_viewer/ai_analysis.py:144-149 | The tally's keys are the distinct names in first-call order. Each name's count is its number of calls, and the counts sum to the number of calls. |
| AiAnalysis.DistinctFacts | src/strands_viewer/ai_analysis.py:149 | The key list holds exactly the called names, each once. |
| AiAnalysis.ToolNamesCountCalls | src/strands_viewer/ai_analysis.py:147-148 | There is one name per block holding a `toolUse` key (a missing name counts as `unknown`). So the counts total the summary's tool-call figure. |
| AiAnalysis.UsageOrdered | src/strands_viewer/ai_analysis.py:155 | The report lists a permutation of the tally with counts non-increasing. Tools with equal counts stay in first-call order. |
| AiAnalysis.NoToolsExactly | src/strands_viewer/ai_analysis.py:151-152 | The report is the no-tools sentence if and only if no block holds a `toolUse` key. |
| AiAnalysis.SessionAnalyzer.GetConversationMessages | src/strands_viewer/ai_analysis.py:161-192 | The loops produce the newline-join of the title and `ConversationEntries`. |
| AiAnalysis.AppendConversationMessage | src/strands_viewer/ai_analysis.py:170-190 | One message appends its numbered heading with its upper-cased role, then its blocks' lines. |
| AiAnalysis.AppendConversationBlock | src/strands_viewer/ai_analysis.py:175-190 | One block appends its clipped text, tool call and tool result lines, each when its key is present. |
| AiAnalysis.ClipKeepsShortText | src/strands_viewer/ai_analysis.py:179-180 | A text of at most 1000 characters is shown whole. A longer one keeps its first 1000 characters, followed by the truncation marker. |
| AiAnalysis.ConversationKeepsTexts | src/strands_viewer/ai_analysis.py:175-181 | Every text of the session appears, clipped and indented, in message and block order. |
| AiAnalysis.ConversationHeadingsInOrder | src/strands_viewer/ai_analysis.py:170-173 | Every message has its heading numbered from 1, in message order. |
| AiAnalysis.SessionAnalyzer.SearchSessionContent | src/strands_viewer/ai_analysis.py:195-243 | Returns `SearchReport` of the session's matches: the no-matches sentence naming the query, or the count header and one section per match. |
| AiAnalysis.CollectMatches | src/strands_viewer/ai_analysis.py:204-232 | The nested loop collects exactly `SessionMatches`. |
| AiAnalysis.AppendMatch | src/strands_viewer/ai_analysis.py:212-232 | A block holding text adds the context of its first case-insensitive occurrence of the query, if there is one. |
| AiAnalysis.ContextAroundMatch | src/strands_viewer/ai_analysis.py:217-224 | The context shows the match, with at most 100 characters on each side. A leading `...` appears exactly when more than 100 characters precede the match, and a trailing one exactly when more than 100 follow it. |
| AiAnalysis.SearchBlockMatchesMention | src/strands_viewer/ai_analysis.py:213-217 | A block yields one match exactly when its text contains the query ignoring case, and none otherwise. |
| AiAnalysis.MatchesCountMentions | src/strands_viewer/ai_analysis.py:208-232 | The number of matches is the number of blocks whose text contains the query ignoring case: at most one per block. |
| AiAnalysis.SearchIgnoresCase | src/strands_viewer/ai_analysis.py:204-215 | Queries of equal length that agree once lower-cased find the same matches. |
| AiAnalysis.SearchUpperQuery | src/strands_viewer/ai_analysis.py:204 | Upper-casing the query changes no match. |
| AiAnalysis.NoMatchesExactly | src/strands_viewer/ai_analysis.py:234-237 | The report is the no-matches sentence if and only if no text contains the query. |
| AiAnalysis.SessionAnalyzer.AnswerQuestion | src/strands_viewer/ai_analysis.py:323-361 | Stores the session for the tools and returns the prompt `Prompt` builds. |
| AiAnalysis.BuildPrompt | src/strands_viewer/ai_analysis.py:343-358 | The loop over the window builds exactly `Prompt`. |
| AiAnalysis.RecentIsLastThree | src/strands_viewer/ai_analysis.py:345 | The quoted history is the last min(3, n) entries, in order. |
| AiAnalysis.OlderHistoryIgnored | src/strands_viewer/ai_analysis.py:345-348 | An entry before the last three does not change the prompt. |
| AiAnalysis.PromptShape | src/strands_viewer/ai_analysis.py:343-358 | The prompt opens with the previous-conversation title if and only if the history is non-empty. It always ends with the question and the instruction. |
| Strings.FindFirst | src/strands_viewer/ai_analysis.py:215-217 | Gives the first index where the needle occurs, or None exactly when it occurs nowhere. |
| Strings.LowerOfUpper | src/strands_viewer/ai_analysis.py:204 | Lower-casing forgets upper-casing. |

## Left out

- Filesystem access, `open` and `json.load` are not modelled. The directory tree and the parse outcome of each file are inputs.
- The `print` calls that log skipped files are not modelled. Neither is the order in which the filesystem enumerates entries: it is the input's order.
- JSON `null` is not modelled for these fields: a role, a tool name, a status, a tool-use id, a message id, a message's `created_at`, or a block's `toolUse` or `toolResult`. An `Option` is only present or absent. So the model cannot express what these nulls cause in the original:
  - A null `message_id` makes the merge sort raise.
  - A null message `created_at` makes timestamp formatting fall back to `None`. The Markdown export then shows `*None*`, and the text export shows `- None`.
  - A `"toolUse": null` is counted as a call by the summary, and then makes the tool-usage analysis raise `AttributeError`.
- Only the keys the core reads are modelled. Other keys of a message, a block or a session pass through untouched (`Json`) or are absent.
- A `toolUse` or `toolResult` dictionary is reduced to the keys the core reads. One holding none of those keys (`{"extra": 1}`) is non-empty, and so truthy, in the original. The model treats it as empty, so the Markdown and text exports skip it.
- `Reader.SessionReader.ListSessions`: the `path` of a row is the root and the name joined by `/`. `Path` normalisation is not modelled.
- `ExportFormatter.FormatTimestamp`: `datetime.fromisoformat` and `strftime` are the parameter `reformatIso`. The readable format itself is not modelled.
- `json.dumps` is not modelled. It is a parameter, both for tool inputs and for whole sessions, so indentation and `ensure_ascii` are not modelled.
- Case mapping (`lower`, `upper`, `title`) is ASCII only. Characters outside ASCII are left unchanged. So the model cannot express Python's full Unicode case mapping, which can change a string's length.
- `AiAnalysis.SearchBlock`: the context window uses the query's length. The original does the same, and under ASCII case mapping that length equals the lower-cased query's.
- `AiAnalysis.SessionAnalyzer.AnswerQuestion` returns the prompt, not the agent's answer. The language model, the `Agent` object, the `@tool` decorator and the `model` field are not modelled.
- `AiAnalysis.SessionAnalyzer.GetSessionSummary` and the other tool methods require a stored session. In the original the tools exist only once `_create_session_tools` has stored one, so the `AttributeError` on a missing session cannot be reached and is not modelled.
- The import check that makes `SessionAnalyzer` raise `ImportError` is not modelled.
- `summarize_session`, `analyze_errors` and `suggest_improvements` are not modelled: they only send fixed prompts to the agent.
- src/strands_viewer/server.py, src/strands_viewer/cli.py and src/strands_viewer/models are not part of this model.
- `Sorting.InsertionSort` stands in for Python's Timsort. `Sorting.SortedUnique` shows that every stable sort gives the same result, so only the running time differs.
