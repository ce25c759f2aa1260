/**
 * The session reader: turns a storage directory of Strands sessions into
 * session listings, full sessions and pages of messages.
 *
 * The storage directory is an abstract tree. Its entries are listed in the
 * order the filesystem enumerates them; a file that cannot be opened or
 * parsed is `Unreadable` (or has no `data`), so every per-item failure the
 * reader swallows is an input here.
 *
 *   <root>/session_<id>/session.json
 *   <root>/session_<id>/agents/<agent>/agent.json
 *   <root>/session_<id>/agents/<agent>/messages/message_<n>.json
 */
module Reader {
  import opened Wrappers
  import opened SessionModel
  import opened Strings
  import Sorting
  import Slicing
  import Sequences

  datatype File<T> = Missing | Unreadable | Parsed(value: T)

  /** An entry of a `messages/` directory; `data` is None when opening or parsing it fails. */
  datatype MessageFile = MessageFile(name: string, data: Option<Message>)

  /** An entry of `agents/`; `messagesDir` is None when there is no `messages/` directory. */
  datatype AgentDir = AgentDir(name: string, isDir: bool, agentFile: File<Json>, messagesDir: Option<seq<MessageFile>>)

  /** The keys of `session.json` the reader copies; None when absent or null. */
  datatype SessionMeta = SessionMeta(
    sessionId: Option<string>,
    sessionType: Option<string>,
    createdAt: Option<string>,
    updatedAt: Option<string>)

  /** An entry of the storage root; `agentsDir` is None when there is no `agents/` directory. */
  datatype SessionDir = SessionDir(name: string, isDir: bool, sessionFile: File<SessionMeta>, agentsDir: Option<seq<AgentDir>>)

  datatype Storage = Storage(path: string, rootExists: bool, entries: seq<SessionDir>)

  /** One row of the session listing. */
  datatype SessionSummary = SessionSummary(
    sessionId: Option<string>,
    sessionType: Option<string>,
    createdAt: Option<string>,
    updatedAt: Option<string>,
    messageCount: nat,
    path: string)

  datatype ReaderError =
    | StorageMissing(message: string)
    /** `sort` compared a missing `updated_at` (None) with another key and raised TypeError. */
    | UnorderableUpdatedAt

  // ---------------------------------------------------------------------------
  // Glob patterns

  /** The name matches `session_*`. */
  predicate IsSessionDirName(name: string)
  {
    |name| >= 8 && name[..8] == "session_"
  }

  /** The name matches `message_*.json`. */
  predicate IsMessageFileName(name: string)
  {
    |name| >= 13 && name[..8] == "message_" && name[|name| - 5..] == ".json"
  }

  /** `messages_dir.glob("message_*.json")`, in enumeration order. */
  function GlobMessages(files: seq<MessageFile>): seq<MessageFile>
  {
    if |files| == 0 then []
    else GlobMessages(files[..|files| - 1])
         + (if IsMessageFileName(files[|files| - 1].name) then [files[|files| - 1]] else [])
  }

  // ---------------------------------------------------------------------------
  // Message counting (cheap path of the listing)

  /** The number of message files one agent directory contributes to the count. */
  function AgentFileCount(a: AgentDir): nat
  {
    if a.isDir && a.messagesDir.Some? then |GlobMessages(a.messagesDir.value)| else 0
  }

  function CountAgentMessages(agents: seq<AgentDir>): nat
  {
    if |agents| == 0 then 0
    else CountAgentMessages(agents[..|agents| - 1]) + AgentFileCount(agents[|agents| - 1])
  }

  /** `_count_messages(session_dir)`. */
  function MessageCount(d: SessionDir): nat
  {
    match d.agentsDir
    case None => 0
    case Some(agents) => CountAgentMessages(agents)
  }

  // ---------------------------------------------------------------------------
  // Agents and the merged message timeline

  /** An agent directory whose `agent.json` parsed. */
  predicate HasAgent(a: AgentDir)
  {
    a.isDir && a.agentFile.Parsed?
  }

  function AgentList(agents: seq<AgentDir>): seq<Json>
  {
    if |agents| == 0 then []
    else
      var a := agents[|agents| - 1];
      AgentList(agents[..|agents| - 1]) + (if HasAgent(a) then [a.agentFile.value] else [])
  }

  /** `_get_agents(session_dir)`. */
  function AgentsOf(d: SessionDir): seq<Json>
  {
    match d.agentsDir
    case None => []
    case Some(agents) => AgentList(agents)
  }

  /** A parsed message stamped with the name of the agent directory it was read from. */
  function Stamp(m: Message, agent: string): Message
  {
    m.(agentId := Some(agent))
  }

  /** The parsed files of `files`, each stamped with the agent's name. */
  function Stamped(files: seq<MessageFile>, agent: string): seq<Message>
  {
    if |files| == 0 then []
    else
      var f := files[|files| - 1];
      Stamped(files[..|files| - 1], agent) + (if f.data.Some? then [Stamp(f.data.value, agent)] else [])
  }

  /** What one agent directory contributes to the merge, in enumeration order. */
  function AgentMessages(a: AgentDir): seq<Message>
  {
    if a.isDir && a.messagesDir.Some? then Stamped(GlobMessages(a.messagesDir.value), a.name) else []
  }

  /** The messages of all agents, before sorting, in directory-enumeration order. */
  function CollectMessages(agents: seq<AgentDir>): seq<Message>
  {
    if |agents| == 0 then []
    else CollectMessages(agents[..|agents| - 1]) + AgentMessages(agents[|agents| - 1])
  }

  function Collected(d: SessionDir): seq<Message>
  {
    match d.agentsDir
    case None => []
    case Some(agents) => CollectMessages(agents)
  }

  /** The sort key of a message: its id, 0 when it has none. */
  function MessageKey(m: Message): int
  {
    m.messageId.GetOr(0)
  }

  function IntLess(x: int, y: int): bool
  {
    x < y
  }

  /** `_get_all_messages(session_dir)`: the collected messages, stable-sorted by `message_id`. */
  function MergedMessages(d: SessionDir): seq<Message>
  {
    Sorting.SortBy(Collected(d), MessageKey, IntLess)
  }

  // ---------------------------------------------------------------------------
  // Sessions

  /** The entry that `storage_dir / name` denotes, if it exists. */
  function FindEntry(entries: seq<SessionDir>, name: string): (r: Option<SessionDir>)
    ensures r.Some? ==> r.value in entries && r.value.name == name
    ensures r.None? <==> forall d :: d in entries ==> d.name != name
  {
    if |entries| == 0 then None
    else if entries[0].name == name then Some(entries[0])
    else FindEntry(entries[1..], name)
  }

  /** A value copied by key from `session.json`: a missing key becomes null. */
  function FieldOf(v: Option<string>): Field
  {
    match v
    case None => Null
    case Some(s) => Value(s)
  }

  function SessionOf(meta: SessionMeta, d: SessionDir): Session
  {
    Session(FieldOf(meta.sessionId), FieldOf(meta.sessionType), FieldOf(meta.createdAt),
            FieldOf(meta.updatedAt), AgentsOf(d), MergedMessages(d))
  }

  /** `get_session(session_id)`. */
  function SessionFor(storage: Storage, sessionId: string): Option<Session>
  {
    match FindEntry(storage.entries, "session_" + sessionId)
    case None => None
    case Some(d) =>
      if d.isDir && d.sessionFile.Parsed? then Some(SessionOf(d.sessionFile.value, d)) else None
  }

  // ---------------------------------------------------------------------------
  // Listing

  /** The entry is a `session_*` directory whose `session.json` exists and parses. */
  predicate Lists(d: SessionDir)
  {
    IsSessionDirName(d.name) && d.isDir && d.sessionFile.Parsed?
  }

  function SummaryOf(root: string, d: SessionDir): SessionSummary
    requires d.sessionFile.Parsed?
  {
    var meta := d.sessionFile.value;
    SessionSummary(meta.sessionId, meta.sessionType, meta.createdAt, meta.updatedAt,
                   MessageCount(d), root + "/" + d.name)
  }

  /** The listing before sorting, in enumeration order. */
  function Summaries(root: string, entries: seq<SessionDir>): seq<SessionSummary>
  {
    if |entries| == 0 then []
    else
      var d := entries[|entries| - 1];
      Summaries(root, entries[..|entries| - 1]) + (if Lists(d) then [SummaryOf(root, d)] else [])
  }

  /** The sort key of a listing row: its `updated_at`; the key is always present, so the default "" is never compared. */
  function UpdatedKey(s: SessionSummary): string
  {
    s.updatedAt.GetOr("")
  }

  /** Sorting in reverse puts `a` before `b` when `a` is the greater string. */
  function Newer(a: string, b: string): bool
  {
    StrLess(b, a)
  }

  /** Sorting compares every element when there are two or more, and None does not compare. */
  predicate SortRaises(sessions: seq<SessionSummary>)
  {
    |sessions| >= 2 && exists s :: s in sessions && s.updatedAt.None?
  }

  /** `list_sessions()`. */
  function Listing(storage: Storage): Result<seq<SessionSummary>, ReaderError>
  {
    var sessions := Summaries(storage.path, storage.entries);
    if SortRaises(sessions) then Failure(UnorderableUpdatedAt)
    else Success(Sorting.SortBy(sessions, UpdatedKey, Newer))
  }

  // ---------------------------------------------------------------------------
  // Pagination

  /** A non-zero offset drops that many messages (Python slice rules), then a non-zero limit keeps that many. */
  function Page(messages: seq<Message>, limit: Option<int>, offset: int): seq<Message>
  {
    var afterOffset := if offset != 0 then Slicing.Drop(messages, offset) else messages;
    if limit.Some? && limit.value != 0 then Slicing.Take(afterOffset, limit.value) else afterOffset
  }

  /** `get_messages(session_id, limit, offset)`. */
  function MessagesPage(storage: Storage, sessionId: string, limit: Option<int>, offset: int): seq<Message>
  {
    match SessionFor(storage, sessionId)
    case None => []
    case Some(s) => Page(s.messages, limit, offset)
  }

  // ---------------------------------------------------------------------------
  // The reader object

  lemma IntLessIsStrictTotalOrder()
    ensures Sorting.StrictTotalOrder(IntLess)
  {
  }

  lemma NewerIsStrictTotalOrder()
    ensures Sorting.StrictTotalOrder(Newer)
  {
    forall x ensures !Newer(x, x) {
      StrLessIrreflexive(x);
    }
    forall x, y, z | Newer(x, y) && Newer(y, z) ensures Newer(x, z) {
      StrLessTransitive(z, y, x);
    }
    forall x, y | x != y ensures Newer(x, y) || Newer(y, x) {
      StrLessTotal(x, y);
    }
  }

  class SessionReader {
    /** `self.storage_dir`, fixed at construction. */
    const storageDir: Storage

    constructor (storage: Storage)
      requires storage.rootExists
      ensures storageDir == storage
    {
      storageDir := storage;
    }

    /** `SessionReader(storage_dir)`: raises exactly when the storage directory does not exist. */
    static method Open(storage: Storage) returns (r: Result<SessionReader, ReaderError>)
      ensures r.Failure? <==> !storage.rootExists
      ensures r.Failure? ==> r.error == StorageMissing("Storage directory does not exist: " + storage.path)
      ensures r.Success? ==> fresh(r.value) && r.value.storageDir == storage
    {
      if !storage.rootExists {
        return Failure(StorageMissing("Storage directory does not exist: " + storage.path));
      }
      var reader := new SessionReader(storage);
      r := Success(reader);
    }

    /** `_count_messages(session_dir)`: counts `message_*.json` entries without opening them. */
    method CountMessages(d: SessionDir) returns (count: nat)
      ensures count == MessageCount(d)
    {
      count := 0;
      if d.agentsDir.None? {
        return;
      }
      var agents := d.agentsDir.value;
      var i := 0;
      while i < |agents|
        invariant 0 <= i <= |agents|
        invariant count == CountAgentMessages(agents[..i])
      {
        var a := agents[i];
        if a.isDir && a.messagesDir.Some? {
          count := count + |GlobMessages(a.messagesDir.value)|;
        }
        assert agents[..i + 1][..i] == agents[..i];
        i := i + 1;
      }
      assert agents[..i] == agents;
    }

    /** `list_sessions()`. */
    method ListSessions() returns (r: Result<seq<SessionSummary>, ReaderError>)
      ensures r == Listing(storageDir)
    {
      var entries := storageDir.entries;
      var sessions: seq<SessionSummary> := [];
      var i := 0;
      while i < |entries|
        invariant 0 <= i <= |entries|
        invariant sessions == Summaries(storageDir.path, entries[..i])
      {
        var d := entries[i];
        if IsSessionDirName(d.name) && d.isDir && d.sessionFile.Parsed? {
          var meta := d.sessionFile.value;
          var count := CountMessages(d);
          sessions := sessions + [SessionSummary(meta.sessionId, meta.sessionType, meta.createdAt,
                                                 meta.updatedAt, count, storageDir.path + "/" + d.name)];
        }
        assert entries[..i + 1][..i] == entries[..i];
        i := i + 1;
      }
      assert entries[..i] == entries;
      if |sessions| >= 2 && exists s :: s in sessions && s.updatedAt.None? {
        return Failure(UnorderableUpdatedAt);
      }
      var a := new SessionSummary[|sessions|](k requires 0 <= k < |sessions| => sessions[k]);
      assert a[..] == sessions;
      NewerIsStrictTotalOrder();
      Sorting.InsertionSort(a, UpdatedKey, Newer);
      r := Success(a[..]);
    }

    /** `get_session(session_id)`. */
    method GetSession(sessionId: string) returns (r: Option<Session>)
      ensures r == SessionFor(storageDir, sessionId)
    {
      var found := FindEntry(storageDir.entries, "session_" + sessionId);
      if found.None? {
        return None;
      }
      var d := found.value;
      if !d.isDir {
        return None;
      }
      match d.sessionFile
      case Missing =>
        return None;
      case Unreadable =>
        return None;
      case Parsed(meta) =>
        var agents := GetAgents(d);
        var messages := GetAllMessages(d);
        r := Some(Session(FieldOf(meta.sessionId), FieldOf(meta.sessionType), FieldOf(meta.createdAt),
                          FieldOf(meta.updatedAt), agents, messages));
    }

    /** `_get_agents(session_dir)`: every agent directory whose `agent.json` exists and parses. */
    method GetAgents(d: SessionDir) returns (agents: seq<Json>)
      ensures agents == AgentsOf(d)
    {
      agents := [];
      if d.agentsDir.None? {
        return;
      }
      var dirs := d.agentsDir.value;
      var i := 0;
      while i < |dirs|
        invariant 0 <= i <= |dirs|
        invariant agents == AgentList(dirs[..i])
      {
        var a := dirs[i];
        if HasAgent(a) {
          agents := agents + [a.agentFile.value];
        }
        assert dirs[..i + 1][..i] == dirs[..i];
        i := i + 1;
      }
      assert dirs[..i] == dirs;
    }

    /** `_get_all_messages(session_dir)`. */
    method GetAllMessages(d: SessionDir) returns (messages: seq<Message>)
      ensures messages == MergedMessages(d)
    {
      messages := [];
      if d.agentsDir.None? {
        return;
      }
      var dirs := d.agentsDir.value;
      var i := 0;
      while i < |dirs|
        invariant 0 <= i <= |dirs|
        invariant messages == CollectMessages(dirs[..i])
      {
        var a := dirs[i];
        if a.isDir && a.messagesDir.Some? {
          var files := GlobMessages(a.messagesDir.value);
          var j := 0;
          while j < |files|
            invariant 0 <= j <= |files|
            invariant messages == CollectMessages(dirs[..i]) + Stamped(files[..j], a.name)
          {
            var f := files[j];
            if f.data.Some? {
              messages := messages + [Stamp(f.data.value, a.name)];
            }
            assert files[..j + 1][..j] == files[..j];
            j := j + 1;
          }
          assert files[..j] == files;
        }
        assert dirs[..i + 1][..i] == dirs[..i];
        i := i + 1;
      }
      assert dirs[..i] == dirs;
      var arr := new Message[|messages|](k requires 0 <= k < |messages| => messages[k]);
      assert arr[..] == messages;
      IntLessIsStrictTotalOrder();
      Sorting.InsertionSort(arr, MessageKey, IntLess);
      messages := arr[..];
    }

    /** `get_messages(session_id, limit, offset)`. */
    method GetMessages(sessionId: string, limit: Option<int>, offset: int) returns (r: seq<Message>)
      ensures r == MessagesPage(storageDir, sessionId, limit, offset)
    {
      var session := GetSession(sessionId);
      if session.None? {
        return [];
      }
      r := session.value.messages;
      if offset != 0 {
        r := Slicing.Drop(r, offset);
      }
      if limit.Some? && limit.value != 0 {
        r := Slicing.Take(r, limit.value);
      }
    }
  }

  // ---------------------------------------------------------------------------
  // Properties of the merged timeline

  /** The merged timeline is non-decreasing in `message_id`, a missing id counting as 0. */
  lemma MergedSortedById(d: SessionDir)
    ensures var r := MergedMessages(d);
      forall i, j :: 0 <= i < j < |r| ==> MessageKey(r[i]) <= MessageKey(r[j])
  {
    IntLessIsStrictTotalOrder();
    Sorting.SortBySorted(Collected(d), MessageKey, IntLess);
  }

  /** Sorting neither loses nor invents messages: the merge is a permutation of what was collected. */
  lemma MergedIsPermutation(d: SessionDir)
    ensures multiset(MergedMessages(d)) == multiset(Collected(d))
    ensures |MergedMessages(d)| == |Collected(d)|
  {
    Sorting.SortByMultiset(Collected(d), MessageKey, IntLess);
    assert |multiset(MergedMessages(d))| == |multiset(Collected(d))|;
  }

  /** Messages that share a `message_id` stay in directory-enumeration order (Python's sort is stable). */
  lemma MergedIsStable(d: SessionDir)
    ensures forall id :: Sorting.WithKey(MergedMessages(d), MessageKey, id)
                      == Sorting.WithKey(Collected(d), MessageKey, id)
  {
    IntLessIsStrictTotalOrder();
    Sorting.SortByKeyOrder(Collected(d), MessageKey, IntLess);
  }

  /**
   * `_get_agents` keeps exactly the parsed `agent.json` of each agent directory, one per such
   * directory; a directory whose file is missing or unreadable is skipped on its own.
   */
  lemma {:induction false} AgentsKept(agents: seq<AgentDir>)
    ensures forall x :: x in AgentList(agents) <==>
      exists i :: 0 <= i < |agents| && agents[i].isDir && agents[i].agentFile == Parsed(x)
    ensures |AgentList(agents)| == Sequences.CountIf(HasAgent, agents)
  {
    if |agents| > 0 {
      var init, a := agents[..|agents| - 1], agents[|agents| - 1];
      AgentsKept(init);
      forall x | x in AgentList(agents)
        ensures exists i :: 0 <= i < |agents| && agents[i].isDir && agents[i].agentFile == Parsed(x)
      {
        if x in AgentList(init) {
          var i :| 0 <= i < |init| && init[i].isDir && init[i].agentFile == Parsed(x);
          assert agents[i] == init[i];
        } else {
          assert agents[|agents| - 1].agentFile == Parsed(x);
        }
      }
      forall x, i | 0 <= i < |agents| && agents[i].isDir && agents[i].agentFile == Parsed(x)
        ensures x in AgentList(agents)
      {
        if i < |agents| - 1 {
          assert init[i] == agents[i];
        }
      }
    }
  }

  /** Message `m` is what the `j`-th `message_*.json` file of agent directory `a` yields once stamped. */
  ghost predicate FileYields(a: AgentDir, j: int, m: Message)
  {
    && a.isDir && a.messagesDir.Some?
    && 0 <= j < |GlobMessages(a.messagesDir.value)|
    && GlobMessages(a.messagesDir.value)[j].data.Some?
    && m == Stamp(GlobMessages(a.messagesDir.value)[j].data.value, a.name)
  }

  lemma {:induction false} StampedMembers(files: seq<MessageFile>, agent: string)
    ensures forall m :: m in Stamped(files, agent) <==>
      exists j :: 0 <= j < |files| && files[j].data.Some? && m == Stamp(files[j].data.value, agent)
  {
    if |files| > 0 {
      var init := files[..|files| - 1];
      StampedMembers(init, agent);
      forall m | m in Stamped(files, agent)
        ensures exists j :: 0 <= j < |files| && files[j].data.Some? && m == Stamp(files[j].data.value, agent)
      {
        if m in Stamped(init, agent) {
          var j :| 0 <= j < |init| && init[j].data.Some? && m == Stamp(init[j].data.value, agent);
          assert files[j] == init[j];
        }
      }
      forall m, j | 0 <= j < |files| && files[j].data.Some? && m == Stamp(files[j].data.value, agent)
        ensures m in Stamped(files, agent)
      {
        if j < |files| - 1 {
          assert init[j] == files[j];
        }
      }
    }
  }

  /**
   * The collected messages are exactly the stamped contents of the `message_*.json` files that
   * parsed, across all agent directories: failed files are left out and nothing else is added.
   */
  lemma {:induction false} CollectedExactlyParsedFiles(agents: seq<AgentDir>)
    ensures forall m :: m in CollectMessages(agents) <==>
      exists i, j :: 0 <= i < |agents| && FileYields(agents[i], j, m)
  {
    if |agents| > 0 {
      var init, a := agents[..|agents| - 1], agents[|agents| - 1];
      CollectedExactlyParsedFiles(init);
      if a.isDir && a.messagesDir.Some? {
        StampedMembers(GlobMessages(a.messagesDir.value), a.name);
      }
      forall m | m in CollectMessages(agents)
        ensures exists i, j :: 0 <= i < |agents| && FileYields(agents[i], j, m)
      {
        if m in CollectMessages(init) {
          var i, j :| 0 <= i < |init| && FileYields(init[i], j, m);
          assert agents[i] == init[i];
        } else {
          assert m in AgentMessages(a);
          var j :| 0 <= j < |GlobMessages(a.messagesDir.value)|
            && GlobMessages(a.messagesDir.value)[j].data.Some?
            && m == Stamp(GlobMessages(a.messagesDir.value)[j].data.value, a.name);
          assert FileYields(agents[|agents| - 1], j, m);
        }
      }
      forall m, i, j | 0 <= i < |agents| && FileYields(agents[i], j, m)
        ensures m in CollectMessages(agents)
      {
        if i < |agents| - 1 {
          assert init[i] == agents[i];
        }
      }
    }
  }

  /** Every merged message carries the name of an agent directory that holds it as its `agent_id`. */
  lemma MergedMessagesAreStamped(d: SessionDir)
    ensures forall m :: m in MergedMessages(d) ==> (
      && d.agentsDir.Some?
      && exists i :: 0 <= i < |d.agentsDir.value| && d.agentsDir.value[i].isDir
           && m.agentId == Some(d.agentsDir.value[i].name))
  {
    MergedIsPermutation(d);
    if d.agentsDir.Some? {
      var agents := d.agentsDir.value;
      CollectedExactlyParsedFiles(agents);
      forall m | m in MergedMessages(d)
        ensures exists i :: 0 <= i < |agents| && agents[i].isDir && m.agentId == Some(agents[i].name)
      {
        assert m in multiset(Collected(d));
        assert m in CollectMessages(agents);
        var i, j :| 0 <= i < |agents| && FileYields(agents[i], j, m);
      }
    } else {
      assert Collected(d) == [];
    }
  }

  // ---------------------------------------------------------------------------
  // Counting against merging

  /** Every `message_*.json` entry of every agent directory opened and parsed. */
  ghost predicate AllMessageFilesParse(agents: seq<AgentDir>)
  {
    forall i, j :: 0 <= i < |agents| && agents[i].isDir && agents[i].messagesDir.Some?
      && 0 <= j < |GlobMessages(agents[i].messagesDir.value)|
      ==> GlobMessages(agents[i].messagesDir.value)[j].data.Some?
  }

  lemma {:induction false} StampedCount(files: seq<MessageFile>, agent: string)
    ensures |Stamped(files, agent)| <= |files|
    ensures |Stamped(files, agent)| == |files| <==> forall j :: 0 <= j < |files| ==> files[j].data.Some?
  {
    if |files| > 0 {
      var init := files[..|files| - 1];
      StampedCount(init, agent);
      if forall j :: 0 <= j < |files| ==> files[j].data.Some? {
        assert forall j :: 0 <= j < |init| ==> init[j] == files[j];
      }
      if |Stamped(files, agent)| == |files| {
        forall j | 0 <= j < |files| ensures files[j].data.Some? {
          if j < |init| {
            assert init[j] == files[j];
          }
        }
      }
    }
  }

  lemma {:induction false} CollectedCount(agents: seq<AgentDir>)
    ensures |CollectMessages(agents)| <= CountAgentMessages(agents)
    ensures |CollectMessages(agents)| == CountAgentMessages(agents) <==> AllMessageFilesParse(agents)
  {
    if |agents| > 0 {
      var init, a := agents[..|agents| - 1], agents[|agents| - 1];
      CollectedCount(init);
      if a.isDir && a.messagesDir.Some? {
        StampedCount(GlobMessages(a.messagesDir.value), a.name);
      }
      assert forall i :: 0 <= i < |init| ==> init[i] == agents[i];
      if AllMessageFilesParse(agents) {
        assert AllMessageFilesParse(init);
      }
      if |CollectMessages(agents)| == CountAgentMessages(agents) {
        forall i, j | 0 <= i < |agents| && agents[i].isDir && agents[i].messagesDir.Some?
          && 0 <= j < |GlobMessages(agents[i].messagesDir.value)|
          ensures GlobMessages(agents[i].messagesDir.value)[j].data.Some?
        {
          if i < |init| {
            assert init[i] == agents[i];
          }
        }
      }
    }
  }

  /**
   * The listing's `message_count` is at least the number of merged messages, and equal to it
   * exactly when every message file parses.
   */
  lemma MessageCountBoundsMerge(d: SessionDir)
    ensures |MergedMessages(d)| <= MessageCount(d)
    ensures |MergedMessages(d)| == MessageCount(d) <==>
      (d.agentsDir.Some? ==> AllMessageFilesParse(d.agentsDir.value))
  {
    MergedIsPermutation(d);
    if d.agentsDir.Some? {
      CollectedCount(d.agentsDir.value);
    }
  }

  // ---------------------------------------------------------------------------
  // Sessions and pages

  /** Names within one directory are distinct, as on any filesystem. */
  ghost predicate UniqueNames(entries: seq<SessionDir>)
  {
    forall i, j :: 0 <= i < j < |entries| ==> entries[i].name != entries[j].name
  }

  /** `get_session` returns None exactly when the directory, or its readable `session.json`, is missing. */
  lemma SessionForNone(storage: Storage, sessionId: string)
    requires UniqueNames(storage.entries)
    ensures SessionFor(storage, sessionId).None? <==>
      forall d :: d in storage.entries && d.name == "session_" + sessionId ==>
        !d.isDir || !d.sessionFile.Parsed?
  {
    var name := "session_" + sessionId;
    var found := FindEntry(storage.entries, name);
    if found.Some? {
      assert forall d :: d in storage.entries && d.name == name ==> d == found.value by {
        FindEntryFirst(storage.entries, name);
      }
    }
  }

  /** With distinct names, the entry found is the only one with that name. */
  lemma {:induction false} FindEntryFirst(entries: seq<SessionDir>, name: string)
    requires UniqueNames(entries)
    requires FindEntry(entries, name).Some?
    ensures forall d :: d in entries && d.name == name ==> d == FindEntry(entries, name).value
  {
    if entries[0].name != name {
      assert UniqueNames(entries[1..]) by {
        forall i, j | 0 <= i < j < |entries[1..]| ensures entries[1..][i].name != entries[1..][j].name {
          assert entries[1..][i] == entries[i + 1] && entries[1..][j] == entries[j + 1];
        }
      }
      FindEntryFirst(entries[1..], name);
    } else {
      forall d | d in entries && d.name == name ensures d == entries[0] {
        var k :| 0 <= k < |entries| && entries[k] == d;
        assert entries[0].name == entries[k].name;
      }
    }
  }

  /** An offset of 0 skips nothing, and a limit of None or 0 takes everything. */
  lemma PageUnsliced(messages: seq<Message>, limit: Option<int>)
    requires limit == None || limit == Some(0)
    ensures Page(messages, limit, 0) == messages
  {
  }

  /** With non-negative bounds a page is the run of messages from index `offset`, at most `limit` long. */
  lemma PageWindow(messages: seq<Message>, limit: Option<nat>, offset: nat)
    ensures var r := Page(messages, limit, offset);
      var rest := if offset <= |messages| then |messages| - offset else 0;
      && |r| == (if limit.Some? && 0 < limit.value < rest then limit.value else rest)
      && forall i :: 0 <= i < |r| ==> r[i] == messages[offset + i]
  {
  }

  /** Without bounds `get_messages` is the timeline of `get_session`; an unknown session has no messages. */
  lemma MessagesPageOfSession(storage: Storage, sessionId: string, limit: Option<int>, offset: int)
    ensures MessagesPage(storage, sessionId, None, 0)
         == (match SessionFor(storage, sessionId) case None => [] case Some(s) => s.messages)
    ensures SessionFor(storage, sessionId).None? ==> MessagesPage(storage, sessionId, limit, offset) == []
  {
  }

  // ---------------------------------------------------------------------------
  // Properties of the listing

  /** The listing has one row for each `session_*` directory whose `session.json` parses, and no other. */
  lemma {:induction false} SummariesExactlyListed(root: string, entries: seq<SessionDir>)
    ensures forall s :: s in Summaries(root, entries) <==>
      exists d :: d in entries && Lists(d) && s == SummaryOf(root, d)
    ensures |Summaries(root, entries)| == Sequences.CountIf(Lists, entries)
  {
    if |entries| > 0 {
      var init := entries[..|entries| - 1];
      SummariesExactlyListed(root, init);
      assert entries == init + [entries[|entries| - 1]];
    }
  }

  /**
   * `list_sessions` fails exactly when it has to compare a missing `updated_at`; otherwise it
   * returns a permutation of the rows, newest `updated_at` first, rows with equal keys kept in
   * enumeration order.
   */
  lemma ListingOrdered(storage: Storage)
    ensures var rows := Summaries(storage.path, storage.entries);
      && (Listing(storage).Failure? <==> SortRaises(rows))
      && (Listing(storage).Success? ==>
            var r := Listing(storage).value;
            && multiset(r) == multiset(rows)
            && (forall i, j :: 0 <= i < j < |r| ==> !StrLess(UpdatedKey(r[i]), UpdatedKey(r[j])))
            && (forall k :: Sorting.WithKey(r, UpdatedKey, k) == Sorting.WithKey(rows, UpdatedKey, k)))
  {
    var rows := Summaries(storage.path, storage.entries);
    NewerIsStrictTotalOrder();
    Sorting.SortBySorted(rows, UpdatedKey, Newer);
    Sorting.SortByMultiset(rows, UpdatedKey, Newer);
    Sorting.SortByKeyOrder(rows, UpdatedKey, Newer);
  }
}
