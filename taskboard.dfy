/**
 * The task board of the mobile server (mobile/mc-server.py): the token gate
 * in front of the API, the board and task-detail reads, and the claim and
 * complete updates. The database tables are sequences of rows; the mission
 * id the server resolves from its configured mission name, the clock and
 * the request body are parameters.
 */
module TaskBoard {
  import opened Wrappers
  import opened Sorting

  /** What the server fixes at start-up: workspace, mission name and the access token. */
  datatype ServerConfig = ServerConfig(workspace: string, missionName: string, token: string)

  /** A row of the tasks table; timestamps are seconds, in the order of their `datetime` text. */
  datatype Task = Task(
    id: int,
    missionId: int,
    subject: string,
    description: string,
    status: string,
    owner: Option<string>,
    priority: int,
    createdAt: int,
    updatedAt: int,
    claimedAt: Option<int>,
    completedAt: Option<int>)

  /** A row of the agents table. */
  datatype Agent = Agent(name: string, role: string, status: string, lastSeen: Option<int>)

  /** A row of the messages table; mission and task may be NULL. */
  datatype Message = Message(
    id: int,
    missionId: Option<int>,
    fromAgent: string,
    taskId: Option<int>,
    body: string,
    msgType: string,
    createdAt: int)

  /** A key of a JSON request body: absent, `null`, or a string. */
  datatype Field = Missing | Null | Text(value: string)

  const InProgress := "in_progress"
  const Done := "done"
  /** The sender recorded for notes left from the phone. */
  const MobileAgent := "mobile"

  // ── Token gate ──

  predicate StartsWith(s: string, p: string) {
    |p| <= |s| && s[..|p|] == p
  }

  predicate EndsWith(s: string, p: string) {
    |p| <= |s| && s[|s| - |p|..] == p
  }

  /** The gate's verdict: let the request through, or answer 401 unauthorized. */
  datatype Gate = Pass | Unauthorized

  /**
   * The before-request hook: "/" and any path ending in ".html" are open,
   * other paths under "/api" need the `token` query argument.
   */
  function CheckToken(config: ServerConfig, path: string, token: Option<string>): (r: Gate)
    ensures path == "/" || EndsWith(path, ".html") ==> r == Pass
    ensures !StartsWith(path, "/api") ==> r == Pass
    ensures path != "/" && !EndsWith(path, ".html") && StartsWith(path, "/api") ==>
              (r == Pass <==> token == Some(config.token))
  {
    if path == "/" || EndsWith(path, ".html") then Pass
    else if StartsWith(path, "/api") && token != Some(config.token) then Unauthorized
    else Pass
  }

  /** An HTML file under /api needs no token, while "/apiary", a mere prefix match, does. */
  lemma GateByPrefix(config: ServerConfig)
    ensures CheckToken(config, "/api/board.html", None) == Pass
    ensures CheckToken(config, "/apiary", None) == Unauthorized
    ensures CheckToken(config, "/static/app.js", None) == Pass
  {
    assert EndsWith("/api/board.html", ".html") by {
      assert "/api/board.html"[10..] == ".html";
    }
    assert StartsWith("/apiary", "/api") by {
      assert "/apiary"[..4] == "/api";
    }
    assert !EndsWith("/apiary", ".html") by {
      assert "/apiary"[2..] != ".html";
    }
    assert !StartsWith("/static/app.js", "/api") by {
      assert "/static/app.js"[..4][1] != "/api"[1];
    }
  }

  // ── Time ──

  /** Python's `int()` on a float: truncation toward zero. */
  function Trunc(x: real): (r: int)
    ensures x >= 0.0 ==> r as real <= x < r as real + 1.0
    ensures x < 0.0 ==> r as real - 1.0 < x <= r as real
  {
    if x >= 0.0 then x.Floor else -((-x).Floor)
  }

  // ── Board ──

  /** The board's CASE on status; 0 is the NULL an unlisted status gets, and NULL sorts first. */
  function Rank(status: string): (r: nat)
    ensures r <= 6
    ensures r == 0 <==> status !in {"in_progress", "claimed", "pending", "blocked", "review", "done"}
  {
    if status == "in_progress" then 1
    else if status == "claimed" then 2
    else if status == "pending" then 3
    else if status == "blocked" then 4
    else if status == "review" then 5
    else if status == "done" then 6
    else 0
  }

  /** The board order: status rank ascending, then priority descending, then id ascending. */
  predicate TaskPrecedes(a: Task, b: Task) {
    Rank(a.status) < Rank(b.status) ||
    (Rank(a.status) == Rank(b.status) &&
     (a.priority > b.priority || (a.priority == b.priority && a.id <= b.id)))
  }

  /** The agent list order: status, then name, both in byte order. */
  predicate AgentPrecedes(a: Agent, b: Agent) {
    (StrLe(a.status, b.status) && a.status != b.status) ||
    (a.status == b.status && StrLe(a.name, b.name))
  }

  /** Messages of a task, oldest first. */
  predicate MessagePrecedes(a: Message, b: Message) {
    a.createdAt <= b.createdAt
  }

  lemma TaskOrderTotal()
    ensures TotalPreorder(TaskPrecedes)
  {
  }

  lemma AgentOrderTotal()
    ensures TotalPreorder(AgentPrecedes)
  {
    forall a: Agent, b: Agent
      ensures AgentPrecedes(a, b) || AgentPrecedes(b, a)
    {
      StrLeTotal(a.status, b.status);
      StrLeTotal(a.name, b.name);
    }
    forall a: Agent, b: Agent, c: Agent | AgentPrecedes(a, b) && AgentPrecedes(b, c)
      ensures AgentPrecedes(a, c)
    {
      if a.status != b.status && b.status != c.status {
        StrLeTrans(a.status, b.status, c.status);
        if a.status == c.status {
          StrLeAntisym(a.status, b.status);
        }
      } else if a.status == b.status && b.status == c.status {
        StrLeTrans(a.name, b.name, c.name);
      }
    }
  }

  lemma MessageOrderTotal()
    ensures TotalPreorder(MessagePrecedes)
  {
  }

  /** The reply of GET /api/board. */
  datatype BoardReply =
    | MissionNotFound(error: string)
    | BoardView(tasks: seq<Task>, agents: seq<Agent>, workspace: string, mission: string, timestamp: int)

  function InMission(mid: int): Task -> bool {
    (t: Task) => t.missionId == mid
  }

  /**
   * GET /api/board at wall-clock time `now` (seconds): the mission's tasks in
   * board order, every agent, and the capture time in milliseconds.
   */
  function Board(config: ServerConfig, mid: Option<int>, tasks: seq<Task>, agents: seq<Agent>, now: real)
    : (r: BoardReply)
    ensures r.MissionNotFound? <==> mid.None?
    ensures r.MissionNotFound? ==> r.error == "Mission \"" + config.missionName + "\" not found"
    ensures r.BoardView? ==>
              |r.tasks| <= |tasks| && |r.agents| == |agents| &&
              (forall i | 0 <= i < |r.tasks| :: r.tasks[i].missionId == mid.value) &&
              r.workspace == config.workspace && r.mission == config.missionName &&
              r.timestamp == Trunc(now * 1000.0)
  {
    if mid.None? then MissionNotFound("Mission \"" + config.missionName + "\" not found")
    else
      var shown := SortBy(TaskPrecedes, FilterBy(InMission(mid.value), tasks));
      SortKeeps(TaskPrecedes, InMission(mid.value), tasks);
      BoardView(shown, SortBy(AgentPrecedes, agents), config.workspace, config.missionName,
                Trunc(now * 1000.0))
  }

  /** The board lists each task of the mission exactly as often as the table holds it, and nothing else. */
  lemma BoardContents(config: ServerConfig, mid: int, tasks: seq<Task>, agents: seq<Agent>, now: real, t: Task)
    ensures multiset(Board(config, Some(mid), tasks, agents, now).tasks)[t] ==
              if t.missionId == mid then multiset(tasks)[t] else 0
    ensures multiset(Board(config, Some(mid), tasks, agents, now).agents) == multiset(agents)
  {
    FilterByCount(InMission(mid), tasks, t);
  }

  /** Board order, key by key: a lower rank first, then a higher priority, then a lower id. */
  lemma BoardOrder(config: ServerConfig, mid: int, tasks: seq<Task>, agents: seq<Agent>, now: real)
    ensures var shown := Board(config, Some(mid), tasks, agents, now).tasks;
            forall i, j | 0 <= i < j < |shown| ::
              Rank(shown[i].status) <= Rank(shown[j].status) &&
              (Rank(shown[i].status) == Rank(shown[j].status) ==> shown[i].priority >= shown[j].priority) &&
              (Rank(shown[i].status) == Rank(shown[j].status) && shown[i].priority == shown[j].priority ==>
                 shown[i].id <= shown[j].id)
    ensures SortedBy(AgentPrecedes, Board(config, Some(mid), tasks, agents, now).agents)
  {
    TaskOrderTotal();
    AgentOrderTotal();
    SortBySorted(TaskPrecedes, FilterBy(InMission(mid), tasks));
    SortBySorted(AgentPrecedes, agents);
  }

  /** Task ids are a primary key. */
  predicate UniqueIds(tasks: seq<Task>) {
    forall i, j | 0 <= i < j < |tasks| :: tasks[i].id != tasks[j].id
  }

  /**
   * With unique ids the three keys leave no ties: any arrangement of the
   * mission's tasks in board order is the board itself.
   */
  lemma BoardDetermined(config: ServerConfig, mid: int, tasks: seq<Task>, agents: seq<Agent>, now: real,
                        other: seq<Task>)
    requires UniqueIds(tasks)
    requires SortedBy(TaskPrecedes, other)
    requires multiset(other) == multiset(FilterBy(InMission(mid), tasks))
    ensures other == Board(config, Some(mid), tasks, agents, now).tasks
  {
    var kept := FilterBy(InMission(mid), tasks);
    TaskOrderTotal();
    SortBySorted(TaskPrecedes, kept);
    KeysSeparate(tasks, other);
    SortedUnique(TaskPrecedes, other, SortBy(TaskPrecedes, kept));
  }

  /** Among rows of a table with unique ids, the board order ties no two different rows. */
  lemma KeysSeparate(tasks: seq<Task>, other: seq<Task>)
    requires UniqueIds(tasks)
    requires multiset(other) <= multiset(tasks)
    ensures forall x, y | x in other && y in other :: TaskPrecedes(x, y) && TaskPrecedes(y, x) ==> x == y
  {
    forall x, y | x in other && y in other && x.id == y.id
      ensures x == y
    {
      assert x in multiset(other) && y in multiset(other);
      SameIdSameRow(tasks, x, y);
    }
  }

  lemma SameIdSameRow(tasks: seq<Task>, x: Task, y: Task)
    requires UniqueIds(tasks)
    requires x in multiset(tasks) && y in multiset(tasks) && x.id == y.id
    ensures x == y
  {
    var i := IndexOf(tasks, x);
    var j := IndexOf(tasks, y);
  }

  // ── Task detail ──

  /** The row selected by both id and mission, when there is one. */
  function FindTask(tasks: seq<Task>, taskId: int, mid: Option<int>): (r: Option<Task>)
    ensures r.Some? ==> r.value in tasks && r.value.id == taskId && mid == Some(r.value.missionId)
    ensures r.None? ==> forall t | t in tasks :: !(t.id == taskId && mid == Some(t.missionId))
  {
    if tasks == [] then None
    else if tasks[0].id == taskId && mid == Some(tasks[0].missionId) then Some(tasks[0])
    else FindTask(tasks[1..], taskId, mid)
  }

  /** The reply of GET /api/task/<id>. */
  datatype Detail = Detail(task: Option<Task>, messages: seq<Message>)

  function OfTask(taskId: int): Message -> bool {
    (m: Message) => m.taskId == Some(taskId)
  }

  /**
   * GET /api/task/<id>: the task, when it belongs to the mission, and the
   * thread of messages about that task id, whatever their mission, oldest first.
   */
  function TaskDetail(mid: Option<int>, taskId: int, tasks: seq<Task>, messages: seq<Message>): (r: Detail)
    ensures r.task == FindTask(tasks, taskId, mid)
    ensures forall i | 0 <= i < |r.messages| :: r.messages[i].taskId == Some(taskId)
  {
    var thread := SortBy(MessagePrecedes, FilterBy(OfTask(taskId), messages));
    SortKeeps(MessagePrecedes, OfTask(taskId), messages);
    Detail(FindTask(tasks, taskId, mid), thread)
  }

  /** The thread holds every message of the task once per copy, and is oldest first. */
  lemma ThreadOfTask(mid: Option<int>, taskId: int, tasks: seq<Task>, messages: seq<Message>, m: Message)
    ensures var thread := TaskDetail(mid, taskId, tasks, messages).messages;
            multiset(thread)[m] == (if m.taskId == Some(taskId) then multiset(messages)[m] else 0) &&
            forall i, j | 0 <= i < j < |thread| :: thread[i].createdAt <= thread[j].createdAt
  {
    FilterByCount(OfTask(taskId), messages, m);
    MessageOrderTotal();
    SortBySorted(MessagePrecedes, FilterBy(OfTask(taskId), messages));
  }

  /** A task of another mission is withheld, while its messages are still listed. */
  lemma OtherMissionThread()
    ensures var t := Task(7, 2, "s", "d", "pending", None, 0, 0, 0, None, None);
            var m := Message(1, Some(2), "dev", Some(7), "hi", "status", 5);
            TaskDetail(Some(1), 7, [t], [m]) == Detail(None, [m])
  {
    var m := Message(1, Some(2), "dev", Some(7), "hi", "status", 5);
    assert FilterBy(OfTask(7), [m]) == [m] by {
      assert [m][1..] == [];
    }
  }

  // ── Claim and complete ──

  /** The UPDATE's WHERE clause: id and mission both match (a NULL mission matches nothing). */
  predicate Selected(t: Task, taskId: int, mid: Option<int>) {
    t.id == taskId && mid == Some(t.missionId)
  }

  /** `data.get('agent', 'mobile')`: the default only when the key is absent. */
  function ClaimOwner(agent: Field): (owner: Option<string>)
    ensures agent.Missing? ==> owner == Some(MobileAgent)
    ensures agent.Null? ==> owner.None?
    ensures agent.Text? ==> owner == Some(agent.value)
  {
    match agent
    case Missing => Some(MobileAgent)
    case Null => None
    case Text(name) => Some(name)
  }

  function ClaimRow(t: Task, owner: Option<string>, now: int): Task {
    t.(owner := owner, status := InProgress, claimedAt := Some(now), updatedAt := now)
  }

  /** POST /api/task/<id>/claim on the tasks table, whatever the row's status or owner. */
  function Claim(tasks: seq<Task>, taskId: int, mid: Option<int>, owner: Option<string>, now: int)
    : (r: seq<Task>)
    ensures |r| == |tasks|
    ensures forall i | 0 <= i < |r| ::
              r[i].id == tasks[i].id && r[i].missionId == tasks[i].missionId &&
              r[i].subject == tasks[i].subject && r[i].description == tasks[i].description &&
              r[i].priority == tasks[i].priority && r[i].createdAt == tasks[i].createdAt &&
              r[i].completedAt == tasks[i].completedAt
    ensures forall i | 0 <= i < |r| && Selected(tasks[i], taskId, mid) ::
              r[i].status == InProgress && r[i].owner == owner &&
              r[i].claimedAt == Some(now) && r[i].updatedAt == now
    ensures forall i | 0 <= i < |r| && !Selected(tasks[i], taskId, mid) :: r[i] == tasks[i]
  {
    seq(|tasks|, i requires 0 <= i < |tasks| =>
      if Selected(tasks[i], taskId, mid) then ClaimRow(tasks[i], owner, now) else tasks[i])
  }

  function CompleteRow(t: Task, now: int): Task {
    t.(status := Done, completedAt := Some(now), updatedAt := now)
  }

  /** POST /api/task/<id>/complete on the tasks table, whatever the row's status; owner and claim time stay. */
  function Complete(tasks: seq<Task>, taskId: int, mid: Option<int>, now: int): (r: seq<Task>)
    ensures |r| == |tasks|
    ensures forall i | 0 <= i < |r| ::
              r[i].id == tasks[i].id && r[i].missionId == tasks[i].missionId &&
              r[i].subject == tasks[i].subject && r[i].description == tasks[i].description &&
              r[i].priority == tasks[i].priority && r[i].createdAt == tasks[i].createdAt &&
              r[i].owner == tasks[i].owner && r[i].claimedAt == tasks[i].claimedAt
    ensures forall i | 0 <= i < |r| && Selected(tasks[i], taskId, mid) ::
              r[i].status == Done && r[i].completedAt == Some(now) && r[i].updatedAt == now
    ensures forall i | 0 <= i < |r| && !Selected(tasks[i], taskId, mid) :: r[i] == tasks[i]
  {
    seq(|tasks|, i requires 0 <= i < |tasks| =>
      if Selected(tasks[i], taskId, mid) then CompleteRow(tasks[i], now) else tasks[i])
  }

  /** A later claim replaces an earlier one completely: the last writer owns the task. */
  lemma ClaimLastWriterWins(tasks: seq<Task>, taskId: int, mid: Option<int>, first: Option<string>,
                            second: Option<string>, t1: int, t2: int)
    ensures Claim(Claim(tasks, taskId, mid, first, t1), taskId, mid, second, t2) ==
            Claim(tasks, taskId, mid, second, t2)
  {
    var once := Claim(tasks, taskId, mid, first, t1);
    var twice := Claim(once, taskId, mid, second, t2);
    var direct := Claim(tasks, taskId, mid, second, t2);
    forall i | 0 <= i < |tasks|
      ensures twice[i] == direct[i]
    {
      assert Selected(once[i], taskId, mid) == Selected(tasks[i], taskId, mid);
    }
  }

  /** Completing twice is completing once, at the later time. */
  lemma CompleteIdempotent(tasks: seq<Task>, taskId: int, mid: Option<int>, t1: int, t2: int)
    ensures Complete(Complete(tasks, taskId, mid, t1), taskId, mid, t2) == Complete(tasks, taskId, mid, t2)
  {
    var once := Complete(tasks, taskId, mid, t1);
    var twice := Complete(once, taskId, mid, t2);
    var direct := Complete(tasks, taskId, mid, t2);
    forall i | 0 <= i < |tasks|
      ensures twice[i] == direct[i]
    {
      assert Selected(once[i], taskId, mid) == Selected(tasks[i], taskId, mid);
    }
  }

  /** Claim and complete keep the primary key a key. */
  lemma UpdatesKeepIds(tasks: seq<Task>, taskId: int, mid: Option<int>, owner: Option<string>, now: int)
    requires UniqueIds(tasks)
    ensures UniqueIds(Claim(tasks, taskId, mid, owner, now))
    ensures UniqueIds(Complete(tasks, taskId, mid, now))
  {
  }

  /** `data.get('note', '')` followed by `if note:`: only a non-empty string is a note. */
  function NoteOf(note: Field): (r: Option<string>)
    ensures r.Some? <==> note.Text? && note.value != ""
    ensures r.Some? ==> r.value == note.value
  {
    if note.Text? && note.value != "" then Some(note.value) else None
  }

  /** The rowid SQLite gives the next message: one past the largest present, 1 for an empty table. */
  function NextMessageId(messages: seq<Message>): (r: int)
    ensures r >= 1
    ensures forall m | m in messages :: m.id < r
  {
    if messages == [] then 1
    else
      var rest := NextMessageId(messages[1..]);
      if messages[0].id + 1 > rest then messages[0].id + 1 else rest
  }

  /** The messages complete appends: one status message from "mobile" when a note is given. */
  function NoteMessages(messages: seq<Message>, taskId: int, mid: Option<int>, note: Field, now: int)
    : (r: seq<Message>)
    ensures |r| == if NoteOf(note).Some? then 1 else 0
    ensures forall m | m in r ::
              m.fromAgent == MobileAgent && m.msgType == "status" && m.body == NoteOf(note).value &&
              m.taskId == Some(taskId) && m.missionId == mid && m.createdAt == now &&
              forall old_ | old_ in messages :: old_.id < m.id
  {
    match NoteOf(note)
    case None => []
    case Some(body) => [Message(NextMessageId(messages), mid, MobileAgent, Some(taskId), body, "status", now)]
  }

  /** Message ids are a primary key. */
  predicate UniqueMessageIds(messages: seq<Message>) {
    forall i, j | 0 <= i < j < |messages| :: messages[i].id != messages[j].id
  }

  /** The note is appended even when the WHERE clause selects no task. */
  lemma NoteWithoutTask(taskId: int)
    ensures var tasks: seq<Task> := [];
            Complete(tasks, taskId, None, 3) == [] &&
            |NoteMessages([], taskId, None, Text("done"), 3)| == 1
  {
  }

  /**
   * The tasks and messages tables, as the claim and complete endpoints
   * change them. Both endpoints answer success whatever rows they touched.
   */
  class TaskStore {
    var tasks: seq<Task>
    var messages: seq<Message>

    ghost predicate Valid()
      reads this
    {
      UniqueIds(tasks) && UniqueMessageIds(messages)
    }

    constructor(tasks: seq<Task>, messages: seq<Message>)
      requires UniqueIds(tasks) && UniqueMessageIds(messages)
      ensures Valid()
      ensures this.tasks == tasks && this.messages == messages
    {
      this.tasks := tasks;
      this.messages := messages;
    }

    /** POST /api/task/<id>/claim with the request body's `agent` key. */
    method ClaimTask(taskId: int, mid: Option<int>, agent: Field, now: int) returns (success: bool)
      requires Valid()
      modifies this
      ensures Valid()
      ensures success
      ensures tasks == Claim(old(tasks), taskId, mid, ClaimOwner(agent), now)
      ensures messages == old(messages)
    {
      UpdatesKeepIds(tasks, taskId, mid, ClaimOwner(agent), now);
      tasks := Claim(tasks, taskId, mid, ClaimOwner(agent), now);
      success := true;
    }

    /** POST /api/task/<id>/complete with the request body's `note` key. */
    method CompleteTask(taskId: int, mid: Option<int>, note: Field, now: int) returns (success: bool)
      requires Valid()
      modifies this
      ensures Valid()
      ensures success
      ensures tasks == Complete(old(tasks), taskId, mid, now)
      ensures messages == old(messages) + NoteMessages(old(messages), taskId, mid, note, now)
    {
      UpdatesKeepIds(tasks, taskId, mid, None, now);
      tasks := Complete(tasks, taskId, mid, now);
      var added := NoteMessages(messages, taskId, mid, note, now);
      if added != [] {
        var m := added[0];
        assert m in added;
        forall i, j | 0 <= i < j < |messages + added|
          ensures (messages + added)[i].id != (messages + added)[j].id
        {
          if j == |messages| {
            assert messages[i] in messages;
          }
        }
      }
      messages := messages + added;
      success := true;
    }
  }
}
