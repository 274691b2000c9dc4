/** How tasks follow from the conversation: the state of the tracker, and what
    each of its operations makes of it. */
module Tasks {
  import opened Options
  import opened Conversation

  datatype TaskStatus = Running | Completed | Failed | Limited

  /** A user message and the agent's turn on it. */
  datatype Task = Task(
    id: int, status: TaskStatus, prompt: seq<byte>, startedAt: int, endedAt: Option<int>,
    replyId: Option<int>, steered: seq<int>, errors: seq<string>, limit: Option<Stop>)
  {
    predicate Final() {
      status != Running
    }

    /** The user message id started the task, or was added to it. */
    predicate Holds(id: int) {
      this.id == id || id in steered
    }
  }

  const PromptLimit := 1024

  predicate RuneStart(b: byte) {
    b < 0x80 || b >= 0xC0
  }

  /** The largest character boundary of s at or below end. */
  function Boundary(s: seq<byte>, end: nat): (r: nat)
    requires end < |s|
    ensures r <= end && (r == 0 || RuneStart(s[r]))
    ensures forall i :: r < i <= end ==> !RuneStart(s[i])
  {
    if end == 0 || RuneStart(s[end]) then end else Boundary(s, end - 1)
  }

  /** s cut to at most n bytes on a character boundary, with an ellipsis when it was cut. */
  function Cut(s: seq<byte>, n: nat): seq<byte> {
    if |s| <= n then s else s[..Boundary(s, n)] + [0xE2, 0x80, 0xA6]
  }

  /** The state of the tracker. open is the position of the running task, or -1. */
  datatype Tracker = Tracker(
    tasks: seq<Task>, owners: map<int, int>, ids: seq<int>, inOrder: bool, rederive: bool,
    open: int, ran: bool, since: int, status: Status)
  {
    /** open and the owners are positions of tasks. */
    ghost predicate Ok() {
      && -1 <= open < |tasks|
      && forall id :: id in owners ==> 0 <= owners[id] < |tasks|
    }
  }

  function AppendOnce(positions: seq<int>, i: int): seq<int> {
    if i in positions then positions else positions + [i]
  }

  // ---- Ending a task ----

  /** The task as end leaves it: the outcome its turn had. */
  function Ended(task: Task, status: Status, now: int): (r: Task)
    ensures r.Final() && r.endedAt == Some(now)
    ensures r == task.(status := r.status, endedAt := r.endedAt, errors := r.errors, limit := r.limit)
  {
    var t := task.(endedAt := Some(now));
    if status.limit.Some? && status.limit.value.stoppedAt >= task.startedAt then
      t.(status := Limited, limit := status.limit)
    else if status.retry.Some? && status.retry.value.stoppedAt >= task.startedAt then
      t.(status := TaskStatus.Failed, errors := task.errors + [status.retry.value.message])
    else if |task.errors| > 0 then t.(status := TaskStatus.Failed)
    else t.(status := Completed)
  }

  function End(t: Tracker, i: int, now: int): (r: Tracker)
    requires 0 <= i < |t.tasks|
    ensures t.Ok() ==> r.Ok()
  {
    t.(tasks := t.tasks[i := Ended(t.tasks[i], t.status, now)],
       open := if t.open == i then -1 else t.open,
       ran := if t.open == i then false else t.ran)
  }

  function EndIfIdle(t: Tracker, now: int): (r: (Tracker, seq<int>))
    requires t.Ok()
    ensures r.0.Ok()
  {
    if t.open < 0 || !t.ran || !t.status.Idle() then (t, []) else (End(t, t.open, now), [t.open])
  }

  function AddError(t: Tracker, i: int, error: string): (r: Tracker)
    requires 0 <= i < |t.tasks|
  {
    t.(tasks := t.tasks[i := t.tasks[i].(errors := t.tasks[i].errors + [error])])
  }

  function AgentError(t: Tracker, isError: bool, message: string): (r: (Tracker, seq<int>))
    requires t.Ok()
    ensures r.0.Ok()
  {
    if t.open < 0 || !isError then (t, []) else (AddError(t, t.open, message), [t.open])
  }

  /** The tracker, the positions that changed, and whether the task ends if the agent stays idle. */
  function StatusChanged(t0: Tracker, next: Status, now: int): (r: (Tracker, seq<int>, bool))
    requires t0.Ok()
    ensures r.0.Ok()
  {
    var t := t0.(status := next);
    if t.open < 0 then (t, [], false)
    else if next.lifecycle == Exited then
      (End(AddError(t, t.open, "the agent exited"), t.open, now), [t.open], false)
    else if next.lifecycle == Lifecycle.Failed then
      (End(AddError(t, t.open, "the agent failed"), t.open, now), [t.open], false)
    else if next.agent == Working then (t.(ran := true), [], false)
    else if t.ran && next.Idle() then
      if t0.status.agent == Working then (End(t, t.open, now), [t.open], false) else (t, [], true)
    else (t, [], false)
  }

  // ---- Owning the user's messages ----

  function Add(t: Tracker, task: Task): (r: Tracker)
    ensures t.Ok() ==> r.Ok()
  {
    var n := |t.tasks|;
    t.(tasks := t.tasks + [task], owners := t.owners[task.id := n],
       inOrder := t.inOrder && (n > 0 ==> t.tasks[n - 1].id < task.id))
  }

  /** msg becomes part of the running task. */
  function Steer(t: Tracker, msg: Message): (r: Tracker)
    requires t.Ok() && t.open >= 0
    ensures r.Ok()
  {
    var task := t.tasks[t.open];
    t.(tasks := t.tasks[t.open := task.(steered := task.steered + [msg.id])], owners := t.owners[msg.id := t.open])
  }

  function HistoryTask(msg: Message): Task {
    Task(msg.id, Completed, Cut(msg.text, PromptLimit), msg.time, Some(msg.time), None, [], [], None)
  }

  function RunningTask(msg: Message): Task {
    Task(msg.id, Running, Cut(msg.text, PromptLimit), msg.time, None, None, [], [], None)
  }

  /** Ends the running task that only its grace period keeps open. */
  function EndGrace(t: Tracker, changed: seq<int>, now: int): (r: (Tracker, seq<int>))
    requires t.Ok()
    ensures r.0.Ok()
  {
    if t.open >= 0 && t.ran && t.status.Idle() then (End(t, t.open, now), AppendOnce(changed, t.open))
    else (t, changed)
  }

  function OwnOne(t: Tracker, msg: Message, changed: seq<int>): (r: (Tracker, seq<int>))
    requires t.Ok()
    ensures r.0.Ok() && |r.0.tasks| >= |t.tasks|
  {
    if msg.role != User || msg.id in t.owners then (t, changed)
    else if msg.time < t.since then (Add(t, HistoryTask(msg)), changed + [|t.tasks|])
    else
      var (t, changed) := EndGrace(t, changed, msg.time);
      if t.open >= 0 then (Steer(t, msg), AppendOnce(changed, t.open))
      else
        var n := |t.tasks|;
        (Add(t, RunningTask(msg)).(open := n, ran := t.status.agent == Working), changed + [n])
  }

  function Own(t: Tracker, msgs: seq<Message>, changed: seq<int>): (r: (Tracker, seq<int>))
    requires t.Ok()
    ensures r.0.Ok() && |r.0.tasks| >= |t.tasks|
    decreases |msgs|
  {
    if |msgs| == 0 then (t, changed)
    else
      var (t, changed) := OwnOne(t, msgs[0], changed);
      Own(t, msgs[1..], changed)
  }

  // ---- Replies ----

  predicate IsReply(msg: Message) {
    msg.role == Agent && msg.text != []
  }

  /** The position of the agent's last message with a text in msgs[lo..hi], or -1. */
  function LastReply(msgs: seq<Message>, lo: int, hi: int): (r: int)
    requires 0 <= lo && hi <= |msgs|
    ensures r == -1 || (lo <= r < hi && IsReply(msgs[r]))
    ensures forall j :: lo <= j < hi && j > r ==> !IsReply(msgs[j])
    decreases hi - lo
  {
    if hi <= lo then -1
    else if IsReply(msgs[hi - 1]) then hi - 1
    else LastReply(msgs, lo, hi - 1)
  }

  ghost predicate PositionsOk(at: map<int, int>, msgs: seq<Message>) {
    forall id :: id in at ==> 0 <= at[id] < |msgs|
  }

  /** Where the messages of task i end: at the message of the next task. */
  function ReplyEnd(tasks: seq<Task>, i: int, at: map<int, int>, n: int): int
    requires 0 <= i < |tasks|
  {
    if i + 1 < |tasks| && tasks[i + 1].id in at then at[tasks[i + 1].id] else n
  }

  /** The position of the reply of task i, or -1. */
  function ReplyAt(tasks: seq<Task>, msgs: seq<Message>, i: int, at: map<int, int>): (r: int)
    requires 0 <= i < |tasks| && tasks[i].id in at && PositionsOk(at, msgs)
    ensures -1 <= r < |msgs|
  {
    LastReply(msgs, at[tasks[i].id] + 1, ReplyEnd(tasks, i, at, |msgs|))
  }

  function ReplyOne(t: Tracker, msgs: seq<Message>, i: int, at: map<int, int>,
      changed: seq<int>): (r: (Tracker, seq<int>))
    requires 0 <= i < |t.tasks| && PositionsOk(at, msgs)
    ensures t.Ok() ==> r.0.Ok()
    ensures r.0 == t.(tasks := r.0.tasks) && |r.0.tasks| == |t.tasks|
  {
    var task := t.tasks[i];
    if task.id !in at then (t, changed)
    else
      var reply := ReplyAt(t.tasks, msgs, i, at);
      if reply < 0 || task.replyId == Some(msgs[reply].id) then (t, changed)
      else
        var replied := task.(replyId := Some(msgs[reply].id));
        var replied := if task.status == Completed && task.startedAt < t.since
                       then replied.(endedAt := Some(msgs[reply].time)) else replied;
        (t.(tasks := t.tasks[i := replied]), AppendOnce(changed, i))
  }

  function Replies(t: Tracker, msgs: seq<Message>, k: int, at: map<int, int>,
      changed: seq<int>): (r: (Tracker, seq<int>))
    requires 0 <= k <= |t.tasks| && PositionsOk(at, msgs)
    ensures t.Ok() ==> r.0.Ok()
    ensures r.0 == t.(tasks := r.0.tasks) && |r.0.tasks| == |t.tasks|
    decreases |t.tasks| - k
  {
    if k == |t.tasks| then (t, changed)
    else
      var (t, changed) := ReplyOne(t, msgs, k, at, changed);
      Replies(t, msgs, k + 1, at, changed)
  }

  // ---- Deriving all tasks ----

  /** The user message that started task is where at says. */
  predicate Matched(task: Task, msgs: seq<Message>, at: map<int, int>)
    requires PositionsOk(at, msgs)
  {
    task.id in at && msgs[at[task.id]].role == User && msgs[at[task.id]].time == task.startedAt
  }

  function KeepIds(ids: seq<int>, at: map<int, int>): (r: seq<int>)
    ensures |r| <= |ids| && (|r| == |ids| ==> r == ids)
  {
    if |ids| == 0 then []
    else (if ids[0] in at then [ids[0]] else []) + KeepIds(ids[1..], at)
  }

  function Trimmed(task: Task, at: map<int, int>): Task {
    task.(steered := KeepIds(task.steered, at))
  }

  /** The tasks whose message is still there, without the messages taken back,
      and the positions of those that lost some. */
  function Keep(tasks: seq<Task>, msgs: seq<Message>, at: map<int, int>): (r: (seq<Task>, seq<int>))
    requires PositionsOk(at, msgs)
    ensures |r.0| <= |tasks|
    ensures forall c :: c in r.1 ==> 0 <= c < |r.0|
  {
    if |tasks| == 0 then ([], [])
    else
      var n := |tasks| - 1;
      var (kept, changed) := Keep(tasks[..n], msgs, at);
      if !Matched(tasks[n], msgs, at) then (kept, changed)
      else
        var trimmed := Trimmed(tasks[n], at);
        (kept + [trimmed], if |trimmed.steered| != |tasks[n].steered| then changed + [|kept|] else changed)
  }

  /** The position of the last task that isn't over, or -1. */
  function LastOpen(tasks: seq<Task>): (r: int)
    ensures -1 <= r < |tasks|
    ensures r >= 0 ==> !tasks[r].Final()
    ensures forall i :: r < i < |tasks| ==> tasks[i].Final()
  {
    if |tasks| == 0 then -1
    else if !tasks[|tasks| - 1].Final() then |tasks| - 1
    else LastOpen(tasks[..|tasks| - 1])
  }

  function OwnAll(owners: map<int, int>, ids: seq<int>, i: int): (r: map<int, int>)
    ensures forall id :: id in r <==> id in owners || id in ids
    ensures forall id :: id in r ==> r[id] == if id in ids then i else owners[id]
    decreases |ids|
  {
    if |ids| == 0 then owners
    else OwnAll(owners[ids[0] := i], ids[1..], i)
  }

  /** The owner of each held message: the latest task that holds it. */
  function OwnersOf(tasks: seq<Task>): (owners: map<int, int>)
    ensures forall id :: id in owners ==> 0 <= owners[id] < |tasks|
  {
    if |tasks| == 0 then map[]
    else
      var n := |tasks| - 1;
      OwnAll(OwnersOf(tasks[..n])[tasks[n].id := n], tasks[n].steered, n)
  }

  ghost predicate OwnersOk(tasks: seq<Task>, owners: map<int, int>) {
    && (forall id :: id in owners ==> 0 <= owners[id] < |tasks| && tasks[owners[id]].Holds(id))
    && (forall id, j :: id in owners && owners[id] < j < |tasks| ==> !tasks[j].Holds(id))
    && (forall i, id :: 0 <= i < |tasks| && tasks[i].Holds(id) ==> id in owners)
  }

  /** The IDs increase. */
  predicate TasksInOrder(tasks: seq<Task>) {
    forall i, j :: 0 <= i < j < |tasks| ==> tasks[i].id < tasks[j].id
  }

  /** The tracker once the tasks whose message is gone are, and the positions of those that lost messages. */
  function Pruned(t: Tracker, msgs: seq<Message>): (r: (Tracker, seq<int>))
    requires t.Ok()
    ensures r.0.Ok()
    ensures forall c :: c in r.1 ==> 0 <= c < |r.0.tasks|
  {
    var (kept, changed) := Keep(t.tasks, msgs, Positions(msgs));
    (t.(tasks := kept, owners := OwnersOf(kept), ids := Ids(msgs), rederive := false,
        inOrder := TasksInOrder(kept) && InOrder(msgs),
        open := if |kept| != |t.tasks| then LastOpen(kept) else t.open), changed)
  }

  /** All the tasks from all the messages: the reference for every faster way. */
  function Derive(t: Tracker, msgs: seq<Message>): (r: (Tracker, seq<int>))
    requires t.Ok()
    ensures r.0.Ok()
  {
    var (pruned, changed) := Pruned(t, msgs);
    var (owned, changed) := Own(pruned, msgs, changed);
    Replies(owned, msgs, 0, Positions(msgs), changed)
  }

  // ---- Taking a change of the messages ----

  /** The smallest ID. */
  const MinInt := -0x8000_0000_0000_0000

  /** The change added messages in order, and left the user's messages that started tasks. */
  predicate Passable(t: Tracker, msgs: seq<Message>, from: int)
    requires t.Ok() && 0 <= from <= |t.ids|
  {
    && |t.ids| <= |msgs|
    && forall i :: from <= i < |msgs| ==> PassableAt(t, msgs, i)
  }

  predicate PassableAt(t: Tracker, msgs: seq<Message>, i: int)
    requires t.Ok() && 0 <= i < |msgs|
  {
    var id := msgs[i].id;
    && (if i < |t.ids| then id == t.ids[i] else i > 0 ==> id > msgs[i - 1].id)
    && (id in t.owners && t.tasks[t.owners[id]].id == id ==>
          msgs[i].role == User && msgs[i].time == t.tasks[t.owners[id]].startedAt)
  }

  /** How many tasks are left of tasks without those at its end after the ID last. */
  function Before(tasks: seq<Task>, last: int): (k: int)
    ensures 0 <= k <= |tasks|
    ensures k > 0 ==> tasks[k - 1].id <= last
    ensures forall i :: k <= i < |tasks| ==> tasks[i].id > last
  {
    if |tasks| == 0 || tasks[|tasks| - 1].id <= last then |tasks| else Before(tasks[..|tasks| - 1], last)
  }

  /** The last position of id in msgs[..n], or -1. */
  function FindBack(msgs: seq<Message>, n: int, id: int): (j: int)
    requires 0 <= n <= |msgs|
    ensures -1 <= j < n && (j >= 0 ==> msgs[j].id == id)
    ensures forall i :: j < i < n ==> msgs[i].id != id
  {
    if n == 0 then -1 else if msgs[n - 1].id == id then n - 1 else FindBack(msgs, n - 1, id)
  }

  function PositionsFrom(msgs: seq<Message>, from: int): (at: map<int, int>) {
    var all := Positions(msgs);
    map id | id in all && all[id] >= from :: all[id]
  }

  /** Owns the messages from position from on, and updates the replies from task first on. */
  function Incremental(t: Tracker, msgs: seq<Message>, from: int, first: int, at: map<int,
      int>): (r: (Tracker, seq<int>))
    requires t.Ok() && 0 <= from <= |t.ids| <= |msgs| && 0 <= first <= |t.tasks| && PositionsOk(at, msgs)
    ensures r.0.Ok()
  {
    var (s, changed) := Own(t, msgs[from..], []);
    var (s, changed) := Replies(s, msgs, first, at, changed);
    (s.(ids := t.ids + Ids(msgs)[|t.ids|..]), changed)
  }

  /** Takes a change through the messages from position from on; k tasks started before. */
  function FastAfter(t: Tracker, msgs: seq<Message>, from: int, k: int): (r: (Tracker, seq<int>))
    requires t.Ok() && 0 <= from <= |t.ids| <= |msgs| && 0 <= k <= |t.tasks|
    ensures r.0.Ok()
  {
    var at := PositionsFrom(msgs, from);
    if k == 0 then Incremental(t, msgs, from, 0, at)
    else
      var j := FindBack(msgs, from, t.tasks[k - 1].id);
      if j < 0 then Derive(t, msgs) else Incremental(t, msgs, from, k - 1, at[t.tasks[k - 1].id := j])
  }

  function Fast(t: Tracker, msgs: seq<Message>, from: int): (r: (Tracker, seq<int>))
    requires t.Ok() && 0 <= from <= |t.ids| <= |msgs|
    ensures r.0.Ok()
  {
    FastAfter(t, msgs, from, Before(t.tasks, if from > 0 then msgs[from - 1].id else MinInt))
  }

  function Min(a: int, b: int): int {
    if a <= b then a else b
  }

  /** What a change of the messages makes of the tracker: those before position
      from are as before, so only the tasks of the others can change. */
  function Messages(t: Tracker, msgs: seq<Message>, from: int): (r: (Tracker, seq<int>))
    requires t.Ok() && 0 <= from
    ensures r.0.Ok()
  {
    if t.rederive || !t.inOrder then Derive(t, msgs)
    else
      var from := Min(from, Min(|t.ids|, |msgs|));
      if from == |msgs| == |t.ids| then (t, [])
      else if !Passable(t, msgs, from) then Derive(t, msgs)
      else Fast(t, msgs, from)
  }

  /** Of the tasks, j is the last that started by then. */
  ghost predicate Latest(tasks: seq<Task>, at: int, j: int) {
    0 <= j < |tasks| && tasks[j].startedAt <= at && forall k :: j < k < |tasks| ==> tasks[k].startedAt > at
  }

  /** The ID of the latest task that started by then. */
  function LatestBy(tasks: seq<Task>, at: int): (id: Option<int>)
    ensures id.None? ==> forall j :: 0 <= j < |tasks| ==> tasks[j].startedAt > at
    ensures id.Some? ==> exists j :: 0 <= j < |tasks| && Latest(tasks, at, j) && tasks[j].id == id.value
  {
    if |tasks| == 0 then None
    else if tasks[|tasks| - 1].startedAt <= at then
      assert Latest(tasks, at, |tasks| - 1);
      Some(tasks[|tasks| - 1].id)
    else LatestBy(tasks[..|tasks| - 1], at)
  }

  /** The ID of the task a rich message sent at time at belongs to: the running one,
      else the latest that started by then. */
  function TaskAt(t: Tracker, at: int): Option<int>
    requires t.Ok()
  {
    if t.open >= 0 then Some(t.tasks[t.open].id) else LatestBy(t.tasks, at)
  }

  // ---- Starting over ----

  function New(since: int): (t: Tracker)
    ensures t.Ok()
  {
    Tracker([], map[], [], true, false, -1, false, since, Status(Unknown, Starting, 0, None, None))
  }

  function Reset(t: Tracker, now: int): (r: Tracker)
    ensures r.Ok()
  {
    t.(tasks := [], open := -1, ran := false, since := now, ids := [], inOrder := true, rederive := false,
      owners := map[])
  }

  /** The restored tasks whose message is still there. */
  function Matching(tasks: seq<Task>, msgs: seq<Message>, at: map<int, int>): (r: seq<Task>)
    requires PositionsOk(at, msgs)
    ensures forall task :: task in r <==> task in tasks && Matched(task, msgs, at)
  {
    if |tasks| == 0 then []
    else
      var n := |tasks| - 1;
      Matching(tasks[..n], msgs, at) + if Matched(tasks[n], msgs, at) then [tasks[n]] else []
  }

  /** Ends the tasks from position i on that aren't over: they can't go on. */
  function EndRunning(t: Tracker, i: int, now: int, changed: seq<int>): (r: (Tracker, seq<int>))
    requires 0 <= i <= |t.tasks|
    ensures t.Ok() ==> r.0.Ok()
    ensures |r.0.tasks| == |t.tasks|
    decreases |t.tasks| - i
  {
    if i == |t.tasks| then (t, changed)
    else if t.tasks[i].Final() then EndRunning(t, i + 1, now, changed)
    else EndRunning(End(t, i, now), i + 1, now, changed + [i])
  }

  /** The tracker with the restored tasks whose message is still there. */
  function Restored(t: Tracker, tasks: seq<Task>, msgs: seq<Message>): (r: Tracker)
    ensures r.Ok()
  {
    var kept := Matching(tasks, msgs, Positions(msgs));
    t.(tasks := kept, open := -1, ran := false, ids := [], rederive := true,
       owners := OwnersOf(kept), inOrder := TasksInOrder(kept))
  }

  function Restore(t: Tracker, tasks: seq<Task>, msgs: seq<Message>, now: int): (r: (Tracker, seq<int>))
    ensures r.0.Ok()
  {
    EndRunning(Restored(t, tasks, msgs), 0, now, [])
  }
}
