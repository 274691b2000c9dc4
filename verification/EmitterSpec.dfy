/** What each of the emitter's operations makes of its state, and which events it sends. */
module EmitterSpec {
  import opened Options
  import opened Conversation
  import opened Tasks
  import opened TaskFacts
  import opened TaskTheorems
  import opened TaskRuns
  import opened TaskChanges
  import opened Replication
  import opened ConversationState
  import opened ConversationSteps
  import opened StateStore

  /** The emitter's state. An epoch is numbered by when it began; stale says that the
      queue is still that of the conversation before. */
  datatype State = State(
    c: Conv, t: Tracker, epoch: nat, number: nat, queueVersion: nat, stored: Stored,
    agent: AgentStatus, lifecycle: Lifecycle, held: bool, reported: Lifecycle,
    limitStop: Option<Stop>, retryWait: Option<Stop>, stale: bool)

  /** What holds between the operations: the lists are aligned and numbered, every task
      is of a user message, and the stored conversation is the emitter's. */
  ghost predicate Sound(s: State) {
    && s.c.tasks == s.t.tasks && Tidy(s.t, s.c.messages)
    && Ok(s.c, s.number) && AllAnchored(s.c.tasks, s.c.messages)
    && IsStored(s.stored, s.c) && s.stored.epoch == s.epoch > 0 && s.stored.number == s.number
  }

  /** The conversation as clients follow it. */
  ghost function Seen(s: State): Store
    requires Aligned(s.c)
  {
    Store(s.epoch, s.number, Data(s.c), s.stale)
  }

  /** The operation made the changes events, and left out the requests dropped. */
  ghost predicate Makes(s: State, r: State, events: seq<Event>, dropped: set<Key>) {
    Sound(r) && Aligned(s.c) && Aligned(r.c) && Changed(Seen(s), Seen(r), events, dropped)
  }

  // ---- Tasks that changed ----

  function Took(s: State, t: Tracker): State {
    s.(t := t, c := s.c.(tasks := t.tasks))
  }

  /** Gives the tasks at the positions changed the next numbers, and stores them. */
  function StoreTasks(s: State, changed: seq<int>): (r: (State, seq<Event>))
    requires InRange(changed, s.c.tasks)
  {
    var n := |changed|;
    var stored := s.stored.(tasks := PutTasks(s.stored.tasks, s.c.tasks, changed, s.number));
    (s.(c := s.c.(taskSeq := TaskNumbers(s.c.taskSeq, s.c.tasks, changed, s.number)), number := s.number + n,
        stored := if n > 0 then stored.SetSeq(s.epoch, s.number + n) else stored),
     TaskEvents(s.c.tasks, changed, s.number))
  }

  /** The tracker's tasks changed only at the positions changed: they are given numbers and stored. */
  lemma {:induction false} StoreTasksMakes(s: State, t: Tracker, changed: seq<int>)
    requires Sound(s) && Tidy(t, s.c.messages) && DistinctTasks(t.tasks) && AllAnchored(t.tasks, s.c.messages)
    requires InRange(changed, t.tasks) && Carried(s.c.tasks, t.tasks, changed)
    ensures var (r, events) := StoreTasks(Took(s, t), changed); Makes(s, r, events, {})
  {
    hide Ok, Aligned, Data, IsStored, Carried, DistinctTasks, AllAnchored, Tidy, Changed, Numbered;
    var (r, events) := StoreTasks(Took(s, t), changed);
    TasksStep(s.stored, s.c, r.c, changed, s.number);
    TasksMade(s.c, r.c, s.epoch, s.number, s.stale, t.tasks, changed);
    IsStoredTasks(r.stored, s.stored, r.c, changed, s.number);
  }

  lemma {:induction false} TasksStep(s: Stored, c: Conv, d: Conv, changed: seq<int>, number: nat)
    requires Ok(c, number) && DistinctTasks(d.tasks) && InRange(changed, d.tasks) && Carried(c.tasks, d.tasks, changed)
    requires IsStored(s, c) && d == c.(tasks := d.tasks, taskSeq := TaskNumbers(c.taskSeq, d.tasks, changed, number))
    ensures Ok(d, number + |changed|) && Aligned(c) && Aligned(d)
    ensures Data(d) == Applied(Data(c), TaskEvents(d.tasks, changed, number))
    ensures IsStored(s.(tasks := PutTasks(s.tasks, d.tasks, changed, number)), d)
  {
    hide Ok, Data, TaskNumbers, PutTasks, DistinctTasks, Aligned, Carried, MessagesStored, RichStored, RequestsStored,
      TasksStored;
    TasksAfter(c, d.tasks, changed, number);
    TasksStoredAfter(s.tasks, c.taskSeq, c.tasks, d.tasks, changed, number);
    OkAligned(c, number);
    OkAligned(d, number + |changed|);
  }

  /** The tasks are stored, whatever the number of the last change. */
  lemma {:induction false} IsStoredTasks(s: Stored, was: Stored, d: Conv, changed: seq<int>, number: nat)
    requires InRange(changed, d.tasks) && IsStored(was.(tasks := PutTasks(was.tasks, d.tasks, changed, number)), d)
    requires s == was.(tasks := PutTasks(was.tasks, d.tasks, changed, number), epoch := s.epoch, number := s.number)
    ensures IsStored(s, d)
  {
  }

  /** Changes of one kind or another that say nothing of the queue. */
  ghost predicate NotQueue(events: seq<Event>) {
    forall i :: 0 <= i < |events| && events[i].Update? ==> !events[i].key.QueueKey?
  }

  lemma {:induction false} MadeChange(c: Conv, d: Conv, epoch: nat, low: nat, high: nat, stale: bool,
      events: seq<Event>, dropped: set<Key>)
    requires Aligned(c) && Aligned(d) && Numbered(events, low, high) && Data(d) == Applied(Data(c), events) - dropped
    requires NotQueue(events)
    requires forall k :: k in dropped ==> k.RequestKey?
    ensures Changed(Store(epoch, low, Data(c), stale), Store(epoch, high, Data(d), stale), events, dropped)
  {
  }

  lemma {:induction false} NoneDropped(data: map<Key, Entry>)
    ensures data - {} == data
  {
  }

  lemma {:induction false} TaskEventsNotQueue(tasks: seq<Task>, changed: seq<int>, number: nat)
    requires InRange(changed, tasks)
    ensures NotQueue(TaskEvents(tasks, changed, number))
  {
  }

  lemma {:induction false} TasksMade(c: Conv, d: Conv, epoch: nat, number: nat, stale: bool, tasks: seq<Task>,
      changed: seq<int>)
    requires Aligned(c) && Aligned(d) && InRange(changed, tasks)
    requires Data(d) == Applied(Data(c), TaskEvents(tasks, changed, number))
    ensures Changed(Store(epoch, number, Data(c), stale), Store(epoch, number + |changed|, Data(d), stale),
      TaskEvents(tasks, changed, number), {})
  {
    hide Changed, Numbered, NotQueue, TaskEvents, Data, Applied;
    TaskEventsNumbered(tasks, changed, number);
    TaskEventsNotQueue(tasks, changed, number);
    NoneDropped(Data(d));
    MadeChange(c, d, epoch, number, number + |changed|, stale, TaskEvents(tasks, changed, number), {});
  }

  lemma {:induction false} SoundTasks(s: State)
    requires Sound(s)
    ensures DistinctTasks(s.c.tasks) && DistinctTasks(s.t.tasks) && AllAnchored(s.t.tasks, s.c.messages) && s.t.Ok()
    ensures Aligned(s.c)
  {
  }

  /** A call to the tracker that only changed tasks at the positions it says. */
  lemma {:induction false} OnlyMakes(s: State, t: Tracker, changed: seq<int>)
    requires Sound(s) && Tidy(t, s.c.messages) && OnlyAt(s.t.tasks, t.tasks, changed)
    ensures InRange(changed, t.tasks)
    ensures var (r, events) := StoreTasks(Took(s, t), changed); Makes(s, r, events, {})
  {
    hide Tidy, Ok, IsStored, Carried, AllAnchored, DistinctTasks, Makes;
    SoundTasks(s);
    OnlyAtCarried(s.t.tasks, t.tasks, changed, s.c.messages);
    StoreTasksMakes(s, t, changed);
  }

  // ---- The agent's status ----

  /** How many requests wait for an answer. */
  function Pending(requests: seq<RequestState>): nat {
    if |requests| == 0 then 0 else Pending(requests[..|requests| - 1]) + if requests[|requests| - 1].pending then 1
      else 0
  }

  function StatusOf(s: State): Status {
    Status(s.agent, s.lifecycle, Pending(s.c.requests), s.limitStop, s.retryWait)
  }

  /** Ends the running task, if the agent is idle in its grace period. */
  function EndIfIdle(s: State, now: int): (r: (State, seq<Event>))
    requires s.t.Ok()
  {
    GraceOnly(s.t, now);
    var (t, changed) := Tasks.EndIfIdle(s.t, now);
    StoreTasks(Took(s, t), changed)
  }

  /** Sends the agent's status, and the tasks it ended; whether the running task ends if
      the agent stays idle. */
  function NotifyStatus(s: State, now: int): (r: (State, seq<Event>, bool))
    requires s.t.Ok()
  {
    StatusOnly(s.t, StatusOf(s), now);
    var (t, changed, confirm) := StatusChanged(s.t, StatusOf(s), now);
    var (r, events) := StoreTasks(Took(s, t), changed);
    (r, [Other("status")] + events, confirm)
  }

  /** An error is sent, and noted in the running task. */
  function EmitError(s: State, isError: bool, message: string): (r: (State, seq<Event>))
    requires s.t.Ok()
  {
    ErrorOnly(s.t, isError, message);
    var (t, changed) := AgentError(s.t, isError, message);
    var (r, events) := StoreTasks(Took(s, t), changed);
    (r, [Other("error")] + events)
  }

  lemma {:induction false} EndIfIdleMakes(s: State, now: int)
    requires Sound(s)
    ensures var (r, events) := EndIfIdle(s, now); Makes(s, r, events, {})
  {
    hide Ok, IsStored, AllAnchored, StoreTasks;
    GraceKeepsTidy(s.t, s.c.messages, now);
    GraceOnly(s.t, now);
    var (t, changed) := Tasks.EndIfIdle(s.t, now);
    OnlyMakes(s, t, changed);
  }

  /** An event that carries no change may come first. */
  lemma {:induction false} OtherFirst(s: Store, t: Store, what: string, events: seq<Event>, dropped: set<Key>)
    requires Changed(s, t, events, dropped)
    ensures Changed(s, t, [Other(what)] + events, dropped)
  {
    var all := [Other(what)] + events;
    AppliedMore(s.data, [Other(what)], events);
    assert [Other(what)][..0] == [];
    assert Applied(s.data, [Other(what)]) == s.data;
    assert forall e :: e in all <==> e == Other(what) || e in events;
  }

  lemma {:induction false} NotifyStatusMakes(s: State, now: int)
    requires Sound(s)
    ensures var (r, events, _) := NotifyStatus(s, now); Makes(s, r, events, {})
  {
    hide Ok, IsStored, AllAnchored, StoreTasks, Changed;
    ReportKeepsTidy(s.t, s.c.messages, StatusOf(s), now);
    StatusOnly(s.t, StatusOf(s), now);
    var (t, changed, _) := StatusChanged(s.t, StatusOf(s), now);
    OnlyMakes(s, t, changed);
    var (r, events) := StoreTasks(Took(s, t), changed);
    OtherFirst(Seen(s), Seen(r), "status", events, {});
  }

  lemma {:induction false} EmitErrorMakes(s: State, isError: bool, message: string)
    requires Sound(s)
    ensures var (r, events) := EmitError(s, isError, message); Makes(s, r, events, {})
  {
    hide Ok, IsStored, AllAnchored, StoreTasks, Changed;
    FailKeepsTidy(s.t, s.c.messages, isError, message);
    ErrorOnly(s.t, isError, message);
    var (t, changed) := AgentError(s.t, isError, message);
    OnlyMakes(s, t, changed);
    var (r, events) := StoreTasks(Took(s, t), changed);
    OtherFirst(Seen(s), Seen(r), "error", events, {});
  }

  // ---- Changes one after the other ----

  /** Changes after changes are changes, when the later ones are of none of the requests left out. */
  lemma {:induction false} ChangedThen(a: Store, b: Store, c: Store, first: seq<Event>, dropped: set<Key>,
      second: seq<Event>)
    requires Changed(a, b, first, dropped) && Changed(b, c, second, {})
    requires forall k :: k in dropped ==> Untouched(second, k)
    ensures Changed(a, c, first + second, dropped)
  {
    NumberedMore(first, second, a.number, b.number, c.number);
    AppliedMore(a.data, first, second);
    AppliedWithout(Applied(a.data, first), second, dropped);
    NoneDropped(Applied(b.data, second));
    assert forall e :: e in first + second <==> e in first || e in second;
  }

  lemma {:induction false} AppliedWithout(data: map<Key, Entry>, events: seq<Event>, dropped: set<Key>)
    requires forall k :: k in dropped ==> Untouched(events, k)
    ensures Applied(data - dropped, events) == Applied(data, events) - dropped
  {
    if |events| > 0 {
      var n := |events| - 1;
      assert forall k :: k in dropped ==> Untouched(events[..n], k);
      AppliedWithout(data, events[..n], dropped);
      assert events[n].Update? && events[n].key in dropped ==> !Untouched(events, events[n].key);
    }
  }

  /** The state once the database was told of the last change. */
  function Saved(s: State): State {
    s.(stored := s.stored.SetSeq(s.epoch, s.number))
  }

  // ---- Rich messages ----

  datatype BlockKey = Tool(kind: string, toolUse: string) | Whole(block: Block)

  function KeyOf(b: Block): BlockKey {
    if b.toolUse != "" then Tool(b.kind, b.toolUse) else Whole(b)
  }

  function KeysOf(blocks: seq<Block>): set<BlockKey> {
    set i | 0 <= i < |blocks| :: KeyOf(blocks[i])
  }

  /** The blocks with those of incoming that aren't among them yet. */
  function Merge(blocks: seq<Block>, incoming: seq<Block>): (r: seq<Block>)
    ensures blocks <= r
    decreases |incoming|
  {
    if |incoming| == 0 then blocks
    else Merge(if KeyOf(incoming[0]) in KeysOf(blocks) then blocks else blocks + [incoming[0]], incoming[1..])
  }

  /** Merging brings every incoming block, by its key, and nothing else. */
  lemma {:induction false} MergeBrings(blocks: seq<Block>, incoming: seq<Block>)
    ensures KeysOf(Merge(blocks, incoming)) == KeysOf(blocks) + KeysOf(incoming)
    ensures forall b :: b in Merge(blocks, incoming) ==> b in blocks || b in incoming
    decreases |incoming|
  {
    if |incoming| > 0 {
      var b := incoming[0];
      var next := if KeyOf(b) in KeysOf(blocks) then blocks else blocks + [b];
      MergeBrings(next, incoming[1..]);
      KeysOne(blocks, b);
      assert incoming == [b] + incoming[1..];
      KeysFirst(incoming);
    }
  }

  lemma {:induction false} KeysOne(blocks: seq<Block>, b: Block)
    ensures KeysOf(blocks + [b]) == KeysOf(blocks) + {KeyOf(b)}
  {
    var all := blocks + [b];
    assert all[|blocks|] == b;
    assert forall i :: 0 <= i < |blocks| ==> all[i] == blocks[i];
    assert forall k :: k in KeysOf(blocks) ==> k in KeysOf(all);
  }

  lemma {:induction false} KeysFirst(blocks: seq<Block>)
    requires |blocks| > 0
    ensures KeysOf(blocks) == {KeyOf(blocks[0])} + KeysOf(blocks[1..])
  {
    assert forall i :: 0 < i < |blocks| ==> blocks[i] == blocks[1..][i - 1];
    assert forall i :: 0 <= i < |blocks[1..]| ==> blocks[1..][i] == blocks[i + 1];
  }

  /** Blocks that were merged already change nothing when they come again. */
  lemma {:induction false} MergeKnown(blocks: seq<Block>, incoming: seq<Block>)
    requires KeysOf(incoming) <= KeysOf(blocks)
    ensures Merge(blocks, incoming) == blocks
    decreases |incoming|
  {
    if |incoming| > 0 {
      KeysFirst(incoming);
      MergeKnown(blocks, incoming[1..]);
    }
  }

  lemma {:induction false} MergeTwice(blocks: seq<Block>, incoming: seq<Block>)
    ensures Merge(Merge(blocks, incoming), incoming) == Merge(blocks, incoming)
  {
    MergeBrings(blocks, incoming);
    MergeKnown(Merge(blocks, incoming), incoming);
  }

  /** The task the message belongs to: that it began in. */
  function TaskOf(s: State, msg: RichMessage): Option<int>
    requires s.t.Ok() && Aligned(s.c)
  {
    if msg.id in s.c.richIndex && s.c.rich[s.c.richIndex[msg.id]].taskId.Some?
      then s.c.rich[s.c.richIndex[msg.id]].taskId
    else if msg.taskId.None? then TaskAt(s.t, msg.time)
    else msg.taskId
  }

  /** What is stored for msg: itself, or merged into the message with its ID. */
  function Upserted(s: State, msg: RichMessage, replace: bool): RichMessage
    requires s.t.Ok() && Aligned(s.c)
  {
    var task := TaskOf(s, msg);
    if msg.id in s.c.richIndex && !replace then
      var existing := s.c.rich[s.c.richIndex[msg.id]];
      existing.(content := Merge(existing.content, msg.content), stop := msg.stop, taskId := task)
    else msg.(taskId := task)
  }

  function UpsertRich(s: State, msg: RichMessage, replace: bool): (r: (State, seq<Event>))
    requires s.t.Ok() && Aligned(s.c)
  {
    var put := Upserted(s, msg, replace);
    var i := RichAt(s.c, msg.id);
    var n := s.number + 1;
    (s.(c := PutRich(s.c, i, put, n), number := n, stored := s.stored.PutRichMessage(i, put, n)),
     [Update(RichKey(msg.id), RichValue(put), n)])
  }

  function EmitRich(s: State, msg: RichMessage, replace: bool): (r: (State, seq<Event>))
    requires s.t.Ok() && Aligned(s.c)
  {
    var (r, events) := UpsertRich(s, msg, replace);
    (Saved(r), events)
  }

  lemma {:induction false} UpsertedId(s: State, msg: RichMessage, replace: bool)
    requires Sound(s)
    ensures s.t.Ok() && Aligned(s.c) && Upserted(s, msg, replace).id == msg.id && RichAt(s.c, msg.id) <= |s.c.rich|
  {
  }

  lemma {:induction false} UpsertRichMakes(s: State, msg: RichMessage, replace: bool)
    requires Sound(Saved(s))
    ensures s.t.Ok() && Aligned(s.c)
    ensures var (r, events) := UpsertRich(s, msg, replace); Makes(s, Saved(r), events, {})
  {
    hide Tidy, Data, TaskOf, Merge, PutRich, AllAnchored, TasksStored, RequestsStored, MessagesStored;
    UpsertedId(Saved(s), msg, replace);
    assert Upserted(Saved(s), msg, replace) == Upserted(s, msg, replace) by {
      assert TaskOf(Saved(s), msg) == TaskOf(s, msg) by { SavedTask(s, msg); }
    }
    var put := Upserted(s, msg, replace);
    var n := s.number + 1;
    PutRichOk(s.c, put, n);
    RichStoredAfter(s.stored, s.c, put, n, RichAt(s.c, msg.id));
    var (r, events) := UpsertRich(s, msg, replace);
    PutRichRest(s.c, RichAt(s.c, msg.id), put, n);
    OkAligned(r.c, n);
    NoneDropped(Data(r.c));
    MadeChange(s.c, r.c, s.epoch, s.number, n, s.stale, events, {});
  }

  lemma {:induction false} SavedTask(s: State, msg: RichMessage)
    requires s.t.Ok() && Aligned(s.c)
    ensures TaskOf(Saved(s), msg) == TaskOf(s, msg)
  {
  }

  lemma {:induction false} PutRichRest(c: Conv, i: nat, msg: RichMessage, number: nat)
    requires i <= |c.rich| == |c.richSeq|
    ensures var d := PutRich(c, i, msg, number); d == c.(rich := d.rich, richSeq := d.richSeq, richIndex := d.richIndex)
  {
  }
}
