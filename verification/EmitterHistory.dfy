/** What stays of a conversation over the emitter's calls: the task a rich message began in, the
    latest queue, and what a restart makes of the messages before it. */
module EmitterHistory {
  import opened Options
  import opened Conversation
  import opened Tasks
  import opened TaskFacts
  import opened TaskRuns
  import opened TaskOwners
  import opened TaskChanges
  import opened Replication
  import opened ConversationState
  import opened ConversationSteps
  import opened EmitterRuns
  import opened Emitter
  import Spec = EmitterSpec
  import Ops = EmitterOps
  import Messaging = EmitterMessages
  import Restarting = EmitterRestart
  import Clients = EmitterClients
  import StateStore

  // ---- The task of a rich message ----

  /** The rich message is there, and is of the task. */
  predicate InTask(c: Conv, id: RichId, task: int) {
    id in c.richIndex && 0 <= c.richIndex[id] < |c.rich| && c.rich[c.richIndex[id]].taskId == Some(task)
  }

  ghost predicate Indexed(c: Conv) {
    && |c.richSeq| == |c.rich|
    && (forall id :: id in c.richIndex ==> 0 <= c.richIndex[id] < |c.rich| && c.rich[c.richIndex[id]].id == id)
    && (forall i :: 0 <= i < |c.rich| ==> c.rich[i].id in c.richIndex && c.richIndex[c.rich[i].id] == i)
  }

  lemma OkIndexed(c: Conv, high: nat)
    requires Ok(c, high)
    ensures Indexed(c)
  {
  }

  lemma UpsertKeepsTask(s: Spec.State, msg: RichMessage, replace: bool, id: RichId, task: int)
    requires s.t.Ok() && Aligned(s.c) && Indexed(s.c) && InTask(s.c, id, task)
    ensures var r := Spec.UpsertRich(s, msg, replace).0; Indexed(r.c) && InTask(r.c, id, task)
  {
    hide TaskAt, Spec.Merge;
    UpsertedIndexed(s, msg, replace);
  }

  lemma UpsertedIndexed(s: Spec.State, msg: RichMessage, replace: bool)
    requires s.t.Ok() && Aligned(s.c) && Indexed(s.c)
    ensures Spec.Upserted(s, msg, replace).id == msg.id && Indexed(Spec.UpsertRich(s, msg, replace).0.c)
  {
    hide TaskAt, Spec.Merge;
  }

  lemma {:induction false} UpsertAllKeepsTask(s: Spec.State, msgs: seq<RichMessage>, id: RichId, task: int)
    requires s.t.Ok() && Aligned(s.c) && Indexed(s.c) && InTask(s.c, id, task)
    ensures InTask(Ops.UpsertAll(s, msgs).0.c, id, task)
    decreases |msgs|
  {
    if |msgs| > 0 {
      hide Spec.UpsertRich, InTask, Indexed, Aligned;
      UpsertKeepsTask(s, msgs[0], true, id, task);
      var a := Spec.UpsertRich(s, msgs[0], true).0;
      UpsertAligned(s, msgs[0]);
      UpsertAllKeepsTask(a, msgs[1..], id, task);
    }
  }

  lemma UpsertAligned(s: Spec.State, msg: RichMessage)
    requires s.t.Ok() && Aligned(s.c)
    ensures var a := Spec.UpsertRich(s, msg, true).0; a.t == s.t && Aligned(a.c)
  {
    hide Spec.Upserted;
  }

  /** The parts of the conversation that only rich messages and the queue are. */
  predicate SameRich(c: Conv, d: Conv) {
    d.rich == c.rich && d.richSeq == c.richSeq && d.richIndex == c.richIndex
  }

  lemma NotifyLeaves(s: Spec.State, now: int)
    requires s.t.Ok()
    ensures var r := Spec.NotifyStatus(s, now).0;
      SameRich(s.c, r.c) && r.c.queue == s.c.queue && r.queueVersion == s.queueVersion
  {
    hide StatusChanged, Spec.Pending;
  }

  lemma StatusLeaves(s: Spec.State, status: Ops.ConversationStatus, lifecycle: Lifecycle, limit: Option<Stop>,
      retry: Option<Stop>, now: int)
    requires s.t.Ok()
    ensures Apart(s, Ops.EmitStatus(s, status, now).0) && Apart(s, Ops.SetLifecycle(s, lifecycle, now).0)
    ensures Apart(s, Ops.ReleaseLifecycle(s, now).0) && Apart(s, Ops.SetStops(s, limit, retry, now).0)
  {
    hide Spec.NotifyStatus;
    var next := if s.held then s.lifecycle else Ops.LifecycleOf(status);
    NotifyLeaves(s.(reported := Ops.LifecycleOf(status), agent := Ops.AgentOf(status), lifecycle := next), now);
    NotifyLeaves(s.(held := Ops.Holding(lifecycle), lifecycle := lifecycle), now);
    NotifyLeaves(s.(held := false, lifecycle := s.reported), now);
    NotifyLeaves(s.(limitStop := limit, retryWait := retry), now);
  }

  lemma RequestLeaves(s: Spec.State, r: RequestState, dropped: seq<int>, now: int)
    requires s.t.Ok() && |s.c.requestSeq| == |s.c.requests|
    requires Ops.Ascending(dropped, |PutRequest(s.c, r, s.number + 1).requests|)
    ensures Apart(s, Ops.EmitRequest(s, r, dropped, now).0)
  {
    hide Spec.NotifyStatus, Spec.Pending, Ops.DeleteAll, Ops.Kept, FindRequest;
    NotifyLeaves(Ops.StoreRequest(s, r, dropped), now);
  }

  lemma MessagesLeave(s: Spec.State, now: seq<Message>)
    requires s.t.Ok() && |s.c.messageSeq| == |s.c.messages|
    ensures Apart(s, Messaging.EmitMessages(s, now).0)
  {
    hide Derive, Messaging.PutMessages, Messaging.MessageNumbers, Messaging.CutFrom, MessageEvents;
  }

  /** r has the rich messages and the queue of s. */
  predicate Apart(s: Spec.State, r: Spec.State) {
    SameRich(s.c, r.c) && r.c.queue == s.c.queue && r.queueVersion == s.queueVersion
  }

  /** The calls that aren't of rich messages or the queue leave both. */
  lemma OthersLeave(s: Spec.State, call: Call, bufSize: nat)
    requires Clients.Ready(s) && Allowed(s, call) && !call.Restart? && !call.Reset?
    requires !call.EmitRich? && !call.LoadRich? && !call.SetQueue?
    ensures Apart(s, EmitterRuns.After(s, call, bufSize).0)
  {
    hide Spec.Sound, Aligned, Messaging.EmitMessages, Ops.EmitRequest, Ops.EmitStatus, Ops.SetLifecycle,
      Ops.ReleaseLifecycle, Ops.SetStops, Ops.Ascending, SameStart, PutRequest;
    match call
    case EmitMessages(messages) => MessagesLeave(s, messages);
    case EmitRequest(r, dropped, now) => RequestLeaves(s, r, dropped, now);
    case EmitStatus(status, now) => StatusLeaves(s, status, Starting, None, None, now);
    case SetLifecycle(lifecycle, now) => StatusLeaves(s, Ops.Stable, lifecycle, None, None, now);
    case ReleaseLifecycle(now) => StatusLeaves(s, Ops.Stable, Starting, None, None, now);
    case SetStops(limit, retry, now) => StatusLeaves(s, Ops.Stable, Starting, limit, retry, now);
    case _ =>
      hide Tasks.EndIfIdle, AgentError;
  }

  /** A rich message stays in the task it began in, until the conversation is cleared. */
  lemma CallKeepsTask(s: Spec.State, call: Call, bufSize: nat, id: RichId, task: int)
    requires Clients.Ready(s) && Allowed(s, call) && !call.Restart? && !call.Reset? && InTask(s.c, id, task)
    ensures InTask(EmitterRuns.After(s, call, bufSize).0.c, id, task)
  {
    SoundIndexed(s);
    hide Spec.Sound, Tidy, Aligned, Spec.UpsertRich, Ops.UpsertAll, InTask, Indexed;
    match call
    case EmitRich(msg, replace) => UpsertKeepsTask(s, msg, replace, id, task);
    case LoadRich(msgs) => UpsertAllKeepsTask(s, msgs, id, task);
    case SetQueue(queue, version) => SameInTask(s.c, Ops.SetQueue(s, queue, version).0.c, id, task);
    case Reset(_) =>
    case Restart(_, _, _) =>
    case _ =>
      hide EmitterRuns.After, Allowed;
      OthersLeave(s, call, bufSize);
      SameInTask(s.c, EmitterRuns.After(s, call, bufSize).0.c, id, task);
  }

  lemma SameInTask(c: Conv, d: Conv, id: RichId, task: int)
    requires SameRich(c, d) && InTask(c, id, task)
    ensures InTask(d, id, task)
  {
  }

  lemma SoundIndexed(s: Spec.State)
    requires Spec.Sound(s)
    ensures Indexed(s.c)
  {
    OkIndexed(s.c, s.number);
  }

  lemma {:induction false} RichTaskStays(s: Spec.State, calls: seq<Call>, bufSize: nat, end: Spec.State,
      told: seq<Event>, id: RichId, task: int)
    requires Clients.Calls(s, calls, bufSize, end, told)
    requires InTask(s.c, id, task) && forall i :: 0 <= i < |calls| ==> !calls[i].Reset?
    ensures InTask(end.c, id, task)
    decreases |calls|
  {
    if |calls| > 0 {
      hide Clients.Ready, Allowed, EmitterRuns.After, Clients.Told, InTask;
      CallKeepsTask(s, calls[0], bufSize, id, task);
      var first := Clients.Told(s, calls[0], bufSize);
      RichTaskStays(EmitterRuns.After(s, calls[0], bufSize).0, calls[1..], bufSize, end, told[|first|..], id, task);
    }
  }

  ghost predicate NoneRuns(tasks: seq<Task>) {
    forall i :: 0 <= i < |tasks| ==> tasks[i].Final()
  }

  ghost predicate NoneBy(tasks: seq<Task>, at: int) {
    forall i :: 0 <= i < |tasks| ==> tasks[i].startedAt > at
  }

  /** A rich message that names no task begins in the one that runs, else in the latest that had
      started when it was sent, if there was one. */
  lemma RichBegins(s: Spec.State, msg: RichMessage, replace: bool)
    requires Clients.Ready(s) && msg.taskId.None? && msg.id !in s.c.richIndex
    ensures var c := Spec.EmitRich(s, msg, replace).0.c;
      && msg.id in c.richIndex && 0 <= c.richIndex[msg.id] < |c.rich|
      && var task := c.rich[c.richIndex[msg.id]].taskId;
        && (forall i :: 0 <= i < |s.c.tasks| && s.c.tasks[i].status == Running ==> task == Some(s.c.tasks[i].id))
        && (forall i :: Latest(s.c.tasks, msg.time, i) && NoneRuns(s.c.tasks) ==> task == Some(s.c.tasks[i].id))
        && (NoneRuns(s.c.tasks) && NoneBy(s.c.tasks, msg.time) ==> task == None)
  {
    SoundTracked(s);
    hide Spec.Sound, Tidy, Tasks.TaskAt;
    TaskAtIs(s.t, msg.time);
  }

  lemma SoundTracked(s: Spec.State)
    requires Spec.Sound(s)
    ensures Good(s.t) && s.c.tasks == s.t.tasks && s.t.Ok() && Indexed(s.c)
  {
    OkIndexed(s.c, s.number);
  }

  // ---- The queue ----

  lemma {:induction false} LoadLeavesQueue(s: Spec.State, msgs: seq<RichMessage>)
    requires s.t.Ok() && Aligned(s.c)
    ensures var r := Ops.UpsertAll(s, msgs).0; r.c.queue == s.c.queue && r.queueVersion == s.queueVersion
    decreases |msgs|
  {
    if |msgs| > 0 {
      hide Spec.Upserted, Aligned;
      UpsertAligned(s, msgs[0]);
      LoadLeavesQueue(Spec.UpsertRich(s, msgs[0], true).0, msgs[1..]);
    }
  }

  /** The version of the queue a call leaves. */
  lemma QueueAfter(s: Spec.State, call: Call, bufSize: nat)
    requires Clients.Ready(s) && Allowed(s, call) && !call.Restart?
    ensures var r := EmitterRuns.After(s, call, bufSize).0;
      if call.SetQueue? && call.version > s.queueVersion
      then r.c.queue == call.queue && r.queueVersion == call.version
      else r.c.queue == s.c.queue && r.queueVersion == s.queueVersion
  {
    hide Spec.Sound, Aligned, Ops.UpsertAll;
    match call
    case SetQueue(_, _) =>
    case LoadRich(msgs) => LoadLeavesQueue(s, msgs);
    case Reset(_) =>
    case EmitRich(msg, replace) =>
      hide Spec.Upserted;
    case _ =>
      hide EmitterRuns.After, Allowed;
      OthersLeave(s, call, bufSize);
  }

  /** In whatever order the queue's versions are reported, the emitter has the queue of the highest. */
  lemma {:induction false} QueueIsLatest(s: Spec.State, calls: seq<Call>, bufSize: nat, end: Spec.State,
      told: seq<Event>)
    requires Clients.Calls(s, calls, bufSize, end, told)
    ensures end.queueVersion >= s.queueVersion
    ensures forall i :: 0 <= i < |calls| && calls[i].SetQueue? ==> calls[i].version <= end.queueVersion
    ensures if end.queueVersion == s.queueVersion then end.c.queue == s.c.queue
      else exists i :: 0 <= i < |calls| && calls[i] == SetQueue(end.c.queue, end.queueVersion)
    decreases |calls|
  {
    if |calls| > 0 {
      hide Clients.Ready, Allowed, EmitterRuns.After, Clients.Told;
      QueueAfter(s, calls[0], bufSize);
      var first := Clients.Told(s, calls[0], bufSize);
      var mid, rest := EmitterRuns.After(s, calls[0], bufSize).0, calls[1..];
      QueueIsLatest(mid, rest, bufSize, end, told[|first|..]);
      forall i | 0 <= i < |calls| && calls[i].SetQueue? ensures calls[i].version <= end.queueVersion {
        assert i > 0 ==> calls[i] == rest[i - 1];
      }
      if end.queueVersion != mid.queueVersion {
        var i :| 0 <= i < |rest| && rest[i] == SetQueue(end.c.queue, end.queueVersion);
        assert calls[i + 1] == rest[i];
      } else if end.queueVersion != s.queueVersion {
        assert calls[0] == SetQueue(end.c.queue, end.queueVersion);
      }
    }
  }

  // ---- The messages before a restart ----

  ghost predicate InTime(msgs: seq<Message>) {
    forall i, j :: 0 <= i < j < |msgs| ==> msgs[i].time <= msgs[j].time
  }

  /** After a restart, a user message from before it that no task holds becomes a task that is over. */
  lemma RestoredIsHistory(s: Spec.State, anew: Spec.State, load: Conv, now: int, m: nat)
    requires Spec.Sound(s) && Restarting.Loaded(s.stored, load) && InTime(load.messages)
    requires m < |load.messages| && load.messages[m].role == User
    ensures var t := Restarting.Restore(anew, load, s.stored, now).0.t;
      && load.messages[m].time < t.since && t.Ok()
      && (!Held(t.tasks, load.messages, load.messages[m].id) ==>
            var r := Derive(t, load.messages).0;
            load.messages[m].id in r.owners
              && HistoryOf(r.tasks[r.owners[load.messages[m].id]], load.messages[m], load.messages))
  {
    hide Spec.Sound, Restarting.Loaded, Derive, HistoryOf, Held, Tasks.Restore;
    Restarting.RestartTasks(s, anew, load, now);
    var t := Restarting.Restore(anew, load, s.stored, now).0.t;
    RestoredTracker(anew, load, s.stored, now);
    if !Held(t.tasks, load.messages, load.messages[m].id) {
      Restarting.SoundPlaces(s);
      DerivePlaces(t, load.messages, m);
    }
  }

  lemma RestoredTracker(anew: Spec.State, load: Conv, db: StateStore.Stored, now: int)
    ensures var t, u := Restarting.Restore(anew, load, db, now).0.t,
      Tasks.Restore(anew.t, load.tasks, load.messages, now).0;
      && t == u.(since := t.since) && (Owned(u) ==> Owned(t)) && (Good(u) ==> Good(t))
      && (forall i :: 0 <= i < |load.messages| && InTime(load.messages) ==> load.messages[i].time < t.since)
  {
    hide Tasks.Restore;
  }

  // ---- Loading a session's messages ----

  lemma {:induction false} OneEventEach(s: Spec.State, msgs: seq<RichMessage>)
    requires s.t.Ok() && Aligned(s.c)
    ensures |Ops.UpsertAll(s, msgs).1| == |msgs|
    decreases |msgs|
  {
    if |msgs| > 0 {
      hide Spec.Upserted, Aligned;
      UpsertAligned(s, msgs[0]);
      OneEventEach(Spec.UpsertRich(s, msgs[0], true).0, msgs[1..]);
    }
  }

  /** What is loaded is sent one by one exactly when it fits a quarter of a subscription's buffer. */
  lemma LoadFits(s: Spec.State, msgs: seq<RichMessage>, bufSize: nat)
    requires s.t.Ok() && Aligned(s.c)
    ensures var (r, events, one) := Ops.LoadRich(s, msgs, bufSize);
      |events| == |msgs| && (one <==> 4 * |events| <= bufSize)
  {
    hide Ops.UpsertAll, Aligned;
    OneEventEach(s, msgs);
  }

  // ---- What a rich message brings ----

  /** The rich message with the ID. */
  function RichOf(c: Conv, id: RichId): RichMessage
    requires Indexed(c) && id in c.richIndex
  {
    c.rich[c.richIndex[id]]
  }

  /** A rich message that is new, or that replaces one, is there as it came, but for its task; one that
      adds to another leaves that with the blocks of both. The others stay. */
  lemma RichTaken(s: Spec.State, msg: RichMessage, replace: bool)
    requires s.t.Ok() && Aligned(s.c) && Indexed(s.c)
    ensures var c := Spec.EmitRich(s, msg, replace).0.c;
      && Indexed(c) && msg.id in c.richIndex
      && var put := RichOf(c, msg.id);
        && (replace || msg.id !in s.c.richIndex ==> put == msg.(taskId := put.taskId))
        && (msg.id !in s.c.richIndex && msg.taskId.Some? ==> put.taskId == msg.taskId)
        && (!replace && msg.id in s.c.richIndex ==> var was := RichOf(s.c, msg.id);
              && put == was.(content := put.content, stop := msg.stop, taskId := put.taskId)
              && was.content <= put.content
              && Spec.KeysOf(put.content) == Spec.KeysOf(was.content) + Spec.KeysOf(msg.content))
  {
    hide TaskAt, Spec.Merge, Spec.KeysOf;
    UpsertedIndexed(s, msg, replace);
    if msg.id in s.c.richIndex {
      Spec.MergeBrings(RichOf(s.c, msg.id).content, msg.content);
    }
  }

  lemma OtherRichStays(s: Spec.State, msg: RichMessage, replace: bool, id: RichId)
    requires s.t.Ok() && Aligned(s.c) && Indexed(s.c) && id != msg.id
    ensures var c := Spec.EmitRich(s, msg, replace).0.c;
      Indexed(c) && (id in c.richIndex <==> id in s.c.richIndex)
        && (id in s.c.richIndex ==> RichOf(c, id) == RichOf(s.c, id))
  {
    hide Spec.Upserted;
    UpsertedIndexed(s, msg, replace);
  }

  // ---- What a request brings ----

  /** A request that closed before it was known is nothing to the conversation; any other's latest state
      is put at its place, or at the end, and the excess is let go. */
  lemma RequestTaken(s: Spec.State, r: RequestState, dropped: seq<int>, now: int)
    requires s.t.Ok() && |s.c.requestSeq| == |s.c.requests|
    requires Ops.Ascending(dropped, |PutRequest(s.c, r, s.number + 1).requests|)
    ensures var (x, events) := Ops.EmitRequest(s, r, dropped, now);
      var known := exists i :: 0 <= i < |s.c.requests| && s.c.requests[i].id == r.id;
      && (!known && !r.pending ==> x == s && events == [])
      && (known || r.pending ==> x.c.requests == Ops.Kept(PutRequest(s.c, r, s.number + 1).requests, dropped))
      && (known || r.pending ==> |events| > 0 && events[0] == Update(RequestKey(r.id), RequestValue(r), s.number + 1))
  {
    hide Spec.NotifyStatus, Spec.Pending, Ops.DeleteAll, Ops.Kept, PutRequest;
    NotifyRequests(Ops.StoreRequest(s, r, dropped), now);
  }

  lemma NotifyRequests(s: Spec.State, now: int)
    requires s.t.Ok()
    ensures Spec.NotifyStatus(s, now).0.c.requests == s.c.requests
  {
    hide StatusChanged, Spec.Pending;
  }
}
