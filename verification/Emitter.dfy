/** The emitter: it holds the conversation, sends what changes to the subscriptions
    and stores it. Each method holds the lock while it runs. */
module Emitter {
  import opened Options
  import opened Conversation
  import opened Tasks
  import opened TaskFacts
  import opened TaskRuns
  import TaskTheorems
  import opened TaskTracking
  import opened TaskChanges
  import opened Replication
  import opened ConversationState
  import opened ConversationSteps
  import opened StateStore
  import opened Subscriptions
  import Spec = EmitterSpec
  import Ops = EmitterOps
  import Messaging = EmitterMessages
  import Restarting = EmitterRestart
  import Replaying = EmitterReplay
  import Trimming = RequestTrimming

  type State = Spec.State

  lemma {:induction false} NumberedFrom(events: seq<Event>, low: nat, from: nat, high: nat)
    requires Numbered(events, from, high) && low <= from
    ensures Numbered(events, low, high)
  {
  }

  lemma {:induction false} Concat<T>(a: seq<T>, b: seq<T>, c: seq<T>)
    ensures a + b + c == a + (b + c)
  {
  }

  lemma {:induction false} NoMore<T>(a: seq<T>)
    ensures a + [] == a
  {
  }

  lemma {:induction false} TidyOk(t: Tracker, last: seq<Message>)
    requires Tidy(t, last)
    ensures t.Ok()
  {
  }

  /** What doesn't concern the conversation doesn't make the state unsound. */
  lemma {:induction false} SameSound(s: State, t: State)
    requires Spec.Sound(s)
    requires t == s.(agent := t.agent, lifecycle := t.lifecycle, held := t.held, reported := t.reported,
      limitStop := t.limitStop, retryWait := t.retryWait)
    ensures Spec.Sound(t)
  {
  }

  lemma {:induction false} NotifyStatusSound(s: State, now: int)
    requires Spec.Sound(s)
    ensures s.t.Ok() && Spec.Sound(Spec.NotifyStatus(s, now).0)
  {
    Spec.NotifyStatusMakes(s, now);
  }

  lemma {:induction false} EndIfIdleSound(s: State, now: int)
    requires Spec.Sound(s)
    ensures s.t.Ok() && Spec.Sound(Spec.EndIfIdle(s, now).0)
  {
    Spec.EndIfIdleMakes(s, now);
  }

  lemma {:induction false} EmitErrorSound(s: State, isError: bool, message: string)
    requires Spec.Sound(s)
    ensures s.t.Ok() && Spec.Sound(Spec.EmitError(s, isError, message).0)
  {
    Spec.EmitErrorMakes(s, isError, message);
  }

  lemma {:induction false} RichSound(s: State, msg: RichMessage, replace: bool)
    requires Spec.Sound(s)
    ensures s.t.Ok() && Aligned(s.c) && Spec.Sound(Spec.EmitRich(s, msg, replace).0)
  {
    Ops.EmitRichMakes(s, msg, replace);
  }

  lemma {:induction false} LoadSound(s: State, msgs: seq<RichMessage>, bufSize: nat)
    requires Spec.Sound(s)
    ensures s.t.Ok() && Aligned(s.c) && Spec.Sound(Ops.LoadRich(s, msgs, bufSize).0)
  {
    Ops.LoadRichMakes(s, msgs, bufSize);
  }

  lemma {:induction false} QueueSound(s: State, queue: seq<QueuedMessage>, version: nat)
    requires Spec.Sound(s)
    ensures Spec.Sound(Ops.SetQueue(s, queue, version).0)
  {
    Ops.SetQueueMakes(s, queue, version);
  }

  /** One more of the messages to load. */
  lemma {:induction false} LoadNext(s: State, msgs: seq<RichMessage>, sent: seq<Event>)
    requires Spec.Sound(Spec.Saved(s)) && msgs != []
    ensures s.t.Ok() && Aligned(s.c) && Spec.Upserted(s, msgs[0], true).id == msgs[0].id
    ensures var (a, first) := Spec.UpsertRich(s, msgs[0], true);
      && Spec.Sound(Spec.Saved(a)) && a.t.Ok() && Aligned(a.c)
      && Ops.UpsertAll(s, msgs).0 == Ops.UpsertAll(a, msgs[1..]).0
      && sent + Ops.UpsertAll(s, msgs).1 == sent + first + Ops.UpsertAll(a, msgs[1..]).1
  {
    hide Spec.Sound, Aligned, Spec.UpsertRich, Tidy;
    Ops.SoundSaved(Spec.Saved(s));
    Spec.UpsertedId(Spec.Saved(s), msgs[0], true);
    SavedUpserts(s, msgs[0]);
    var (a, first) := Spec.UpsertRich(s, msgs[0], true);
    Spec.UpsertRichMakes(s, msgs[0], true);
    MadeSound(s, Spec.Saved(a), first);
    Ops.SoundSaved(Spec.Saved(a));
    Concat(sent, first, Ops.UpsertAll(a, msgs[1..]).1);
  }

  lemma {:induction false} SavedUpserts(s: State, msg: RichMessage)
    requires s.t.Ok() && Aligned(s.c)
    ensures Spec.Upserted(Spec.Saved(s), msg, true) == Spec.Upserted(s, msg, true)
  {
  }

  lemma {:induction false} MadeSound(s: State, r: State, events: seq<Event>)
    requires Spec.Makes(s, r, events, {})
    ensures Spec.Sound(r)
  {
  }

  lemma {:induction false} LoadedAll(s: State, sent: seq<Event>)
    requires s.t.Ok() && Aligned(s.c)
    ensures Ops.UpsertAll(s, []) == (s, []) && sent + [] == sent
  {
  }

  lemma {:induction false} RequestSound(s: State, r: RequestState, dropped: seq<int>, now: int)
    requires Spec.Sound(s) && Ops.Ascending(dropped, |PutRequest(s.c, r, s.number + 1).requests|)
    ensures s.t.Ok() && |s.c.requestSeq| == |s.c.requests| && Spec.Sound(Ops.StoreRequest(s, r, dropped))
    ensures Spec.Sound(Ops.EmitRequest(s, r, dropped, now).0)
  {
    Ops.StoreRequestMakes(s, r, dropped);
    Ops.EmitRequestMakes(s, r, dropped, now);
  }

  /** dropped are the closed requests beyond those kept, once the request is stored. */
  ghost predicate Trims(s: State, r: RequestState, dropped: seq<int>) {
    |s.c.requestSeq| == |s.c.requests| && Ops.Excess(PutRequest(s.c, r, s.number + 1).requests, dropped)
  }

  ghost predicate InPlace(s: State, r: RequestState, dropped: seq<int>) {
    |s.c.requestSeq| == |s.c.requests| && Ops.Ascending(dropped, |PutRequest(s.c, r, s.number + 1).requests|)
  }

  lemma {:induction false} TrimsInPlace(s: State, r: RequestState, dropped: seq<int>)
    requires Trims(s, r, dropped)
    ensures InPlace(s, r, dropped)
  {
  }

  lemma {:induction false} DropsNone(s: State, r: RequestState)
    requires |s.c.requestSeq| == |s.c.requests|
    ensures InPlace(s, r, [])
  {
  }

  lemma {:induction false} RequestLengths(s: State)
    requires Spec.Sound(s)
    ensures s.t.Ok() && |s.c.requestSeq| == |s.c.requests|
  {
  }

  lemma {:induction false} PutLengths(c: Conv, r: RequestState, number: nat)
    requires |c.requestSeq| == |c.requests|
    ensures var d := PutRequest(c, r, number); |d.requestSeq| == |d.requests|
  {
  }

  lemma {:induction false} RequestIs(s: State, r: RequestState, dropped: seq<int>, now: int)
    requires s.t.Ok() && |s.c.requestSeq| == |s.c.requests|
    requires Ops.Ascending(dropped, |PutRequest(s.c, r, s.number + 1).requests|)
    ensures FindRequest(s.c.requests, r.id) < 0 && !r.pending ==> Ops.EmitRequest(s, r, dropped, now) == (s, [])
    ensures FindRequest(s.c.requests, r.id) >= 0 || r.pending ==>
      var t := Ops.StoreRequest(s, r, dropped);
      var event := [Update(RequestKey(r.id), RequestValue(r), s.number + 1)];
      if Spec.Pending(t.c.requests) == Spec.Pending(s.c.requests) then Ops.EmitRequest(s, r, dropped, now) == (t, event)
      else
        var x := Spec.NotifyStatus(t, now);
        t.t.Ok() && Ops.EmitRequest(s, r, dropped, now) == (x.0, event + x.1)
  {
    hide Spec.NotifyStatus, Ops.StoreRequest, Spec.Pending;
  }

  /** The emitter's messages after a change leave it sound, whether some were removed or not. */
  lemma {:induction false} MessagesSound(s: State, now: seq<Message>)
    requires Spec.Sound(s) && SameStart(s.c.messages, now)
    ensures s.t.Ok() && |s.c.messageSeq| == |s.c.messages| && Spec.Sound(Messaging.EmitMessages(s, now).0)
  {
    if |s.c.messages| <= |now| {
      Messaging.MoreMessagesMake(s, now);
    } else {
      Messaging.FewerMessagesRebuild(s, now);
    }
  }

  predicate Removes(s: State, now: seq<Message>) {
    Messaging.CutFrom(s.c.messages, now, 0) < |s.c.messages|
  }

  /** The state with the messages, and with the tasks derived from them. */
  ghost function Taken(s: State, now: seq<Message>): (State, seq<Event>)
    requires s.t.Ok() && |s.c.messageSeq| == |s.c.messages|
  {
    var was := s.c.messages;
    var stored := if Removes(s, now) then s.stored.TruncateMessages(was[Messaging.CutFrom(was, now, 0)].id)
      else s.stored;
    Messaging.TakeMessages(s, now, Removes(s, now), Messaging.PutMessages(stored, was, now, |now|, s.number))
  }

  lemma {:induction false} ClearSound(s: State, now: int)
    requires Spec.Sound(s)
    ensures Spec.Sound(Restarting.Clear(s, now).0)
  {
    Restarting.ClearClears(s, now);
  }

  /** What was loaded, with the tracker t that took the tasks back. */
  ghost function RestoredState(s: State, load: Conv, db: Stored, t: Tracker): State
    requires t.Ok()
  {
    var c := load.(richIndex := Restarting.IndexOf(load.rich), tasks := t.tasks,
      taskSeq := Restarting.TakenNumbers(t, load.tasks, load.taskSeq, |load.tasks|), queue := s.c.queue,
        queueSeq := s.c.queueSeq);
    s.(c := c, t := t, epoch := db.epoch, number := db.number,
      stored := Restarting.WithoutGone(db, t, load.tasks, |load.tasks|), stale := true)
  }

  /** db is what an emitter in the state stored, and load what is loaded of it. */
  ghost predicate Stores(was: State, db: Stored, load: Conv) {
    Spec.Sound(was) && was.stored == db && Restarting.Loaded(db, load)
  }

  lemma {:induction false} RestoredSound(was: State, s: State, load: Conv, db: Stored, now: int)
    ensures var r := Restarting.Restore(s, load, db, now).0;
      Stores(was, db, load) && s.c.queue == [] && s.c.queueSeq == 0 ==> Spec.Sound(r) && Tidy(r.t, r.c.messages)
  {
    hide Restarting.Restore, Restarting.Loaded;
    if Stores(was, db, load) && s.c.queue == [] && s.c.queueSeq == 0 {
      Restarting.RestoreRestarts(was, s, load, now);
    }
  }

  lemma {:induction false} RestoredIs(s: State, load: Conv, db: Stored, now: int, t: Tracker, changed: seq<int>)
    requires (t, changed) == Tasks.Restore(s.t, load.tasks, load.messages, now) && t.Ok()
    ensures InRange(changed, t.tasks)
    ensures var (r, events) := Spec.StoreTasks(RestoredState(s, load, db, t), changed);
      && Restarting.Restore(s, load, db, now) ==
        (r.(t := r.t.(since := Restarting.SinceAfter(r.t.since, load.messages))), events)
      && events == TaskEvents(t.tasks, changed, db.number)
      && r.t == t && r.c.messages == load.messages
  {
    hide Tasks.Restore, Restarting.IndexOf, Restarting.TakenNumbers, Restarting.WithoutGone, TaskNumbers, TaskEvents,
      PutTasks;
    Restarting.EndRunningRange(s.t, load.tasks, load.messages, now);
  }

  lemma {:induction false} ResetsTasks(t: Tracker, now: int)
    ensures Tasks.Reset(t, now).tasks == []
  {
  }

  lemma {:induction false} SoundInStep(s: State)
    requires Spec.Sound(s)
    ensures Aligned(s.c) && Replaying.InStep(s.c)
  {
  }

  lemma {:induction false} ReplayUpTo(s: State, since: nat, wants: set<Kind>)
    requires Spec.Sound(s) && Replaying.InStep(s.c) && since <= s.number
    ensures Replaying.Highest(Replaying.ReplayOf(s.c, since, wants), since) <= s.number
  {
    hide Replaying.ReplayOf, Replaying.Highest;
    OkAligned(s.c, s.number);
    Replaying.ReplayBelow(s.c, s.number, since, wants);
  }

  /** What EmitMessages returns, from what TakeMessages does. */
  lemma {:induction false} MessagesAre(s: State, now: seq<Message>)
    requires s.t.Ok() && |s.c.messageSeq| == |s.c.messages|
    ensures Removes(s, now) ==>
      Messaging.EmitMessages(s, now) == (Spec.Saved(Taken(s, now).0.(epoch := Taken(s, now).0.epoch + 1)), [], true)
    ensures !Removes(s, now) ==>
      Messaging.EmitMessages(s, now) ==
        (Spec.Saved(Taken(s, now).0), MessageEvents(s.c.messages, now, |now|, s.number) + Taken(s, now).1, false)
  {
    hide Messaging.CutFrom, Messaging.TakeMessages, Messaging.PutMessages, MessageEvents, Spec.Saved;
  }

  /** The state with the messages and the tracker t that took them. */
  ghost function WithTracker(s: State, now: seq<Message>, removed: bool, stored: Stored, t: Tracker): State
    requires |s.c.messageSeq| == |s.c.messages|
  {
    var numbers := Messaging.MessageNumbers(s.c.messages, now, s.c.messageSeq, s.number);
    var c := s.c.(messages := now, messageSeq := numbers, tasks := t.tasks,
      taskSeq := Messaging.NumbersLeft(s, t, removed));
    s.(c := c, t := t, number := s.number + ChangedCount(s.c.messages, now, |now|), stored := stored)
  }

  lemma {:induction false} TakenIs(s: State, now: seq<Message>, removed: bool, stored: Stored, t: Tracker,
      changed: seq<int>)
    requires s.t.Ok() && |s.c.messageSeq| == |s.c.messages| && (t, changed) == Derive(s.t, now)
    ensures InRange(changed, t.tasks)
    ensures Spec.StoreTasks(WithTracker(s, now, removed, stored, t), changed) ==
      Messaging.TakeMessages(s, now, removed, stored)
  {
    hide Derive, Spec.StoreTasks, ChangedCount, Messaging.NumbersLeft, Messaging.MessageNumbers;
    DerivedInRange(s.t, now);
  }

  lemma {:induction false} NextMessageEvent(was: seq<Message>, now: seq<Message>, i: nat, number: nat)
    requires i < |now|
    ensures MessageEvents(was, now, i + 1, number) == MessageEvents(was, now, i, number)
      + if MessageChanged(was, now, i) then [MessageEvent(now, i, number + ChangedCount(was, now, i + 1))] else []
    ensures ChangedCount(was, now, i + 1) == ChangedCount(was, now, i) + if MessageChanged(was, now, i) then 1 else 0
  {
  }

  lemma {:induction false} NoMessageEvents(was: seq<Message>, now: seq<Message>, number: nat)
    ensures MessageEvents(was, now, 0, number) == []
  {
  }

  /** The messages from the first that changed on: those before are as they were. */
  lemma {:induction false} FromAgrees(was: seq<Message>, now: seq<Message>, from: nat)
    requires from <= |now| && forall i :: 0 <= i < from ==> !MessageChanged(was, now, i)
    ensures TaskTheorems.Agree(was, now, from)
  {
    forall i | 0 <= i < from && i < |was| && i < |now| ensures now[i] == was[i] {
      assert !MessageChanged(was, now, i);
    }
  }

  lemma {:induction false} QueueIs(s: State, queue: seq<QueuedMessage>, version: nat)
    ensures version <= s.queueVersion ==> Ops.SetQueue(s, queue, version) == (s, [])
    ensures version > s.queueVersion ==>
      var n := s.number + 1;
      Ops.SetQueue(s, queue, version) ==
        (s.(c := s.c.(queue := queue, queueSeq := n), number := n, queueVersion := version, stale := false,
          stored := s.stored.SetSeq(s.epoch, n)),
         [Update(QueueKey, QueueValue(queue), n)])
  {
  }

  /** The blocks with those of incoming that aren't among them yet. */
  method MergeContent(existing: seq<Block>, incoming: seq<Block>) returns (merged: seq<Block>)
    ensures merged == Spec.Merge(existing, incoming)
  {
    merged := existing;
    var seen := {};
    for i := 0 to |existing|
      invariant seen == Spec.KeysOf(existing[..i])
    {
      Spec.KeysOne(existing[..i], existing[i]);
      assert existing[..i + 1] == existing[..i] + [existing[i]];
      seen := seen + {Spec.KeyOf(existing[i])};
    }
    assert existing[..|existing|] == existing;
    for i := 0 to |incoming|
      invariant seen == Spec.KeysOf(merged)
      invariant Spec.Merge(merged, incoming[i..]) == Spec.Merge(existing, incoming)
    {
      assert incoming[i..][0] == incoming[i] && incoming[i..][1..] == incoming[i + 1..];
      var key := Spec.KeyOf(incoming[i]);
      if key !in seen {
        Spec.KeysOne(merged, incoming[i]);
        seen := seen + {key};
        merged := merged + [incoming[i]];
      }
    }
  }

  lemma {:induction false} StoredNumberGrows(s: State, changed: seq<int>)
    requires InRange(changed, s.c.tasks)
    ensures Spec.StoreTasks(s, changed).0.number >= s.number
  {
  }

  /** An emitter of a new conversation, whose store is as empty. */
  ghost function Fresh(now: int): State {
    Spec.State(Conv([], [], [], [], map[], [], [], [], map[], [], 0), New(now), 1, 0, 0,
      Stored(map[], map[], map[], map[], 1, 0), Working, Starting, false, Starting, None, None, false)
  }

  lemma {:induction false} NewSound(now: int)
    ensures Spec.Sound(Fresh(now))
  {
    NewTidy(now);
  }

  class EventEmitter {
    const tracker: TaskTracker
    const subs: Subscriptions
    var messages: seq<Message>
    var messageSeq: seq<nat>
    var rich: seq<RichMessage>
    var richSeq: seq<nat>
    var richIndex: map<RichId, int>
    var requests: seq<RequestState>
    var requestSeq: seq<nat>
    var taskSeq: map<int, nat>
    var queue: seq<QueuedMessage>
    var queueVersion: nat
    var queueSeq: nat
    /** The conversation's epoch; a new one is one there was never before. */
    var epoch: nat
    /** The number of the last change. */
    var number: nat
    var stored: Stored
    var agent: AgentStatus
    var lifecycle: Lifecycle
    /** The server set the lifecycle, and the conversation's status doesn't change it;
        reported is the one that status gives meanwhile. */
    var lifecycleHeld: bool
    var reported: Lifecycle
    var limitStop: Option<Stop>
    var retryWait: Option<Stop>
    /** The queue is still that of the conversation before. */
    ghost var stale: bool

    ghost function View(): State
      reads this, tracker
    {
      Spec.State(
        Conv(messages, messageSeq, rich, richSeq, richIndex, requests, requestSeq, tracker.tasks, taskSeq, queue,
          queueSeq),
        tracker.View(), epoch, number, queueVersion, stored, agent, lifecycle, lifecycleHeld, reported, limitStop,
          retryWait, stale)
    }

    /** What holds between the calls. */
    ghost predicate Valid()
      reads this, tracker, subs
    {
      && Spec.Sound(View()) && tracker.Valid() && tracker.last == messages
      && subs.Valid() && subs.high <= number
    }

    constructor (now: int, bufSize: nat)
      ensures Valid() && fresh(tracker) && fresh(subs) && subs.history == [] && subs.chans == map[]
      ensures View() == Fresh(now)
    {
      tracker := new TaskTracker(now);
      subs := new Subscriptions(bufSize);
      messages, messageSeq, rich, richSeq, richIndex := [], [], [], [], map[];
      requests, requestSeq, taskSeq := [], [], map[];
      queue, queueVersion, queueSeq := [], 0, 0;
      epoch, number, stale := 1, 0, false;
      stored := Stored(map[], map[], map[], map[], 1, 0);
      agent, lifecycle, lifecycleHeld, reported, limitStop, retryWait := Working, Starting, false, Starting, None, None;
      new;
      hide Spec.Sound, Tidy;
      NewSound(now);
    }

    // ---- What the methods share ----

    method StoreTask(task: Task)
      modifies this`taskSeq, this`number, this`stored
      ensures number == old(number) + 1 && taskSeq == old(taskSeq)[task.id := number]
      ensures stored == old(stored).PutTask(task, number)
    {
      number := number + 1;
      taskSeq := taskSeq[task.id := number];
      stored := stored.PutTask(task, number);
    }

    method NumberTasks(changed: seq<int>) returns (updates: seq<Event>)
      requires InRange(changed, tracker.tasks)
      modifies this`taskSeq, this`number, this`stored
      ensures number == old(number) + |changed| && updates == TaskEvents(tracker.tasks, changed, old(number))
      ensures taskSeq == TaskNumbers(old(taskSeq), tracker.tasks, changed, old(number))
      ensures stored == old(stored).(tasks := PutTasks(old(stored.tasks), tracker.tasks, changed, old(number)))
    {
      updates := [];
      var i := 0;
      while i < |changed|
        invariant 0 <= i <= |changed| && number == old(number) + i
        invariant InRange(changed[..i], tracker.tasks)
        invariant updates == TaskEvents(tracker.tasks, changed[..i], old(number))
        invariant taskSeq == TaskNumbers(old(taskSeq), tracker.tasks, changed[..i], old(number))
        invariant stored == old(stored).(tasks := PutTasks(old(stored.tasks), tracker.tasks, changed[..i], old(number)))
      {
        var task := tracker.tasks[changed[i]];
        StoreTask(task);
        updates := updates + [Update(TaskKey(task.id), TaskValue(task), number)];
        assert changed[..i + 1][..i] == changed[..i];
        i := i + 1;
      }
      assert changed[..i] == changed;
    }

    /** Gives the tasks at the positions changed the next numbers and stores them. */
    method StoreTasks(changed: seq<int>) returns (updates: seq<Event>)
      requires InRange(changed, tracker.tasks)
      modifies this`taskSeq, this`number, this`stored
      ensures (View(), updates) == Spec.StoreTasks(old(View()), changed)
    {
      hide TaskEvents, TaskNumbers, PutTasks;
      updates := NumberTasks(changed);
      if |changed| > 0 {
        stored := stored.SetSeq(epoch, number);
      }
    }

    /** Sends the events, whose numbers rise. */
    method SendAll(events: seq<Event>)
      requires subs.Valid() && Numbered(events, subs.high, number)
      modifies subs`chans, subs`closed, subs`history, subs`high
      ensures subs.Valid() && subs.high <= number && subs.history == old(subs.history) + events
    {
      hide Subscriptions.Valid;
      var i := 0;
      while i < |events|
        invariant 0 <= i <= |events| && subs.Valid() && subs.high <= number
        invariant subs.history == old(subs.history) + events[..i]
        invariant forall j :: i <= j < |events| && events[j].Update? ==> subs.high < events[j].number
      {
        subs.Notify(events[i]);
        assert events[..i + 1] == events[..i] + [events[i]];
        i := i + 1;
      }
      assert events[..i] == events;
    }

    /** Stores and sends the tasks at the positions changed. */
    method ChangeTasks(changed: seq<int>)
      requires InRange(changed, tracker.tasks) && subs.Valid() && subs.high <= number
      modifies this`taskSeq, this`number, this`stored, subs`chans, subs`closed, subs`history, subs`high
      ensures View() == Spec.StoreTasks(old(View()), changed).0 && subs.Valid() && subs.high <= number
      ensures subs.history == old(subs.history) + TaskEvents(tracker.tasks, changed, old(number))
    {
      hide Subscriptions.Valid, Numbered;
      TaskEventsNumbered(tracker.tasks, changed, number);
      NumberedFrom(TaskEvents(tracker.tasks, changed, number), subs.high, number, number + |changed|);
      var updates := StoreTasks(changed);
      SendAll(updates);
    }

    function StatusNow(): Status
      reads this
    {
      Status(agent, lifecycle, Spec.Pending(requests), limitStop, retryWait)
    }

    /** Sends the agent's status, and the tasks it ended; whether the running task ends if
        the agent stays idle. */
    method NotifyStatus(now: int) returns (confirm: bool)
      requires tracker.Valid() && tracker.View().Ok() && subs.Valid() && subs.high <= number
      modifies this`taskSeq, this`number, this`stored, tracker`tasks, tracker`open, tracker`ran, tracker`status
      modifies subs`chans, subs`closed, subs`history, subs`high
      ensures tracker.Valid() && subs.Valid() && subs.high <= number
      ensures var r := Spec.NotifyStatus(old(View()), now);
        View() == r.0 && subs.history == old(subs.history) + r.1 && confirm == r.2
    {
      hide Tidy, StatusChanged, Subscriptions.Valid;
      StatusOnly(tracker.View(), StatusNow(), now);
      subs.Notify(Other("status"));
      var changed;
      changed, confirm := tracker.Report(StatusNow(), now);
      ChangeTasks(changed);
      Concat(old(subs.history), [Other("status")], TaskEvents(tracker.tasks, changed, old(number)));
    }

    /** The same, between calls. */
    method PublishStatus(now: int)
      requires Valid()
      modifies this`taskSeq, this`number, this`stored, tracker`tasks, tracker`open, tracker`ran, tracker`status
      modifies subs`chans, subs`closed, subs`history, subs`high
      ensures Valid() && old(View()).t.Ok()
      ensures var r := Spec.NotifyStatus(old(View()), now); View() == r.0 && subs.history == old(subs.history) + r.1
    {
      hide Spec.Sound, Tidy, Spec.NotifyStatus, Subscriptions.Valid;
      NotifyStatusSound(View(), now);
      var confirm := NotifyStatus(now);
    }

    // ---- The agent's status ----

    /** Ends the running task, if the agent is idle in its grace period. */
    method EndIfIdle(now: int)
      requires Valid()
      modifies this`taskSeq, this`number, this`stored, tracker`tasks, tracker`open, tracker`ran
      modifies subs`chans, subs`closed, subs`history, subs`high
      ensures Valid() && old(View()).t.Ok()
      ensures var r := Spec.EndIfIdle(old(View()), now); View() == r.0 && subs.history == old(subs.history) + r.1
    {
      hide Spec.Sound, Tidy, Tasks.EndIfIdle, Subscriptions.Valid;
      EndIfIdleSound(View(), now);
      GraceOnly(tracker.View(), now);
      var changed := tracker.EndAfterGrace(now);
      ChangeTasks(changed);
    }

    method TakeStatus(status: Ops.ConversationStatus) returns (changed: bool)
      requires Valid()
      modifies this`agent, this`lifecycle, this`reported
      ensures Valid() && agent == Ops.AgentOf(status) && reported == Ops.LifecycleOf(status)
      ensures lifecycle == if lifecycleHeld then old(lifecycle) else Ops.LifecycleOf(status)
      ensures changed == (old(agent) != agent || old(lifecycle) != lifecycle)
    {
      hide Spec.Sound, Tidy, Subscriptions.Valid;
      ghost var s := View();
      var next := if lifecycleHeld then lifecycle else Ops.LifecycleOf(status);
      reported := Ops.LifecycleOf(status);
      changed := agent != Ops.AgentOf(status) || lifecycle != next;
      agent, lifecycle := Ops.AgentOf(status), next;
      SameSound(s, View());
    }

    /** The conversation's status; its lifecycle doesn't replace one the server holds. */
    method EmitStatus(status: Ops.ConversationStatus, now: int)
      requires Valid()
      modifies this, tracker, subs
      ensures Valid() && old(View()).t.Ok()
      ensures var r := Ops.EmitStatus(old(View()), status, now);
        View() == r.0 && subs.history == old(subs.history) + r.1
    {
      hide Spec.Sound, Tidy, Spec.NotifyStatus, Subscriptions.Valid;
      TidyOk(tracker.View(), tracker.last);
      NoMore(subs.history);
      var changed := TakeStatus(status);
      if changed {
        PublishStatus(now);
      }
    }

    /** Sets the lifecycle; some are held until they are released. */
    method SetLifecycle(next: Lifecycle, now: int)
      requires Valid()
      modifies this, tracker, subs
      ensures Valid() && old(View()).t.Ok()
      ensures var r := Ops.SetLifecycle(old(View()), next, now);
        View() == r.0 && subs.history == old(subs.history) + r.1
    {
      hide Spec.Sound, Tidy, Spec.NotifyStatus, Subscriptions.Valid;
      TidyOk(tracker.View(), tracker.last);
      NoMore(subs.history);
      ghost var s := View();
      lifecycleHeld := Ops.Holding(next);
      var changed := lifecycle != next;
      lifecycle := next;
      SameSound(s, View());
      if changed {
        PublishStatus(now);
      }
    }

    /** The lifecycle is the conversation's again. */
    method ReleaseLifecycle(now: int)
      requires Valid()
      modifies this, tracker, subs
      ensures Valid() && old(View()).t.Ok()
      ensures var r := Ops.ReleaseLifecycle(old(View()), now); View() == r.0 && subs.history == old(subs.history) + r.1
    {
      hide Spec.Sound, Tidy, Spec.NotifyStatus, Subscriptions.Valid;
      TidyOk(tracker.View(), tracker.last);
      NoMore(subs.history);
      if lifecycleHeld {
        ghost var s := View();
        lifecycleHeld := false;
        var changed := lifecycle != reported;
        lifecycle := reported;
        SameSound(s, View());
        if changed {
          PublishStatus(now);
        }
      }
    }

    /** Records the turn a usage limit stopped, and the one that waits to be tried again. */
    method SetStops(limit: Option<Stop>, retry: Option<Stop>, now: int)
      requires Valid()
      modifies this, tracker, subs
      ensures Valid() && old(View()).t.Ok()
      ensures var r := Ops.SetStops(old(View()), limit, retry, now);
        View() == r.0 && subs.history == old(subs.history) + r.1
    {
      hide Spec.Sound, Tidy, Spec.NotifyStatus, Subscriptions.Valid;
      TidyOk(tracker.View(), tracker.last);
      NoMore(subs.history);
      if limitStop != limit || retryWait != retry {
        ghost var s := View();
        limitStop, retryWait := limit, retry;
        SameSound(s, View());
        PublishStatus(now);
      }
    }

    /** Records the turn a usage limit stopped; None when it goes on. */
    method SetLimitStop(limit: Option<Stop>, now: int)
      requires Valid()
      modifies this, tracker, subs
      ensures Valid() && old(View()).t.Ok()
      ensures var r := Ops.SetStops(old(View()), limit, old(retryWait), now);
        View() == r.0 && subs.history == old(subs.history) + r.1
    {
      hide Valid, Ops.SetStops;
      SetStops(limit, retryWait, now);
    }

    /** Records the failed turn that waits to be tried again. */
    method SetRetryWait(retry: Option<Stop>, now: int)
      requires Valid()
      modifies this, tracker, subs
      ensures Valid() && old(View()).t.Ok()
      ensures var r := Ops.SetStops(old(View()), old(limitStop), retry, now);
        View() == r.0 && subs.history == old(subs.history) + r.1
    {
      hide Valid, Ops.SetStops;
      SetStops(limitStop, retry, now);
    }

    /** Sends an error, and notes it in the running task. */
    method EmitError(isError: bool, message: string)
      requires Valid()
      modifies this, tracker, subs
      ensures Valid() && old(View()).t.Ok()
      ensures var r := Spec.EmitError(old(View()), isError, message);
        View() == r.0 && subs.history == old(subs.history) + r.1
    {
      hide Spec.Sound, Tidy, Tasks.AgentError, Subscriptions.Valid;
      EmitErrorSound(View(), isError, message);
      ErrorOnly(tracker.View(), isError, message);
      subs.Notify(Other("error"));
      var changed := tracker.NoteError(isError, message);
      ChangeTasks(changed);
      Concat(old(subs.history), [Other("error")], TaskEvents(tracker.tasks, changed, old(number)));
    }

    // ---- Rich messages and the queue ----

    /** What is stored for a rich message: itself, or merged into the one with its ID. */
    method RichToPut(msg: RichMessage, replace: bool) returns (put: RichMessage)
      requires tracker.View().Ok() && Aligned(View().c)
      ensures put == Spec.Upserted(View(), msg, replace)
    {
      hide TaskAt, Spec.Merge;
      put := msg;
      if msg.id in richIndex && rich[richIndex[msg.id]].taskId.Some? {
        put := put.(taskId := rich[richIndex[msg.id]].taskId);
      } else if msg.taskId.None? {
        var task := tracker.TaskAt(msg.time);
        put := put.(taskId := task);
      }
      if msg.id in richIndex && !replace {
        var existing := rich[richIndex[msg.id]];
        var merged := MergeContent(existing.content, put.content);
        put := existing.(content := merged, stop := put.stop, taskId := put.taskId);
      }
    }

    method ReplaceRich(i: nat, put: RichMessage)
      requires i < |rich| == |richSeq|
      modifies this`rich, this`richSeq, this`number, this`stored
      ensures number == old(number) + 1 && rich == old(rich)[i := put] && richSeq == old(richSeq)[i := number]
      ensures stored == old(stored).PutRichMessage(i, put, number)
    {
      number := number + 1;
      rich, richSeq := rich[i := put], richSeq[i := number];
      stored := stored.PutRichMessage(i, put, number);
    }

    method AppendRich(put: RichMessage)
      requires |rich| == |richSeq|
      modifies this`rich, this`richSeq, this`richIndex, this`number, this`stored
      ensures number == old(number) + 1 && rich == old(rich) + [put] && richSeq == old(richSeq) + [number]
      ensures richIndex == old(richIndex)[put.id := |old(rich)|]
      ensures stored == old(stored).PutRichMessage(|old(rich)|, put, number)
    {
      var i := |rich|;
      number := number + 1;
      rich, richSeq, richIndex := rich + [put], richSeq + [number], richIndex[put.id := i];
      stored := stored.PutRichMessage(i, put, number);
    }

    /** Stores put under the next number, in place of the message with the ID or at the end. */
    method StoreRich(id: RichId, put: RichMessage)
      requires put.id == id && |richSeq| == |rich| && (id in richIndex ==> 0 <= richIndex[id] < |rich|)
      modifies this`rich, this`richSeq, this`richIndex, this`number, this`stored
      ensures var s := old(View());
        var i := RichAt(s.c, id);
        var n := s.number + 1;
        View() == s.(c := PutRich(s.c, i, put, n), number := n, stored := s.stored.PutRichMessage(i, put, n))
    {
      ghost var s := View();
      if id in richIndex {
        ReplaceRich(richIndex[id], put);
      } else {
        AppendRich(put);
      }
      assert View().c == PutRich(s.c, RichAt(s.c, id), put, number);
    }

    method UpsertRich(msg: RichMessage, replace: bool) returns (put: RichMessage)
      requires tracker.View().Ok() && Aligned(View().c) && Spec.Upserted(View(), msg, replace).id == msg.id
      modifies this`rich, this`richSeq, this`richIndex, this`number, this`stored
      ensures View() == Spec.UpsertRich(old(View()), msg, replace).0 && put == Spec.Upserted(old(View()), msg, replace)
    {
      hide PutRich, Spec.Upserted;
      put := RichToPut(msg, replace);
      StoreRich(msg.id, put);
    }

    /** Stores a rich message and sends it as it is stored. */
    method EmitRich(msg: RichMessage, replace: bool)
      requires Valid()
      modifies this`rich, this`richSeq, this`richIndex, this`number, this`stored, subs`chans, subs`closed, subs`history,
        subs`high
      ensures Valid() && old(View()).t.Ok() && Aligned(old(View()).c)
      ensures var r := Spec.EmitRich(old(View()), msg, replace);
        View() == r.0 && subs.history == old(subs.history) + r.1
    {
      hide Spec.Sound, Tidy, Aligned, Subscriptions.Valid, Spec.Upserted, PutRich;
      RichSound(View(), msg, replace);
      Spec.UpsertedId(View(), msg, replace);
      var put := UpsertRich(msg, replace);
      stored := stored.SetSeq(epoch, number);
      subs.Notify(Update(RichKey(msg.id), RichValue(put), number));
    }

    /** The queue after its version-th change; one reported late, after a newer one, is dropped. */
    method SetQueue(queue: seq<QueuedMessage>, version: nat)
      requires Valid()
      modifies this`queue, this`queueVersion, this`number, this`queueSeq, this`stale, this`stored
      modifies subs`chans, subs`closed, subs`history, subs`high
      ensures Valid()
      ensures var r := Ops.SetQueue(old(View()), queue, version);
        View() == r.0 && subs.history == old(subs.history) + r.1
    {
      hide Spec.Sound, Tidy, Subscriptions.Valid, Ops.SetQueue;
      QueueSound(View(), queue, version);
      QueueIs(View(), queue, version);
      NoMore(subs.history);
      ghost var s := View();
      if version > queueVersion {
        this.queue, queueVersion := queue, version;
        number := number + 1;
        queueSeq := number;
        stale := false;
        stored := stored.SetSeq(epoch, number);
        assert View() == Ops.SetQueue(s, queue, version).0;
        subs.Notify(Update(QueueKey, QueueValue(queue), number));
      }
    }

    /** Stores a resumed session's rich messages. The subscriptions to the conversation get
        them one by one when they fit their buffers easily, and end otherwise. */
    method LoadRich(msgs: seq<RichMessage>)
      requires Valid()
      modifies this`rich, this`richSeq, this`richIndex, this`number, this`stored, subs`chans, subs`closed, subs`history,
        subs`high
      ensures Valid() && old(View()).t.Ok() && Aligned(old(View()).c)
      ensures var r := Ops.LoadRich(old(View()), msgs, subs.bufSize);
        View() == r.0 && subs.history == old(subs.history) + (if r.2 then r.1 else [Ended])
      ensures var r := Ops.LoadRich(old(View()), msgs, subs.bufSize);
        !r.2 ==> ClosedConversation(old(subs.chans), subs.chans, old(subs.closed), subs.closed, subs.next)
    {
      hide Spec.Sound, Tidy, Aligned, Subscriptions.Valid, Spec.UpsertRich, Ops.UpsertAll, ClosedConversation;
      LoadSound(View(), msgs, subs.bufSize);
      NoMore(subs.history);
      if |msgs| > 0 {
        Ops.SoundSaved(View());
        var stream := |msgs| <= subs.bufSize / 4;
        UpsertMessages(msgs, stream);
        stored := stored.SetSeq(epoch, number);
        if !stream {
          subs.EndConversation();
        }
      }
    }

    method UpsertOne(msg: RichMessage, stream: bool) returns (ghost event: Event)
      requires tracker.View().Ok() && Aligned(View().c) && Spec.Upserted(View(), msg, true).id == msg.id
      requires subs.Valid() && subs.high <= number
      modifies this`rich, this`richSeq, this`richIndex, this`number, this`stored, subs`chans, subs`closed, subs`history,
        subs`high
      ensures (View(), [event]) == Spec.UpsertRich(old(View()), msg, true) && subs.Valid() && subs.high <= number
      ensures subs.history == old(subs.history) + if stream then [event] else []
      ensures !stream ==> subs.chans == old(subs.chans) && subs.closed == old(subs.closed)
    {
      hide Subscriptions.Valid, Spec.Upserted, PutRich, Aligned;
      NoMore(subs.history);
      var put := UpsertRich(msg, true);
      event := Update(RichKey(msg.id), RichValue(put), number);
      if stream {
        subs.Notify(Update(RichKey(msg.id), RichValue(put), number));
      }
    }

    method UpsertMessages(msgs: seq<RichMessage>, stream: bool)
      requires Spec.Sound(Spec.Saved(View())) && View().t.Ok() && Aligned(View().c) && subs.Valid()
      requires subs.high <= number
      modifies this`rich, this`richSeq, this`richIndex, this`number, this`stored, subs`chans, subs`closed, subs`history,
        subs`high
      ensures View() == Ops.UpsertAll(old(View()), msgs).0 && subs.Valid() && subs.high <= number
      ensures subs.history == old(subs.history) + (if stream then Ops.UpsertAll(old(View()), msgs).1 else [])
      ensures !stream ==> subs.chans == old(subs.chans) && subs.closed == old(subs.closed)
    {
      hide Spec.Sound, Tidy, Aligned, Subscriptions.Valid, Spec.Upserted, Ops.UpsertAll, PutRich;
      ghost var all := Ops.UpsertAll(View(), msgs);
      ghost var sent: seq<Event> := [];
      NoMore(subs.history);
      var i := 0;
      assert msgs[0..] == msgs && sent + all.1 == all.1;
      while i < |msgs|
        invariant 0 <= i <= |msgs| && Spec.Sound(Spec.Saved(View())) && View().t.Ok() && Aligned(View().c)
        invariant subs.Valid() && subs.high <= number
        invariant Ops.UpsertAll(View(), msgs[i..]).0 == all.0 && sent + Ops.UpsertAll(View(), msgs[i..]).1 == all.1
        invariant subs.history == old(subs.history) + (if stream then sent else [])
        invariant !stream ==> subs.chans == old(subs.chans) && subs.closed == old(subs.closed)
      {
        ghost var s := View();
        LoadNext(s, msgs[i..], sent);
        assert msgs[i..][0] == msgs[i] && msgs[i..][1..] == msgs[i + 1..];
        ghost var event := UpsertOne(msgs[i], stream);
        Concat(old(subs.history), sent, [event]);
        sent := sent + [event];
        i := i + 1;
      }
      assert msgs[i..] == [];
      LoadedAll(View(), sent);
    }

    // ---- Requests ----

    /** Drops the requests at the positions given, which increase: each is at its position
        less those dropped before it. */
    method TrimRequests(dropped: seq<int>)
      requires Ops.Ascending(dropped, |requests|) && |requestSeq| == |requests|
      modifies this`requests, this`requestSeq, this`stored
      ensures requests == Ops.Kept(old(requests), dropped) && requestSeq == Ops.Kept(old(requestSeq), dropped)
      ensures stored == Ops.DeleteAll(old(stored), old(requests), dropped)
    {
      hide Ops.Dropped, Ops.Kept, Ops.Reached;
      Ops.DropFirst(requests, dropped);
      Ops.DropFirst(requestSeq, dropped);
      var n := 0;
      while n < |dropped|
        invariant 0 <= n <= |dropped|
        invariant Ops.Dropped(old(requests), requests, dropped, n)
        invariant Ops.Dropped(old(requestSeq), requestSeq, dropped, n)
        invariant stored == Ops.DeleteAll(old(stored), old(requests), dropped[..n])
      {
        Ops.DropNext(old(requests), requests, dropped, n);
        Ops.DropNext(old(requestSeq), requestSeq, dropped, n);
        assert dropped[..n + 1][..n] == dropped[..n];
        // Ascending: those dropped so far were all before it.
        var i := dropped[n] - n;
        stored := stored.DeleteRequest(requests[i].id);
        requests := requests[..i] + requests[i + 1..];
        requestSeq := requestSeq[..i] + requestSeq[i + 1..];
        n := n + 1;
      }
      assert dropped[..n] == dropped;
      Ops.DropLast(old(requests), requests, dropped);
      Ops.DropLast(old(requestSeq), requestSeq, dropped);
    }

    /** Drops the closed requests beyond those kept. */
    method TrimExcess() returns (ghost dropped: seq<int>)
      requires |requestSeq| == |requests|
      modifies this`requests, this`requestSeq, this`stored
      ensures Ops.Excess(old(requests), dropped) && Ops.Ascending(dropped, |old(requests)|)
      ensures requests == Ops.Kept(old(requests), dropped) && requestSeq == Ops.Kept(old(requestSeq), dropped)
      ensures stored == Ops.DeleteAll(old(stored), old(requests), dropped)
    {
      hide Ops.Kept, Ops.DeleteAll;
      var excess := Trimming.ExcessClosed(requests);
      TrimRequests(excess);
      dropped := excess;
    }

    /** Where the request with the ID is, or -1. */
    method FindPlace(id: string) returns (i: int)
      ensures i == FindRequest(requests, id)
    {
      i := 0;
      while i < |requests|
        invariant 0 <= i <= |requests|
        invariant FindRequest(requests, id) == if FindRequest(requests[i..], id) < 0 then -1
          else i + FindRequest(requests[i..], id)
      {
        if requests[i].id == id {
          return;
        }
        assert requests[i..][1..] == requests[i + 1..];
        i := i + 1;
      }
      i := -1;
    }

    method PutRequestAt(r: RequestState, i: int)
      requires |requestSeq| == |requests| && i == FindRequest(requests, r.id)
      modifies this`requests, this`requestSeq, this`number, this`stored
      ensures number == old(number) + 1 && stored == old(stored).PutRequest(r, number).SetSeq(epoch, number)
      ensures requests == if i >= 0 then old(requests)[i := r] else old(requests) + [r]
      ensures requestSeq == if i >= 0 then old(requestSeq)[i := number] else old(requestSeq) + [number]
    {
      number := number + 1;
      if i >= 0 {
        requests, requestSeq := requests[i := r], requestSeq[i := number];
      } else {
        requests, requestSeq := requests + [r], requestSeq + [number];
      }
      stored := stored.PutRequest(r, number);
      stored := stored.SetSeq(epoch, number);
    }

    /** Stores the request's state under the next number, at position i or at the end, and
        drops the closed requests beyond those kept. */
    method StoreRequest(r: RequestState, i: int) returns (ghost dropped: seq<int>)
      requires |requestSeq| == |requests| && i == FindRequest(requests, r.id)
      modifies this`requests, this`requestSeq, this`number, this`stored
      ensures Trims(old(View()), r, dropped)
      ensures View() == Ops.StoreRequest(old(View()), r, dropped) && number == old(number) + 1
    {
      hide Ops.Ascending, Ops.Excess, Ops.Kept, Ops.DeleteAll;
      ghost var s := View();
      PutRequestAt(r, i);
      ghost var c := View().c;
      assert c == PutRequest(s.c, r, number);
      PutLengths(s.c, r, number);
      dropped := TrimExcess();
      assert View().c == Ops.DropRequests(c, dropped);
    }

    /** Stores a request's latest state and sends it, with the status if the number of pending
        ones changed. dropped are the closed requests beyond those kept. */
    method EmitRequest(r: RequestState, now: int) returns (ghost dropped: seq<int>)
      requires Valid()
      modifies this`requests, this`requestSeq, this`number, this`stored, this`taskSeq
      modifies tracker`tasks, tracker`open, tracker`ran, tracker`status
      modifies subs`chans, subs`closed, subs`history, subs`high
      ensures Valid() && old(View()).t.Ok() && InPlace(old(View()), r, dropped)
      ensures FindRequest(old(requests), r.id) >= 0 || r.pending ==> Trims(old(View()), r, dropped)
      ensures var x := Ops.EmitRequest(old(View()), r, dropped, now);
        View() == x.0 && subs.history == old(subs.history) + x.1
    {
      hide Spec.Sound, Tidy, Subscriptions.Valid, Ops.StoreRequest, Ops.EmitRequest, Spec.NotifyStatus, Trims,
        Ops.Ascending, PutRequest, Spec.Pending;
      ghost var s := View();
      NoMore(subs.history);
      RequestLengths(s);
      var before := Spec.Pending(requests);
      var i := FindPlace(r.id);
      dropped := [];
      if i < 0 && !r.pending {
        DropsNone(s, r);
        RequestIs(s, r, dropped, now);
        return;
      }
      dropped := StoreRequest(r, i);
      TrimsInPlace(s, r, dropped);
      RequestSound(s, r, dropped, now);
      RequestIs(s, r, dropped, now);
      var event := Update(RequestKey(r.id), RequestValue(r), number);
      subs.Notify(event);
      if Spec.Pending(requests) != before {
        Concat(old(subs.history), [event], Spec.NotifyStatus(View(), now).1);
        PublishStatus(now);
      }
    }

    // ---- Messages ----

    /** Where the IDs stop matching. */
    method FindCut(now: seq<Message>) returns (cut: nat)
      ensures cut == Messaging.CutFrom(messages, now, 0) && cut <= |messages|
    {
      cut := 0;
      while cut < |messages| && cut < |now| && messages[cut].id == now[cut].id
        invariant cut <= |messages| && cut <= |now|
        invariant Messaging.CutFrom(messages, now, cut) == Messaging.CutFrom(messages, now, 0)
      {
        cut := cut + 1;
      }
    }

    /** Numbers and stores message i, if it changed, and sends it unless messages were removed. */
    method PutMessage(now: seq<Message>, i: nat, removed: bool) returns (changed: bool)
      requires i < |now| && subs.Valid() && subs.high <= number
      modifies this`number, this`stored, subs`chans, subs`closed, subs`history, subs`high
      ensures changed == MessageChanged(messages, now, i) && number == old(number) + (if changed then 1 else 0)
      ensures stored == if changed then old(stored).PutMessage(now[i], number) else old(stored)
      ensures subs.Valid() && subs.high <= number
      ensures subs.history == old(subs.history) + if changed && !removed then [MessageEvent(now, i, number)] else []
      ensures removed ==> subs.chans == old(subs.chans) && subs.closed == old(subs.closed)
    {
      hide Subscriptions.Valid;
      NoMore(subs.history);
      changed := i >= |messages| || messages[i] != now[i];
      if changed {
        number := number + 1;
        stored := stored.PutMessage(now[i], number);
        if !removed {
          subs.Notify(MessageEvent(now, i, number));
        }
      }
    }

    /** Numbers, stores and sends the messages that changed; from is the first of them. */
    method PutMessages(now: seq<Message>, removed: bool) returns (numbers: seq<nat>, from: nat)
      requires |messageSeq| == |messages| && subs.Valid() && subs.high <= number
      modifies this`number, this`stored, subs`chans, subs`closed, subs`history, subs`high
      ensures numbers == Messaging.MessageNumbers(messages, now, messageSeq, old(number))
      ensures number == old(number) + ChangedCount(messages, now, |now|)
      ensures stored == Messaging.PutMessages(old(stored), messages, now, |now|, old(number))
      ensures subs.Valid() && subs.high <= number
      ensures subs.history == old(subs.history) + if removed then []
        else MessageEvents(messages, now, |now|, old(number))
      ensures removed ==> subs.chans == old(subs.chans) && subs.closed == old(subs.closed)
      ensures from <= |now| && forall i :: 0 <= i < from ==> !MessageChanged(messages, now, i)
    {
      hide Subscriptions.Valid, MessageEvents;
      NoMore(subs.history);
      NoMessageEvents(messages, now, number);
      from := |now|;
      numbers := [];
      var i := 0;
      while i < |now|
        invariant 0 <= i <= |now| && |numbers| == i && subs.Valid() && subs.high <= number
        invariant number == old(number) + ChangedCount(messages, now, i)
        invariant forall j :: 0 <= j < i ==> numbers[j] == MessageNumber(messages, now, messageSeq, old(number), j)
        invariant stored == Messaging.PutMessages(old(stored), messages, now, i, old(number))
        invariant subs.history == old(subs.history) + if removed then []
          else MessageEvents(messages, now, i, old(number))
        invariant removed ==> subs.chans == old(subs.chans) && subs.closed == old(subs.closed)
        invariant from == |now| || from < i
        invariant forall j :: 0 <= j < i && j < from ==> !MessageChanged(messages, now, j)
      {
        NextMessageEvent(messages, now, i, old(number));
        ghost var sent := if removed then [] else MessageEvents(messages, now, i, old(number));
        var changed := PutMessage(now, i, removed);
        Concat(old(subs.history), sent, if changed && !removed then [MessageEvent(now, i, number)] else []);
        if changed {
          numbers := numbers + [number];
          from := if i < from then i else from;
        } else {
          numbers := numbers + [messageSeq[i]];
        }
        i := i + 1;
      }
    }

    /** The messages and what the tracker derives from them; when some were removed, the tasks
        that no message owns any more have no number. */
    method SetMessages(now: seq<Message>, numbers: seq<nat>, from: nat, removed: bool) returns (changed: seq<int>)
      requires tracker.Valid() && TaskTheorems.Agree(tracker.last, now, from)
      modifies this`messages, this`messageSeq, this`taskSeq, tracker
      ensures tracker.Valid() && tracker.last == now && messages == now && messageSeq == numbers
      ensures (tracker.View(), changed) == Derive(old(tracker.View()), now)
      ensures taskSeq == if removed then map id | id in old(taskSeq) && id in tracker.owners :: old(taskSeq)[id]
        else old(taskSeq)
    {
      hide Tidy, Derive;
      messages, messageSeq := now, numbers;
      changed := tracker.Take(now, from);
      if removed {
        taskSeq := map id | id in taskSeq && id in tracker.owners :: taskSeq[id];
      }
    }

    /** The tracker takes the messages, which are stored and numbered already. */
    method TakeMessages(now: seq<Message>, numbers: seq<nat>, from: nat, removed: bool, ghost s: State)
        returns (changed: seq<int>)
      requires tracker.Valid() && s.t.Ok() && |s.c.messageSeq| == |s.c.messages|
      requires TaskTheorems.Agree(tracker.last, now, from)
      requires numbers == Messaging.MessageNumbers(s.c.messages, now, s.c.messageSeq, s.number)
      requires View() == s.(number := s.number + ChangedCount(s.c.messages, now, |now|), stored := stored)
      modifies this`messages, this`messageSeq, this`taskSeq, tracker
      ensures tracker.Valid() && tracker.last == now && InRange(changed, tracker.tasks)
      ensures Spec.StoreTasks(View(), changed) == Messaging.TakeMessages(s, now, removed, old(stored))
      ensures messages == now
    {
      hide Tidy, Derive, Spec.StoreTasks, Messaging.TakeMessages, ChangedCount, Messaging.MessageNumbers,
        TaskTracker.Valid;
      changed := SetMessages(now, numbers, from, removed);
      TakenIs(s, now, removed, stored, tracker.View(), changed);
      assert View() == WithTracker(s, now, removed, stored, tracker.View());
    }

    /** Stores, numbers and sends the messages that changed, and derives the tasks from all. */
    method StoreMessages(now: seq<Message>, ghost s: State) returns (removed: bool, changed: seq<int>)
      requires tracker.Valid() && tracker.last == messages && s == View() && s.t.Ok()
      requires |s.c.messageSeq| == |s.c.messages|
      requires subs.Valid() && subs.high <= number
      modifies this`messages, this`messageSeq, this`taskSeq, this`number, this`stored, tracker
      modifies subs`chans, subs`closed, subs`history, subs`high
      ensures tracker.Valid() && tracker.last == messages && InRange(changed, View().c.tasks) && subs.Valid()
      ensures subs.high <= number
      ensures
        && removed == Removes(s, now) && Spec.StoreTasks(View(), changed) == Taken(s, now)
        && subs.history == old(subs.history) + if removed then [] else MessageEvents(s.c.messages, now, |now|, s.number)
      ensures removed ==> subs.chans == old(subs.chans) && subs.closed == old(subs.closed)
    {
      hide Tidy, Subscriptions.Valid, Messaging.TakeMessages, Messaging.PutMessages, MessageEvents, Spec.StoreTasks,
        ChangedCount, Messaging.MessageNumbers;
      var cut := FindCut(now);
      removed := cut < |messages|;
      if removed {
        stored := stored.TruncateMessages(messages[cut].id);
      }
      var numbers, from := PutMessages(now, removed);
      FromAgrees(messages, now, from);
      changed := TakeMessages(now, numbers, from, removed, s);
    }

    /** Stores the tasks at the positions changed, and starts an epoch: the subscriptions to
        the conversation end. */
    method Resync(changed: seq<int>)
      requires InRange(changed, tracker.tasks) && subs.Valid() && subs.high <= number
      modifies this`taskSeq, this`number, this`epoch, this`stored, subs`chans, subs`closed, subs`history
      ensures var r := Spec.StoreTasks(old(View()), changed).0; View() == Spec.Saved(r.(epoch := r.epoch + 1))
      ensures subs.history == old(subs.history) + [Ended]
      ensures subs.Valid() && subs.high <= number
      ensures ClosedConversation(old(subs.chans), subs.chans, old(subs.closed), subs.closed, subs.next)
    {
      hide Subscriptions.Valid, ClosedConversation, Spec.StoreTasks;
      var updates := StoreTasks(changed);
      StoredNumberGrows(old(View()), changed);
      epoch := epoch + 1;
      stored := stored.SetSeq(epoch, number);
      subs.EndConversation();
    }

    /** Stores and sends the tasks at the positions changed. */
    method PublishTasks(changed: seq<int>)
      requires InRange(changed, tracker.tasks) && subs.Valid() && subs.high <= number
      modifies this`taskSeq, this`number, this`stored, subs`chans, subs`closed, subs`history, subs`high
      ensures var r := Spec.StoreTasks(old(View()), changed);
        View() == Spec.Saved(r.0) && subs.history == old(subs.history) + r.1
      ensures subs.Valid() && subs.high <= number
    {
      hide Subscriptions.Valid;
      ChangeTasks(changed);
      stored := stored.SetSeq(epoch, number);
    }

    method EndChange(changed: seq<int>, removed: bool)
      requires InRange(changed, View().c.tasks) && subs.Valid() && subs.high <= number
      modifies this`taskSeq, this`number, this`epoch, this`stored, subs`chans, subs`closed, subs`history, subs`high
      ensures var r := Spec.StoreTasks(old(View()), changed);
        && View() == Spec.Saved(if removed then r.0.(epoch := r.0.epoch + 1) else r.0)
        && subs.history == old(subs.history) + if removed then [Ended] else r.1
      ensures subs.Valid() && subs.high <= number
      ensures removed ==> ClosedConversation(old(subs.chans), subs.chans, old(subs.closed), subs.closed, subs.next)
    {
      hide Subscriptions.Valid, ClosedConversation, Spec.StoreTasks, Spec.Saved;
      NoMore(subs.history);
      if removed {
        Resync(changed);
      } else {
        PublishTasks(changed);
      }
    }

    method ReplaceMessages(now: seq<Message>, ghost s: State, ghost chans: map<int, Sub>, ghost closed: map<int,
        seq<Event>>)
      requires tracker.Valid() && tracker.last == messages && s == View() && s.t.Ok()
      requires |s.c.messageSeq| == |s.c.messages|
      requires subs.Valid() && subs.high <= number && chans == subs.chans && closed == subs.closed
      modifies this`messages, this`messageSeq, this`taskSeq, this`number, this`epoch, this`stored, tracker
      modifies subs`chans, subs`closed, subs`history, subs`high
      ensures tracker.Valid() && tracker.last == messages && subs.Valid() && subs.high <= number
      ensures var r := Messaging.EmitMessages(s, now);
        View() == r.0 && subs.history == old(subs.history) + if r.2 then [Ended] else r.1
      ensures Removes(s, now) ==> ClosedConversation(chans, subs.chans, closed, subs.closed, subs.next)
    {
      hide View, TaskTracker.Valid, Tracker.Ok, TaskTracker.View, Subscriptions.Valid, Messaging.EmitMessages, Taken,
        Removes, MessageEvents, Spec.Saved, ClosedConversation, Spec.StoreTasks, ChangedCount;
      MessagesAre(s, now);
      NoMore(subs.history);
      ghost var first := MessageEvents(s.c.messages, now, |now|, s.number);
      var removed, changed := StoreMessages(now, s);
      Concat(old(subs.history), first, Spec.StoreTasks(View(), changed).1);
      EndChange(changed, removed);
    }

    /** The conversation's messages after a change; IDs are places, and a message keeps its role
        and time. Messages that changed and their tasks are sent. When some were taken back, which
        updates can't say, the conversation gets a new epoch and the subscriptions to it end. */
    method EmitMessages(now: seq<Message>)
      requires Valid() && SameStart(messages, now)
      modifies this`messages, this`messageSeq, this`taskSeq, this`number, this`epoch, this`stored, tracker
      modifies subs`chans, subs`closed, subs`history, subs`high
      ensures Valid() && old(View()).t.Ok() && |old(View()).c.messageSeq| == |old(View()).c.messages|
      ensures var r := Messaging.EmitMessages(old(View()), now);
        && View() == r.0 && subs.history == old(subs.history) + (if r.2 then [Ended] else r.1)
        && (r.2 ==> ClosedConversation(old(subs.chans), subs.chans, old(subs.closed), subs.closed, subs.next))
    {
      hide Spec.Sound, Tidy, Subscriptions.Valid, Messaging.EmitMessages, Removes, ClosedConversation, SameStart;
      MessagesSound(View(), now);
      MessagesAre(View(), now);
      ReplaceMessages(now, View(), subs.chans, subs.closed);
    }

    // ---- Starting over ----

    /** Clears the conversation. Clients are told its new epoch; the caller clears the queue next. */
    method Reset(now: int)
      requires Valid()
      modifies this`messages, this`messageSeq, this`rich, this`richSeq, this`richIndex, this`requests, this`requestSeq,
        this`taskSeq
      modifies this`epoch, this`stored, this`stale, tracker, subs`chans, subs`closed, subs`history, subs`high
      ensures Valid()
      ensures var r := Restarting.Clear(old(View()), now); View() == r.0 && subs.history == old(subs.history) + r.1
    {
      hide Spec.Sound, Tidy, Subscriptions.Valid, Tasks.Reset, Restarting.Emptied;
      ClearSound(View(), now);
      StartNew(now);
      subs.Notify(Synced(epoch));
    }

    method StartNew(now: int)
      requires tracker.Valid()
      modifies this`messages, this`messageSeq, this`rich, this`richSeq, this`richIndex, this`requests, this`requestSeq,
        this`taskSeq
      modifies this`epoch, this`stored, this`stale, tracker
      ensures View() == Restarting.Clear(old(View()), now).0
      ensures tracker.Valid() && tracker.last == messages
    {
      hide TaskTracker.Valid, Tasks.Reset, Restarting.Emptied;
      ClearLists(now);
      BeginEpoch();
    }

    method ClearLists(now: int)
      requires tracker.Valid()
      modifies this`messages, this`messageSeq, this`rich, this`richSeq, this`richIndex, this`requests, this`requestSeq,
        this`taskSeq
      modifies tracker
      ensures View().c == Restarting.Emptied(old(View()).c) && tracker.View() == Tasks.Reset(old(tracker.View()), now)
      ensures tracker.Valid() && tracker.last == messages
    {
      hide Tidy, Tasks.Reset;
      ResetsTasks(tracker.View(), now);
      EmptyLists();
      tracker.StartOver(now);
    }

    method BeginEpoch()
      modifies this`epoch, this`stored, this`stale
      ensures epoch == old(epoch) + 1 && stored == old(stored).Reset(epoch) && stale
    {
      epoch := epoch + 1;
      stored := stored.Reset(epoch);
      stale := true;
    }

    method EmptyLists()
      modifies this`messages, this`messageSeq, this`rich, this`richSeq, this`richIndex, this`requests, this`requestSeq,
        this`taskSeq
      ensures messages == [] && messageSeq == [] && rich == [] && richSeq == [] && richIndex == map[]
      ensures requests == [] && requestSeq == [] && taskSeq == map[]
    {
      messages, messageSeq := [], [];
      rich, richSeq, richIndex := [], [], map[];
      requests, requestSeq := [], [];
      taskSeq := map[];
    }

    /** Gives the tasks that were taken back the numbers they had, and deletes those that
        were not, whose message is gone. */
    method TakeNumbers(tasks: seq<Task>, numbers: map<int, nat>)
      requires tracker.View().Ok()
      modifies this`taskSeq, this`stored
      ensures taskSeq == Restarting.TakenNumbers(tracker.View(), tasks, numbers, |tasks|)
      ensures stored == Restarting.WithoutGone(old(stored), tracker.View(), tasks, |tasks|)
    {
      taskSeq := map[];
      for i := 0 to |tasks|
        invariant taskSeq == Restarting.TakenNumbers(tracker.View(), tasks, numbers, i)
        invariant stored == Restarting.WithoutGone(old(stored), tracker.View(), tasks, i)
      {
        var id := tasks[i].id;
        if id in tracker.owners && tracker.tasks[tracker.owners[id]].id == id {
          if id in numbers {
            taskSeq := taskSeq[id := numbers[id]];
          }
        } else {
          stored := stored.DeleteTask(id);
        }
      }
    }

    method IndexRich() returns (index: map<RichId, int>)
      ensures index == Restarting.IndexOf(rich)
    {
      index := map[];
      for i := 0 to |rich|
        invariant index == Restarting.IndexOf(rich[..i])
      {
        assert rich[..i + 1][..i] == rich[..i];
        index := index[rich[i].id := i];
      }
      assert rich[..|rich|] == rich;
    }

    method LoadLists(load: Conv, db: Stored)
      modifies this`messages, this`messageSeq, this`rich, this`richSeq, this`richIndex, this`requests, this`requestSeq
      modifies this`epoch, this`number, this`stored, this`stale
      ensures messages == load.messages && messageSeq == load.messageSeq && rich == load.rich && richSeq == load.richSeq
      ensures richIndex == Restarting.IndexOf(load.rich) && requests == load.requests && requestSeq == load.requestSeq
      ensures epoch == db.epoch && number == db.number && stored == db && stale
    {
      hide Restarting.IndexOf;
      stale := true;
      epoch, number, stored := db.epoch, db.number, db;
      messages, messageSeq := load.messages, load.messageSeq;
      rich, richSeq := load.rich, load.richSeq;
      richIndex := IndexRich();
      requests, requestSeq := load.requests, load.requestSeq;
    }

    /** The tasks that were stored, and which of them were over only now. */
    method LoadTasks(load: Conv, now: int) returns (changed: seq<int>)
      requires messages == load.messages
      modifies this`taskSeq, this`stored, tracker
      ensures (tracker.View(), changed) == Tasks.Restore(old(tracker.View()), load.tasks, load.messages, now)
      ensures tracker.View().Ok()
      ensures taskSeq == Restarting.TakenNumbers(tracker.View(), load.tasks, load.taskSeq, |load.tasks|)
      ensures stored == Restarting.WithoutGone(old(stored), tracker.View(), load.tasks, |load.tasks|)
      ensures tracker.last == messages
    {
      hide Tasks.Restore, Restarting.TakenNumbers, Restarting.WithoutGone, Tidy;
      changed := tracker.TakeBack(load.tasks, messages, now);
      TakeNumbers(load.tasks, load.taskSeq);
    }

    method LoadState(load: Conv, db: Stored, now: int) returns (changed: seq<int>)
      modifies this, tracker
      ensures (tracker.View(), changed) == Tasks.Restore(old(tracker.View()), load.tasks, load.messages, now)
      ensures tracker.View().Ok()
      ensures View() == RestoredState(old(View()), load, db, tracker.View())
      ensures number == db.number && tracker.last == messages
    {
      hide Tasks.Restore, Restarting.TakenNumbers, Restarting.WithoutGone, Restarting.IndexOf, Tidy;
      ghost var s := View();
      LoadLists(load, db);
      changed := LoadTasks(load, now);
      assert View().c == RestoredState(s, load, db, tracker.View()).c;
    }

    method RestoreState(load: Conv, db: Stored, now: int)
      requires subs.Valid() && subs.high == 0
      modifies this, tracker, subs`chans, subs`closed, subs`history, subs`high
      ensures var r := Restarting.Restore(old(View()), load, db, now);
        View() == r.0 && subs.history == old(subs.history) + r.1
      ensures subs.Valid() && subs.high <= number && tracker.last == messages
    {
      hide Subscriptions.Valid, Tasks.Restore, Spec.StoreTasks, Tidy, RestoredState, TaskEvents;
      ghost var s := View();
      var changed := LoadState(load, db, now);
      RestoredIs(s, load, db, now, tracker.View(), changed);
      ChangeTasks(changed);
      EndHistory();
    }

    /** What was restored is history: it ends just after its last message. */
    method EndHistory()
      modifies tracker`since
      ensures tracker.since == Restarting.SinceAfter(old(tracker.since), messages)
    {
      if |messages| > 0 && messages[|messages| - 1].time >= tracker.since {
        tracker.since := messages[|messages| - 1].time + 1;
      }
    }

    /** The conversation that was stored, before anyone subscribes: what ran is over. The queue comes
        later. With what an emitter in the state was stored, the new one is as sound. */
    method Restore(load: Conv, db: Stored, now: int, ghost was: State)
      requires subs.Valid() && subs.high == 0
      modifies this, tracker, subs`chans, subs`closed, subs`history, subs`high
      ensures var r := Restarting.Restore(old(View()), load, db, now);
        View() == r.0 && subs.history == old(subs.history) + r.1
      ensures subs.Valid() && Stores(was, db, load) && old(View()).c.queue == [] && old(View()).c.queueSeq == 0 ==>
        Valid()
    {
      hide Subscriptions.Valid, Stores, Spec.Sound, Tidy, Restarting.Restore;
      RestoredSound(was, View(), load, db, now);
      RestoreState(load, db, now);
    }

    // ---- Subscriptions ----

    /** A new subscription to the events wanted, for a client that is at the change since of
        the epoch: replay holds what changed later, or everything when full, up to the change
        upTo; the channel gets what comes after. */
    method SubscribeTo(wants: set<Kind>, since: nat, epoch: nat)
        returns (id: int, full: bool, upTo: nat, replay: seq<Event>)
      requires Valid()
      modifies subs`chans, subs`next, subs`high, subs`began, subs`got
      ensures Valid() && Aligned(View().c) && Replaying.InStep(View().c)
      ensures full == FullReplay(Client(epoch, since, map[]), Spec.Seen(View()))
      ensures replay == Replaying.ReplayOf(View().c, if full then 0 else since, wants)
      ensures upTo == Replaying.Highest(replay, if full then 0 else since) <= number
      ensures id == old(subs.next) && id !in old(subs.chans) && subs.chans == old(subs.chans)[id := Sub(wants, [])]
      ensures subs.began == old(subs.began)[id := Start(|subs.history|, number, wants)]
      ensures subs.got == old(subs.got)[id := []]
    {
      hide Spec.Sound, Tidy, Subscriptions.Valid, Replaying.ReplayOf, Replaying.Highest, Aligned, Data;
      SoundInStep(View());
      full := epoch != this.epoch || since == 0 || since > number;
      var from := if full then 0 else since;
      var lists := Conv(messages, messageSeq, rich, richSeq, richIndex, requests, requestSeq, tracker.tasks, taskSeq,
        queue, queueSeq);
      replay := Replaying.Build(lists, from, wants);
      upTo := Replaying.HighestNumber(replay, from);
      ReplayUpTo(View(), from, wants);
      id := subs.Subscribe(wants, number);
    }
  }
}
