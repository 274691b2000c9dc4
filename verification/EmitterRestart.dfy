/** The emitter's conversation after it was cleared, and after a restart with what was stored of it. */
module EmitterRestart {
  import opened Options
  import opened Conversation
  import opened Tasks
  import opened TaskFacts
  import opened TaskTheorems
  import opened TaskRuns
  import opened TaskChanges
  import opened Replication
  import opened ConversationState
  import opened ConversationSteps
  import opened StateStore
  import opened EmitterSpec
  import opened EmitterOps

  // ---- Clearing the conversation ----

  function Emptied(c: Conv): Conv {
    Conv([], [], [], [], map[], [], [], [], map[], c.queue, c.queueSeq)
  }

  /** Clears the conversation; connected clients are told its new epoch. */
  function Clear(s: State, now: int): (r: (State, seq<Event>)) {
    var epoch := s.epoch + 1;
    (s.(c := Emptied(s.c), t := Tasks.Reset(s.t, now), epoch := epoch, stored := s.stored.Reset(epoch), stale := true),
      [Synced(epoch)])
  }

  lemma {:induction false} ClearClears(s: State, now: int)
    requires Sound(s)
    ensures var (r, events) := Clear(s, now);
      Sound(r) && Aligned(s.c) && Aligned(r.c) && Cleared(Seen(s), Seen(r)) && events == [Synced(r.epoch)]
  {
    var (r, events) := Clear(s, now);
    OkAligned(s.c, s.number);
    NextKeepsTidy(s.t, s.c.messages, TaskRuns.StartOver(now));
    forall k | k in Data(r.c) ensures k.QueueKey? {
      DataAt(r.c, k);
    }
    StoreOk(r.c, r.number, r.epoch, r.stale);
  }

  // ---- Restoring it ----

  /** The tasks before position n the tracker has, with their numbers. */
  function TakenNumbers(t: Tracker, tasks: seq<Task>, numbers: map<int, nat>, n: nat): map<int, nat>
    requires n <= |tasks| && t.Ok()
  {
    if n == 0 then map[]
    else
      var front := TakenNumbers(t, tasks, numbers, n - 1);
      var id := tasks[n - 1].id;
      if id in t.owners && t.tasks[t.owners[id]].id == id && id in numbers then front[id := numbers[id]] else front
  }

  /** The store without the tasks before position n whose message is gone. */
  function WithoutGone(s: Stored, t: Tracker, tasks: seq<Task>, n: nat): Stored
    requires n <= |tasks| && t.Ok()
  {
    if n == 0 then s
    else
      var front := WithoutGone(s, t, tasks, n - 1);
      var id := tasks[n - 1].id;
      if id in t.owners && t.tasks[t.owners[id]].id == id then front else front.DeleteTask(id)
  }

  function IndexOf(rich: seq<RichMessage>): map<RichId, int> {
    if |rich| == 0 then map[] else IndexOf(rich[..|rich| - 1])[rich[|rich| - 1].id := |rich| - 1]
  }

  /** When tasks of history end: just after the last message there was. */
  function SinceAfter(since: int, messages: seq<Message>): int {
    if |messages| > 0 && messages[|messages| - 1].time >= since then messages[|messages| - 1].time + 1 else since
  }

  /** The state with what was loaded from the store: a task that ran is over. The queue comes later. */
  function Restore(s: State, load: Conv, db: Stored, now: int): (r: (State, seq<Event>)) {
    EndRunningRange(s.t, load.tasks, load.messages, now);
    var (t, changed) := Tasks.Restore(s.t, load.tasks, load.messages, now);
    var c := load.(richIndex := IndexOf(load.rich), tasks := t.tasks,
      taskSeq := TakenNumbers(t, load.tasks, load.taskSeq, |load.tasks|), queue := s.c.queue, queueSeq := s.c.queueSeq);
    var stored := WithoutGone(db, t, load.tasks, |load.tasks|);
    var (r, events) := StoreTasks(s.(c := c, t := t, epoch := db.epoch, number := db.number, stored := stored,
      stale := true), changed);
    (r.(t := r.t.(since := SinceAfter(r.t.since, load.messages))), events)
  }

  /** The tasks EndRunning changes are those it says. */
  lemma {:induction false} EndRunningOnly(t: Tracker, i: nat, now: int, changed: seq<int>)
    requires i <= |t.tasks| && InRange(changed, t.tasks)
    ensures var (r, c) := EndRunning(t, i, now, changed);
      && SameShape(t.tasks, r.tasks) && InRange(c, r.tasks)
      && (forall j :: j in changed ==> j in c)
      && (forall j :: 0 <= j < |t.tasks| && j !in c ==> r.tasks[j] == t.tasks[j])
    decreases |t.tasks| - i
  {
    if i < |t.tasks| {
      if t.tasks[i].Final() {
        EndRunningOnly(t, i + 1, now, changed);
      } else {
        EndShape(t, i, now);
        EndRunningOnly(End(t, i, now), i + 1, now, changed + [i]);
        assert i in changed + [i];
        assert forall j :: j in changed ==> j in changed + [i];
      }
    }
  }

  lemma {:induction false} EndRunningRange(t: Tracker, tasks: seq<Task>, msgs: seq<Message>, now: int)
    ensures var (r, changed) := Tasks.Restore(t, tasks, msgs, now); InRange(changed, r.tasks)
  {
    EndRunningOnly(Restored(t, tasks, msgs), 0, now, []);
  }

  lemma {:induction false} MatchingAllAt(tasks: seq<Task>, msgs: seq<Message>, at: map<int, int>)
    requires PositionsOk(at, msgs) && forall i :: 0 <= i < |tasks| ==> Matched(tasks[i], msgs, at)
    ensures Matching(tasks, msgs, at) == tasks
  {
    hide Matched, PositionsOk;
    if |tasks| > 0 {
      var n := |tasks| - 1;
      MatchingAllAt(tasks[..n], msgs, at);
      assert tasks == tasks[..n] + [tasks[n]];
    }
  }

  /** Every task whose message is there is taken back. */
  lemma {:induction false} MatchingAll(tasks: seq<Task>, msgs: seq<Message>)
    requires IdsArePlaces(msgs) && AllAnchored(tasks, msgs)
    ensures Matching(tasks, msgs, Positions(msgs)) == tasks
  {
    hide Anchored, IdsArePlaces, Matched, Matching;
    forall i | 0 <= i < |tasks| ensures Matched(tasks[i], msgs, Positions(msgs)) {
      MatchedIsAnchored(tasks[i], msgs);
    }
    MatchingAllAt(tasks, msgs, Positions(msgs));
  }

  /** The stored tasks: disjoint, each of a message that is there, and what they say fits how they ended. */
  ghost predicate Stops(tasks: seq<Task>, msgs: seq<Message>) {
    && Disjoint(tasks) && AllAnchored(tasks, msgs)
    && forall i :: 0 <= i < |tasks| ==> Fits(tasks[i])
  }

  lemma {:induction false} RestoredTasks(t: Tracker, tasks: seq<Task>, msgs: seq<Message>, now: int)
    requires IdsArePlaces(msgs) && Stops(tasks, msgs)
    ensures var (r, changed) := Tasks.Restore(t, tasks, msgs, now);
      Tidy(r, msgs) && OnlyAt(tasks, r.tasks, changed) && r.Ok()
  {
    MatchingAll(tasks, msgs);
    EndRunningOnly(Restored(t, tasks, msgs), 0, now, []);
    RestoreKeeps(t, tasks, msgs, now);
  }

  /** A task that was taken back is the one its message's owner is. */
  lemma {:induction false} OwnerOfTask(t: Tracker, tasks: seq<Task>, i: int)
    requires t.Ok() && Disjoint(t.tasks) && OwnersOk(t.tasks, t.owners) && SameShape(tasks, t.tasks) && 0 <= i < |tasks|
    ensures tasks[i].id in t.owners && t.tasks[t.owners[tasks[i].id]].id == tasks[i].id
  {
    var id := tasks[i].id;
    assert t.tasks[i].Holds(id);
    var p := t.owners[id];
    assert t.tasks[p].Holds(id);
    assert p == i;
  }

  /** No task that was stored is gone. */
  lemma {:induction false} NoneGone(s: Stored, t: Tracker, tasks: seq<Task>, numbers: map<int, nat>, n: nat)
    requires n <= |tasks| && t.Ok() && Disjoint(t.tasks) && OwnersOk(t.tasks, t.owners) && SameShape(tasks, t.tasks)
    requires forall i :: 0 <= i < |tasks| ==> tasks[i].id in numbers
    ensures WithoutGone(s, t, tasks, n) == s
    ensures var r := TakenNumbers(t, tasks, numbers, n);
      && (forall i :: 0 <= i < n ==> tasks[i].id in r)
      && (forall id :: id in r ==> id in numbers && r[id] == numbers[id])
  {
    hide Disjoint, OwnersOk, SameShape;
    if n > 0 {
      NoneGone(s, t, tasks, numbers, n - 1);
      OwnerOfTask(t, tasks, n - 1);
    }
  }

  // ---- A restart ----

  /** load is what was stored of a conversation, its lists in whatever order they were loaded. */
  ghost predicate Loaded(db: Stored, load: Conv) {
    && IsStored(db, load) && Ok(load, db.number) && load.richIndex == IndexOf(load.rich)
  }

  lemma {:induction false} LoadedTask(db: Stored, c: Conv, load: Conv, i: int)
    requires TasksStored(db.tasks, c.tasks, c.taskSeq) && TasksStored(db.tasks, load.tasks, load.taskSeq)
    requires 0 <= i < |load.tasks|
    ensures load.tasks[i] in c.tasks
  {
    var id := load.tasks[i].id;
    assert id in db.tasks;
    var j := FindTask(c.tasks, id);
    assert c.tasks[j].id == id;
  }

  /** Some of the tasks, in any order, are as disjoint and as anchored. */
  lemma {:induction false} SomeStop(t: Tracker, some: seq<Task>, msgs: seq<Message>)
    requires Disjoint(t.tasks) && Good(t) && AllAnchored(t.tasks, msgs) && DistinctTasks(some)
    requires forall i :: 0 <= i < |some| ==> some[i] in t.tasks
    ensures Stops(some, msgs)
  {
    forall i, j, id | 0 <= i < j < |some| && some[i].Holds(id) ensures !some[j].Holds(id) {
      var x :| 0 <= x < |t.tasks| && t.tasks[x] == some[i];
      var y :| 0 <= y < |t.tasks| && t.tasks[y] == some[j];
      assert some[i].id != some[j].id;
    }
  }

  /** The stored tasks are those the tracker had. */
  lemma {:induction false} StopsLoaded(s: State, load: Conv)
    requires Sound(s) && Loaded(s.stored, load)
    ensures load.messages == s.c.messages && Stops(load.tasks, load.messages)
  {
    hide RichOk, RequestsOk, RichStored, RequestsStored, MessagesStored, Stops, Good;
    SameMessages(s.stored.messages, s.c.messages, s.c.messageSeq, load.messages, load.messageSeq);
    LoadedAre(s, load);
    SomeStop(s.t, load.tasks, load.messages);
  }

  lemma {:induction false} LoadedAre(s: State, load: Conv)
    requires Sound(s) && Loaded(s.stored, load)
    ensures forall i :: 0 <= i < |load.tasks| ==> load.tasks[i] in s.c.tasks
    ensures Good(s.t) && Disjoint(s.c.tasks) && DistinctTasks(load.tasks)
  {
    forall i | 0 <= i < |load.tasks| ensures load.tasks[i] in s.c.tasks {
      LoadedTask(s.stored, s.c, load, i);
    }
  }

  /** The lists with the numbers of the tasks that were taken back, and without a queue. */
  function TakenBack(load: Conv, t: Tracker): Conv
    requires t.Ok()
  {
    load.(taskSeq := TakenNumbers(t, load.tasks, load.taskSeq, |load.tasks|), queue := [], queueSeq := 0)
  }

  lemma {:induction false} TakenBackOk(db: Stored, load: Conv, t: Tracker)
    requires Loaded(db, load) && t.Ok() && Disjoint(t.tasks) && OwnersOk(t.tasks, t.owners)
    requires SameShape(load.tasks, t.tasks)
    ensures WithoutGone(db, t, load.tasks, |load.tasks|) == db
    ensures Loaded(db, TakenBack(load, t))
  {
    hide RichOk, RequestsOk, MessagesOk, RichStored, RequestsStored, MessagesStored, OwnersOk, SameShape;
    NoneGone(db, t, load.tasks, load.taskSeq, |load.tasks|);
  }

  /** What was loaded is what clients follow, but for the queue. */
  lemma {:induction false} LoadedData(s: State, load: Conv)
    requires Sound(s) && Loaded(s.stored, load) && load.queueSeq == 0
    ensures Aligned(s.c) && Aligned(load) && Data(load) == Data(s.c) - {QueueKey}
  {
    hide Data, EntryAt;
    OkAligned(s.c, s.number);
    OkAligned(load, s.number);
    forall k ensures k in Data(load) <==> k in Data(s.c) - {QueueKey}
      ensures k in Data(load) ==> k in Data(s.c) && Data(load)[k] == Data(s.c)[k]
    {
      DataAt(s.c, k);
      DataAt(load, k);
      if k.QueueKey? {
        NoQueue(load);
      } else {
        SameStored(s.stored, s.c, load, k);
      }
    }
  }

  lemma {:induction false} NoQueue(c: Conv)
    requires Aligned(c) && c.queueSeq == 0
    ensures EntryAt(c, QueueKey) == None
  {
  }

  lemma {:induction false} RestartChange(s: Store, t: Store, c: Conv, e: Conv, events: seq<Event>)
    requires Aligned(c) && Aligned(e) && Data(c) == s.data - {QueueKey} && Data(e) == Applied(Data(c), events)
    requires t == Store(s.epoch, t.number, Data(e), true) && Numbered(events, s.number, t.number) && NotQueue(events)
    ensures Restarted(s, t, events)
  {
  }

  /** What Restore returns, in one piece. */
  lemma {:induction false} RestoreIs(s: State, load: Conv, db: Stored, now: int, t: Tracker, changed: seq<int>)
    requires (t, changed) == Tasks.Restore(s.t, load.tasks, load.messages, now) && InRange(changed, t.tasks)
    requires t.Ok() && load.richIndex == IndexOf(load.rich) && s.c.queue == [] && s.c.queueSeq == 0
    requires WithoutGone(db, t, load.tasks, |load.tasks|) == db
    ensures var c := TakenBack(load, t);
      var (r, events) := Restore(s, load, db, now);
      && events == TaskEvents(t.tasks, changed, db.number)
      && r.c == c.(tasks := t.tasks, taskSeq := TaskNumbers(c.taskSeq, t.tasks, changed, db.number))
      && r.t == t.(since := r.t.since) && r.epoch == db.epoch && r.number == db.number + |changed| && r.stale
      && r.stored == db.(tasks := PutTasks(db.tasks, t.tasks, changed, db.number), epoch := r.stored.epoch,
        number := r.stored.number)
      && r.stored.epoch == db.epoch && r.stored.number == r.number
  {
    hide TaskNumbers, PutTasks, Tasks.Restore, WithoutGone, TakenNumbers, TaskEvents;
  }

  lemma {:induction false} SinceTidy(t: Tracker, msgs: seq<Message>, since: int)
    requires Tidy(t, msgs)
    ensures Tidy(t.(since := since), msgs)
  {
  }

  /** After a clean restart the emitter holds the conversation it held, in the same epoch;
      what ran is over, under newer numbers: what clients hold stays good. */
  lemma {:induction false} RestoreRestarts(s: State, anew: State, load: Conv, now: int)
    requires Sound(s) && Loaded(s.stored, load) && anew.c.queue == [] && anew.c.queueSeq == 0
    ensures var (r, events) := Restore(anew, load, s.stored, now);
      Sound(r) && Aligned(s.c) && Aligned(r.c) && Restarted(Seen(s), Seen(r), events) && r.t.open == -1
  {
    hide Ok, Data, Tidy, IsStored, AllAnchored, DistinctTasks, Carried, Aligned, TaskNumbers, PutTasks, TaskEvents,
      Numbered, NotQueue, Restarted, Tasks.Restore, Restore, OwnersOk, SameShape, TakenNumbers, IndexOf, InRange;
    RestartTasks(s, anew, load, now);
    var (t, changed) := Tasks.Restore(anew.t, load.tasks, load.messages, now);
    var c := TakenBack(load, t);
    TakenBackOk(s.stored, load, t);
    LoadedData(s, c);
    var e := c.(tasks := t.tasks, taskSeq := TaskNumbers(c.taskSeq, t.tasks, changed, s.number));
    TasksStep(s.stored, c, e, changed, s.number);
    RestoreIs(anew, load, s.stored, now, t, changed);
    var (r, events) := Restore(anew, load, s.stored, now);
    TaskEventsNumbered(t.tasks, changed, s.number);
    TaskEventsNotQueue(t.tasks, changed, s.number);
    RestartChange(Seen(s), Seen(r), c, e, events);
    SinceTidy(t, load.messages, r.t.since);
    IsStoredTasks(r.stored, s.stored, e, changed, s.number);
  }

  /** The tasks after a restart. */
  lemma {:induction false} RestartTasks(s: State, anew: State, load: Conv, now: int)
    requires Sound(s) && Loaded(s.stored, load)
    ensures s.stored.epoch == s.epoch > 0 && s.stored.number == s.number && load.messages == s.c.messages
    ensures var (t, changed) := Tasks.Restore(anew.t, load.tasks, load.messages, now);
      && Tidy(t, load.messages) && t.Ok() && Disjoint(t.tasks) && OwnersOk(t.tasks, t.owners) && t.open == -1
      && InRange(changed, t.tasks) && Carried(load.tasks, t.tasks, changed) && DistinctTasks(t.tasks)
      && SameShape(load.tasks, t.tasks) && AllAnchored(t.tasks, load.messages)
  {
    hide IsStored, Carried, AllAnchored, SameShape, OwnersOk, DistinctTasks, RichOk, RequestsOk, TasksOk, Tasks.Restore;
    StopsLoaded(s, load);
    SoundPlaces(s);
    RestoredTasks(anew.t, load.tasks, load.messages, now);
    RestoreKeeps(anew.t, load.tasks, load.messages, now);
    var (t, changed) := Tasks.Restore(anew.t, load.tasks, load.messages, now);
    DisjointIsDistinct(load.tasks);
    OnlyAtCarried(load.tasks, t.tasks, changed, load.messages);
    TidyOwners(t, load.messages);
  }

  lemma {:induction false} SoundPlaces(s: State)
    requires Sound(s)
    ensures IdsArePlaces(s.c.messages)
  {
  }

  lemma {:induction false} TidyOwners(t: Tracker, msgs: seq<Message>)
    requires Tidy(t, msgs)
    ensures t.Ok() && Disjoint(t.tasks) && OwnersOk(t.tasks, t.owners)
  {
  }
}
