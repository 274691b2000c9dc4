/** The emitter's conversation after a change of its messages, a reset and a restart. */
module EmitterMessages {
  import opened Options
  import opened Conversation
  import opened Tasks
  import opened TaskFacts
  import opened TaskTheorems
  import opened TaskRuns
  import opened TaskChanges
  import opened Replication
  import opened ConversationState
  import opened ConversationSteps
  import opened StateStore
  import opened EmitterSpec
  import opened EmitterOps

  /** Where the IDs stop matching, from position i on. */
  function CutFrom(was: seq<Message>, now: seq<Message>, i: nat): (cut: nat)
    requires i <= |was| && i <= |now|
    ensures i <= cut <= |was| && cut <= |now|
    decreases |was| - i
  {
    if i == |was| || i == |now| || was[i].id != now[i].id then i else CutFrom(was, now, i + 1)
  }

  /** The first n messages that changed, stored. */
  function PutMessages(s: Stored, was: seq<Message>, now: seq<Message>, n: nat, number: nat): Stored
    requires n <= |now|
  {
    if n == 0 then s
    else
      var front := PutMessages(s, was, now, n - 1, number);
      if MessageChanged(was, now, n - 1) then front.PutMessage(now[n - 1], number + ChangedCount(was, now, n))
        else front
  }

  function MessageNumbers(was: seq<Message>, now: seq<Message>, numbers: seq<nat>, number: nat): (r: seq<nat>)
    requires |numbers| == |was|
    ensures |r| == |now| && forall i :: 0 <= i < |now| ==> r[i] == MessageNumber(was, now, numbers, number, i)
  {
    seq(|now|, i requires 0 <= i < |now| => MessageNumber(was, now, numbers, number, i))
  }

  /** The numbers of the tasks whose messages are still there. */
  function NumbersLeft(s: State, t: Tracker, removed: bool): map<int, nat> {
    if removed then map id | id in s.c.taskSeq && id in t.owners :: s.c.taskSeq[id] else s.c.taskSeq
  }

  /** The state once the messages were stored and the tasks derived from them. */
  function TakeMessages(s: State, now: seq<Message>, removed: bool, stored: Stored): (r: (State, seq<Event>))
    requires s.t.Ok() && |s.c.messageSeq| == |s.c.messages|
  {
    var was := s.c.messages;
    DerivedInRange(s.t, now);
    var (t, changed) := Derive(s.t, now);
    var c := s.c.(messages := now, messageSeq := MessageNumbers(was, now, s.c.messageSeq, s.number),
      taskSeq := NumbersLeft(s, t, removed));
    StoreTasks(Took(s.(c := c, number := s.number + ChangedCount(was, now, |now|), stored := stored), t), changed)
  }

  /** The conversation's messages after a change. Those that changed and the tasks that did
      are sent; when messages were removed, the conversation gets a new epoch and the
      subscriptions to it end. */
  function EmitMessages(s: State, now: seq<Message>): (r: (State, seq<Event>, bool))
    requires s.t.Ok() && |s.c.messageSeq| == |s.c.messages|
  {
    var was := s.c.messages;
    var cut := CutFrom(was, now, 0);
    var removed := cut < |was|;
    var stored := if removed then s.stored.TruncateMessages(was[cut].id) else s.stored;
    var (r, events) := TakeMessages(s, now, removed, PutMessages(stored, was, now, |now|, s.number));
    if removed then (Saved(r.(epoch := r.epoch + 1)), [], true)
    else (Saved(r), MessageEvents(was, now, |now|, s.number) + events, false)
  }

  /** Messages keep their IDs, so what is removed is at the end. */
  lemma {:induction false} CutPlaced(was: seq<Message>, now: seq<Message>, i: nat)
    requires IdsArePlaces(was) && IdsArePlaces(now) && i <= |was| && i <= |now|
    ensures CutFrom(was, now, i) == if |was| <= |now| then |was| else |now|
    decreases |was| - i
  {
    if i < |was| && i < |now| {
      CutPlaced(was, now, i + 1);
    }
  }

  /** Once the first n messages were stored, their rows are as they are now. */
  lemma {:induction false} PutMessageAt(s: Stored, was: seq<Message>, now: seq<Message>, n: nat, number: nat, id: int)
    requires n <= |now| && IdsArePlaces(now)
    ensures var r := PutMessages(s, was, now, n, number);
      && r == s.(messages := r.messages)
      && if 0 <= id < n && MessageChanged(was, now, id)
        then id in r.messages && r.messages[id] == (now[id], number + ChangedCount(was, now, id + 1))
         else (id in r.messages <==> id in s.messages) && (id in r.messages ==> r.messages[id] == s.messages[id])
  {
    if n > 0 {
      PutMessageAt(s, was, now, n - 1, number, id);
    }
  }

  lemma {:induction false} MessagesStoredAfter(s: Stored, was: seq<Message>, numbers: seq<nat>, now: seq<Message>,
      number: nat)
    requires |numbers| == |was| && IdsArePlaces(now)
    requires forall i :: i in s.messages ==> 0 <= i < |was| && i < |now|
    requires forall i :: 0 <= i < |was| && i < |now| ==> i in s.messages && s.messages[i] == (was[i], numbers[i])
    ensures MessagesStored(PutMessages(s, was, now, |now|, number).messages, now,
      MessageNumbers(was, now, numbers, number))
  {
    var rows := PutMessages(s, was, now, |now|, number).messages;
    forall i | i in rows ensures 0 <= i < |now| {
      PutMessageAt(s, was, now, |now|, number, i);
    }
    forall i | 0 <= i < |now| ensures i in rows && rows[i] == (now[i], MessageNumber(was, now, numbers, number, i)) {
      PutMessageAt(s, was, now, |now|, number, i);
    }
  }

  /** The lists with the messages as they are now. */
  function WithMessages(c: Conv, now: seq<Message>, number: nat): Conv
    requires |c.messageSeq| == |c.messages|
  {
    c.(messages := now, messageSeq := MessageNumbers(c.messages, now, c.messageSeq, number))
  }

  lemma {:induction false} StoredMessages(s: Stored, c: Conv, now: seq<Message>, number: nat)
    requires IsStored(s, c) && IdsArePlaces(now) && |c.messages| <= |now|
    ensures IsStored(PutMessages(s, c.messages, now, |now|, number), WithMessages(c, now, number))
  {
    hide RichStored, RequestsStored, TasksStored;
    MessagesStoredAfter(s, c.messages, c.messageSeq, now, number);
    PutMessageAt(s, c.messages, now, |now|, number, 0);
  }

  /** Everything that was sent was made: the messages that changed, and then the tasks. */
  lemma {:induction false} BothMade(c: Conv, d: Conv, e: Conv, s: State, first: seq<Event>, second: seq<Event>,
      mid: nat, high: nat)
    requires Aligned(c) && Aligned(d) && Aligned(e) && NotQueue(first) && NotQueue(second)
    requires Numbered(first, s.number, mid) && Numbered(second, mid, high)
    requires Data(d) == Applied(Data(c), first) && Data(e) == Applied(Data(d), second)
    ensures Changed(Store(s.epoch, s.number, Data(c), s.stale), Store(s.epoch, high, Data(e), s.stale), first + second,
      {})
  {
    NumberedMore(first, second, s.number, mid, high);
    AppliedMore(Data(c), first, second);
    NoneDropped(Data(e));
    MadeChange(c, e, s.epoch, s.number, high, s.stale, first + second, {});
  }

  lemma {:induction false} MessageEventsNotQueue(was: seq<Message>, now: seq<Message>, number: nat)
    ensures NotQueue(MessageEvents(was, now, |now|, number))
  {
    var events := MessageEvents(was, now, |now|, number);
    forall j | 0 <= j < |events| ensures events[j].Update? && events[j].key.MessageKey? {
      var i := MessageOfEvent(was, now, |now|, number, j);
    }
  }

  /** More messages, or other texts: what changed is sent, and that is all there is to it. */
  lemma {:induction false} MoreMessagesMake(s: State, now: seq<Message>)
    requires Sound(s) && SameStart(s.c.messages, now) && |s.c.messages| <= |now|
    ensures s.t.Ok() && |s.c.messageSeq| == |s.c.messages|
    ensures var (r, events, removed) := EmitMessages(s, now); !removed && Makes(s, r, events, {})
  {
    hide Data, Derive, TaskNumbers, RichOk, RequestsOk, RichStored, RequestsStored, TasksStored, Carried, AllAnchored,
      Tidy;
    SoundTasks(s);
    SoundMessages(s);
    CutPlaced(s.c.messages, now, 0);
    var d := WithMessages(s.c, now, s.number);
    var n := s.number + ChangedCount(s.c.messages, now, |now|);
    MessagesAfter(s.c, now, d.messageSeq, s.number);
    StoredMessages(s.stored, s.c, now, s.number);
    TakeMore(s, d, n, now);
  }

  lemma {:induction false} SoundMessages(s: State)
    requires Sound(s)
    ensures IdsArePlaces(s.c.messages) && |s.c.messageSeq| == |s.c.messages| && Disjoint(s.t.tasks)
  {
  }

  /** What TakeMessages returns, in one piece: d are the lists with the messages. */
  lemma {:induction false} TakeIs(s: State, now: seq<Message>, removed: bool, stored: Stored, t: Tracker,
      changed: seq<int>, d: Conv, n: nat)
    requires s.t.Ok() && |s.c.messageSeq| == |s.c.messages| && (t, changed) == Derive(s.t, now)
    requires InRange(changed, t.tasks)
    requires d == WithMessages(s.c, now, s.number).(taskSeq := NumbersLeft(s, t, removed))
    requires n == s.number + ChangedCount(s.c.messages, now, |now|)
    ensures var e := d.(tasks := t.tasks, taskSeq := TaskNumbers(d.taskSeq, t.tasks, changed, n));
      var r := TakeMessages(s, now, removed, stored);
      && r.1 == TaskEvents(t.tasks, changed, n)
      && r.0 == s.(c := e, t := t, number := n + |changed|, stored := r.0.stored)
      && r.0.stored == stored.(tasks := PutTasks(stored.tasks, t.tasks, changed, n), epoch := r.0.stored.epoch,
        number := r.0.stored.number)
  {
    hide Derive, TaskNumbers, PutTasks, ChangedCount, MessageNumbers, TaskEvents;
  }

  /** The tasks, once the messages are stored and numbered. */
  lemma {:induction false} TakeMore(s: State, d: Conv, n: nat, now: seq<Message>)
    requires Sound(s) && SameStart(s.c.messages, now) && |s.c.messages| <= |now| && |s.c.messageSeq| == |s.c.messages|
    requires s.t.Ok() && d == WithMessages(s.c, now, s.number) && n == s.number + ChangedCount(s.c.messages, now, |now|)
    requires Ok(d, n) && Aligned(s.c)
    requires Data(d) == Applied(Data(s.c), MessageEvents(s.c.messages, now, |now|, s.number))
    requires IsStored(PutMessages(s.stored, s.c.messages, now, |now|, s.number), d)
    requires CutFrom(s.c.messages, now, 0) == |s.c.messages|
    ensures var (r, events, removed) := EmitMessages(s, now); !removed && Makes(s, r, events, {})
  {
    hide Ok, Data, Derive, TaskNumbers, IsStored, Carried, AllAnchored, Tidy, PutMessages, PutTasks, MessageEvents,
      Aligned, DistinctTasks, EmitMessages, ChangedCount, MessageNumbers, CutFrom, SameStart, Numbered, NotQueue,
        Changed, TakeMessages;
    var (t, changed) := Derive(s.t, now);
    TakenTasks(s, now);
    var stored := PutMessages(s.stored, s.c.messages, now, |now|, s.number);
    var e := d.(tasks := t.tasks, taskSeq := TaskNumbers(d.taskSeq, t.tasks, changed, n));
    TasksStep(stored, d, e, changed, n);
    TakeIs(s, now, false, stored, t, changed, d, n);
    MoreIs(s, now);
    var r := EmitMessages(s, now).0;
    MoreEvents(s, now, t.tasks, changed, n);
    BothMade(s.c, d, e, s, MessageEvents(s.c.messages, now, |now|, s.number), TaskEvents(t.tasks, changed, n), n,
      n + |changed|);
    SoundAfter(s, r, t, stored, e, changed, n);
  }

  lemma {:induction false} MoreIs(s: State, now: seq<Message>)
    requires s.t.Ok() && |s.c.messageSeq| == |s.c.messages| && CutFrom(s.c.messages, now, 0) == |s.c.messages|
    ensures var x := TakeMessages(s, now, false, PutMessages(s.stored, s.c.messages, now, |now|, s.number));
      EmitMessages(s, now) == (Saved(x.0), MessageEvents(s.c.messages, now, |now|, s.number) + x.1, false)
  {
    hide TakeMessages, PutMessages, MessageEvents, CutFrom;
  }

  /** The events are numbered one after the other, and none is of the queue. */
  lemma {:induction false} MoreEvents(s: State, now: seq<Message>, tasks: seq<Task>, changed: seq<int>, n: nat)
    requires InRange(changed, tasks) && n == s.number + ChangedCount(s.c.messages, now, |now|)
    ensures Numbered(MessageEvents(s.c.messages, now, |now|, s.number), s.number, n)
    ensures Numbered(TaskEvents(tasks, changed, n), n, n + |changed|)
    ensures NotQueue(MessageEvents(s.c.messages, now, |now|, s.number)) && NotQueue(TaskEvents(tasks, changed, n))
  {
    hide Numbered, NotQueue, MessageEvents;
    MessageEventsNumbered(s.c.messages, now, |now|, s.number);
    MessageEventsNotQueue(s.c.messages, now, s.number);
    TaskEventsNumbered(tasks, changed, n);
    TaskEventsNotQueue(tasks, changed, n);
  }

  /** The tasks derived from the messages. */
  lemma {:induction false} TakenTasks(s: State, now: seq<Message>)
    requires Sound(s) && SameStart(s.c.messages, now) && |s.c.messages| <= |now|
    ensures s.t.Ok() && s.c.tasks == s.t.tasks && s.epoch > 0
    ensures var (t, changed) := Derive(s.t, now);
      Tidy(t, now) && DistinctTasks(t.tasks) && InRange(changed, t.tasks) && Carried(s.c.tasks, t.tasks, changed)
        && AllAnchored(t.tasks, now)
  {
    hide Derive, Carried, Tidy, SameStart, Ok, IsStored, AllAnchored, DistinctTasks;
    SoundTasks(s);
    SoundMessages(s);
    DerivedInRange(s.t, now);
    DerivedCarried(s.t, s.c.messages, now);
    DeriveKeepsTidy(s.t, s.c.messages, now);
    TidyDistinct(Derive(s.t, now).0, now);
  }

  lemma {:induction false} TidyDistinct(t: Tracker, msgs: seq<Message>)
    requires Tidy(t, msgs)
    ensures DistinctTasks(t.tasks) && t.Ok() && Disjoint(t.tasks)
  {
    DisjointIsDistinct(t.tasks);
  }

  lemma {:induction false} SoundAfter(s: State, r: State, t: Tracker, stored: Stored, e: Conv, changed: seq<int>,
      n: nat)
    requires InRange(changed, t.tasks) && e.tasks == t.tasks && Tidy(t, e.messages) && Ok(e, n + |changed|)
    requires AllAnchored(t.tasks, e.messages)
    requires IsStored(stored.(tasks := PutTasks(stored.tasks, t.tasks, changed, n)), e)
    requires r.c == e && r.t == t && r.number == n + |changed| && r.epoch > 0
    requires r.stored == stored.(tasks := PutTasks(stored.tasks, t.tasks, changed, n), epoch := r.epoch,
      number := r.number)
    ensures Sound(r)
  {
    hide Ok, Tidy, AllAnchored, MessagesStored, RichStored, RequestsStored, TasksStored;
    IsStoredTasks(r.stored, stored, e, changed, n);
  }

  // ---- Removed messages ----

  lemma {:induction false} BelowDistinct(tasks: seq<Task>, from: int)
    requires DistinctTasks(tasks)
    ensures DistinctTasks(Below(tasks, from))
  {
    if |tasks| > 0 {
      var n := |tasks| - 1;
      BelowDistinct(tasks[..n], from);
      var front := Below(tasks[..n], from);
      forall i | 0 <= i < |front| ensures front[i].id != tasks[n].id {
        assert front[i] in tasks[..n];
      }
    }
  }

  /** The tasks before the messages removed are the ones there are, changed or not, but for new ones. */
  lemma {:induction false} BelowCarried(s: State, now: seq<Message>)
    requires Sound(s) && SameStart(s.c.messages, now) && |now| < |s.c.messages|
    ensures s.t.Ok()
    ensures var (t, changed) := Derive(s.t, now);
      && Tidy(t, now) && DistinctTasks(t.tasks) && InRange(changed, t.tasks) && AllAnchored(t.tasks, now)
      && Carried(Below(s.c.tasks, |now|), t.tasks, changed)
  {
    hide Derive, Tidy, Ok, IsStored, DistinctTasks;
    SoundTasks(s);
    SoundMessages(s);
    var (t, changed) := Derive(s.t, now);
    var left := Below(s.c.tasks, |now|);
    DerivedInRange(s.t, now);
    DerivedMarks(s.t, now);
    DeriveKeepsTidy(s.t, s.c.messages, now);
    TidyDistinct(t, now);
    forall i | 0 <= i < |t.tasks| ensures Anchored(t.tasks[i], now) {
      DerivedAnchored(s.t, now, i);
    }
    forall i | 0 <= i < |left| ensures FindTask(t.tasks, left[i].id) >= 0 {
      assert left[i] in s.c.tasks;
      var j :| 0 <= j < |s.t.tasks| && s.t.tasks[j] == left[i];
      DerivedStays(s.t, now, j);
    }
  }

  /** The tasks that stay are ones the tracker names owners of. */
  lemma {:induction false} StayingOwned(s: State, now: seq<Message>, i: int)
    requires Sound(s) && SameStart(s.c.messages, now) && |now| < |s.c.messages| && 0 <= i < |Below(s.c.tasks, |now|)|
    ensures s.t.Ok() && Below(s.c.tasks, |now|)[i].id in Derive(s.t, now).0.owners
  {
    hide Derive, Ok, IsStored;
    BelowCarried(s, now);
    var t := Derive(s.t, now).0;
    var id := Below(s.c.tasks, |now|)[i].id;
    var j := FindTask(t.tasks, id);
    assert t.tasks[j].Holds(id);
  }

  /** The lists once the messages and their tasks are gone. */
  lemma {:induction false} ShortOk(s: State, now: seq<Message>, d: Conv, n: nat)
    requires Sound(s) && SameStart(s.c.messages, now) && |now| < |s.c.messages| && |s.c.messageSeq| == |s.c.messages|
    requires s.t.Ok()
    requires d == WithMessages(s.c, now, s.number).(tasks := Below(s.c.tasks, |now|),
      taskSeq := NumbersLeft(s, Derive(s.t, now).0, true))
    requires n == s.number + ChangedCount(s.c.messages, now, |now|)
    ensures Ok(d, n)
  {
    hide RichOk, RequestsOk, IsStored, Tidy, Derive;
    SoundTasks(s);
    var numbers := MessageNumbers(s.c.messages, now, s.c.messageSeq, s.number);
    MessagesKeepOk(s.c, now, numbers, s.number);
    BelowDistinct(s.c.tasks, |now|);
    var left := Below(s.c.tasks, |now|);
    forall i | 0 <= i < |left| ensures left[i].id in d.taskSeq && 0 < d.taskSeq[left[i].id] <= n {
      StayingOwned(s, now, i);
      assert left[i] in s.c.tasks;
    }
  }

  lemma {:induction false} ShortStored(s: State, now: seq<Message>, d: Conv)
    requires Sound(s) && SameStart(s.c.messages, now) && |now| < |s.c.messages| && |s.c.messageSeq| == |s.c.messages|
    requires s.t.Ok()
    requires d == WithMessages(s.c, now, s.number).(tasks := Below(s.c.tasks, |now|),
      taskSeq := NumbersLeft(s, Derive(s.t, now).0, true))
    ensures IsStored(PutMessages(s.stored.TruncateMessages(|now|), s.c.messages, now, |now|, s.number), d)
  {
    hide RichStored, RequestsStored, Ok, Tidy, Derive;
    var short := s.stored.TruncateMessages(|now|);
    MessagesStoredAfter(short, s.c.messages, s.c.messageSeq, now, s.number);
    PutMessageAt(short, s.c.messages, now, |now|, s.number, 0);
    TasksTruncated(s.stored, s.c.tasks, s.c.taskSeq, |now|);
    var left := Below(s.c.tasks, |now|);
    forall i | 0 <= i < |left| ensures left[i].id in d.taskSeq && d.taskSeq[left[i].id] == s.c.taskSeq[left[i].id] {
      StayingOwned(s, now, i);
    }
  }

  lemma {:induction false} FewerIs(s: State, now: seq<Message>)
    requires s.t.Ok() && |s.c.messageSeq| == |s.c.messages| && CutFrom(s.c.messages, now, 0) == |now| < |s.c.messages|
    requires s.c.messages[|now|].id == |now|
    ensures var x := TakeMessages(s, now, true,
      PutMessages(s.stored.TruncateMessages(|now|), s.c.messages, now, |now|, s.number));
      EmitMessages(s, now) == (Saved(x.0.(epoch := x.0.epoch + 1)), [], true)
  {
    hide TakeMessages, PutMessages, MessageEvents, CutFrom;
  }

  /** Messages that are taken back give the conversation a new epoch, and leave it and its
      store with what is left of it. */
  lemma {:induction false} FewerMessagesRebuild(s: State, now: seq<Message>)
    requires Sound(s) && SameStart(s.c.messages, now) && |now| < |s.c.messages|
    ensures s.t.Ok() && |s.c.messageSeq| == |s.c.messages| && Aligned(s.c)
    ensures var (r, events, removed) := EmitMessages(s, now);
      removed && events == [] && Sound(r) && Aligned(r.c) && Rebuilt(Seen(s), Seen(r)) && r.c.messages == now
  {
    hide Ok, Data, Derive, TaskNumbers, IsStored, Carried, AllAnchored, Tidy, PutMessages, PutTasks, Aligned,
      DistinctTasks, EmitMessages, ChangedCount, MessageNumbers, CutFrom, TakeMessages, NumbersLeft;
    SoundTasks(s);
    SoundMessages(s);
    CutPlaced(s.c.messages, now, 0);
    var (t, changed) := Derive(s.t, now);
    BelowCarried(s, now);
    var n := s.number + ChangedCount(s.c.messages, now, |now|);
    var stored := PutMessages(s.stored.TruncateMessages(|now|), s.c.messages, now, |now|, s.number);
    var f := WithMessages(s.c, now, s.number).(taskSeq := NumbersLeft(s, t, true));
    var d := f.(tasks := Below(s.c.tasks, |now|));
    ShortOk(s, now, d, n);
    ShortStored(s, now, d);
    var e := d.(tasks := t.tasks, taskSeq := TaskNumbers(d.taskSeq, t.tasks, changed, n));
    TasksStep(stored, d, e, changed, n);
    TakeIs(s, now, true, stored, t, changed, f, n);
    FewerIs(s, now);
    var r := EmitMessages(s, now).0;
    SoundAfter(s, r, t, stored, e, changed, n);
    StoreOk(r.c, r.number, r.epoch, r.stale);
  }
}
