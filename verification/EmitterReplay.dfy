/** What a new subscription gets of the conversation: all of it, or what changed since
    the change the client is at. */
module EmitterReplay {
  import opened Options
  import opened Conversation
  import opened Tasks
  import opened Replication
  import opened ConversationState
  import opened ConversationSteps
  import opened Subscriptions
  import Spec = EmitterSpec

  // ---- The conversation as updates ----

  function MessageList(messages: seq<Message>, numbers: seq<nat>): (r: seq<Event>)
    requires |numbers| == |messages|
    ensures |r| == |messages|
    ensures forall i :: 0 <= i < |r| ==>
      r[i] == Update(MessageKey(messages[i].id), MessageValue(messages[i]), numbers[i])
  {
    seq(|messages|, i requires 0 <= i < |messages| => Update(MessageKey(messages[i].id), MessageValue(messages[i]),
      numbers[i]))
  }

  function RichList(rich: seq<RichMessage>, numbers: seq<nat>): (r: seq<Event>)
    requires |numbers| == |rich|
    ensures |r| == |rich|
    ensures forall i :: 0 <= i < |r| ==> r[i] == Update(RichKey(rich[i].id), RichValue(rich[i]), numbers[i])
  {
    seq(|rich|, i requires 0 <= i < |rich| => Update(RichKey(rich[i].id), RichValue(rich[i]), numbers[i]))
  }

  function RequestList(requests: seq<RequestState>, numbers: seq<nat>): (r: seq<Event>)
    requires |numbers| == |requests|
    ensures |r| == |requests|
    ensures forall i :: 0 <= i < |r| ==>
      r[i] == Update(RequestKey(requests[i].id), RequestValue(requests[i]), numbers[i])
  {
    seq(|requests|, i requires 0 <= i < |requests| => Update(RequestKey(requests[i].id), RequestValue(requests[i]),
      numbers[i]))
  }

  /** The number of the task's latest change; 0 if there is none. */
  function NumberOf(numbers: map<int, nat>, id: int): nat {
    if id in numbers then numbers[id] else 0
  }

  function TaskList(tasks: seq<Task>, numbers: map<int, nat>): (r: seq<Event>)
    ensures |r| == |tasks|
    ensures forall i :: 0 <= i < |r| ==>
      r[i] == Update(TaskKey(tasks[i].id), TaskValue(tasks[i]), NumberOf(numbers, tasks[i].id))
  {
    seq(|tasks|, i requires 0 <= i < |tasks| => Update(TaskKey(tasks[i].id), TaskValue(tasks[i]),
      NumberOf(numbers, tasks[i].id)))
  }

  /** The updates numbered above since. */
  function Later(events: seq<Event>, since: nat): seq<Event> {
    if |events| == 0 then []
    else
      var last := events[|events| - 1];
      Later(events[..|events| - 1], since) + if last.Update? && last.number > since then [last] else []
  }

  /** The highest number of the updates, or low. */
  function Highest(events: seq<Event>, low: nat): nat {
    if |events| == 0 then low
    else
      var last := events[|events| - 1];
      var high := Highest(events[..|events| - 1], low);
      if last.Update? && last.number > high then last.number else high
  }

  predicate InStep(c: Conv) {
    |c.messageSeq| == |c.messages| && |c.richSeq| == |c.rich| && |c.requestSeq| == |c.requests|
  }

  /** What a subscription to wants that follows the changes after since is sent first. */
  function ReplayOf(c: Conv, since: nat, wants: set<Kind>): seq<Event>
    requires InStep(c)
  {
    (if MessageUpdate in wants then Later(MessageList(c.messages, c.messageSeq), since) else [])
    + (if StatusChange in wants then [Other("status")] else [])
    + (if RichMessageUpdate in wants then Later(RichList(c.rich, c.richSeq), since) else [])
    + (if RequestUpdate in wants then Later(RequestList(c.requests, c.requestSeq), since) else [])
    + (if QueueUpdate in wants then Later([Update(QueueKey, QueueValue(c.queue), c.queueSeq)], since) else [])
    + (if TaskUpdate in wants then Later(TaskList(c.tasks, c.taskSeq), since) else [])
    + (if SummaryUpdate in wants then [Other("summary")] else [])
  }

  // ---- Building it ----

  lemma {:induction false} LaterNext(events: seq<Event>, i: nat, since: nat)
    requires i < |events|
    ensures Later(events[..i + 1], since) == Later(events[..i], since) + if events[i].Update?
      && events[i].number > since then [events[i]] else []
  {
    assert events[..i + 1][..i] == events[..i];
  }

  /** The updates of the list that are numbered above since, if they are wanted. */
  method Pick(wanted: bool, events: seq<Event>, since: nat) returns (picked: seq<Event>)
    ensures picked == if wanted then Later(events, since) else []
  {
    picked := [];
    if wanted {
      var i := 0;
      while i < |events|
        invariant 0 <= i <= |events|
        invariant picked == Later(events[..i], since)
      {
        LaterNext(events, i, since);
        if events[i].Update? && events[i].number > since {
          picked := picked + [events[i]];
        }
        i := i + 1;
      }
      assert events[..i] == events;
    }
  }

  method Build(c: Conv, since: nat, wants: set<Kind>) returns (replay: seq<Event>)
    requires InStep(c)
    ensures replay == ReplayOf(c, since, wants)
  {
    hide Later, MessageList, RichList, RequestList, TaskList;
    var messages := Pick(MessageUpdate in wants, MessageList(c.messages, c.messageSeq), since);
    var status := if StatusChange in wants then [Other("status")] else [];
    var rich := Pick(RichMessageUpdate in wants, RichList(c.rich, c.richSeq), since);
    var requests := Pick(RequestUpdate in wants, RequestList(c.requests, c.requestSeq), since);
    var queue := Pick(QueueUpdate in wants, [Update(QueueKey, QueueValue(c.queue), c.queueSeq)], since);
    var tasks := Pick(TaskUpdate in wants, TaskList(c.tasks, c.taskSeq), since);
    var summary := if SummaryUpdate in wants then [Other("summary")] else [];
    replay := messages + status + rich + requests + queue + tasks + summary;
  }

  method HighestNumber(events: seq<Event>, low: nat) returns (high: nat)
    ensures high == Highest(events, low)
  {
    high := low;
    var i := 0;
    while i < |events|
      invariant 0 <= i <= |events|
      invariant high == Highest(events[..i], low)
    {
      assert events[..i + 1][..i] == events[..i];
      if events[i].Update? && events[i].number > high {
        high := events[i].number;
      }
      i := i + 1;
    }
    assert events[..i] == events;
  }

  // ---- What it holds ----

  lemma {:induction false} LaterAre(events: seq<Event>, since: nat, e: Event)
    ensures e in Later(events, since) <==> e in events && e.Update? && e.number > since
  {
    if |events| > 0 {
      LaterAre(events[..|events| - 1], since, e);
    }
  }

  lemma {:induction false} HighestIs(events: seq<Event>, low: nat)
    ensures Highest(events, low) >= low
    ensures forall e :: e in events && e.Update? ==> e.number <= Highest(events, low)
    ensures Highest(events, low) == low || exists e :: e in events && e.Update? && e.number == Highest(events, low)
  {
    if |events| > 0 {
      var n := |events| - 1;
      HighestIs(events[..n], low);
      if Highest(events[..n], low) != low && Highest(events, low) == Highest(events[..n], low) {
        var e :| e in events[..n] && e.Update? && e.number == Highest(events[..n], low);
        assert e in events;
      } else if Highest(events, low) != low {
        assert events[n] in events && events[n].number == Highest(events, low);
      }
    }
  }

  /** The update says what the conversation holds under its key. */
  ghost predicate Says(c: Conv, e: Event)
    requires Aligned(c)
  {
    e.Update? && EntryAt(c, e.key) == Some(Entry(e.value, e.number))
  }

  lemma {:induction false} MessagesSay(c: Conv, high: nat, e: Event)
    requires Ok(c, high) && Aligned(c)
    ensures e in MessageList(c.messages, c.messageSeq) <==> Says(c, e) && e.key.MessageKey?
  {
    var list := MessageList(c.messages, c.messageSeq);
    if Says(c, e) && e.key.MessageKey? {
      assert list[e.key.id] == e;
    }
  }

  lemma {:induction false} RichSay(c: Conv, high: nat, e: Event)
    requires Ok(c, high) && Aligned(c)
    ensures e in RichList(c.rich, c.richSeq) <==> Says(c, e) && e.key.RichKey?
  {
    hide MessagesOk, RequestsOk, TasksOk, FindRequest, FindTask;
    var list := RichList(c.rich, c.richSeq);
    if Says(c, e) && e.key.RichKey? {
      assert list[c.richIndex[e.key.rich]] == e;
    }
  }

  lemma {:induction false} RequestsSay(c: Conv, high: nat, e: Event)
    requires Ok(c, high) && Aligned(c)
    ensures e in RequestList(c.requests, c.requestSeq) <==> Says(c, e) && e.key.RequestKey?
  {
    hide MessagesOk, RichOk, TasksOk, FindTask;
    var list := RequestList(c.requests, c.requestSeq);
    if Says(c, e) && e.key.RequestKey? {
      assert list[FindRequest(c.requests, e.key.request)] == e;
    }
    if e in list {
      var i :| 0 <= i < |list| && list[i] == e;
      assert FindRequest(c.requests, c.requests[i].id) == i;
    }
  }

  lemma {:induction false} TasksSay(c: Conv, high: nat, e: Event)
    requires Ok(c, high) && Aligned(c)
    ensures e in TaskList(c.tasks, c.taskSeq) <==> Says(c, e) && e.key.TaskKey?
  {
    hide MessagesOk, RichOk, RequestsOk, FindRequest;
    var list := TaskList(c.tasks, c.taskSeq);
    if Says(c, e) && e.key.TaskKey? {
      assert list[FindTask(c.tasks, e.key.task)] == e;
    }
    if e in list {
      var i :| 0 <= i < |list| && list[i] == e;
      assert FindTask(c.tasks, c.tasks[i].id) == i;
    }
  }

  lemma {:induction false} QueueSays(c: Conv, since: nat, e: Event)
    requires Aligned(c)
    ensures e in Later([Update(QueueKey, QueueValue(c.queue), c.queueSeq)], since) <==>
      Says(c, e) && e.key.QueueKey? && e.number > since
  {
    LaterAre([Update(QueueKey, QueueValue(c.queue), c.queueSeq)], since, e);
  }

  predicate WantsKey(wants: set<Kind>, k: Key) {
    match k
    case MessageKey(_) => MessageUpdate in wants
    case RichKey(_) => RichMessageUpdate in wants
    case RequestKey(_) => RequestUpdate in wants
    case TaskKey(_) => TaskUpdate in wants
    case QueueKey => QueueUpdate in wants
  }

  /** The replay's updates are exactly what the conversation holds, of the kinds wanted,
      that changed after since. */
  lemma {:induction false} ReplayIs(c: Conv, high: nat, since: nat, wants: set<Kind>, e: Event)
    requires Ok(c, high) && Aligned(c) && InStep(c)
    ensures e in ReplayOf(c, since, wants) && e.Update? <==> Says(c, e) && e.number > since && WantsKey(wants, e.key)
    ensures e in ReplayOf(c, since, wants) ==> !e.Synced?
  {
    hide Ok, Aligned, EntryAt, Later, MessageList, RichList, RequestList, TaskList, Says;
    MessagesSay(c, high, e);
    RichSay(c, high, e);
    RequestsSay(c, high, e);
    TasksSay(c, high, e);
    QueueSays(c, since, e);
    ListsAre(c, since, e);
    SaysUpdate(c, e);
  }

  lemma {:induction false} SaysUpdate(c: Conv, e: Event)
    requires Aligned(c)
    ensures Says(c, e) ==> e.Update?
  {
  }

  lemma {:induction false} ListsAre(c: Conv, since: nat, e: Event)
    requires InStep(c)
    ensures e in Later(MessageList(c.messages, c.messageSeq), since) <==>
      e in MessageList(c.messages, c.messageSeq) && e.Update? && e.number > since
    ensures e in Later(RichList(c.rich, c.richSeq), since) <==>
      e in RichList(c.rich, c.richSeq) && e.Update? && e.number > since
    ensures e in Later(RequestList(c.requests, c.requestSeq), since) <==>
      e in RequestList(c.requests, c.requestSeq) && e.Update? && e.number > since
    ensures e in Later(TaskList(c.tasks, c.taskSeq), since) <==>
      e in TaskList(c.tasks, c.taskSeq) && e.Update? && e.number > since
  {
    hide Later, MessageList, RichList, RequestList, TaskList;
    LaterAre(MessageList(c.messages, c.messageSeq), since, e);
    LaterAre(RichList(c.rich, c.richSeq), since, e);
    LaterAre(RequestList(c.requests, c.requestSeq), since, e);
    LaterAre(TaskList(c.tasks, c.taskSeq), since, e);
  }

  // ---- What the client makes of it ----

  /** A client that takes updates that say what data holds has that under their keys, and
      what it had under all others. The updates come in whatever order. */
  lemma {:induction false} TakenAre(c: Client, events: seq<Event>, data: map<Key, Entry>, k: Key)
    requires forall e :: e in events ==> !e.Synced? && (e.Update? ==> e.key in data && data[e.key].value == e.value)
    ensures TakeAll(c, events).epoch == c.epoch
    ensures Untouched(events, k) && k in c.data ==>
      k in TakeAll(c, events).data && TakeAll(c, events).data[k] == c.data[k]
    ensures Untouched(events, k) && k !in c.data ==> k !in TakeAll(c, events).data
    ensures !Untouched(events, k) ==>
      k in data && k in TakeAll(c, events).data && TakeAll(c, events).data[k] == data[k].value
  {
    if |events| > 0 {
      var n := |events| - 1;
      TakenAre(c, events[..n], data, k);
      assert events[n] in events;
    }
  }

  /** The updates of the replay are those that bring a client up to date. */
  lemma {:induction false} ReplayKeys(c: Conv, high: nat, since: nat, wants: set<Kind>, k: Key)
    requires Ok(c, high) && Aligned(c) && InStep(c) && ConversationKinds <= wants
    ensures Untouched(ReplayOf(c, since, wants), k) <==> !(k in Data(c) && Data(c)[k].number > since)
  {
    hide Ok, Aligned, EntryAt, Data, ReplayOf;
    var replay := ReplayOf(c, since, wants);
    DataAt(c, k);
    if k in Data(c) && Data(c)[k].number > since {
      var e := Update(k, Data(c)[k].value, Data(c)[k].number);
      ReplayIs(c, high, since, wants, e);
      assert e in replay;
    } else if !Untouched(replay, k) {
      var i :| 0 <= i < |replay| && replay[i].Update? && replay[i].key == k;
      ReplayIs(c, high, since, wants, replay[i]);
    }
  }

  lemma {:induction false} ReplaySays(c: Conv, high: nat, since: nat, wants: set<Kind>)
    requires Ok(c, high) && Aligned(c) && InStep(c)
    ensures forall e :: e in ReplayOf(c, since, wants) ==>
      !e.Synced? && (e.Update? ==> e.key in Data(c) && Data(c)[e.key] == Entry(e.value, e.number) && e.number > since)
  {
    hide Ok, Aligned, EntryAt, Data, ReplayOf;
    forall e | e in ReplayOf(c, since, wants)
      ensures !e.Synced?
      ensures (e.Update? ==> e.key in Data(c) && Data(c)[e.key] == Entry(e.value, e.number) && e.number > since)
    {
      ReplayIs(c, high, since, wants, e);
      if e.Update? {
        DataAt(c, e.key);
      }
    }
  }

  /** A client that starts from what it holds, or from nothing when the replay is full, and
      takes the replay, holds what a client that connects does; the number the replay
      gives is the one it is at. */
  lemma {:induction false} ReplayConnects(c: Conv, high: nat, epoch: nat, stale: bool, client: Client, wants: set<Kind>)
    requires Ok(c, high) && Aligned(c) && InStep(c) && ConversationKinds <= wants
    ensures var s := Store(epoch, high, Data(c), stale);
      var since := From(client, s);
      var replay := ReplayOf(c, since, wants);
      && IsReplaySeq(s, since, Highest(replay, since))
      && Connected(client, s, Highest(replay, since)).data ==
        TakeAll(Client(epoch, since, Base(client, s)), replay).data
  {
    hide Ok, Aligned, Data, ReplayOf, Highest, TakeAll;
    var s := Store(epoch, high, Data(c), stale);
    var since := From(client, s);
    var replay := ReplayOf(c, since, wants);
    ReplaySays(c, high, since, wants);
    var before := Client(epoch, since, Base(client, s));
    var after := Connected(client, s, 0).data;
    forall k ensures k in after <==> k in TakeAll(before, replay).data
      ensures k in after ==> after[k] == TakeAll(before, replay).data[k]
    {
      ReplayKeys(c, high, since, wants, k);
      TakenAre(before, replay, Data(c), k);
    }
    assert after == TakeAll(before, replay).data;
    ReplayNumber(c, high, since, wants, s);
  }

  lemma {:induction false} ReplayNumber(c: Conv, high: nat, since: nat, wants: set<Kind>, s: Store)
    requires Ok(c, high) && Aligned(c) && InStep(c) && ConversationKinds <= wants && s.data == Data(c)
    ensures IsReplaySeq(s, since, Highest(ReplayOf(c, since, wants), since))
  {
    hide Ok, Aligned, Data, ReplayOf, Highest, EntryAt;
    var replay := ReplayOf(c, since, wants);
    var number := Highest(replay, since);
    HighestIs(replay, since);
    ReplaySays(c, high, since, wants);
    forall k | k in s.data && s.data[k].number > since ensures s.data[k].number <= number {
      ReplayKeys(c, high, since, wants, k);
      var i :| 0 <= i < |replay| && replay[i].Update? && replay[i].key == k;
      assert replay[i] in replay;
    }
    if number != since {
      var e :| e in replay && e.Update? && e.number == number;
      assert e.key in s.data && s.data[e.key].number == number;
    }
  }

  /** The number a replay gives is never above the last change's. */
  lemma {:induction false} ReplayBelow(c: Conv, high: nat, since: nat, wants: set<Kind>)
    requires Ok(c, high) && Aligned(c) && InStep(c) && since <= high
    ensures since <= Highest(ReplayOf(c, since, wants), since) <= high
  {
    hide ReplayOf, Highest, Data;
    var replay := ReplayOf(c, since, wants);
    HighestIs(replay, since);
    ReplaySays(c, high, since, wants);
    StoreOk(c, high, 0, false);
    if Highest(replay, since) != since {
      var e :| e in replay && e.Update? && e.number == Highest(replay, since);
      assert e.key in Data(c) && Store(0, high, Data(c), false).Ok();
    }
  }

  /** The emitter's state lets a client that can resume hold the conversation by taking the replay. */
  lemma {:induction false} SubscriberHolds(s: Spec.State, client: Client, wants: set<Kind>)
    requires Spec.Sound(s) && InStep(s.c) && Aligned(s.c) && Resumable(client, Spec.Seen(s))
    requires ConversationKinds <= wants
    ensures var since := From(client, Spec.Seen(s));
      var replay := ReplayOf(s.c, since, wants);
      var after := Client(s.epoch, Highest(replay, since),
        TakeAll(Client(s.epoch, since, Base(client, Spec.Seen(s))), replay).data);
      Holds(after, Spec.Seen(s)) && Resumable(after, Spec.Seen(s)) && Highest(replay, since) <= s.number
  {
    hide Ok, Aligned, Data, ReplayOf, Highest, TakeAll, Holds, Resumable, IsReplaySeq;
    SoundOk(s);
    var seen := Spec.Seen(s);
    var since := From(client, seen);
    ReplayConnects(s.c, s.number, s.epoch, s.stale, client, wants);
    StoreOk(s.c, s.number, s.epoch, s.stale);
    Reconnects(client, seen, Highest(ReplayOf(s.c, since, wants), since));
    ReplayBelow(s.c, s.number, since, wants);
  }

  lemma {:induction false} SoundOk(s: Spec.State)
    requires Spec.Sound(s)
    ensures Ok(s.c, s.number)
  {
  }
}
