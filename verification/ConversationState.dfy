/** What the emitter keeps of the conversation, with the number of each entry's
    latest change, as the store that clients follow and as the database it mirrors. */
module ConversationState {
  import opened Options
  import opened Conversation
  import opened Tasks
  import opened Replication

  /** The emitter's lists: entry i's latest change has number i of the list beside it. */
  datatype Conv = Conv(
    messages: seq<Message>, messageSeq: seq<nat>,
    rich: seq<RichMessage>, richSeq: seq<nat>, richIndex: map<RichId, int>,
    requests: seq<RequestState>, requestSeq: seq<nat>,
    tasks: seq<Task>, taskSeq: map<int, nat>,
    queue: seq<QueuedMessage>, queueSeq: nat)

  /** The position of the request with the ID, or -1. */
  function FindRequest(requests: seq<RequestState>, id: string): (i: int)
    ensures -1 <= i < |requests|
    ensures i >= 0 ==> requests[i].id == id
    ensures i < 0 ==> forall j :: 0 <= j < |requests| ==> requests[j].id != id
  {
    if |requests| == 0 then -1
    else if requests[0].id == id then 0
    else
      var i := FindRequest(requests[1..], id);
      if i < 0 then -1 else i + 1
  }

  /** The position of the task with the ID, or -1. */
  function FindTask(tasks: seq<Task>, id: int): (i: int)
    ensures -1 <= i < |tasks|
    ensures i >= 0 ==> tasks[i].id == id
    ensures i < 0 ==> forall j :: 0 <= j < |tasks| ==> tasks[j].id != id
  {
    if |tasks| == 0 then -1
    else if tasks[0].id == id then 0
    else
      var i := FindTask(tasks[1..], id);
      if i < 0 then -1 else i + 1
  }

  ghost predicate AllBetween(numbers: seq<nat>, high: nat) {
    forall i :: 0 <= i < |numbers| ==> 0 < numbers[i] <= high
  }

  ghost predicate MessagesOk(messages: seq<Message>, numbers: seq<nat>, high: nat) {
    && |numbers| == |messages| && AllBetween(numbers, high)
    && forall i :: 0 <= i < |messages| ==> messages[i].id == i
  }

  ghost predicate RichOk(rich: seq<RichMessage>, numbers: seq<nat>, index: map<RichId, int>, high: nat) {
    && |numbers| == |rich| && AllBetween(numbers, high)
    && (forall i :: 0 <= i < |rich| ==> rich[i].id in index && index[rich[i].id] == i)
    && (forall id :: id in index ==> 0 <= index[id] < |rich| && rich[index[id]].id == id)
  }

  ghost predicate RequestsOk(requests: seq<RequestState>, numbers: seq<nat>, high: nat) {
    && |numbers| == |requests| && AllBetween(numbers, high)
    && forall i, j :: 0 <= i < j < |requests| ==> requests[i].id != requests[j].id
  }

  ghost predicate DistinctTasks(tasks: seq<Task>) {
    forall i, j :: 0 <= i < j < |tasks| ==> tasks[i].id != tasks[j].id
  }

  ghost predicate TasksOk(tasks: seq<Task>, numbers: map<int, nat>, high: nat) {
    && DistinctTasks(tasks)
    && forall i :: 0 <= i < |tasks| ==> tasks[i].id in numbers && 0 < numbers[tasks[i].id] <= high
  }

  ghost predicate Ok(c: Conv, high: nat) {
    && MessagesOk(c.messages, c.messageSeq, high)
    && RichOk(c.rich, c.richSeq, c.richIndex, high)
    && RequestsOk(c.requests, c.requestSeq, high)
    && TasksOk(c.tasks, c.taskSeq, high)
    && c.queueSeq <= high
  }

  /** The lists are as long as they must be to look things up. */
  ghost predicate Aligned(c: Conv) {
    && |c.messageSeq| == |c.messages| && |c.richSeq| == |c.rich| && |c.requestSeq| == |c.requests|
    && (forall id :: id in c.richIndex ==> 0 <= c.richIndex[id] < |c.rich|)
    && (forall i :: 0 <= i < |c.tasks| ==> c.tasks[i].id in c.taskSeq)
  }

  /** What the conversation holds under a key. */
  ghost function EntryAt(c: Conv, k: Key): (e: Option<Entry>)
    requires Aligned(c)
  {
    match k
    case MessageKey(i) => if 0 <= i < |c.messages| then Some(Entry(MessageValue(c.messages[i]), c.messageSeq[i]))
      else None
    case RichKey(id) =>
      if id in c.richIndex then Some(Entry(RichValue(c.rich[c.richIndex[id]]), c.richSeq[c.richIndex[id]])) else None
    case RequestKey(id) =>
      var i := FindRequest(c.requests, id);
      if i >= 0 then Some(Entry(RequestValue(c.requests[i]), c.requestSeq[i])) else None
    case TaskKey(id) =>
      var i := FindTask(c.tasks, id);
      if i >= 0 then Some(Entry(TaskValue(c.tasks[i]), c.taskSeq[id])) else None
    case QueueKey => if c.queueSeq > 0 then Some(Entry(QueueValue(c.queue), c.queueSeq)) else None
  }

  ghost function Keys(c: Conv): set<Key> {
    (set i | 0 <= i < |c.messages| :: MessageKey(i))
    + (set id | id in c.richIndex :: RichKey(id))
    + (set i | 0 <= i < |c.requests| :: RequestKey(c.requests[i].id))
    + (set i | 0 <= i < |c.tasks| :: TaskKey(c.tasks[i].id))
    + {QueueKey}
  }

  lemma {:induction false} KeysHave(c: Conv, k: Key)
    requires Aligned(c) && EntryAt(c, k).Some?
    ensures k in Keys(c)
  {
    match k
    case RequestKey(id) => assert c.requests[FindRequest(c.requests, id)].id == id;
    case TaskKey(id) => assert c.tasks[FindTask(c.tasks, id)].id == id;
    case _ =>
  }

  /** The conversation as clients follow it. */
  ghost function Data(c: Conv): (data: map<Key, Entry>)
    requires Aligned(c)
  {
    map k | k in Keys(c) && EntryAt(c, k).Some? :: EntryAt(c, k).value
  }

  lemma {:induction false} DataAt(c: Conv, k: Key)
    requires Aligned(c)
    ensures k in Data(c) <==> EntryAt(c, k).Some?
    ensures k in Data(c) ==> Data(c)[k] == EntryAt(c, k).value
  {
    if EntryAt(c, k).Some? {
      KeysHave(c, k);
    }
  }

  /** The conversation d is c after the changes: what none touched is as before, and
      what they touched is what the last of them says. */
  ghost predicate After(c: Conv, d: Conv, events: seq<Event>)
    requires Aligned(c) && Aligned(d)
  {
    && (forall k :: Untouched(events, k) ==> EntryAt(d, k) == EntryAt(c, k))
    && (forall i :: 0 <= i < |events| && events[i].Update? && Untouched(events[i + 1..], events[i].key) ==>
          EntryAt(d, events[i].key) == Some(Entry(events[i].value, events[i].number)))
  }

  lemma {:induction false} DataAfter(c: Conv, d: Conv, events: seq<Event>)
    requires Aligned(c) && Aligned(d) && After(c, d, events)
    ensures Data(d) == Applied(Data(c), events)
  {
    hide EntryAt, Keys;
    forall k ensures k in Data(d) <==> k in Applied(Data(c), events)
      ensures k in Data(d) ==> Data(d)[k] == Applied(Data(c), events)[k]
    {
      DataAt(c, k);
      DataAt(d, k);
      if Untouched(events, k) {
        AppliedUntouched(Data(c), events, k);
      } else {
        var i := AppliedTouched(Data(c), events, k);
      }
    }
  }

  lemma {:induction false} StoreOk(c: Conv, high: nat, epoch: nat, stale: bool)
    requires Ok(c, high) && Aligned(c)
    ensures Store(epoch, high, Data(c), stale).Ok()
  {
    hide Data, EntryAt, Ok, Aligned;
    forall k | k in Data(c) ensures 0 < Data(c)[k].number <= high {
      DataAt(c, k);
      EntryNumber(c, high, k);
    }
  }

  lemma {:induction false} EntryNumber(c: Conv, high: nat, k: Key)
    requires Ok(c, high) && Aligned(c)
    ensures EntryAt(c, k).Some? ==> 0 < EntryAt(c, k).value.number <= high
  {
  }

  lemma {:induction false} OkAligned(c: Conv, high: nat)
    requires Ok(c, high)
    ensures Aligned(c)
  {
  }
}
