/** The changes each of the emitter's operations makes, as the events it sends. */
module ConversationSteps {
  import opened Options
  import opened Conversation
  import opened Tasks
  import opened Replication
  import opened ConversationState

  lemma {:induction false} AppliedMore(data: map<Key, Entry>, a: seq<Event>, b: seq<Event>)
    ensures Applied(data, a + b) == Applied(Applied(data, a), b)
    decreases |b|
  {
    if |b| == 0 {
      assert a + b == a;
    } else {
      var n := |b| - 1;
      assert (a + b)[..|a| + n] == a + b[..n];
      AppliedMore(data, a, b[..n]);
    }
  }

  lemma {:induction false} NumberedMore(a: seq<Event>, b: seq<Event>, low: nat, mid: nat, high: nat)
    requires Numbered(a, low, mid) && Numbered(b, mid, high)
    ensures Numbered(a + b, low, high)
  {
  }

  // ---- One entry ----

  /** One change is of one key. */
  lemma {:induction false} AfterOne(c: Conv, d: Conv, e: Event)
    requires Aligned(c) && Aligned(d) && e.Update?
    requires EntryAt(d, e.key) == Some(Entry(e.value, e.number))
    requires forall k :: k != e.key ==> EntryAt(d, k) == EntryAt(c, k)
    ensures Data(d) == Applied(Data(c), [e])
  {
    hide EntryAt;
    forall k | Untouched([e], k) ensures k != e.key {
      assert [e][0].key != k;
    }
    DataAfter(c, d, [e]);
  }

  /** The rich message msg is stored at position i: in place of the one there, or at the end. */
  function PutRich(c: Conv, i: nat, msg: RichMessage, number: nat): Conv
    requires i <= |c.rich| == |c.richSeq|
  {
    if i < |c.rich| then c.(rich := c.rich[i := msg], richSeq := c.richSeq[i := number])
    else c.(rich := c.rich + [msg], richSeq := c.richSeq + [number], richIndex := c.richIndex[msg.id := i])
  }

  /** Where a rich message goes: over the one with its ID, or to the end. */
  function RichAt(c: Conv, id: RichId): int {
    if id in c.richIndex then c.richIndex[id] else |c.rich|
  }

  lemma {:induction false} PutRichOk(c: Conv, msg: RichMessage, number: nat)
    requires number > 0 && Ok(c, number - 1)
    ensures var d := PutRich(c, RichAt(c, msg.id), msg, number);
      Ok(d, number) && Data(d) == Applied(Data(c), [Update(RichKey(msg.id), RichValue(msg), number)])
  {
    var d := PutRich(c, RichAt(c, msg.id), msg, number);
    PutRichKeeps(c, msg, number);
    OkAligned(c, number - 1);
    OkAligned(d, number);
    forall k | k != RichKey(msg.id) ensures EntryAt(d, k) == EntryAt(c, k) {
    }
    AfterOne(c, d, Update(RichKey(msg.id), RichValue(msg), number));
  }

  lemma {:induction false} PutRichKeeps(c: Conv, msg: RichMessage, number: nat)
    requires number > 0 && Ok(c, number - 1)
    ensures Ok(PutRich(c, RichAt(c, msg.id), msg, number), number)
  {
  }

  /** The request is stored: in place of the one with its ID, or at the end. */
  function PutRequest(c: Conv, r: RequestState, number: nat): Conv
    requires |c.requestSeq| == |c.requests|
  {
    var i := FindRequest(c.requests, r.id);
    if i >= 0 then c.(requests := c.requests[i := r], requestSeq := c.requestSeq[i := number])
    else c.(requests := c.requests + [r], requestSeq := c.requestSeq + [number])
  }

  lemma {:induction false} FindRequestIs(requests: seq<RequestState>, i: int)
    requires 0 <= i < |requests| && forall j, k :: 0 <= j < k < |requests| ==> requests[j].id != requests[k].id
    ensures FindRequest(requests, requests[i].id) == i
  {
  }

  lemma {:induction false} PutRequestOk(c: Conv, r: RequestState, number: nat)
    requires number > 0 && Ok(c, number - 1)
    ensures var d := PutRequest(c, r, number);
      Ok(d, number) && Data(d) == Applied(Data(c), [Update(RequestKey(r.id), RequestValue(r), number)])
  {
    var d := PutRequest(c, r, number);
    PutRequestKeeps(c, r, number);
    OkAligned(c, number - 1);
    OkAligned(d, number);
    forall k | k != RequestKey(r.id) ensures EntryAt(d, k) == EntryAt(c, k) {
      if k.RequestKey? {
        OtherRequest(c, r, number, k.request);
      }
    }
    var i := FindRequest(c.requests, r.id);
    FindRequestIs(d.requests, if i >= 0 then i else |c.requests|);
    AfterOne(c, d, Update(RequestKey(r.id), RequestValue(r), number));
  }

  lemma {:induction false} PutRequestKeeps(c: Conv, r: RequestState, number: nat)
    requires number > 0 && Ok(c, number - 1)
    ensures Ok(PutRequest(c, r, number), number)
  {
    var i := FindRequest(c.requests, r.id);
  }

  lemma {:induction false} OtherRequest(c: Conv, r: RequestState, number: nat, id: string)
    requires number > 0 && Ok(c, number - 1) && id != r.id
    ensures var d := PutRequest(c, r, number);
      Aligned(c) && Aligned(d) && EntryAt(d, RequestKey(id)) == EntryAt(c, RequestKey(id))
  {
    var d := PutRequest(c, r, number);
    PutRequestKeeps(c, r, number);
    var i, j := FindRequest(c.requests, id), FindRequest(d.requests, id);
    if i >= 0 {
      assert d.requests[i].id == id;
      FindRequestIs(d.requests, i);
    }
  }

  lemma {:induction false} SetQueueOk(c: Conv, queue: seq<QueuedMessage>, number: nat)
    requires number > 0 && Ok(c, number - 1)
    ensures var d := c.(queue := queue, queueSeq := number);
      Ok(d, number) && Data(d) == Applied(Data(c), [Update(QueueKey, QueueValue(queue), number)])
  {
    var d := c.(queue := queue, queueSeq := number);
    OkAligned(c, number - 1);
    OkAligned(d, number);
    AfterOne(c, d, Update(QueueKey, QueueValue(queue), number));
  }

  // ---- The messages ----

  predicate MessageChanged(was: seq<Message>, now: seq<Message>, i: nat)
    requires i < |now|
  {
    i >= |was| || was[i] != now[i]
  }

  /** How many of the first n messages changed. */
  function ChangedCount(was: seq<Message>, now: seq<Message>, n: nat): (count: nat)
    requires n <= |now|
    ensures count <= n
  {
    if n == 0 then 0 else ChangedCount(was, now, n - 1) + if MessageChanged(was, now, n - 1) then 1 else 0
  }

  function MessageEvent(now: seq<Message>, i: nat, number: nat): Event
    requires i < |now|
  {
    Update(MessageKey(now[i].id), MessageValue(now[i]), number)
  }

  /** The updates of the first n messages that changed, numbered from after number. */
  function MessageEvents(was: seq<Message>, now: seq<Message>, n: nat, number: nat): (events: seq<Event>)
    requires n <= |now|
    ensures |events| == ChangedCount(was, now, n)
  {
    if n == 0 then []
    else
      var last := if MessageChanged(was, now, n - 1) then [MessageEvent(now, n - 1, number + ChangedCount(was, now, n))]
        else [];
      MessageEvents(was, now, n - 1, number) + last
  }

  /** The number of message i's latest change after this one. */
  function MessageNumber(was: seq<Message>, now: seq<Message>, numbers: seq<nat>, number: nat, i: nat): nat
    requires i < |now| && |numbers| == |was|
  {
    if MessageChanged(was, now, i) then number + ChangedCount(was, now, i + 1) else numbers[i]
  }

  lemma {:induction false} CountGrows(was: seq<Message>, now: seq<Message>, i: nat, n: nat)
    requires i <= n <= |now|
    ensures ChangedCount(was, now, i) <= ChangedCount(was, now, n)
    decreases n
  {
    if i < n {
      CountGrows(was, now, i, n - 1);
    }
  }

  /** Each message that changed has one update, at its place. */
  lemma {:induction false} EventOfMessage(was: seq<Message>, now: seq<Message>, n: nat, number: nat, i: nat)
    requires i < n <= |now| && MessageChanged(was, now, i)
    ensures ChangedCount(was, now, i + 1) == ChangedCount(was, now, i) + 1 <= ChangedCount(was, now, n)
    ensures MessageEvents(was, now, n, number)[ChangedCount(was, now, i)] ==
      MessageEvent(now, i, number + ChangedCount(was, now, i + 1))
    decreases n
  {
    CountGrows(was, now, i + 1, n);
    if i < n - 1 {
      EventOfMessage(was, now, n - 1, number, i);
    }
  }

  lemma {:induction false} MessageOfEvent(was: seq<Message>, now: seq<Message>, n: nat, number: nat, j: nat)
      returns (i: nat)
    requires n <= |now| && j < ChangedCount(was, now, n)
    ensures i < n && MessageChanged(was, now, i) && j == ChangedCount(was, now, i)
    ensures MessageEvents(was, now, n, number)[j] == MessageEvent(now, i, number + j + 1)
    decreases n
  {
    if j < ChangedCount(was, now, n - 1) {
      i := MessageOfEvent(was, now, n - 1, number, j);
    } else {
      i := n - 1;
    }
  }

  lemma {:induction false} MessageEventsNumbered(was: seq<Message>, now: seq<Message>, n: nat, number: nat)
    requires n <= |now|
    ensures Numbered(MessageEvents(was, now, n, number), number, number + ChangedCount(was, now, n))
  {
    var events := MessageEvents(was, now, n, number);
    forall j | 0 <= j < |events| ensures events[j].Update? && events[j].number == number + j + 1 {
      var i := MessageOfEvent(was, now, n, number, j);
    }
  }

  /** The conversation with other messages, those there were still among them. */
  lemma {:induction false} MessagesAfter(c: Conv, now: seq<Message>, numbers: seq<nat>, number: nat)
    requires Ok(c, number) && |c.messages| <= |now| == |numbers| && forall i :: 0 <= i < |now| ==> now[i].id == i
    requires forall i :: 0 <= i < |now| ==> numbers[i] == MessageNumber(c.messages, now, c.messageSeq, number, i)
    ensures var d := c.(messages := now, messageSeq := numbers);
      && Ok(d, number + ChangedCount(c.messages, now, |now|))
      && Data(d) == Applied(Data(c), MessageEvents(c.messages, now, |now|, number))
  {
    var d := c.(messages := now, messageSeq := numbers);
    var events := MessageEvents(c.messages, now, |now|, number);
    MessagesKeepOk(c, now, numbers, number);
    OkAligned(c, number);
    OkAligned(d, number + |events|);
    forall k | Untouched(events, k) ensures EntryAt(d, k) == EntryAt(c, k) {
      MessageUntouched(c, now, numbers, number, k);
    }
    forall j | 0 <= j < |events| ensures events[j].Update?
      && EntryAt(d, events[j].key) == Some(Entry(events[j].value, events[j].number)) {
      var i := MessageOfEvent(c.messages, now, |now|, number, j);
    }
    DataAfter(c, d, events);
  }

  lemma {:induction false} MessagesKeepOk(c: Conv, now: seq<Message>, numbers: seq<nat>, number: nat)
    requires Ok(c, number) && |numbers| == |now| && forall i :: 0 <= i < |now| ==> now[i].id == i
    requires forall i :: 0 <= i < |now| ==> numbers[i] == MessageNumber(c.messages, now, c.messageSeq, number, i)
    ensures Ok(c.(messages := now, messageSeq := numbers), number + ChangedCount(c.messages, now, |now|))
  {
    var high := number + ChangedCount(c.messages, now, |now|);
    forall i | 0 <= i < |now| ensures 0 < numbers[i] <= high {
      if MessageChanged(c.messages, now, i) {
        EventOfMessage(c.messages, now, |now|, number, i);
      }
    }
  }

  lemma {:induction false} MessageUntouched(c: Conv, now: seq<Message>, numbers: seq<nat>, number: nat, k: Key)
    requires Ok(c, number) && |c.messages| <= |now| == |numbers| && forall i :: 0 <= i < |now| ==> now[i].id == i
    requires forall i :: 0 <= i < |now| ==> numbers[i] == MessageNumber(c.messages, now, c.messageSeq, number, i)
    requires Untouched(MessageEvents(c.messages, now, |now|, number), k)
    ensures var d := c.(messages := now, messageSeq := numbers);
      Aligned(c) && Aligned(d) && EntryAt(d, k) == EntryAt(c, k)
  {
    if k.MessageKey? && 0 <= k.id < |now| && MessageChanged(c.messages, now, k.id) {
      EventOfMessage(c.messages, now, |now|, number, k.id);
    }
  }

  // ---- The tasks ----

  ghost predicate InRange(changed: seq<int>, tasks: seq<Task>) {
    forall i :: 0 <= i < |changed| ==> 0 <= changed[i] < |tasks|
  }

  /** The updates of the tasks at the positions changed, numbered from after number. */
  function TaskEvents(tasks: seq<Task>, changed: seq<int>, number: nat): (events: seq<Event>)
    requires InRange(changed, tasks)
    ensures |events| == |changed|
    ensures forall i :: 0 <= i < |changed| ==>
      events[i] == Update(TaskKey(tasks[changed[i]].id), TaskValue(tasks[changed[i]]), number + i + 1)
  {
    if |changed| == 0 then []
    else
      var n := |changed| - 1;
      TaskEvents(tasks, changed[..n], number)
        + [Update(TaskKey(tasks[changed[n]].id), TaskValue(tasks[changed[n]]), number + n + 1)]
  }

  /** The numbers of the tasks' latest changes after these. */
  function TaskNumbers(numbers: map<int, nat>, tasks: seq<Task>, changed: seq<int>, number: nat): (r: map<int, nat>)
    requires InRange(changed, tasks)
  {
    if |changed| == 0 then numbers
    else
      var n := |changed| - 1;
      TaskNumbers(numbers, tasks, changed[..n], number)[tasks[changed[n]].id := number + n + 1]
  }

  /** Each task is changed, or as it was, and none is gone. */
  ghost predicate Carried(was: seq<Task>, now: seq<Task>, changed: seq<int>) {
    && InRange(changed, now)
    && (forall i :: 0 <= i < |now| && i !in changed ==> now[i] in was)
    && (forall i :: 0 <= i < |was| ==> FindTask(now, was[i].id) >= 0)
  }

  lemma {:induction false} FindTaskIs(tasks: seq<Task>, i: int)
    requires 0 <= i < |tasks| && DistinctTasks(tasks)
    ensures FindTask(tasks, tasks[i].id) == i
  {
  }

  lemma {:induction false} TaskEventsNumbered(tasks: seq<Task>, changed: seq<int>, number: nat)
    requires InRange(changed, tasks)
    ensures Numbered(TaskEvents(tasks, changed, number), number, number + |changed|)
  {
  }

  /** A task that isn't among the changed has the number it had; one that is has that of its last change. */
  lemma {:induction false} TaskNumberAt(numbers: map<int, nat>, tasks: seq<Task>, changed: seq<int>, number: nat,
      id: int)
    requires InRange(changed, tasks)
    ensures var r := TaskNumbers(numbers, tasks, changed, number);
      var events := TaskEvents(tasks, changed, number);
      && (Untouched(events, TaskKey(id)) ==> (id in r <==> id in numbers) && (id in r ==> r[id] == numbers[id]))
      && (!Untouched(events, TaskKey(id)) ==> id in r && number < r[id] <= number + |changed|)
  {
    var n := |changed| - 1;
    if n >= 0 {
      TaskNumberAt(numbers, tasks, changed[..n], number, id);
      var events := TaskEvents(tasks, changed, number);
      var front := TaskEvents(tasks, changed[..n], number);
      assert forall i :: 0 <= i < n ==> events[i] == front[i];
      if Untouched(front, TaskKey(id)) && events[n].key != TaskKey(id) {
        assert Untouched(events, TaskKey(id));
      }
    }
  }

  lemma {:induction false} TaskNumberLast(numbers: map<int, nat>, tasks: seq<Task>, changed: seq<int>, number: nat,
      i: nat)
    requires InRange(changed, tasks) && i < |changed|
    requires var events := TaskEvents(tasks, changed, number); Untouched(events[i + 1..], events[i].key)
    ensures var id := tasks[changed[i]].id;
      var r := TaskNumbers(numbers, tasks, changed, number);
      id in r && r[id] == number + i + 1
    decreases |changed|
  {
    var n := |changed| - 1;
    if i < n {
      var events := TaskEvents(tasks, changed, number);
      var front := TaskEvents(tasks, changed[..n], number);
      assert events[n] == events[i + 1..][n - i - 1];
      assert front == events[..n];
      assert front[i + 1..] == events[i + 1..][..n - i - 1];
      assert Untouched(front[i + 1..], front[i].key);
      TaskNumberLast(numbers, tasks, changed[..n], number, i);
    }
  }

  lemma {:induction false} TaskNumbersOk(numbers: map<int, nat>, was: seq<Task>, now: seq<Task>, changed: seq<int>,
      number: nat)
    requires TasksOk(was, numbers, number) && DistinctTasks(now) && Carried(was, now, changed)
    ensures TasksOk(now, TaskNumbers(numbers, now, changed, number), number + |changed|)
  {
    var r := TaskNumbers(numbers, now, changed, number);
    forall i | 0 <= i < |now| ensures now[i].id in r && 0 < r[now[i].id] <= number + |changed| {
      TaskNumberAt(numbers, now, changed, number, now[i].id);
      if i in changed {
        TaskTouched(now, changed, number, i);
      }
    }
  }

  lemma {:induction false} TaskTouched(tasks: seq<Task>, changed: seq<int>, number: nat, i: int)
    requires InRange(changed, tasks) && i in changed
    ensures !Untouched(TaskEvents(tasks, changed, number), TaskKey(tasks[i].id))
  {
    var j :| 0 <= j < |changed| && changed[j] == i;
    assert TaskEvents(tasks, changed, number)[j].key == TaskKey(tasks[i].id);
  }

  /** What is said of a task no change is of stays. */
  lemma {:induction false} TaskUntouched(c: Conv, now: seq<Task>, changed: seq<int>, number: nat, id: int)
    requires Ok(c, number) && DistinctTasks(now) && Carried(c.tasks, now, changed)
    requires Untouched(TaskEvents(now, changed, number), TaskKey(id))
    ensures var d := c.(tasks := now, taskSeq := TaskNumbers(c.taskSeq, now, changed, number));
      Aligned(c) && Aligned(d) && EntryAt(d, TaskKey(id)) == EntryAt(c, TaskKey(id))
  {
    TaskNumbersOk(c.taskSeq, c.tasks, now, changed, number);
    TaskNumberAt(c.taskSeq, now, changed, number, id);
    var i := FindTask(now, id);
    if i >= 0 {
      if i in changed {
        TaskTouched(now, changed, number, i);
      }
      var j :| 0 <= j < |c.tasks| && c.tasks[j] == now[i];
      FindTaskIs(c.tasks, j);
    }
  }

  /** The conversation with other tasks, the changed ones numbered. */
  lemma {:induction false} TasksAfter(c: Conv, now: seq<Task>, changed: seq<int>, number: nat)
    requires Ok(c, number) && DistinctTasks(now) && Carried(c.tasks, now, changed)
    ensures var d := c.(tasks := now, taskSeq := TaskNumbers(c.taskSeq, now, changed, number));
      && Ok(d, number + |changed|)
      && Data(d) == Applied(Data(c), TaskEvents(now, changed, number))
  {
    var d := c.(tasks := now, taskSeq := TaskNumbers(c.taskSeq, now, changed, number));
    var events := TaskEvents(now, changed, number);
    TaskNumbersOk(c.taskSeq, c.tasks, now, changed, number);
    OkAligned(c, number);
    OkMore(c, d, number, number + |changed|);
    OkAligned(d, number + |changed|);
    TasksAre(c, now, changed, number);
    DataAfter(c, d, events);
  }

  lemma {:induction false} TaskEntry(d: Conv, i: int)
    requires Aligned(d) && DistinctTasks(d.tasks) && 0 <= i < |d.tasks|
    ensures var id := d.tasks[i].id; EntryAt(d, TaskKey(id)) == Some(Entry(TaskValue(d.tasks[i]), d.taskSeq[id]))
  {
    FindTaskIs(d.tasks, i);
  }

  lemma {:induction false} TaskLast(d: Conv, numbers: map<int, nat>, changed: seq<int>, number: nat, i: nat)
    requires Aligned(d) && DistinctTasks(d.tasks) && InRange(changed, d.tasks) && i < |changed|
    requires d.taskSeq == TaskNumbers(numbers, d.tasks, changed, number)
    requires var events := TaskEvents(d.tasks, changed, number); Untouched(events[i + 1..], events[i].key)
    ensures var e := TaskEvents(d.tasks, changed, number)[i]; EntryAt(d, e.key) == Some(Entry(e.value, e.number))
  {
    hide TaskNumbers, EntryAt, Untouched, DistinctTasks;
    TaskNumberLast(numbers, d.tasks, changed, number, i);
    TaskEntry(d, changed[i]);
  }

  lemma {:induction false} NotTasks(c: Conv, d: Conv, k: Key)
    requires Aligned(c) && Aligned(d) && d == c.(tasks := d.tasks, taskSeq := d.taskSeq) && !k.TaskKey?
    ensures EntryAt(d, k) == EntryAt(c, k)
  {
  }

  lemma {:induction false} TasksAre(c: Conv, now: seq<Task>, changed: seq<int>, number: nat)
    requires Ok(c, number) && DistinctTasks(now) && Carried(c.tasks, now, changed)
    ensures var d := c.(tasks := now, taskSeq := TaskNumbers(c.taskSeq, now, changed, number));
      Aligned(c) && Aligned(d) && After(c, d, TaskEvents(now, changed, number))
  {
    var d := c.(tasks := now, taskSeq := TaskNumbers(c.taskSeq, now, changed, number));
    var events := TaskEvents(now, changed, number);
    TaskNumbersOk(c.taskSeq, c.tasks, now, changed, number);
    TasksAreAt(c, d, now, changed, number);
  }

  lemma {:induction false} TasksAreAt(c: Conv, d: Conv, now: seq<Task>, changed: seq<int>, number: nat)
    requires Ok(c, number) && DistinctTasks(now) && Carried(c.tasks, now, changed)
    requires d == c.(tasks := now, taskSeq := TaskNumbers(c.taskSeq, now, changed, number)) && Aligned(c) && Aligned(d)
    ensures After(c, d, TaskEvents(now, changed, number))
  {
    hide EntryAt, TaskNumbers, Ok, DistinctTasks, Aligned;
    var events := TaskEvents(now, changed, number);
    forall k | Untouched(events, k) ensures EntryAt(d, k) == EntryAt(c, k) {
      if k.TaskKey? {
        TaskUntouched(c, now, changed, number, k.task);
      } else {
        NotTasks(c, d, k);
      }
    }
    forall i | 0 <= i < |events| && Untouched(events[i + 1..], events[i].key)
      ensures events[i].Update? && EntryAt(d, events[i].key) == Some(Entry(events[i].value, events[i].number))
    {
      TaskLast(d, c.taskSeq, changed, number, i);
    }
  }

  lemma {:induction false} OkMore(c: Conv, d: Conv, low: nat, high: nat)
    requires Ok(c, low) && low <= high && d == c.(tasks := d.tasks, taskSeq := d.taskSeq)
    requires TasksOk(d.tasks, d.taskSeq, high)
    ensures Ok(d, high)
  {
  }
}
