/** What the emitter stores of the conversation, as the persister's contract says,
    and that it is what the emitter holds. */
module StateStore {
  import opened Conversation
  import opened Tasks
  import opened Replication
  import opened ConversationState
  import opened ConversationSteps

  /** The stored conversation: each row has the number of its latest change. */
  datatype Stored = Stored(
    messages: map<int, (Message, nat)>, rich: map<int, (RichMessage, nat)>,
    requests: map<string, (RequestState, nat)>, tasks: map<int, (Task, nat)>, epoch: nat, number: nat)
  {
    function PutMessage(msg: Message, n: nat): Stored {
      this.(messages := messages[msg.id := (msg, n)])
    }

    /** Removes the messages from the ID from on, and the tasks they started. */
    function TruncateMessages(from: int): Stored {
      this.(messages := map id | id in messages && id < from :: messages[id],
            tasks := map id | id in tasks && id < from :: tasks[id])
    }

    function PutRichMessage(pos: int, msg: RichMessage, n: nat): Stored {
      this.(rich := rich[pos := (msg, n)])
    }

    function PutRequest(r: RequestState, n: nat): Stored {
      this.(requests := requests[r.id := (r, n)])
    }

    function DeleteRequest(id: string): Stored {
      this.(requests := map x | x in requests && x != id :: requests[x])
    }

    function PutTask(task: Task, n: nat): Stored {
      this.(tasks := tasks[task.id := (task, n)])
    }

    function DeleteTask(id: int): Stored {
      this.(tasks := map x | x in tasks && x != id :: tasks[x])
    }

    function SetSeq(epoch: nat, n: nat): Stored {
      this.(epoch := epoch, number := n)
    }

    /** Removes the conversation. */
    function Reset(epoch: nat): Stored {
      Stored(map[], map[], map[], map[], epoch, number)
    }
  }

  ghost predicate MessagesStored(rows: map<int, (Message, nat)>, messages: seq<Message>, numbers: seq<nat>) {
    && |numbers| == |messages|
    && (forall i :: i in rows ==> 0 <= i < |messages|)
    && forall i :: 0 <= i < |messages| ==> i in rows && rows[i] == (messages[i], numbers[i])
  }

  ghost predicate RichStored(rows: map<int, (RichMessage, nat)>, rich: seq<RichMessage>, numbers: seq<nat>) {
    && |numbers| == |rich|
    && (forall i :: i in rows ==> 0 <= i < |rich|)
    && forall i :: 0 <= i < |rich| ==> i in rows && rows[i] == (rich[i], numbers[i])
  }

  ghost predicate RequestsStored(rows: map<string, (RequestState, nat)>, requests: seq<RequestState>,
      numbers: seq<nat>) {
    && |numbers| == |requests|
    && (forall id :: id in rows ==> FindRequest(requests, id) >= 0)
    && forall i :: 0 <= i < |requests| ==> requests[i].id in rows && rows[requests[i].id] == (requests[i], numbers[i])
  }

  ghost predicate TasksStored(rows: map<int, (Task, nat)>, tasks: seq<Task>, numbers: map<int, nat>) {
    && (forall id :: id in rows ==> FindTask(tasks, id) >= 0)
    && forall i :: 0 <= i < |tasks| ==>
         tasks[i].id in numbers && tasks[i].id in rows && rows[tasks[i].id] == (tasks[i], numbers[tasks[i].id])
  }

  /** The stored conversation is the emitter's; the queue is stored by the server. */
  ghost predicate IsStored(s: Stored, c: Conv) {
    && MessagesStored(s.messages, c.messages, c.messageSeq)
    && RichStored(s.rich, c.rich, c.richSeq)
    && RequestsStored(s.requests, c.requests, c.requestSeq)
    && TasksStored(s.tasks, c.tasks, c.taskSeq)
  }

  /** What two emitters hold that the same store mirrors is the same, but for the queue. */
  lemma {:induction false} SameStored(s: Stored, c: Conv, d: Conv, k: Key)
    requires IsStored(s, c) && IsStored(s, d) && Aligned(c) && Aligned(d) && !k.QueueKey?
    requires forall id :: id in c.richIndex ==> c.rich[c.richIndex[id]].id == id
    requires forall i :: 0 <= i < |c.rich| ==> c.rich[i].id in c.richIndex && c.richIndex[c.rich[i].id] == i
    requires forall id :: id in d.richIndex ==> d.rich[d.richIndex[id]].id == id
    requires forall i :: 0 <= i < |d.rich| ==> d.rich[i].id in d.richIndex && d.richIndex[d.rich[i].id] == i
    ensures EntryAt(c, k) == EntryAt(d, k)
  {
    match k
    case MessageKey(i) => SameMessages(s.messages, c.messages, c.messageSeq, d.messages, d.messageSeq);
    case RichKey(id) => SameRich(s.rich, c.rich, c.richSeq, d.rich, d.richSeq);
    case RequestKey(id) => SameRequest(s.requests, c, d, id);
    case TaskKey(id) => SameTask(s.tasks, c, d, id);
    case QueueKey =>
  }

  lemma {:induction false} SameMessages(rows: map<int, (Message, nat)>, a: seq<Message>, m: seq<nat>, b: seq<Message>,
      n: seq<nat>)
    requires MessagesStored(rows, a, m) && MessagesStored(rows, b, n)
    ensures a == b && m == n
  {
    assert |a| < |b| ==> |a| in rows;
    assert |b| < |a| ==> |b| in rows;
    forall i | 0 <= i < |a| ensures a[i] == b[i] && m[i] == n[i] {
      assert i in rows;
    }
  }

  lemma {:induction false} SameRich(rows: map<int, (RichMessage, nat)>, a: seq<RichMessage>, m: seq<nat>,
      b: seq<RichMessage>, n: seq<nat>)
    requires RichStored(rows, a, m) && RichStored(rows, b, n)
    ensures a == b && m == n
  {
    assert |a| < |b| ==> |a| in rows;
    assert |b| < |a| ==> |b| in rows;
    forall i | 0 <= i < |a| ensures a[i] == b[i] && m[i] == n[i] {
      assert i in rows;
    }
  }

  lemma {:induction false} SameRequest(rows: map<string, (RequestState, nat)>, c: Conv, d: Conv, id: string)
    requires RequestsStored(rows, c.requests, c.requestSeq) && RequestsStored(rows, d.requests, d.requestSeq)
    requires Aligned(c) && Aligned(d)
    ensures EntryAt(c, RequestKey(id)) == EntryAt(d, RequestKey(id))
  {
    assert forall j :: 0 <= j < |c.requests| ==> c.requests[j].id in rows;
    assert forall j :: 0 <= j < |d.requests| ==> d.requests[j].id in rows;
  }

  lemma {:induction false} SameTask(rows: map<int, (Task, nat)>, c: Conv, d: Conv, id: int)
    requires TasksStored(rows, c.tasks, c.taskSeq) && TasksStored(rows, d.tasks, d.taskSeq)
    requires Aligned(c) && Aligned(d)
    ensures EntryAt(c, TaskKey(id)) == EntryAt(d, TaskKey(id))
  {
    assert forall j :: 0 <= j < |c.tasks| ==> c.tasks[j].id in rows;
    assert forall j :: 0 <= j < |d.tasks| ==> d.tasks[j].id in rows;
  }

  // ---- Storing tasks ----

  function PutTasks(rows: map<int, (Task, nat)>, tasks: seq<Task>, changed: seq<int>, number: nat): map<int,
      (Task, nat)>
    requires InRange(changed, tasks)
  {
    if |changed| == 0 then rows
    else
      var n := |changed| - 1;
      PutTasks(rows, tasks, changed[..n], number)[tasks[changed[n]].id := (tasks[changed[n]], number + n + 1)]
  }

  /** A task that is among the changed is stored as it is now; the others' rows stay. */
  lemma {:induction false} PutTaskAt(rows: map<int, (Task, nat)>, numbers: map<int, nat>, tasks: seq<Task>,
      changed: seq<int>, number: nat, id: int)
    requires InRange(changed, tasks) && DistinctTasks(tasks)
    ensures var r := PutTasks(rows, tasks, changed, number);
      var n := TaskNumbers(numbers, tasks, changed, number);
      if FindTask(tasks, id) in changed then
        id in r && id in n && r[id] == (tasks[FindTask(tasks, id)], n[id])
      else
        && (id in r <==> id in rows) && (id in r ==> r[id] == rows[id])
        && (id in n <==> id in numbers) && (id in n ==> n[id] == numbers[id])
  {
    var n := |changed| - 1;
    if n >= 0 {
      PutTaskAt(rows, numbers, tasks, changed[..n], number, id);
      FindTaskIs(tasks, changed[n]);
      assert changed == changed[..n] + [changed[n]];
    }
  }

  lemma {:induction false} TasksStoredAfter(rows: map<int, (Task, nat)>, numbers: map<int, nat>, was: seq<Task>,
      now: seq<Task>, changed: seq<int>, number: nat)
    requires TasksStored(rows, was, numbers) && DistinctTasks(now) && Carried(was, now, changed)
    ensures TasksStored(PutTasks(rows, now, changed, number), now, TaskNumbers(numbers, now, changed, number))
  {
    var r := PutTasks(rows, now, changed, number);
    var n := TaskNumbers(numbers, now, changed, number);
    forall id | id in r ensures FindTask(now, id) >= 0 {
      PutTaskAt(rows, numbers, now, changed, number, id);
      if FindTask(now, id) !in changed {
        var i := FindTask(was, id);
        assert FindTask(now, was[i].id) >= 0;
      }
    }
    forall i | 0 <= i < |now| ensures now[i].id in n && now[i].id in r && r[now[i].id] == (now[i], n[now[i].id]) {
      PutTaskAt(rows, numbers, now, changed, number, now[i].id);
      FindTaskIs(now, i);
    }
  }

  /** The tasks of the messages before the ID from. */
  function Below(tasks: seq<Task>, from: int): (r: seq<Task>)
    ensures forall task :: task in r <==> task in tasks && task.id < from
  {
    if |tasks| == 0 then []
    else Below(tasks[..|tasks| - 1], from) + if tasks[|tasks| - 1].id < from then [tasks[|tasks| - 1]] else []
  }

  /** Truncating the messages leaves the tasks of those before. */
  lemma {:induction false} TasksTruncated(s: Stored, tasks: seq<Task>, numbers: map<int, nat>, from: int)
    requires TasksStored(s.tasks, tasks, numbers)
    ensures TasksStored(s.TruncateMessages(from).tasks, Below(tasks, from), numbers)
  {
    var rows := s.TruncateMessages(from).tasks;
    var left := Below(tasks, from);
    forall id | id in rows ensures FindTask(left, id) >= 0 {
      var task := tasks[FindTask(tasks, id)];
      assert task in left;
    }
    forall i | 0 <= i < |left|
      ensures left[i].id in numbers && left[i].id in rows && rows[left[i].id] == (left[i], numbers[left[i].id])
    {
      assert left[i] in tasks;
    }
  }

  // ---- Storing the others ----

  lemma {:induction false} RichStoredAfter(s: Stored, c: Conv, msg: RichMessage, number: nat, i: nat)
    requires RichStored(s.rich, c.rich, c.richSeq) && i <= |c.rich|
    ensures var d := PutRich(c, i, msg, number); RichStored(s.PutRichMessage(i, msg, number).rich, d.rich, d.richSeq)
  {
  }

  lemma {:induction false} RequestStoredAfter(s: Stored, c: Conv, r: RequestState, number: nat)
    requires RequestsStored(s.requests, c.requests, c.requestSeq) && number > 0
    requires RequestsOk(c.requests, c.requestSeq, number - 1)
    ensures var d := PutRequest(c, r, number);
      RequestsStored(s.PutRequest(r, number).requests, d.requests, d.requestSeq)
  {
    var p := FindRequest(c.requests, r.id);
    if p >= 0 {
      RequestReplaced(s.requests, c.requests, c.requestSeq, p, r, number);
    } else {
      RequestAdded(s.requests, c.requests, c.requestSeq, r, number);
    }
  }

  lemma {:induction false} RequestReplaced(rows: map<string, (RequestState, nat)>, requests: seq<RequestState>,
      numbers: seq<nat>, p: int, r: RequestState, number: nat)
    requires RequestsStored(rows, requests, numbers) && 0 <= p < |requests| && requests[p].id == r.id
    requires forall i, j :: 0 <= i < j < |requests| ==> requests[i].id != requests[j].id
    ensures RequestsStored(rows[r.id := (r, number)], requests[p := r], numbers[p := number])
  {
    var now := requests[p := r];
    forall id | id in rows[r.id := (r, number)] ensures FindRequest(now, id) >= 0 {
      assert now[if id == r.id then p else FindRequest(requests, id)].id == id;
    }
  }

  lemma {:induction false} RequestAdded(rows: map<string, (RequestState, nat)>, requests: seq<RequestState>,
      numbers: seq<nat>, r: RequestState, number: nat)
    requires RequestsStored(rows, requests, numbers) && FindRequest(requests, r.id) < 0
    ensures RequestsStored(rows[r.id := (r, number)], requests + [r], numbers + [number])
  {
    var now := requests + [r];
    forall id | id in rows[r.id := (r, number)] ensures FindRequest(now, id) >= 0 {
      assert now[if id == r.id then |requests| else FindRequest(requests, id)].id == id;
    }
  }
}
