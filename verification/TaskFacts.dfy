/** What the tracker's operations keep: each message has one owner, each task
    its message, and each reply is settled. */
module TaskFacts {
  import opened Options
  import opened Conversation
  import opened Tasks

  /** No message is held by two tasks. */
  ghost predicate Disjoint(tasks: seq<Task>) {
    forall i, j, id :: 0 <= i < j < |tasks| && tasks[i].Holds(id) ==> !tasks[j].Holds(id)
  }

  /** Each task's messages are among msgs, and its first is the user's, sent when the task started. */
  ghost predicate Grounded(tasks: seq<Task>, msgs: seq<Message>) {
    forall i :: 0 <= i < |tasks| ==> GroundedOne(tasks[i], msgs, Positions(msgs))
  }

  ghost predicate GroundedOne(task: Task, msgs: seq<Message>, at: map<int, int>)
    requires PositionsOk(at, msgs)
  {
    Matched(task, msgs, at) && forall i :: 0 <= i < |task.steered| ==> task.steered[i] in at
  }

  /** Every user message has an owner. */
  ghost predicate AllOwned(owners: map<int, int>, msgs: seq<Message>) {
    forall msg :: msg in msgs && msg.role == User ==> msg.id in owners
  }

  /** Task i has its reply, if there is one. */
  ghost predicate Settled(tasks: seq<Task>, i: int, msgs: seq<Message>, at: map<int, int>)
    requires 0 <= i < |tasks| && PositionsOk(at, msgs)
  {
    tasks[i].id in at ==>
      var reply := ReplyAt(tasks, msgs, i, at);
      reply < 0 || tasks[i].replyId == Some(msgs[reply].id)
  }

  /** The tracker holds what msgs say, so a change need not go through them all. */
  ghost predicate Synced(t: Tracker, msgs: seq<Message>) {
    && t.ids == Ids(msgs) && InOrder(msgs)
    && TasksInOrder(t.tasks)
    && OwnersOk(t.tasks, t.owners)
    && Grounded(t.tasks, msgs)
    && AllOwned(t.owners, msgs)
    && forall i :: 0 <= i < |t.tasks| ==> Settled(t.tasks, i, msgs, Positions(msgs))
  }

  /** What holds between the calls to the tracker, whose last messages were msgs. */
  ghost predicate Inv(t: Tracker, msgs: seq<Message>) {
    && t.Ok()
    && Disjoint(t.tasks)
    && (t.inOrder && !t.rederive ==> Synced(t, msgs))
  }

  // ---- Owners ----

  lemma OwnersPush(tasks: seq<Task>, task: Task, owners: map<int, int>, r: map<int, int>)
    requires OwnersOk(tasks, owners)
    requires forall id :: id in r <==> id in owners || task.Holds(id)
    requires forall id :: id in r ==> r[id] == if task.Holds(id) then |tasks| else owners[id]
    ensures OwnersOk(tasks + [task], r)
  {
    var all := tasks + [task];
    forall id | id in r
      ensures 0 <= r[id] < |all| && all[r[id]].Holds(id)
      ensures forall j :: r[id] < j < |all| ==> !all[j].Holds(id)
    {
      assert !task.Holds(id) ==> id in owners && tasks[owners[id]].Holds(id);
    }
  }

  lemma OwnAllOwns(owners: map<int, int>, task: Task, n: int)
    ensures var r := OwnAll(owners[task.id := n], task.steered, n);
      (forall id :: id in r <==> id in owners || task.Holds(id))
      && forall id :: id in r ==> r[id] == if task.Holds(id) then n else owners[id]
  {
  }

  lemma OwnersOfNext(front: seq<Task>, task: Task, tasks: seq<Task>)
    requires tasks == front + [task] && OwnersOk(front, OwnersOf(front))
    ensures OwnersOk(tasks, OwnersOf(tasks))
  {
    hide OwnersOk, OwnAll;
    assert tasks[..|front|] == front;
    var before := OwnersOf(front);
    var r := OwnAll(before[task.id := |front|], task.steered, |front|);
    assert r == OwnersOf(tasks);
    hide OwnersOf;
    OwnAllOwns(before, task, |front|);
    OwnersPush(front, task, before, r);
  }

  lemma {:induction false} OwnersOfOk(tasks: seq<Task>)
    ensures OwnersOk(tasks, OwnersOf(tasks))
  {
    if |tasks| > 0 {
      var n := |tasks| - 1;
      OwnersOfOk(tasks[..n]);
      OwnersOfNext(tasks[..n], tasks[n], tasks);
    }
  }

  lemma OwnersUnique(tasks: seq<Task>, a: map<int, int>, b: map<int, int>)
    requires OwnersOk(tasks, a) && OwnersOk(tasks, b)
    ensures a == b
  {
    assert forall id :: id in a <==> id in b;
    forall id | id in a
      ensures a[id] == b[id]
    {
      assert tasks[a[id]].Holds(id) && tasks[b[id]].Holds(id);
    }
  }

  // ---- The parts of a task a change leaves alone ----

  /** The tasks differ in what ends them at most. */
  ghost predicate SameShape(a: seq<Task>, b: seq<Task>) {
    |a| == |b| && forall i :: 0 <= i < |a| ==>
      b[i] == a[i].(status := b[i].status, endedAt := b[i].endedAt, errors := b[i].errors, limit := b[i].limit)
  }

  lemma ShapeKeepsOwners(a: seq<Task>, b: seq<Task>, owners: map<int, int>)
    requires SameShape(a, b)
    ensures Disjoint(a) ==> Disjoint(b)
    ensures OwnersOk(a, owners) ==> OwnersOk(b, owners)
  {
    assert forall i, id :: 0 <= i < |a| ==> (b[i].Holds(id) <==> a[i].Holds(id));
  }

  lemma ShapeKeepsSettled(a: seq<Task>, b: seq<Task>, i: int, msgs: seq<Message>, at: map<int, int>)
    requires SameShape(a, b) && 0 <= i < |a| && PositionsOk(at, msgs) && Settled(a, i, msgs, at)
    ensures Settled(b, i, msgs, at)
  {
    assert b[i].id == a[i].id && b[i].replyId == a[i].replyId;
    assert i + 1 < |a| ==> b[i + 1].id == a[i + 1].id;
  }

  lemma ShapeKeepsInv(t: Tracker, r: Tracker, msgs: seq<Message>)
    requires Inv(t, msgs) && r.Ok() && SameShape(t.tasks, r.tasks)
    requires r == t.(tasks := r.tasks, open := r.open, ran := r.ran, status := r.status)
    ensures Inv(r, msgs)
  {
    ShapeKeepsOwners(t.tasks, r.tasks, t.owners);
    if t.inOrder && !t.rederive {
      var at := Positions(msgs);
      forall i | 0 <= i < |r.tasks|
        ensures GroundedOne(r.tasks[i], msgs, at) && Settled(r.tasks, i, msgs, at)
      {
        assert GroundedOne(t.tasks[i], msgs, at);
        ShapeKeepsSettled(t.tasks, r.tasks, i, msgs, at);
      }
    }
  }

  lemma EndShape(t: Tracker, i: int, now: int)
    requires 0 <= i < |t.tasks|
    ensures SameShape(t.tasks, End(t, i, now).tasks)
  {
  }

  lemma EndErrorShape(t: Tracker, i: int, error: string, now: int)
    requires 0 <= i < |t.tasks|
    ensures SameShape(t.tasks, End(AddError(t, i, error), i, now).tasks)
  {
    EndShape(AddError(t, i, error), i, now);
  }

  lemma StatusShape(t: Tracker, next: Status, now: int)
    requires t.Ok()
    ensures var r := StatusChanged(t, next, now).0;
      SameShape(t.tasks, r.tasks) && r == t.(tasks := r.tasks, open := r.open, ran := r.ran, status := r.status)
  {
    var s := t.(status := next);
    if t.open < 0 {
      return;
    }
    if next.lifecycle == Exited {
      EndErrorShape(s, t.open, "the agent exited", now);
    } else if next.lifecycle == Lifecycle.Failed {
      EndErrorShape(s, t.open, "the agent failed", now);
    } else {
      EndShape(s, t.open, now);
    }
  }

  // ---- Own ----

  lemma {:induction false} OwnAppend(t: Tracker, a: seq<Message>, b: seq<Message>, changed: seq<int>)
    requires t.Ok()
    ensures Own(t, a + b, changed) == (var (s, c) := Own(t, a, changed); Own(s, b, c))
    decreases |a|
  {
    if |a| == 0 {
      assert a + b == b;
    } else {
      var (s, c) := OwnOne(t, a[0], changed);
      assert (a + b)[1..] == a[1..] + b;
      OwnAppend(s, a[1..], b, c);
    }
  }

  lemma {:induction false} OwnNothing(t: Tracker, msgs: seq<Message>, changed: seq<int>)
    requires t.Ok() && AllOwned(t.owners, msgs)
    ensures Own(t, msgs, changed) == (t, changed)
    decreases |msgs|
  {
    if |msgs| > 0 {
      assert msgs[0] in msgs;
      OwnNothing(t, msgs[1..], changed);
    }
  }

  lemma EndGraceIds(t: Tracker, changed: seq<int>, now: int, ids: seq<int>)
    requires t.Ok()
    ensures var (g, c) := EndGrace(t, changed, now); EndGrace(t.(ids := ids), changed, now) == (g.(ids := ids), c)
  {
    hide Ended;
  }

  /** Owning doesn't look at the IDs the tracker took. */
  lemma OwnOneIds(t: Tracker, msg: Message, changed: seq<int>, ids: seq<int>)
    requires t.Ok()
    ensures var (r, c) := OwnOne(t, msg, changed); OwnOne(t.(ids := ids), msg, changed) == (r.(ids := ids), c)
  {
    hide EndGrace, HistoryTask, RunningTask;
    EndGraceIds(t, changed, msg.time, ids);
  }

  lemma {:induction false} OwnIds(t: Tracker, msgs: seq<Message>, changed: seq<int>, ids: seq<int>)
    requires t.Ok()
    ensures var (r, c) := Own(t, msgs, changed); Own(t.(ids := ids), msgs, changed) == (r.(ids := ids), c)
    decreases |msgs|
  {
    if |msgs| > 0 {
      var (s, c) := OwnOne(t, msgs[0], changed);
      OwnOneIds(t, msgs[0], changed, ids);
      OwnIds(s, msgs[1..], c, ids);
    }
  }

  /** Each held message has one owner. */
  ghost predicate Owned(t: Tracker) {
    t.Ok() && Disjoint(t.tasks) && OwnersOk(t.tasks, t.owners)
  }

  lemma DisjointPush(tasks: seq<Task>, task: Task)
    requires Disjoint(tasks) && forall i, id :: 0 <= i < |tasks| && tasks[i].Holds(id) ==> !task.Holds(id)
    ensures Disjoint(tasks + [task])
  {
  }

  lemma AddOwned(t: Tracker, task: Task)
    requires Owned(t) && task.id !in t.owners && task.steered == []
    ensures Owned(Add(t, task))
  {
    assert forall id :: task.Holds(id) <==> id == task.id;
    OwnersPush(t.tasks, task, t.owners, Add(t, task).owners);
    DisjointPush(t.tasks, task);
  }

  lemma SteerOwned(t: Tracker, msg: Message)
    requires Owned(t) && t.open >= 0 && msg.id !in t.owners
    ensures Owned(Steer(t, msg))
  {
    var r := Steer(t, msg);
    forall i, id | 0 <= i < |r.tasks|
      ensures r.tasks[i].Holds(id) <==> t.tasks[i].Holds(id) || (i == t.open && id == msg.id)
    {}
    assert forall i :: 0 <= i < |t.tasks| ==> !t.tasks[i].Holds(msg.id);
  }

  lemma EndGraceShape(t: Tracker, changed: seq<int>, now: int)
    requires t.Ok()
    ensures SameShape(t.tasks, EndGrace(t, changed, now).0.tasks)
  {
  }

  lemma OwnOneOwned(t: Tracker, msg: Message, changed: seq<int>)
    requires Owned(t)
    ensures var r := OwnOne(t, msg, changed).0;
      Owned(r) && t.owners.Keys <= r.owners.Keys && (msg.role == User ==> msg.id in r.owners)
  {
    if msg.role == User && msg.id !in t.owners {
      if msg.time < t.since {
        AddOwned(t, HistoryTask(msg));
      } else {
        var s := EndGrace(t, changed, msg.time).0;
        EndGraceShape(t, changed, msg.time);
        ShapeKeepsOwners(t.tasks, s.tasks, t.owners);
        if s.open >= 0 {
          SteerOwned(s, msg);
        } else {
          AddOwned(s, RunningTask(msg));
        }
      }
    }
  }

  lemma {:induction false} OwnOwned(t: Tracker, msgs: seq<Message>, changed: seq<int>)
    requires Owned(t)
    ensures var r := Own(t, msgs, changed).0;
      Owned(r) && t.owners.Keys <= r.owners.Keys && AllOwned(r.owners, msgs)
    decreases |msgs|
  {
    if |msgs| > 0 {
      OwnOneOwned(t, msgs[0], changed);
      var (s, c) := OwnOne(t, msgs[0], changed);
      OwnOwned(s, msgs[1..], c);
      assert forall msg :: msg in msgs ==> msg == msgs[0] || msg in msgs[1..];
    }
  }

  /** The tasks are of messages in msgs, in order if the tracker says so. */
  ghost predicate Ordered(t: Tracker, msgs: seq<Message>) {
    Grounded(t.tasks, msgs) && (t.inOrder ==> TasksInOrder(t.tasks))
  }

  lemma AddOrdered(t: Tracker, task: Task, msgs: seq<Message>)
    requires Ordered(t, msgs) && GroundedOne(task, msgs, Positions(msgs))
    ensures Ordered(Add(t, task), msgs)
  {
    var n := |t.tasks|;
    assert t.inOrder ==> forall i :: 0 <= i < n ==> t.tasks[i].id <= t.tasks[n - 1].id;
  }

  lemma SteerOrdered(t: Tracker, msg: Message, msgs: seq<Message>)
    requires t.Ok() && Ordered(t, msgs) && t.open >= 0 && msg.id in Positions(msgs)
    ensures Ordered(Steer(t, msg), msgs)
  {
    var r := Steer(t, msg);
    assert GroundedOne(t.tasks[t.open], msgs, Positions(msgs));
    assert GroundedOne(r.tasks[t.open], msgs, Positions(msgs));
  }

  lemma ShapeKeepsOrdered(t: Tracker, r: Tracker, msgs: seq<Message>)
    requires Ordered(t, msgs) && SameShape(t.tasks, r.tasks) && r.inOrder == t.inOrder
    ensures Ordered(r, msgs)
  {
    forall i | 0 <= i < |r.tasks|
      ensures GroundedOne(r.tasks[i], msgs, Positions(msgs))
    {
      assert GroundedOne(t.tasks[i], msgs, Positions(msgs));
    }
  }

  lemma OwnOneOrdered(t: Tracker, msg: Message, changed: seq<int>, msgs: seq<Message>)
    requires t.Ok() && Ordered(t, msgs) && msg in msgs && Distinct(msgs)
    ensures Ordered(OwnOne(t, msg, changed).0, msgs)
  {
    var i :| 0 <= i < |msgs| && msgs[i] == msg;
    PositionsDistinct(msgs, i);
    if msg.role == User && msg.id !in t.owners {
      if msg.time < t.since {
        AddOrdered(t, HistoryTask(msg), msgs);
      } else {
        var s := EndGrace(t, changed, msg.time).0;
        EndGraceShape(t, changed, msg.time);
        ShapeKeepsOrdered(t, s, msgs);
        if s.open >= 0 {
          SteerOrdered(s, msg, msgs);
        } else {
          AddOrdered(s, RunningTask(msg), msgs);
        }
      }
    }
  }

  lemma {:induction false} OwnOrdered(t: Tracker, part: seq<Message>, changed: seq<int>, msgs: seq<Message>)
    requires t.Ok() && Ordered(t, msgs) && Distinct(msgs) && forall msg :: msg in part ==> msg in msgs
    ensures Ordered(Own(t, part, changed).0, msgs)
    decreases |part|
  {
    if |part| > 0 {
      OwnOneOrdered(t, part[0], changed, msgs);
      var (s, c) := OwnOne(t, part[0], changed);
      OwnOrdered(s, part[1..], c, msgs);
    }
  }

  /** What owning changes: tasks are added at the end, and what tells a task's reply stays. */
  ghost predicate Extends(t: Tracker, r: Tracker) {
    && |r.tasks| >= |t.tasks| && r.since == t.since && r.ids == t.ids && r.rederive == t.rederive
    && (r.inOrder ==> t.inOrder)
    && (forall i :: 0 <= i < |t.tasks| ==> r.tasks[i].id == t.tasks[i].id && r.tasks[i].replyId == t.tasks[i].replyId)
  }

  lemma OwnOneExtends(t: Tracker, msg: Message, changed: seq<int>)
    requires t.Ok()
    ensures Extends(t, OwnOne(t, msg, changed).0)
  {
    hide Cut, Ended;
    assert Extends(t, EndGrace(t, changed, msg.time).0);
  }

  lemma {:induction false} OwnExtends(t: Tracker, msgs: seq<Message>, changed: seq<int>)
    requires t.Ok()
    ensures Extends(t, Own(t, msgs, changed).0)
    decreases |msgs|
  {
    if |msgs| > 0 {
      OwnOneExtends(t, msgs[0], changed);
      var (s, c) := OwnOne(t, msgs[0], changed);
      OwnExtends(s, msgs[1..], c);
    }
  }

  /** The tasks owning adds are of messages it was given. */
  lemma {:induction false} OwnAdds(t: Tracker, msgs: seq<Message>, changed: seq<int>, i: int)
    requires t.Ok() && |t.tasks| <= i < |Own(t, msgs, changed).0.tasks|
    ensures Own(t, msgs, changed).0.tasks[i].id in Ids(msgs)
    decreases |msgs|
  {
    if |msgs| > 0 {
      var (s, c) := OwnOne(t, msgs[0], changed);
      assert Ids(msgs) == [msgs[0].id] + Ids(msgs[1..]);
      if i < |s.tasks| {
        OwnExtends(s, msgs[1..], c);
      } else {
        OwnAdds(s, msgs[1..], c, i);
      }
    }
  }

  // ---- Replies ----

  /** The tasks differ in their replies at most. */
  ghost predicate SameButReplies(a: seq<Task>, b: seq<Task>) {
    |a| == |b| && forall i :: 0 <= i < |a| ==> b[i] == a[i].(replyId := b[i].replyId, endedAt := b[i].endedAt)
  }

  lemma {:induction false} RepliesFrame(t: Tracker, msgs: seq<Message>, k: int, at: map<int, int>, changed: seq<int>)
    requires 0 <= k <= |t.tasks| && PositionsOk(at, msgs)
    ensures var r := Replies(t, msgs, k, at, changed).0;
      SameButReplies(t.tasks, r.tasks) && forall i :: 0 <= i < k ==> r.tasks[i] == t.tasks[i]
    decreases |t.tasks| - k
  {
    if k < |t.tasks| {
      var (s, c) := ReplyOne(t, msgs, k, at, changed);
      RepliesFrame(s, msgs, k + 1, at, c);
    }
  }

  lemma ReplyOneSettles(t: Tracker, msgs: seq<Message>, i: int, at: map<int, int>, changed: seq<int>)
    requires 0 <= i < |t.tasks| && PositionsOk(at, msgs)
    ensures Settled(ReplyOne(t, msgs, i, at, changed).0.tasks, i, msgs, at)
  {
    var r := ReplyOne(t, msgs, i, at, changed).0;
    if t.tasks[i].id in at {
      assert ReplyAt(r.tasks, msgs, i, at) == ReplyAt(t.tasks, msgs, i, at);
    }
  }

  lemma SettledSame(a: seq<Task>, b: seq<Task>, i: int, msgs: seq<Message>, at: map<int, int>)
    requires 0 <= i < |a| && PositionsOk(at, msgs) && Settled(a, i, msgs, at)
    requires SameButReplies(a, b) && b[i] == a[i]
    ensures Settled(b, i, msgs, at)
  {
    if a[i].id in at {
      assert ReplyAt(b, msgs, i, at) == ReplyAt(a, msgs, i, at);
    }
  }

  lemma {:induction false} RepliesSettle(t: Tracker, msgs: seq<Message>, k: int, at: map<int, int>, changed: seq<int>,
      i: int)
    requires 0 <= k <= i < |t.tasks| && PositionsOk(at, msgs)
    ensures Settled(Replies(t, msgs, k, at, changed).0.tasks, i, msgs, at)
    decreases |t.tasks| - k
  {
    hide ReplyOne, Settled;
    var (s, c) := ReplyOne(t, msgs, k, at, changed);
    if k < i {
      RepliesSettle(s, msgs, k + 1, at, c, i);
    } else {
      ReplyOneSettles(t, msgs, i, at, changed);
      RepliesFrame(s, msgs, k + 1, at, c);
      SettledSame(s.tasks, Replies(s, msgs, k + 1, at, c).0.tasks, i, msgs, at);
    }
  }

  lemma {:induction false} ReplyApart(t: Tracker, msgs: seq<Message>, k: int, at: map<int, int>, changed: seq<int>,
      i: int, others: seq<int>)
    requires 0 <= k < i < |t.tasks| && PositionsOk(at, msgs)
    ensures var s := ReplyOne(t, msgs, k, at, changed).0;
      ReplyOne(s, msgs, i, at, others).0.tasks[i] == ReplyOne(t, msgs, i, at, changed).0.tasks[i]
  {
    hide LastReply;
    var s := ReplyOne(t, msgs, k, at, changed).0;
    assert t.tasks[i].id in at ==> ReplyAt(s.tasks, msgs, i, at) == ReplyAt(t.tasks, msgs, i, at);
  }

  /** The replies of the tasks don't depend on one another. */
  lemma {:induction false} RepliesAt(t: Tracker, msgs: seq<Message>, k: int, at: map<int, int>, changed: seq<int>,
      i: int)
    requires 0 <= k <= i < |t.tasks| && PositionsOk(at, msgs)
    ensures Replies(t, msgs, k, at, changed).0.tasks[i] == ReplyOne(t, msgs, i, at, changed).0.tasks[i]
    decreases i - k
  {
    hide ReplyOne, SameButReplies;
    var (s, c) := ReplyOne(t, msgs, k, at, changed);
    if k == i {
      RepliesFrame(s, msgs, k + 1, at, c);
    } else {
      RepliesAt(s, msgs, k + 1, at, c, i);
      ReplyApart(t, msgs, k, at, changed, i, c);
    }
  }

  /** Tasks that have their reply can be passed over. */
  lemma {:induction false} RepliesSkip(t: Tracker, msgs: seq<Message>, j: int, k: int, at: map<int, int>,
      changed: seq<int>)
    requires 0 <= j <= k <= |t.tasks| && PositionsOk(at, msgs)
    requires forall i :: j <= i < k ==> Settled(t.tasks, i, msgs, at)
    ensures Replies(t, msgs, j, at, changed) == Replies(t, msgs, k, at, changed)
    decreases k - j
  {
    if j < k {
      assert Settled(t.tasks, j, msgs, at);
      assert ReplyOne(t, msgs, j, at, changed) == (t, changed);
      RepliesSkip(t, msgs, j + 1, k, at, changed);
    }
  }

  /** The replies from position k on take only the positions of the messages of those tasks. */
  lemma {:induction false} RepliesAgree(t: Tracker, msgs: seq<Message>, k: int, a: map<int, int>, b: map<int, int>,
      changed: seq<int>)
    requires 0 <= k <= |t.tasks| && PositionsOk(a, msgs) && PositionsOk(b, msgs)
    requires forall i :: k <= i < |t.tasks| ==>
      t.tasks[i].id in a && t.tasks[i].id in b && a[t.tasks[i].id] == b[t.tasks[i].id]
    ensures Replies(t, msgs, k, a, changed) == Replies(t, msgs, k, b, changed)
    decreases |t.tasks| - k
  {
    if k < |t.tasks| {
      assert ReplyAt(t.tasks, msgs, k, a) == ReplyAt(t.tasks, msgs, k, b);
      var (s, c) := ReplyOne(t, msgs, k, a, changed);
      assert ReplyOne(t, msgs, k, b, changed) == (s, c);
      RepliesAgree(s, msgs, k + 1, a, b, c);
    }
  }

  lemma {:induction false} RepliesIds(t: Tracker, msgs: seq<Message>, k: int, at: map<int, int>, changed: seq<int>,
      ids: seq<int>)
    requires 0 <= k <= |t.tasks| && PositionsOk(at, msgs)
    ensures var (r, c) := Replies(t, msgs, k, at, changed);
      Replies(t.(ids := ids), msgs, k, at, changed) == (r.(ids := ids), c)
    decreases |t.tasks| - k
  {
    if k < |t.tasks| {
      var (s, c) := ReplyOne(t, msgs, k, at, changed);
      assert ReplyOne(t.(ids := ids), msgs, k, at, changed) == (s.(ids := ids), c);
      RepliesIds(s, msgs, k + 1, at, c, ids);
    }
  }
}
