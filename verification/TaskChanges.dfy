/** Which tasks a call to the tracker changes, when the messages' IDs are their
    positions: the others are as they were, and a task goes only with its message. */
module TaskChanges {
  import opened Conversation
  import opened Tasks
  import opened TaskFacts
  import opened TaskTheorems
  import opened TaskRuns
  import opened Replication
  import opened ConversationState
  import opened ConversationSteps

  predicate IdsArePlaces(msgs: seq<Message>) {
    forall i :: 0 <= i < |msgs| ==> msgs[i].id == i
  }

  /** The user message that started the task is at its ID. */
  predicate Anchored(task: Task, msgs: seq<Message>) {
    0 <= task.id < |msgs| && msgs[task.id].role == User && msgs[task.id].time == task.startedAt
  }

  ghost predicate AllAnchored(tasks: seq<Task>, msgs: seq<Message>) {
    forall i :: 0 <= i < |tasks| ==> Anchored(tasks[i], msgs)
  }

  lemma {:induction false} PlacedPositions(msgs: seq<Message>, id: int)
    requires IdsArePlaces(msgs)
    ensures id in Positions(msgs) <==> 0 <= id < |msgs|
    ensures id in Positions(msgs) ==> Positions(msgs)[id] == id
  {
    if |msgs| > 0 {
      PlacedPositions(msgs[..|msgs| - 1], id);
    }
  }

  lemma {:induction false} MatchedIsAnchored(task: Task, msgs: seq<Message>)
    requires IdsArePlaces(msgs)
    ensures Matched(task, msgs, Positions(msgs)) <==> Anchored(task, msgs)
  {
    PlacedPositions(msgs, task.id);
  }

  lemma {:induction false} DisjointIsDistinct(tasks: seq<Task>)
    requires Disjoint(tasks)
    ensures DistinctTasks(tasks)
  {
    forall i, j | 0 <= i < j < |tasks| ensures tasks[i].id != tasks[j].id {
      assert tasks[i].Holds(tasks[i].id) && tasks[j].Holds(tasks[j].id);
    }
  }

  /** Every derived task is of one of the messages. */
  lemma {:induction false} DerivedAnchored(t: Tracker, msgs: seq<Message>, i: int)
    requires t.Ok() && IdsArePlaces(msgs) && 0 <= i < |Derive(t, msgs).0.tasks|
    ensures Anchored(Derive(t, msgs).0.tasks[i], msgs)
  {
    var (p, c0) := Pruned(t, msgs);
    var (s, c1) := Own(p, msgs, c0);
    RepliesFrame(s, msgs, 0, Positions(msgs), c1);
    var task := Derive(t, msgs).0.tasks[i];
    assert task.id == s.tasks[i].id && task.startedAt == s.tasks[i].startedAt;
    if i < |p.tasks| {
      OwnKeepsStart(p, msgs, c0, i);
      var j := KeptFrom(t.tasks, msgs, Positions(msgs), i);
      MatchedIsAnchored(t.tasks[j], msgs);
    } else {
      var m := OwnAddsFrom(p, msgs, c0, i);
    }
  }

  /** A task whose message is still there stays. */
  lemma {:induction false} DerivedStays(t: Tracker, msgs: seq<Message>, i: int)
    requires t.Ok() && IdsArePlaces(msgs) && 0 <= i < |t.tasks| && Anchored(t.tasks[i], msgs)
    ensures FindTask(Derive(t, msgs).0.tasks, t.tasks[i].id) >= 0
  {
    var (p, c0) := Pruned(t, msgs);
    var (s, c1) := Own(p, msgs, c0);
    RepliesFrame(s, msgs, 0, Positions(msgs), c1);
    MatchedIsAnchored(t.tasks[i], msgs);
    var j := KeptTo(t.tasks, msgs, Positions(msgs), i);
    OwnKeepsStart(p, msgs, c0, j);
    var now := Derive(t, msgs).0.tasks;
    assert now[j].id == t.tasks[i].id;
  }

  /** The positions reported are of tasks there are. */
  lemma {:induction false} DerivedInRange(t: Tracker, msgs: seq<Message>)
    requires t.Ok()
    ensures var (r, changed) := Derive(t, msgs); InRange(changed, r.tasks)
  {
    var (p, c0) := Pruned(t, msgs);
    OwnMarks(p.tasks, p, msgs, c0);
    var (s, c1) := Own(p, msgs, c0);
    RepliesMarks(p.tasks, s, msgs, 0, Positions(msgs), c1);
    var (r, c2) := Derive(t, msgs);
    assert forall i :: 0 <= i < |c2| ==> c2[i] in c2;
  }

  /** A derived task that isn't reported changed is one there was. */
  lemma {:induction false} DerivedMarks(t: Tracker, msgs: seq<Message>)
    requires t.Ok()
    ensures var (r, changed) := Derive(t, msgs);
      forall i :: 0 <= i < |r.tasks| && i !in changed ==> r.tasks[i] in t.tasks
  {
    var (r, changed) := Derive(t, msgs);
    forall i | 0 <= i < |r.tasks| && i !in changed ensures r.tasks[i] in t.tasks {
      DeriveMarks(t, msgs, i);
    }
  }

  /** The messages keep their places, roles and times. */
  predicate SameStart(was: seq<Message>, now: seq<Message>) {
    IdsArePlaces(now) && forall i :: 0 <= i < |was| && i < |now| ==>
      now[i].role == was[i].role && now[i].time == was[i].time
  }

  /** After more messages, every task is changed, new, or as it was. */
  lemma {:induction false} DerivedCarried(t: Tracker, was: seq<Message>, now: seq<Message>)
    requires t.Ok() && Disjoint(t.tasks) && AllAnchored(t.tasks, was) && SameStart(was, now) && |was| <= |now|
    ensures var (r, changed) := Derive(t, now); Carried(t.tasks, r.tasks, changed) && AllAnchored(r.tasks, now)
  {
    hide Derive;
    var (r, changed) := Derive(t, now);
    DerivedInRange(t, now);
    DerivedMarks(t, now);
    forall i | 0 <= i < |t.tasks| ensures FindTask(r.tasks, t.tasks[i].id) >= 0 {
      DerivedStays(t, now, i);
    }
    forall i | 0 <= i < |r.tasks| ensures Anchored(r.tasks[i], now) {
      DerivedAnchored(t, now, i);
    }
  }

  /** The tasks at other positions than changed are as they were. */
  ghost predicate OnlyAt(was: seq<Task>, now: seq<Task>, changed: seq<int>) {
    && SameShape(was, now) && InRange(changed, now)
    && forall i :: 0 <= i < |was| && i !in changed ==> now[i] == was[i]
  }

  lemma {:induction false} OnlyAtCarried(was: seq<Task>, now: seq<Task>, changed: seq<int>, msgs: seq<Message>)
    requires OnlyAt(was, now, changed) && DistinctTasks(was) && AllAnchored(was, msgs)
    ensures InRange(changed, now) && Carried(was, now, changed) && DistinctTasks(now) && AllAnchored(now, msgs)
  {
    forall i | 0 <= i < |was| ensures FindTask(now, was[i].id) >= 0 {
      assert now[i].id == was[i].id;
    }
  }

  lemma {:induction false} EndOnly(t: Tracker, now: int)
    requires t.Ok() && t.open >= 0
    ensures OnlyAt(t.tasks, End(t, t.open, now).tasks, [t.open])
  {
    EndShape(t, t.open, now);
    assert t.open in [t.open];
  }

  lemma {:induction false} StatusOnly(t: Tracker, next: Status, now: int)
    requires t.Ok()
    ensures var (r, changed, _) := StatusChanged(t, next, now); OnlyAt(t.tasks, r.tasks, changed)
  {
    StatusShape(t, next, now);
    var (r, changed, _) := StatusChanged(t, next, now);
    if t.open >= 0 {
      assert t.open in [t.open];
    }
  }

  lemma {:induction false} GraceOnly(t: Tracker, now: int)
    requires t.Ok()
    ensures var (r, changed) := EndIfIdle(t, now); OnlyAt(t.tasks, r.tasks, changed)
  {
    if t.open >= 0 {
      EndOnly(t, now);
    }
  }

  lemma {:induction false} ErrorOnly(t: Tracker, isError: bool, message: string)
    requires t.Ok()
    ensures var (r, changed) := AgentError(t, isError, message); OnlyAt(t.tasks, r.tasks, changed)
  {
    if t.open >= 0 {
      assert t.open in [t.open];
    }
  }
}
