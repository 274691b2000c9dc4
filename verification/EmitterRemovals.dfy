/** What messages that are taken back leave of the summary: it stays as it was exactly when none of
    them is of a task, but for one the last task doesn't show. */
module EmitterRemovals {
  import opened Options
  import opened Conversation
  import opened Tasks
  import opened TaskFacts
  import opened TaskTheorems
  import opened TaskRuns
  import opened TaskChanges
  import opened Replication
  import opened ConversationState
  import opened ConversationSteps
  import opened StateStore
  import opened Emitter
  import Spec = EmitterSpec
  import Messaging = EmitterMessages
  import Clients = EmitterClients
  import Summaries = EmitterSummary

  /** The task shows none of the messages that are gone: those added to it stay, and the agent's last
      message with a text after its start, of those that stay, is its reply, if there is one. */
  predicate Stays(task: Task, now: seq<Message>) {
    && task.id >= 0
    && (forall k :: 0 <= k < |task.steered| ==> 0 <= task.steered[k] < |now|)
    && var reply := LastReply(now, task.id + 1, |now|);
      reply < 0 || task.replyId == Some(reply)
  }

  /** No message that is gone started a task, and the last task shows none of them. */
  predicate Unaffected(tasks: seq<Task>, now: seq<Message>) {
    && (forall i :: 0 <= i < |tasks| ==> tasks[i].id < |now|)
    && (|tasks| > 0 ==> Stays(tasks[|tasks| - 1], now))
  }

  /** As many tasks, the last of which is the same. */
  predicate SameLast(was: seq<Task>, now: seq<Task>) {
    |now| == |was| && (|was| > 0 ==> now[|now| - 1] == was[|was| - 1])
  }

  // ---- The tasks that are kept ----

  lemma {:induction false} AnchoredStill(task: Task, was: seq<Message>, now: seq<Message>)
    requires Anchored(task, was) && SameStart(was, now) && IdsArePlaces(was)
    ensures Matched(task, now, Positions(now)) <==> task.id < |now|
  {
    MatchedIsAnchored(task, now);
  }

  lemma {:induction false} KeepLast(tasks: seq<Task>, msgs: seq<Message>, at: map<int, int>)
    requires PositionsOk(at, msgs) && |tasks| > 0 && Matched(tasks[|tasks| - 1], msgs, at)
    ensures var kept := Keep(tasks, msgs, at).0; |kept| > 0 && kept[|kept| - 1] == Trimmed(tasks[|tasks| - 1], at)
  {
  }

  lemma {:induction false} KeptAll(tasks: seq<Task>, msgs: seq<Message>, at: map<int, int>)
    requires PositionsOk(at, msgs)
    ensures |Keep(tasks, msgs, at).0| == |tasks| <==> forall i :: 0 <= i < |tasks| ==> Matched(tasks[i], msgs, at)
  {
    hide Matched;
    if |tasks| > 0 {
      KeptAll(tasks[..|tasks| - 1], msgs, at);
    }
  }

  /** When every task is kept, every user message that stays is owned still. */
  lemma {:induction false} StillOwned(t: Tracker, was: seq<Message>, now: seq<Message>)
    requires Owned(t) && AllOwned(t.owners, was) && IdsArePlaces(was) && SameStart(was, now) && |now| <= |was|
    requires |Keep(t.tasks, now, Positions(now)).0| == |t.tasks|
    ensures AllOwned(OwnersOf(Keep(t.tasks, now, Positions(now)).0), now)
  {
    hide OwnersOf, Keep;
    var at := Positions(now);
    var kept := Keep(t.tasks, now, at).0;
    OwnersOfOk(kept);
    forall msg | msg in now && msg.role == User ensures msg.id in OwnersOf(kept) {
      var i :| 0 <= i < |now| && now[i] == msg;
      assert was[i] in was;
      var o := t.owners[i];
      KeepPlaces(t.tasks, now, at, o);
      PlacedPositions(now, i);
      KeepIdsHas(t.tasks[o].steered, at, i);
      assert kept[o].Holds(i);
    }
  }

  // ---- The last task ----

  /** The steered messages that are kept are all of them exactly when they all stay. */
  lemma {:induction false} KeepIdsExactly(ids: seq<int>, now: seq<Message>)
    requires IdsArePlaces(now)
    ensures KeepIds(ids, Positions(now)) == ids <==> forall k :: 0 <= k < |ids| ==> 0 <= ids[k] < |now|
  {
    var at := Positions(now);
    forall id ensures id in at <==> 0 <= id < |now| {
      PlacedPositions(now, id);
    }
    if KeepIds(ids, at) == ids {
      forall k | 0 <= k < |ids| ensures 0 <= ids[k] < |now| {
        KeepIdsHas(ids, at, ids[k]);
      }
    } else {
      if forall k :: 0 <= k < |ids| ==> 0 <= ids[k] < |now| {
        KeepIdsAll(ids, at);
      }
    }
  }

  /** The last task after replying is as it was exactly when it shows none of the messages gone. */
  lemma {:induction false} LastExactly(p: Tracker, task: Task, now: seq<Message>, changed: seq<int>)
    requires p.Ok() && |p.tasks| > 0 && IdsArePlaces(now) && 0 <= task.id < |now|
    requires p.tasks[|p.tasks| - 1] == Trimmed(task, Positions(now))
    ensures var i := |p.tasks| - 1;
      Replies(p, now, 0, Positions(now), changed).0.tasks[i] == task <==> Stays(task, now)
  {
    hide Replies, KeepIds;
    var at, i := Positions(now), |p.tasks| - 1;
    RepliesAt(p, now, 0, at, changed, i);
    PlacedPositions(now, task.id);
    KeepIdsExactly(task.steered, now);
    var reply := ReplyAt(p.tasks, now, i, at);
    assert reply == LastReply(now, task.id + 1, |now|);
    assert reply >= 0 ==> now[reply].id == reply;
  }

  // ---- All tasks ----

  /** When every task is kept, deriving only replies. */
  lemma {:induction false} DerivedReplies(t: Tracker, was: seq<Message>, now: seq<Message>)
    requires Owned(t) && AllOwned(t.owners, was) && IdsArePlaces(was) && SameStart(was, now) && |now| <= |was|
    requires |Keep(t.tasks, now, Positions(now)).0| == |t.tasks|
    ensures var (p, c) := Pruned(t, now); Derive(t, now) == Replies(p, now, 0, Positions(now), c)
  {
    hide Keep, Replies, Own;
    var (p, c) := Pruned(t, now);
    StillOwned(t, was, now);
    OwnNothing(p, now, c);
  }

  lemma {:induction false} KeptStays(t: Tracker, was: seq<Message>, now: seq<Message>)
    requires Owned(t) && AllOwned(t.owners, was) && IdsArePlaces(was) && SameStart(was, now) && |now| <= |was|
    requires AllAnchored(t.tasks, was) && forall i :: 0 <= i < |t.tasks| ==> t.tasks[i].id < |now|
    ensures SameLast(t.tasks, Derive(t, now).0.tasks) <==> Unaffected(t.tasks, now)
  {
    hide Keep, Replies, Derive, Matched, SameStart, IdsArePlaces, Anchored, Stays;
    var at := Positions(now);
    forall i | 0 <= i < |t.tasks| ensures Matched(t.tasks[i], now, at) {
      assert Anchored(t.tasks[i], was);
      AnchoredStill(t.tasks[i], was, now);
    }
    KeptAll(t.tasks, now, at);
    DerivedReplies(t, was, now);
    if |t.tasks| > 0 {
      var task := t.tasks[|t.tasks| - 1];
      KeepLast(t.tasks, now, at);
      AnchoredAt(task, was, now);
      LastExactly(Pruned(t, now).0, task, now, Pruned(t, now).1);
    }
  }

  lemma {:induction false} AnchoredAt(task: Task, was: seq<Message>, now: seq<Message>)
    requires Anchored(task, was) && SameStart(was, now)
    ensures task.id >= 0 && IdsArePlaces(now)
  {
  }

  /** When as many tasks are derived, the last of which is the same, every one was kept. */
  lemma {:induction false} SameKept(t: Tracker, was: seq<Message>, now: seq<Message>)
    requires Tidy(t, was) && IdsArePlaces(was) && SameStart(was, now) && t.Ok()
    requires AllAnchored(t.tasks, was) && SameLast(t.tasks, Derive(t, now).0.tasks)
    ensures forall i :: 0 <= i < |t.tasks| ==> t.tasks[i].id < |now|
  {
    hide Keep, Own, Replies, Matched, Tidy, SameStart, Anchored;
    var at := Positions(now);
    if |t.tasks| > 0 {
      var (p, c0) := Pruned(t, now);
      var (s, c1) := Own(p, now, c0);
      var r := Derive(t, now).0;
      var last := t.tasks[|t.tasks| - 1];
      LastIsThere(t, was, now, last);
      KeepLast(t.tasks, now, at);
      OwnExtends(p, now, c0);
      RepliesFrame(s, now, 0, at, c1);
      OneWithId(t, was, now, |p.tasks| - 1);
      KeptAll(t.tasks, now, at);
      forall i | 0 <= i < |t.tasks| ensures t.tasks[i].id < |now| {
        assert Anchored(t.tasks[i], was);
        AnchoredStill(t.tasks[i], was, now);
      }
    }
  }

  lemma {:induction false} LastIsThere(t: Tracker, was: seq<Message>, now: seq<Message>, last: Task)
    requires t.Ok() && IdsArePlaces(was) && SameStart(was, now) && |t.tasks| > 0 && last == t.tasks[|t.tasks| - 1]
    requires AllAnchored(t.tasks, was) && SameLast(t.tasks, Derive(t, now).0.tasks)
    ensures Matched(last, now, Positions(now))
  {
    hide Derive;
    DerivedAnchored(t, now, |t.tasks| - 1);
    AnchoredStill(last, was, now);
  }

  /** No two of the tasks that are derived have the same ID. */
  lemma {:induction false} OneWithId(t: Tracker, was: seq<Message>, now: seq<Message>, i: int)
    requires Tidy(t, was) && t.Ok() && 0 <= i < |Derive(t, now).0.tasks|
    ensures var tasks := Derive(t, now).0.tasks; tasks[i].id == tasks[|tasks| - 1].id ==> i == |tasks| - 1
  {
    hide Derive;
    DeriveKeepsTidy(t, was, now);
    var tasks := Derive(t, now).0.tasks;
    DisjointIsDistinct(tasks);
  }

  /** The tasks after a removal: as many, with the same last one, exactly when no message that is gone
      started a task, and the last task shows none of them. */
  lemma {:induction false} TasksExactly(t: Tracker, was: seq<Message>, now: seq<Message>)
    requires Tidy(t, was) && !t.rederive && IdsArePlaces(was) && SameStart(was, now) && |now| <= |was|
    requires AllAnchored(t.tasks, was)
    ensures t.Ok() && (SameLast(t.tasks, Derive(t, now).0.tasks) <==> Unaffected(t.tasks, now))
  {
    hide SameLast, Derive, SameStart, AllAnchored;
    if Unaffected(t.tasks, now) {
      KeptStays(t, was, now);
    } else if SameLast(t.tasks, Derive(t, now).0.tasks) {
      SameKept(t, was, now);
      KeptStays(t, was, now);
    }
  }

  // ---- The summary ----

  /** What a removal leaves of the emitter's state, as far as the summary says it. */
  lemma {:induction false} RemovalIs(s: State, now: seq<Message>)
    requires Clients.Ready(s) && SameStart(s.c.messages, now) && |now| < |s.c.messages|
    ensures var (t, events, removed) := Messaging.EmitMessages(s, now);
      && removed && events == [] && t.c.tasks == Derive(s.t, now).0.tasks
      && Summaries.SameSummary(s, t.(c := t.c.(tasks := s.c.tasks)))
  {
    hide Spec.Sound, Aligned, Derive, Tidy, MessageEvents, ChangedCount, Messaging.MessageNumbers,
      Messaging.PutMessages, Messaging.CutFrom, TaskEvents, TaskNumbers, Messaging.TakeMessages, PutTasks,
      Messaging.EmitMessages, Messaging.NumbersLeft;
    Summaries.SoundPlaces(s);
    Messaging.CutPlaced(s.c.messages, now, 0);
    DerivedInRange(s.t, now);
    var (t, changed) := Derive(s.t, now);
    var n := s.number + ChangedCount(s.c.messages, now, |now|);
    var stored := Messaging.PutMessages(s.stored.TruncateMessages(|now|), s.c.messages, now, |now|, s.number);
    var f := Messaging.WithMessages(s.c, now, s.number).(taskSeq := Messaging.NumbersLeft(s, t, true));
    Messaging.TakeIs(s, now, true, stored, t, changed, f, n);
    Messaging.FewerIs(s, now);
  }

  lemma {:induction false} SummaryExactly(s: State, t: State, x: Summaries.Extra)
    requires Summaries.SameSummary(s, t.(c := t.c.(tasks := s.c.tasks)))
    ensures Summaries.SummaryOf(t, x) == Summaries.SummaryOf(s, x) <==> SameLast(s.c.tasks, t.c.tasks)
  {
  }

  lemma {:induction false} SoundTracker(s: State)
    requires Spec.Sound(s)
    ensures Tidy(s.t, s.c.messages) && s.c.tasks == s.t.tasks && AllAnchored(s.t.tasks, s.c.messages)
  {
  }

  /** Messages that are taken back leave the summary as it was exactly when none of them started a
      task, and the last task shows none of them. */
  lemma {:induction false} RemovalExactly(s: State, now: seq<Message>, x: Summaries.Extra)
    requires Clients.Ready(s) && !s.t.rederive && SameStart(s.c.messages, now) && |now| < |s.c.messages|
    ensures Summaries.SummaryOf(Messaging.EmitMessages(s, now).0, x) == Summaries.SummaryOf(s, x)
      <==> Unaffected(s.c.tasks, now)
  {
    hide Spec.Sound, Aligned, Tidy, Derive, SameStart, IdsArePlaces, AllAnchored, SameLast, Unaffected,
      Messaging.EmitMessages, Summaries.SummaryOf, Summaries.SameSummary;
    Summaries.SoundPlaces(s);
    SoundTracker(s);
    RemovalIs(s, now);
    SummaryExactly(s, Messaging.EmitMessages(s, now).0, x);
    TasksExactly(s.t, s.c.messages, now);
  }
}
