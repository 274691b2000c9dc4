/** Which task each of the user's messages gets, which reply each task has, and which tasks stay,
    as the messages say it. */
module TaskOwners {
  import opened Options
  import opened Conversation
  import opened Tasks
  import opened TaskFacts
  import opened TaskTheorems
  import opened TaskRuns
  import opened TaskOutcomes

  /** The user's message msg started the task, which holds no other. */
  predicate StartedBy(task: Task, msg: Message) {
    && task.id == msg.id && task.startedAt == msg.time && task.prompt == Cut(msg.text, PromptLimit)
    && task.steered == [] && task.errors == [] && task.limit.None?
  }

  /** The running task goes on with what the user sends: it isn't in its grace period. */
  predicate GoesOn(t: Tracker)
    requires t.Ok()
  {
    t.open >= 0 && !(t.ran && t.status.Idle())
  }

  /** A user message no task holds gets one. Sent before the conversation was resumed, it is a task
      of its own that is over. Otherwise it is of the task that runs then: the one that ran, unless
      only its grace period kept that open, which the message ends; then it starts a task. */
  lemma OwnsOne(t: Tracker, msg: Message, changed: seq<int>)
    requires t.Ok() && msg.role == User && msg.id !in t.owners
    ensures var r := OwnOne(t, msg, changed).0;
      var n := |t.tasks|;
      && msg.id in r.owners && r.owners == t.owners[msg.id := r.owners[msg.id]]
      && r.since == t.since && r.status == t.status
      && (if msg.time < t.since then
            && |r.tasks| == n + 1 && r.tasks[..n] == t.tasks && r.owners[msg.id] == n
            && StartedBy(r.tasks[n], msg) && r.tasks[n].status == Completed && r.tasks[n].endedAt == Some(msg.time)
            && r.tasks[n].replyId.None? && r.open == t.open && r.ran == t.ran
          else
            && r.owners[msg.id] == r.open >= 0 && !(r.ran && r.status.Idle())
            && (if GoesOn(t) then
                  && r.open == t.open && OthersStay(t.tasks, r.tasks, r.open)
                  && r.tasks[r.open] == t.tasks[t.open].(steered := t.tasks[t.open].steered + [msg.id])
                else
                  && r.open == n && |r.tasks| == n + 1
                  && StartedBy(r.tasks[n], msg) && r.tasks[n].status == Running && r.tasks[n].endedAt.None?
                  && (t.open < 0 ==> r.tasks[..n] == t.tasks)
                  && (t.open >= 0 ==> OthersStay(t.tasks, r.tasks[..n], t.open))
                  && (t.open >= 0 ==> EndsAs(t.tasks[t.open], r.tasks[t.open], t.status, [], msg.time))))
  {
    hide EndsAs, Cut;
    if t.open >= 0 {
      var task := t.tasks[t.open];
      hide Ended;
      EndedAs(task, t.status, [], msg.time);
      assert task.errors + [] == task.errors;
    }
  }

  // ---- All messages of a take ----

  /** A task goes on as the open one, with whatever else the user sent since. */
  lemma {:induction false} OwnGoesOn(t: Tracker, msgs: seq<Message>, changed: seq<int>)
    requires t.Ok() && GoesOn(t)
    ensures var r := Own(t, msgs, changed).0; r.open == t.open && GoesOn(r)
    decreases |msgs|
  {
    if |msgs| > 0 {
      var (s, c) := OwnOne(t, msgs[0], changed);
      OneGoesOn(t, msgs[0], changed);
      OwnGoesOn(s, msgs[1..], c);
    }
  }

  lemma OneGoesOn(t: Tracker, msg: Message, changed: seq<int>)
    requires t.Ok() && GoesOn(t)
    ensures var r := OwnOne(t, msg, changed).0; r.open == t.open && GoesOn(r)
  {
  }

  /** What is owned stays so, by the same task; and since when the user's messages are news stays. */
  lemma {:induction false} OwnersStay(t: Tracker, msgs: seq<Message>, changed: seq<int>, id: int)
    requires t.Ok() && id in t.owners
    ensures var r := Own(t, msgs, changed).0; id in r.owners && r.owners[id] == t.owners[id]
    decreases |msgs|
  {
    if |msgs| > 0 {
      var (s, c) := OwnOne(t, msgs[0], changed);
      OwnerStays(t, msgs[0], changed, id);
      OwnersStay(s, msgs[1..], c, id);
    }
  }

  lemma OwnerStays(t: Tracker, msg: Message, changed: seq<int>, id: int)
    requires t.Ok() && id in t.owners
    ensures var r := OwnOne(t, msg, changed).0; id in r.owners && r.owners[id] == t.owners[id]
  {
  }

  lemma OwnsOnly(t: Tracker, msg: Message, changed: seq<int>, id: int)
    requires t.Ok() && id !in t.owners && id != msg.id
    ensures var r := OwnOne(t, msg, changed).0; id !in r.owners && r.since == t.since
  {
  }

  /** Message m of msgs, which no task held, is of a task as it says. */
  ghost predicate Placed(r: Tracker, since: int, msg: Message)
    requires r.Ok()
  {
    && msg.id in r.owners
    && (if msg.time < since then
          var task := r.tasks[r.owners[msg.id]];
          StartedBy(task, msg) && task.status == Completed && task.endedAt == Some(msg.time) && task.replyId.None?
        else r.owners[msg.id] == r.open && GoesOn(r))
  }

  lemma {:induction false} PlacedStays(t: Tracker, msgs: seq<Message>, changed: seq<int>, msg: Message)
    requires t.Ok() && Good(t) && Placed(t, t.since, msg)
    ensures Placed(Own(t, msgs, changed).0, t.since, msg)
  {
    hide Own, StartedBy;
    OwnersStay(t, msgs, changed, msg.id);
    if msg.time < t.since {
      OwnLeavesFinal(t, msgs, changed, t.owners[msg.id]);
    } else {
      OwnGoesOn(t, msgs, changed);
    }
  }

  lemma OnePlaced(t: Tracker, msg: Message, changed: seq<int>)
    requires t.Ok() && msg.role == User && msg.id !in t.owners
    ensures Placed(OwnOne(t, msg, changed).0, t.since, msg) && OwnOne(t, msg, changed).0.since == t.since
  {
    hide OwnOne, EndsAs, StartedBy, OthersStay;
    OwnsOne(t, msg, changed);
  }

  lemma {:induction false} OwnPlaces(t: Tracker, msgs: seq<Message>, changed: seq<int>, m: nat)
    requires t.Ok() && Good(t) && Distinct(msgs) && m < |msgs| && msgs[m].role == User && msgs[m].id !in t.owners
    ensures Placed(Own(t, msgs, changed).0, t.since, msgs[m])
    decreases |msgs|
  {
    hide OwnOne, Placed, Good;
    var (s, c) := OwnOne(t, msgs[0], changed);
    OwnOneGood(t, msgs[0], changed);
    if m == 0 {
      OnePlaced(t, msgs[0], changed);
      PlacedStays(s, msgs[1..], c, msgs[0]);
    } else {
      OwnsOnly(t, msgs[0], changed, msgs[m].id);
      OwnPlaces(s, msgs[1..], c, m - 1);
    }
  }

  // ---- The reply of a task ----

  /** The last of the agent's messages with a text between the positions lo and hi is at j. */
  ghost predicate LastReplyIs(msgs: seq<Message>, lo: int, hi: int, j: int) {
    0 <= lo < j < hi <= |msgs| && IsReply(msgs[j]) && forall k :: j < k < hi ==> !IsReply(msgs[k])
  }

  /** The messages of task i are those between the positions lo and hi: from its own to that of the next task. */
  ghost predicate Between(tasks: seq<Task>, msgs: seq<Message>, i: nat, lo: int, hi: int)
    requires i < |tasks|
  {
    && 0 <= lo < |msgs| && msgs[lo].id == tasks[i].id
    && (if i + 1 < |tasks| then 0 <= hi < |msgs| && msgs[hi].id == tasks[i + 1].id else hi == |msgs|)
  }

  lemma ReplyAtIs(tasks: seq<Task>, msgs: seq<Message>, i: nat, lo: int, hi: int)
    requires Distinct(msgs) && i < |tasks| && Between(tasks, msgs, i, lo, hi)
    ensures var at := Positions(msgs);
      && PositionsOk(at, msgs) && tasks[i].id in at
      && (forall j :: LastReplyIs(msgs, lo, hi, j) ==> ReplyAt(tasks, msgs, i, at) == j)
      && (ReplyAt(tasks, msgs, i, at) >= 0 ==> LastReplyIs(msgs, lo, hi, ReplyAt(tasks, msgs, i, at)))
  {
    PositionsDistinct(msgs, lo);
    if i + 1 < |tasks| {
      PositionsDistinct(msgs, hi);
    }
  }

  /** Deriving leaves each task with the reply the messages say: the agent's last with a text
      before the next task's message. */
  lemma RepliesAre(t: Tracker, msgs: seq<Message>, i: nat, lo: int, hi: int, j: int)
    requires t.Ok() && Distinct(msgs) && i < |Derive(t, msgs).0.tasks|
    requires Between(Derive(t, msgs).0.tasks, msgs, i, lo, hi) && LastReplyIs(msgs, lo, hi, j)
    ensures Derive(t, msgs).0.tasks[i].replyId == Some(msgs[j].id)
  {
    hide Own, Pruned, Replies, ReplyAt;
    var (p, c0) := Pruned(t, msgs);
    var (s, c1) := Own(p, msgs, c0);
    assert Derive(t, msgs) == Replies(s, msgs, 0, Positions(msgs), c1);
    RepliesSettle(s, msgs, 0, Positions(msgs), c1, i);
    ReplyAtIs(Derive(t, msgs).0.tasks, msgs, i, lo, hi);
  }

  // ---- What a take makes of the user's messages ----

  /** The task ended with its reply. */
  predicate EndsWith(task: Task, reply: Message) {
    IsReply(reply) && task.replyId == Some(reply.id) && task.endedAt == Some(reply.time)
  }

  /** The task of a message sent before the conversation was resumed: it is over, with the reply or with the message. */
  ghost predicate HistoryOf(task: Task, msg: Message, msgs: seq<Message>) {
    && StartedBy(task, msg) && task.status == Completed
    && match task.replyId
       case None => task.endedAt == Some(msg.time)
       case Some(_) => exists j :: 0 <= j < |msgs| && EndsWith(task, msgs[j])
  }

  lemma ReplyOneHistory(t: Tracker, msgs: seq<Message>, i: nat, at: map<int, int>, changed: seq<int>, msg: Message)
    requires i < |t.tasks| && PositionsOk(at, msgs) && StartedBy(t.tasks[i], msg) && msg.time < t.since
    requires t.tasks[i].status == Completed && t.tasks[i].endedAt == Some(msg.time) && t.tasks[i].replyId.None?
    ensures HistoryOf(ReplyOne(t, msgs, i, at, changed).0.tasks[i], msg, msgs)
  {
    hide Cut;
    if t.tasks[i].id in at {
      var reply := ReplyAt(t.tasks, msgs, i, at);
      assert reply >= 0 ==> EndsWith(ReplyOne(t, msgs, i, at, changed).0.tasks[i], msgs[reply]);
    }
  }

  /** A task whose message is still there holds the message id. */
  ghost predicate Held(tasks: seq<Task>, msgs: seq<Message>, id: int) {
    exists i :: 0 <= i < |tasks| && tasks[i].Holds(id) && Matched(tasks[i], msgs, Positions(msgs))
  }

  /** After a take, each user message that no task held is of a task of its own that is over, if it
      was sent before the conversation was resumed; else it is of the task that runs. */
  lemma TakePlaces(t: Tracker, last: seq<Message>, msgs: seq<Message>, from: nat, m: nat)
    requires Tidy(t, last) && Agree(last, msgs, from) && Distinct(msgs)
    requires m < |msgs| && msgs[m].role == User && !Held(t.tasks, msgs, msgs[m].id)
    ensures var r := Messages(t, msgs, from).0;
      && msgs[m].id in r.owners
      && var task := r.tasks[r.owners[msgs[m].id]];
        && task.Holds(msgs[m].id)
        && (if msgs[m].time < t.since then HistoryOf(task, msgs[m], msgs)
            else r.owners[msgs[m].id] == r.open && task.status == Running)
  {
    hide Messages, Derive, HistoryOf;
    MessagesIsDerive(t, last, msgs, from);
    DeriveKeepsTidy(t, last, msgs);
    DerivePlaces(t, msgs, m);
  }

  lemma HeldIsOwned(t: Tracker, msgs: seq<Message>, id: int)
    requires Owned(t) && id in Positions(msgs)
    ensures id in Pruned(t, msgs).0.owners <==> Held(t.tasks, msgs, id)
  {
    var at := Positions(msgs);
    PrunedKeeps(t, msgs);
    var p := Pruned(t, msgs).0;
    if id in p.owners {
      var i := KeptFrom(t.tasks, msgs, at, p.owners[id]);
      KeepIdsHas(t.tasks[i].steered, at, id);
      assert t.tasks[i].Holds(id);
    }
    if Held(t.tasks, msgs, id) {
      var i :| 0 <= i < |t.tasks| && t.tasks[i].Holds(id) && Matched(t.tasks[i], msgs, at);
      var j := KeptTo(t.tasks, msgs, at, i);
      KeepIdsHas(t.tasks[i].steered, at, id);
      assert p.tasks[j].Holds(id);
    }
  }

  lemma DerivePlaces(t: Tracker, msgs: seq<Message>, m: nat)
    requires Owned(t) && Good(t) && Distinct(msgs)
    requires m < |msgs| && msgs[m].role == User && !Held(t.tasks, msgs, msgs[m].id)
    ensures var r := Derive(t, msgs).0;
      && msgs[m].id in r.owners
      && (if msgs[m].time < t.since then HistoryOf(r.tasks[r.owners[msgs[m].id]], msgs[m], msgs)
          else r.owners[msgs[m].id] == r.open && r.open >= 0)
  {
    hide Pruned, Own, Replies, HistoryOf, Good, ReplyOne;
    var (p, c0) := Pruned(t, msgs);
    var (s, c1) := Own(p, msgs, c0);
    assert Derive(t, msgs) == Replies(s, msgs, 0, Positions(msgs), c1);
    PositionsDistinct(msgs, m);
    HeldIsOwned(t, msgs, msgs[m].id);
    PrunedGood(t, msgs);
    PrunedSince(t, msgs);
    OwnPlaces(p, msgs, c0, m);
    OwnExtends(p, msgs, c0);
    if msgs[m].time < t.since {
      var i := s.owners[msgs[m].id];
      RepliesAt(s, msgs, 0, Positions(msgs), c1, i);
      ReplyOneHistory(s, msgs, i, Positions(msgs), c1, msgs[m]);
    }
  }

  lemma PrunedSince(t: Tracker, msgs: seq<Message>)
    requires t.Ok()
    ensures var p := Pruned(t, msgs).0; p.since == t.since && p.status == t.status && p.ran == t.ran
  {
  }

  // ---- Which task runs after a take ----

  /** The running task goes on with the user's messages when its own is still there. */
  lemma TakeGoesOn(t: Tracker, last: seq<Message>, msgs: seq<Message>, from: nat)
    requires Tidy(t, last) && Agree(last, msgs, from) && GoesOn(t)
    requires Matched(t.tasks[t.open], msgs, Positions(msgs))
    ensures SameRuns(t, Messages(t, msgs, from).0)
  {
    hide Messages, Pruned, Own, Replies, Keep;
    MessagesIsDerive(t, last, msgs, from);
    var at := Positions(msgs);
    var (p, c0) := Pruned(t, msgs);
    var (s, c1) := Own(p, msgs, c0);
    PrunedRan(t, msgs);
    PrunedRuns(t, msgs);
    OwnGoesOn(p, msgs, c0);
    OwnKeepsStart(p, msgs, c0, p.open);
    RepliesFrame(s, msgs, 0, at, c1);
  }

  lemma PrunedRuns(t: Tracker, msgs: seq<Message>)
    requires t.Ok() && Good(t) && t.open >= 0
    ensures Pruned(t, msgs).0.open >= 0 <==> Matched(t.tasks[t.open], msgs, Positions(msgs))
  {
    var at := Positions(msgs);
    var kept := Keep(t.tasks, msgs, at).0;
    if |kept| == |t.tasks| {
      KeptAt(t.tasks, msgs, at, t.open);
    } else if Matched(t.tasks[t.open], msgs, at) {
      var j := KeptTo(t.tasks, msgs, at, t.open);
      assert !kept[j].Final();
    } else if LastOpen(kept) >= 0 {
      var i := KeptFrom(t.tasks, msgs, at, LastOpen(kept));
    }
  }

  lemma {:induction false} KeptAt(tasks: seq<Task>, msgs: seq<Message>, at: map<int, int>, i: nat)
    requires PositionsOk(at, msgs) && i < |tasks| && |Keep(tasks, msgs, at).0| == |tasks|
    ensures Matched(tasks[i], msgs, at)
    decreases |tasks|
  {
    if i < |tasks| - 1 {
      KeptAt(tasks[..|tasks| - 1], msgs, at, i);
    }
  }

  /** Else the first message the user sent since, that no task holds, starts the one that runs. */
  lemma TakeStarts(t: Tracker, last: seq<Message>, msgs: seq<Message>, from: nat, m: nat)
    requires Tidy(t, last) && Agree(last, msgs, from) && Distinct(msgs)
    requires !GoesOn(t) || !Matched(t.tasks[t.open], msgs, Positions(msgs))
    requires m < |msgs| && IsNews(t, msgs, m) && forall k :: 0 <= k < m ==> !IsNews(t, msgs, k)
    ensures var r := Messages(t, msgs, from).0;
      r.open >= 0 && r.tasks[r.open].id == msgs[m].id && r.tasks[r.open].startedAt == msgs[m].time
  {
    hide Messages, Pruned, Own, Replies, Held;
    MessagesIsDerive(t, last, msgs, from);
    var at := Positions(msgs);
    var (p, c0) := Pruned(t, msgs);
    var (s, c1) := Own(p, msgs, c0);
    PrunedSince(t, msgs);
    PrunedRan(t, msgs);
    if t.open >= 0 {
      PrunedRuns(t, msgs);
    }
    forall k | 0 <= k <= m ensures IsNews(t, msgs, k) <==> Fresh(p, msgs[k]) {
      PositionsDistinct(msgs, k);
      HeldIsOwned(t, msgs, msgs[k].id);
    }
    OwnStarts(p, msgs, c0, m);
    RepliesFrame(s, msgs, 0, at, c1);
  }

  /** Message k is one the user sent since the conversation was resumed, that no task holds. */
  ghost predicate IsNews(t: Tracker, msgs: seq<Message>, k: nat)
    requires k < |msgs|
  {
    msgs[k].role == User && msgs[k].time >= t.since && !Held(t.tasks, msgs, msgs[k].id)
  }

  predicate Fresh(t: Tracker, msg: Message) {
    msg.role == User && msg.time >= t.since && msg.id !in t.owners
  }

  lemma {:induction false} OwnStarts(t: Tracker, msgs: seq<Message>, changed: seq<int>, m: nat)
    requires t.Ok() && Distinct(msgs) && !GoesOn(t)
    requires m < |msgs| && Fresh(t, msgs[m]) && forall k :: 0 <= k < m ==> !Fresh(t, msgs[k])
    ensures var r := Own(t, msgs, changed).0;
      r.open >= 0 && r.tasks[r.open].id == msgs[m].id && r.tasks[r.open].startedAt == msgs[m].time
    decreases |msgs|
  {
    var (s, c) := OwnOne(t, msgs[0], changed);
    if m == 0 {
      OneStarts(t, msgs[0], changed);
      OwnGoesOn(s, msgs[1..], c);
      OwnKeepsStart(s, msgs[1..], c, s.open);
    } else {
      forall k | 0 < k <= m ensures Fresh(s, msgs[k]) <==> Fresh(t, msgs[k]) {
        OneWaits(t, msgs[0], changed, msgs[k]);
      }
      OneWaits(t, msgs[0], changed, msgs[m]);
      OwnStarts(s, msgs[1..], c, m - 1);
    }
  }

  lemma OneStarts(t: Tracker, msg: Message, changed: seq<int>)
    requires t.Ok() && !GoesOn(t) && Fresh(t, msg)
    ensures var r := OwnOne(t, msg, changed).0;
      GoesOn(r) && r.tasks[r.open].id == msg.id && r.tasks[r.open].startedAt == msg.time
  {
    hide EndsAs, OwnOne;
    OwnsOne(t, msg, changed);
  }

  lemma OneWaits(t: Tracker, msg: Message, changed: seq<int>, other: Message)
    requires t.Ok() && !GoesOn(t) && !Fresh(t, msg) && other.id != msg.id
    ensures var r := OwnOne(t, msg, changed).0; !GoesOn(r) && (Fresh(r, other) <==> Fresh(t, other))
  {
    if msg.role == User && msg.id !in t.owners {
      assert msg.time < t.since;
      assert OwnOne(t, msg, changed).0 == Add(t, HistoryTask(msg));
    }
  }

  // ---- Which tasks stay ----

  /** A task is there after a take exactly when the user message that started it is. */
  lemma TakeKeeps(t: Tracker, last: seq<Message>, msgs: seq<Message>, from: nat, i: nat)
    requires Tidy(t, last) && Agree(last, msgs, from) && Distinct(msgs) && i < |t.tasks|
    ensures Has(Messages(t, msgs, from).0.tasks, t.tasks[i].id, t.tasks[i].startedAt) <==>
      exists m :: 0 <= m < |msgs| && msgs[m].id == t.tasks[i].id && msgs[m].role == User
        && msgs[m].time == t.tasks[i].startedAt
  {
    hide Messages;
    MessagesIsDerive(t, last, msgs, from);
    DeriveKeeps(t, msgs, i);
    MatchedMeans(t.tasks[i], msgs);
  }

  lemma MatchedMeans(task: Task, msgs: seq<Message>)
    requires Distinct(msgs)
    ensures Matched(task, msgs, Positions(msgs)) <==>
      exists m :: 0 <= m < |msgs| && msgs[m].id == task.id && msgs[m].role == User && msgs[m].time == task.startedAt
  {
    var at := Positions(msgs);
    if Matched(task, msgs, at) {
      PositionFound(msgs, task.id);
    }
    forall m | 0 <= m < |msgs| && msgs[m].id == task.id ensures task.id in at && at[task.id] == m {
      PositionsDistinct(msgs, m);
    }
  }

  lemma DeriveKeeps(t: Tracker, msgs: seq<Message>, i: nat)
    requires Owned(t) && Distinct(msgs) && i < |t.tasks|
    ensures Has(Derive(t, msgs).0.tasks, t.tasks[i].id, t.tasks[i].startedAt) <==>
      Matched(t.tasks[i], msgs, Positions(msgs))
  {
    hide Own, Replies, Matched;
    var at := Positions(msgs);
    var (p, c0) := Pruned(t, msgs);
    var (s, c1) := Own(p, msgs, c0);
    var r := Derive(t, msgs).0;
    RepliesFrame(s, msgs, 0, at, c1);
    if Matched(t.tasks[i], msgs, at) {
      var j := KeptTo(t.tasks, msgs, at, i);
      OwnKeepsStart(p, msgs, c0, j);
      assert r.tasks[j].id == t.tasks[i].id && r.tasks[j].startedAt == t.tasks[i].startedAt;
    }
    forall j | 0 <= j < |r.tasks| && r.tasks[j].id == t.tasks[i].id && r.tasks[j].startedAt == t.tasks[i].startedAt
      ensures Matched(t.tasks[i], msgs, at)
    {
      assert s.tasks[j].id == r.tasks[j].id && s.tasks[j].startedAt == r.tasks[j].startedAt;
      if j < |p.tasks| {
        OwnKeepsStart(p, msgs, c0, j);
        var k := KeptFrom(t.tasks, msgs, at, j);
        assert t.tasks[k].Holds(t.tasks[i].id) && t.tasks[i].Holds(t.tasks[i].id);
      } else {
        AddedIsNew(t, msgs, i, j);
      }
    }
  }

  // ---- The task of a rich message ----

  /** Of the task that runs, if one does; else of the latest that had started by then, if there is one. */
  lemma TaskAtIs(t: Tracker, at: int)
    requires t.Ok() && Good(t)
    ensures forall i :: 0 <= i < |t.tasks| && t.tasks[i].status == Running ==> TaskAt(t, at) == Some(t.tasks[i].id)
    ensures (forall j :: 0 <= j < |t.tasks| ==> t.tasks[j].Final()) ==>
      && (forall i :: Latest(t.tasks, at, i) ==> TaskAt(t, at) == Some(t.tasks[i].id))
      && ((forall i :: 0 <= i < |t.tasks| ==> t.tasks[i].startedAt > at) ==> TaskAt(t, at) == None)
  {
    assert forall i :: 0 <= i < |t.tasks| && t.tasks[i].status == Running ==> i == t.open;
    forall i | Latest(t.tasks, at, i) ensures LatestBy(t.tasks, at) == Some(t.tasks[i].id) {
      LatestUnique(t.tasks, at, i);
    }
  }

  lemma LatestUnique(tasks: seq<Task>, at: int, i: int)
    requires Latest(tasks, at, i)
    ensures LatestBy(tasks, at) == Some(tasks[i].id)
  {
    assert tasks[i].startedAt <= at;
  }

  // ---- The prompt ----

  /** At e the text is cut: no character begins after it, up to the limit. */
  ghost predicate CutAt(text: seq<byte>, prompt: seq<byte>, e: nat) {
    && e <= 1024 < |text| && prompt == text[..e] + [0xE2, 0x80, 0xA6] && (e == 0 || RuneStart(text[e]))
    && forall i :: e < i <= 1024 ==> !RuneStart(text[i])
  }

  /** A task's prompt is the message's text, or the characters that fit 1024 bytes and an ellipsis. */
  lemma PromptIs(msg: Message)
    ensures |msg.text| <= 1024 ==> HistoryTask(msg).prompt == RunningTask(msg).prompt == msg.text
    ensures |msg.text| > 1024 ==>
      HistoryTask(msg).prompt == RunningTask(msg).prompt && exists e :: CutAt(msg.text, RunningTask(msg).prompt, e)
  {
    if |msg.text| > 1024 {
      assert CutAt(msg.text, RunningTask(msg).prompt, Boundary(msg.text, 1024));
    }
  }
}
