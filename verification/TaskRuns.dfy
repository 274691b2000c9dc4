/** What every run of the tracker keeps, whatever it takes: one running task,
    one owner for each of the user's messages, and outcomes that stay. */
module TaskRuns {
  import opened Options
  import opened Conversation
  import opened Tasks
  import opened TaskFacts
  import opened TaskTheorems

  /** What the task says fits how it ended: it has a limit exactly when one stopped it after it
      started, errors when it failed, and none when it completed. */
  ghost predicate Fits(task: Task) {
    && (task.Final() ==> task.endedAt.Some?)
    && (task.limit.Some? <==> task.status == Limited)
    && (task.limit.Some? ==> task.limit.value.stoppedAt >= task.startedAt)
    && (task.status == Completed ==> task.errors == [])
    && (task.status == TaskStatus.Failed ==> task.errors != [])
  }

  /** The running task is the open one, exactly the others have ended, and what each says fits
      how; the agent was seen working in the open one, if it works. */
  ghost predicate Good(t: Tracker) {
    && (forall i :: 0 <= i < |t.tasks| ==>
      (t.tasks[i].Final() <==> i != t.open) && (t.tasks[i].endedAt.Some? ==> t.tasks[i].Final()) && Fits(t.tasks[i]))
    && (t.open >= 0 && t.status.agent == Working ==> t.ran)
  }

  ghost predicate OneRunning(tasks: seq<Task>) {
    forall i, j :: 0 <= i < j < |tasks| ==> tasks[i].Final() || tasks[j].Final()
  }

  ghost predicate AllFit(tasks: seq<Task>) {
    forall i :: 0 <= i < |tasks| ==> Fits(tasks[i]) && (tasks[i].endedAt.Some? ==> tasks[i].Final())
  }

  // ---- One running task ----

  lemma {:induction false} KeepOneRunning(tasks: seq<Task>, msgs: seq<Message>, at: map<int, int>)
    requires PositionsOk(at, msgs) && OneRunning(tasks) && AllFit(tasks)
    ensures var kept := Keep(tasks, msgs, at).0; OneRunning(kept) && AllFit(kept)
  {
    if |tasks| > 0 {
      var n := |tasks| - 1;
      KeepOneRunning(tasks[..n], msgs, at);
      var kept := Keep(tasks[..n], msgs, at).0;
      forall i | 0 <= i < |kept|
        ensures kept[i].Final() || tasks[n].Final()
      {
        var j := KeptFrom(tasks[..n], msgs, at, i);
      }
    }
  }

  /** When none is dropped, each kept task is where it was. */
  lemma {:induction false} KeepPlaces(tasks: seq<Task>, msgs: seq<Message>, at: map<int, int>, i: int)
    requires PositionsOk(at, msgs) && |Keep(tasks, msgs, at).0| == |tasks| && 0 <= i < |tasks|
    ensures Keep(tasks, msgs, at).0[i] == Trimmed(tasks[i], at)
    decreases |tasks|
  {
    var n := |tasks| - 1;
    if i < n {
      KeepPlaces(tasks[..n], msgs, at, i);
    }
  }

  lemma PrunedGood(t: Tracker, msgs: seq<Message>)
    requires t.Ok() && Good(t)
    ensures Good(Pruned(t, msgs).0)
  {
    var at := Positions(msgs);
    var kept := Keep(t.tasks, msgs, at).0;
    KeepOneRunning(t.tasks, msgs, at);
    if |kept| == |t.tasks| {
      forall i | 0 <= i < |kept|
        ensures kept[i].Final() <==> t.tasks[i].Final()
      {
        KeepPlaces(t.tasks, msgs, at, i);
      }
    } else if LastOpen(kept) >= 0 {
      var i := KeptFrom(t.tasks, msgs, at, LastOpen(kept));
      assert i == t.open;
    }
  }

  lemma EndGood(t: Tracker, now: int)
    requires t.Ok() && t.open >= 0
    requires forall i :: 0 <= i < |t.tasks| && i != t.open ==> t.tasks[i].Final() && Fits(t.tasks[i])
    requires t.tasks[t.open].limit.None?
    ensures Good(End(t, t.open, now))
  {
  }

  lemma SteerGood(t: Tracker, msg: Message)
    requires t.Ok() && Good(t) && t.open >= 0
    ensures Good(Steer(t, msg))
  {
  }

  lemma AddGood(t: Tracker, msg: Message)
    requires t.Ok() && Good(t)
    ensures Good(Add(t, HistoryTask(msg)))
    ensures t.open < 0 ==> Good(Add(t, RunningTask(msg)).(open := |t.tasks|, ran := t.status.agent == Working))
  {
    hide Cut;
  }

  lemma OwnOneGood(t: Tracker, msg: Message, changed: seq<int>)
    requires t.Ok() && Good(t)
    ensures Good(OwnOne(t, msg, changed).0)
  {
    EndGraceGood(t, changed, msg.time);
    hide Good, Fits, EndGrace, Steer, Add, RunningTask, HistoryTask;
    var g := EndGrace(t, changed, msg.time).0;
    if g.open >= 0 {
      SteerGood(g, msg);
    } else {
      AddGood(g, msg);
    }
    AddGood(t, msg);
  }

  lemma EndGraceGood(t: Tracker, changed: seq<int>, now: int)
    requires t.Ok() && Good(t)
    ensures Good(EndGrace(t, changed, now).0)
  {
    if t.open >= 0 {
      EndGood(t, now);
    }
  }

  lemma {:induction false} OwnGood(t: Tracker, msgs: seq<Message>, changed: seq<int>)
    requires t.Ok() && Good(t)
    ensures Good(Own(t, msgs, changed).0)
    decreases |msgs|
  {
    if |msgs| > 0 {
      OwnOneGood(t, msgs[0], changed);
      var (s, c) := OwnOne(t, msgs[0], changed);
      OwnGood(s, msgs[1..], c);
    }
  }

  lemma ReplyOneGood(t: Tracker, msgs: seq<Message>, i: int, at: map<int, int>, changed: seq<int>)
    requires 0 <= i < |t.tasks| && PositionsOk(at, msgs) && Good(t)
    ensures Good(ReplyOne(t, msgs, i, at, changed).0)
  {
  }

  lemma {:induction false} RepliesGood(t: Tracker, msgs: seq<Message>, k: int, at: map<int, int>, changed: seq<int>)
    requires 0 <= k <= |t.tasks| && PositionsOk(at, msgs) && Good(t)
    ensures Good(Replies(t, msgs, k, at, changed).0)
    decreases |t.tasks| - k
  {
    if k < |t.tasks| {
      ReplyOneGood(t, msgs, k, at, changed);
      var (s, c) := ReplyOne(t, msgs, k, at, changed);
      RepliesGood(s, msgs, k + 1, at, c);
    }
  }

  lemma DeriveGood(t: Tracker, msgs: seq<Message>)
    requires t.Ok() && Good(t)
    ensures Good(Derive(t, msgs).0)
  {
    PrunedGood(t, msgs);
    var (p, c0) := Pruned(t, msgs);
    OwnGood(p, msgs, c0);
    var (s, c1) := Own(p, msgs, c0);
    RepliesGood(s, msgs, 0, Positions(msgs), c1);
  }

  lemma {:induction false} EndRunningGood(t: Tracker, i: int, now: int, changed: seq<int>)
    requires 0 <= i <= |t.tasks| && t.open == -1
    requires forall j :: 0 <= j < i ==> t.tasks[j].Final()
    requires forall j :: 0 <= j < |t.tasks| ==> Fits(t.tasks[j])
    ensures Good(EndRunning(t, i, now, changed).0)
    decreases |t.tasks| - i
  {
    if i < |t.tasks| {
      EndRunningGood(if t.tasks[i].Final() then t else End(t, i, now), i + 1, now,
                     if t.tasks[i].Final() then changed else changed + [i]);
    }
  }

  lemma {:induction false} EndRunningShape(t: Tracker, i: int, now: int, changed: seq<int>)
    requires 0 <= i <= |t.tasks|
    ensures var r := EndRunning(t, i, now, changed).0;
      SameShape(t.tasks, r.tasks) && r == t.(tasks := r.tasks, open := r.open, ran := r.ran)
        && (t.open == -1 ==> r.open == -1)
    decreases |t.tasks| - i
  {
    if i < |t.tasks| {
      EndRunningShape(if t.tasks[i].Final() then t else End(t, i, now), i + 1, now,
                      if t.tasks[i].Final() then changed else changed + [i]);
    }
  }

  lemma {:induction false} MatchingDisjoint(tasks: seq<Task>, msgs: seq<Message>, at: map<int, int>)
    requires PositionsOk(at, msgs) && Disjoint(tasks)
    ensures Disjoint(Matching(tasks, msgs, at))
  {
    if |tasks| > 0 {
      var n := |tasks| - 1;
      MatchingDisjoint(tasks[..n], msgs, at);
      var rest := Matching(tasks[..n], msgs, at);
      forall i, id | 0 <= i < |rest| && rest[i].Holds(id)
        ensures !tasks[n].Holds(id)
      {
        assert rest[i] in tasks[..n];
      }
    }
  }

  /** Exactly the tasks that are over say when they ended, and how fits. */
  lemma RestoreKeeps(t: Tracker, tasks: seq<Task>, msgs: seq<Message>, now: int)
    requires Disjoint(tasks) && forall i :: 0 <= i < |tasks| ==> Fits(tasks[i])
    ensures var r := Restore(t, tasks, msgs, now).0; Owned(r) && Good(r) && r.rederive && r.open == -1
  {
    var kept := Matching(tasks, msgs, Positions(msgs));
    MatchingDisjoint(tasks, msgs, Positions(msgs));
    OwnersOfOk(kept);
    var s := Restored(t, tasks, msgs);
    forall j | 0 <= j < |kept|
      ensures Fits(kept[j])
    {
      assert kept[j] in tasks;
    }
    EndRunningGood(s, 0, now, []);
    EndRunningShape(s, 0, now, []);
    ShapeKeepsOwners(kept, Restore(t, tasks, msgs, now).0.tasks, s.owners);
  }

  // ---- Runs ----

  /** A call to the tracker. */
  datatype Step =
    | Take(msgs: seq<Message>, from: nat)
    | Report(status: Status, now: int)
    | Grace(now: int)
    | Fail(isError: bool, message: string)
    | StartOver(now: int)
    | Reload(tasks: seq<Task>, msgs: seq<Message>, now: int)

  /** The call is one its callers make: from is the first message that changed,
      and the tasks stored are disjoint and say what fits how they ended. */
  ghost predicate Proper(last: seq<Message>, step: Step) {
    match step
    case Take(msgs, from) => Agree(last, msgs, from)
    case Reload(tasks, _, _) => Disjoint(tasks) && forall i :: 0 <= i < |tasks| ==> Fits(tasks[i])
    case _ => true
  }

  function Last(last: seq<Message>, step: Step): seq<Message> {
    match step
    case Take(msgs, _) => msgs
    case StartOver(_) => []
    case Reload(_, msgs, _) => msgs
    case _ => last
  }

  /** The tracker after step, and the positions that changed; slow derives all tasks at each change. */
  function Next(t: Tracker, step: Step, slow: bool): (r: (Tracker, seq<int>))
    requires t.Ok()
    ensures r.0.Ok()
  {
    match step
    case Take(msgs, from) => if slow then Derive(t, msgs) else Messages(t, msgs, from)
    case Report(status, now) => (var r := StatusChanged(t, status, now); (r.0, r.1))
    case Grace(now) => EndIfIdle(t, now)
    case Fail(isError, message) => AgentError(t, isError, message)
    case StartOver(now) => (Reset(t, now), [])
    case Reload(tasks, msgs, now) => Restore(t, tasks, msgs, now)
  }

  ghost predicate ProperRun(last: seq<Message>, steps: seq<Step>)
    decreases |steps|
  {
    |steps| == 0 || (Proper(last, steps[0]) && ProperRun(Last(last, steps[0]), steps[1..]))
  }

  /** The tracker after steps, and the positions each changed. */
  function Run(t: Tracker, steps: seq<Step>, slow: bool): (r: (Tracker, seq<seq<int>>))
    requires t.Ok()
    ensures r.0.Ok()
    decreases |steps|
  {
    if |steps| == 0 then (t, [])
    else
      var (s, changed) := Next(t, steps[0], slow);
      var (r, rest) := Run(s, steps[1..], slow);
      (r, [changed] + rest)
  }

  /** The messages after steps. */
  function LastOf(last: seq<Message>, steps: seq<Step>): seq<Message>
    decreases |steps|
  {
    if |steps| == 0 then last else LastOf(Last(last, steps[0]), steps[1..])
  }

  /** What holds between the calls: each user message has one owner, which owners
      names, and one task runs, the open one. */
  ghost predicate Tidy(t: Tracker, last: seq<Message>) {
    Inv(t, last) && Owned(t) && Good(t) && (!t.rederive ==> AllOwned(t.owners, last))
  }

  lemma NewTidy(since: int)
    ensures Tidy(New(since), [])
  {
  }

  lemma ShapeKeepsTidy(t: Tracker, r: Tracker, last: seq<Message>)
    requires Tidy(t, last) && r.Ok() && Good(r) && SameShape(t.tasks, r.tasks)
    requires r == t.(tasks := r.tasks, open := r.open, ran := r.ran, status := r.status)
    ensures Tidy(r, last)
  {
    ShapeKeepsInv(t, r, last);
    ShapeKeepsOwners(t.tasks, r.tasks, t.owners);
  }

  lemma DeriveKeepsTidy(t: Tracker, last: seq<Message>, msgs: seq<Message>)
    requires Tidy(t, last)
    ensures Tidy(Derive(t, msgs).0, msgs)
  {
    DeriveInv(t, msgs);
    DeriveGood(t, msgs);
    DeriveOwned(t, msgs);
  }

  lemma DeriveOwned(t: Tracker, msgs: seq<Message>)
    requires Owned(t)
    ensures Owned(Derive(t, msgs).0)
  {
    var (p, c0) := Pruned(t, msgs);
    PrunedKeeps(t, msgs);
    OwnOwned(p, msgs, c0);
    var (s, c1) := Own(p, msgs, c0);
    RepliesKeep(s, msgs, 0, Positions(msgs), c1);
  }

  lemma ReportGood(t: Tracker, status: Status, now: int)
    requires t.Ok() && Good(t)
    ensures Good(StatusChanged(t, status, now).0)
  {
    if t.open >= 0 {
      var s := t.(status := status);
      EndGood(s, now);
      EndGood(AddError(s, s.open, "the agent exited"), now);
      EndGood(AddError(s, s.open, "the agent failed"), now);
    }
  }

  lemma ReportKeepsTidy(t: Tracker, last: seq<Message>, status: Status, now: int)
    requires Tidy(t, last)
    ensures Tidy(StatusChanged(t, status, now).0, last)
  {
    StatusShape(t, status, now);
    ReportGood(t, status, now);
    ShapeKeepsTidy(t, StatusChanged(t, status, now).0, last);
  }

  lemma GraceKeepsTidy(t: Tracker, last: seq<Message>, now: int)
    requires Tidy(t, last)
    ensures Tidy(EndIfIdle(t, now).0, last)
  {
    assert Good(EndIfIdle(t, now).0);
    ShapeKeepsTidy(t, EndIfIdle(t, now).0, last);
  }

  lemma FailKeepsTidy(t: Tracker, last: seq<Message>, isError: bool, message: string)
    requires Tidy(t, last)
    ensures Tidy(AgentError(t, isError, message).0, last)
  {
    assert Good(AgentError(t, isError, message).0);
    ShapeKeepsTidy(t, AgentError(t, isError, message).0, last);
  }

  lemma NextKeepsTidy(t: Tracker, last: seq<Message>, step: Step)
    requires Tidy(t, last) && Proper(last, step)
    ensures Tidy(Next(t, step, false).0, Last(last, step))
  {
    match step
    case Take(msgs, from) =>
      MessagesIsDerive(t, last, msgs, from);
      DeriveKeepsTidy(t, last, msgs);
    case Report(status, now) =>
      ReportKeepsTidy(t, last, status, now);
    case Grace(now) =>
      GraceKeepsTidy(t, last, now);
    case Fail(isError, message) =>
      FailKeepsTidy(t, last, isError, message);
    case StartOver(now) =>
    case Reload(tasks, msgs, now) =>
      RestoreKeeps(t, tasks, msgs, now);
  }

  /** In every state a run reaches, the running task is the open one, exactly the
      others have ended, and each user message is of the one task owners names. */
  lemma {:induction false} RunKeepsTidy(t: Tracker, last: seq<Message>, steps: seq<Step>)
    requires Tidy(t, last) && ProperRun(last, steps)
    ensures Tidy(Run(t, steps, false).0, LastOf(last, steps))
    decreases |steps|
  {
    if |steps| > 0 {
      NextKeepsTidy(t, last, steps[0]);
      RunKeepsTidy(Next(t, steps[0], false).0, Last(last, steps[0]), steps[1..]);
    }
  }

  /** Over every run, taking only what changed leaves the tracker, and reports the
      changes, that deriving all tasks at every change of the messages would. */
  lemma {:induction false} FastRunIsSlow(t: Tracker, last: seq<Message>, steps: seq<Step>)
    requires Tidy(t, last) && ProperRun(last, steps)
    ensures Run(t, steps, false) == Run(t, steps, true)
    decreases |steps|
  {
    if |steps| > 0 {
      if steps[0].Take? {
        MessagesIsDerive(t, last, steps[0].msgs, steps[0].from);
      }
      NextKeepsTidy(t, last, steps[0]);
      FastRunIsSlow(Next(t, steps[0], false).0, Last(last, steps[0]), steps[1..]);
    }
  }

  // ---- Outcomes stay ----

  /** The task that started with the message id, sent at time at, is there. */
  ghost predicate Has(tasks: seq<Task>, id: int, at: int) {
    exists i :: 0 <= i < |tasks| && tasks[i].id == id && tasks[i].startedAt == at
  }

  /** It is over, with this outcome. */
  ghost predicate Over(tasks: seq<Task>, id: int, at: int, task: Task) {
    task.Final() && forall i :: 0 <= i < |tasks| && tasks[i].id == id && tasks[i].startedAt == at ==>
      SameOutcome(task, tasks[i])
  }

  ghost predicate SameOutcome(a: Task, b: Task) {
    b.status == a.status && b.prompt == a.prompt && b.errors == a.errors && b.limit == a.limit
  }

  lemma {:induction false} KeptTo(tasks: seq<Task>, msgs: seq<Message>, at: map<int, int>, i: int) returns (j: int)
    requires PositionsOk(at, msgs) && 0 <= i < |tasks| && Matched(tasks[i], msgs, at)
    ensures 0 <= j < |Keep(tasks, msgs, at).0| && Keep(tasks, msgs, at).0[j] == Trimmed(tasks[i], at)
    decreases |tasks|
  {
    var n := |tasks| - 1;
    if i < n {
      j := KeptTo(tasks[..n], msgs, at, i);
    } else {
      j := |Keep(tasks[..n], msgs, at).0|;
    }
  }

  lemma OwnOneLeavesFinal(t: Tracker, msg: Message, changed: seq<int>, i: int)
    requires t.Ok() && Good(t) && 0 <= i < |t.tasks| && t.tasks[i].Final()
    ensures OwnOne(t, msg, changed).0.tasks[i] == t.tasks[i]
  {
    var s := EndGrace(t, changed, msg.time).0;
    assert i != t.open && i != s.open;
    assert s.tasks[i] == t.tasks[i];
  }

  /** Owning leaves the tasks that are over, and those it adds are of the user's messages. */
  lemma {:induction false} OwnLeavesFinal(t: Tracker, msgs: seq<Message>, changed: seq<int>, i: int)
    requires t.Ok() && Good(t) && 0 <= i < |t.tasks| && t.tasks[i].Final()
    ensures Own(t, msgs, changed).0.tasks[i] == t.tasks[i]
    decreases |msgs|
  {
    if |msgs| > 0 {
      var (s, c) := OwnOne(t, msgs[0], changed);
      OwnOneLeavesFinal(t, msgs[0], changed, i);
      OwnOneGood(t, msgs[0], changed);
      OwnLeavesFinal(s, msgs[1..], c, i);
    }
  }

  lemma {:induction false} OwnAddsFrom(t: Tracker, msgs: seq<Message>, changed: seq<int>, i: int) returns (m: int)
    requires t.Ok() && |t.tasks| <= i < |Own(t, msgs, changed).0.tasks|
    ensures 0 <= m < |msgs| && msgs[m].role == User && msgs[m].id !in t.owners
    ensures var task := Own(t, msgs, changed).0.tasks[i]; task.id == msgs[m].id && task.startedAt == msgs[m].time
    decreases |msgs|
  {
    var (s, c) := OwnOne(t, msgs[0], changed);
    if i < |s.tasks| {
      m := 0;
      OwnKeepsStart(s, msgs[1..], c, i);
    } else {
      var n := OwnAddsFrom(s, msgs[1..], c, i);
      m := n + 1;
    }
  }

  lemma OwnOneKeepsStart(t: Tracker, msg: Message, changed: seq<int>, i: int)
    requires t.Ok() && 0 <= i < |t.tasks|
    ensures var task := OwnOne(t, msg, changed).0.tasks[i];
      task.id == t.tasks[i].id && task.startedAt == t.tasks[i].startedAt
  {
    var g := EndGrace(t, changed, msg.time).0;
    assert g.tasks[i].id == t.tasks[i].id && g.tasks[i].startedAt == t.tasks[i].startedAt;
  }

  lemma {:induction false} OwnKeepsStart(t: Tracker, msgs: seq<Message>, changed: seq<int>, i: int)
    requires t.Ok() && 0 <= i < |t.tasks|
    ensures var task := Own(t, msgs, changed).0.tasks[i];
      task.id == t.tasks[i].id && task.startedAt == t.tasks[i].startedAt
    decreases |msgs|
  {
    if |msgs| > 0 {
      var (s, c) := OwnOne(t, msgs[0], changed);
      OwnOneKeepsStart(t, msgs[0], changed, i);
      OwnKeepsStart(s, msgs[1..], c, i);
    }
  }

  /** The tasks owning adds aren't any of the tasks before it, kept or dropped. */
  lemma AddedIsNew(t: Tracker, msgs: seq<Message>, i: int, j: int)
    requires Owned(t) && Distinct(msgs) && 0 <= i < |t.tasks|
    requires var (p, c) := Pruned(t, msgs); |p.tasks| <= j < |Own(p, msgs, c).0.tasks|
    ensures var (p, c) := Pruned(t, msgs); var task := Own(p, msgs, c).0.tasks[j];
      !(task.id == t.tasks[i].id && task.startedAt == t.tasks[i].startedAt)
  {
    var (p, c) := Pruned(t, msgs);
    PrunedKeeps(t, msgs);
    var m := OwnAddsFrom(p, msgs, c, j);
    PositionsDistinct(msgs, m);
    if Matched(t.tasks[i], msgs, Positions(msgs)) {
      var k := KeptTo(t.tasks, msgs, Positions(msgs), i);
      assert p.tasks[k].Holds(t.tasks[i].id);
    }
  }

  lemma PrunedFinal(t: Tracker, msgs: seq<Message>, i: int, j: int)
    requires Owned(t) && Good(t) && 0 <= i < |t.tasks| && t.tasks[i].Final()
    requires var p := Pruned(t, msgs).0; 0 <= j < |p.tasks| && p.tasks[j].id == t.tasks[i].id
    ensures var p := Pruned(t, msgs).0; p.tasks[j].Final() && SameOutcome(t.tasks[i], p.tasks[j])
  {
    var k := KeptFrom(t.tasks, msgs, Positions(msgs), j);
    assert t.tasks[k].Holds(t.tasks[i].id) && t.tasks[i].Holds(t.tasks[i].id);
  }

  lemma DeriveLeavesOutcome(t: Tracker, msgs: seq<Message>, i: int, j: int)
    requires Owned(t) && Good(t) && Distinct(msgs) && 0 <= i < |t.tasks| && t.tasks[i].Final()
    requires var r := Derive(t, msgs).0;
      0 <= j < |r.tasks| && r.tasks[j].id == t.tasks[i].id && r.tasks[j].startedAt == t.tasks[i].startedAt
    ensures SameOutcome(t.tasks[i], Derive(t, msgs).0.tasks[j])
  {
    var (p, c0) := Pruned(t, msgs);
    var (s, c1) := Own(p, msgs, c0);
    RepliesFrame(s, msgs, 0, Positions(msgs), c1);
    assert Derive(t, msgs).0.tasks[j].id == s.tasks[j].id
      && Derive(t, msgs).0.tasks[j].startedAt == s.tasks[j].startedAt;
    if j < |p.tasks| {
      OwnKeepsStart(p, msgs, c0, j);
      PrunedFinal(t, msgs, i, j);
      PrunedGood(t, msgs);
      OwnLeavesFinal(p, msgs, c0, j);
    } else {
      AddedIsNew(t, msgs, i, j);
    }
  }

  /** The messages step gives have IDs of their own, and step doesn't start over. */
  ghost predicate Lasting(step: Step) {
    match step
    case Take(msgs, _) => Distinct(msgs)
    case StartOver(_) => false
    case Reload(_, _, _) => false
    case _ => true
  }

  lemma SameTask(tasks: seq<Task>, i: int, j: int)
    requires Disjoint(tasks) && 0 <= i < |tasks| && 0 <= j < |tasks| && tasks[i].id == tasks[j].id
    ensures i == j
  {
    assert tasks[i].Holds(tasks[i].id) && tasks[j].Holds(tasks[i].id);
  }

  lemma ReportLeavesFinal(t: Tracker, status: Status, now: int, i: int)
    requires t.Ok() && Good(t) && 0 <= i < |t.tasks| && t.tasks[i].Final()
    ensures StatusChanged(t, status, now).0.tasks[i] == t.tasks[i]
  {
    assert i != t.open;
  }

  /** A task that is over keeps its outcome while it is there. */
  lemma NextLeavesOutcome(t: Tracker, last: seq<Message>, step: Step, i: int, j: int)
    requires Tidy(t, last) && Proper(last, step) && Lasting(step) && 0 <= i < |t.tasks| && t.tasks[i].Final()
    requires var r := Next(t, step, false).0;
      0 <= j < |r.tasks| && r.tasks[j].id == t.tasks[i].id && r.tasks[j].startedAt == t.tasks[i].startedAt
    ensures SameOutcome(t.tasks[i], Next(t, step, false).0.tasks[j])
  {
    match step
    case Take(msgs, from) =>
      MessagesIsDerive(t, last, msgs, from);
      DeriveLeavesOutcome(t, msgs, i, j);
    case Report(status, now) =>
      StatusShape(t, status, now);
      SameTask(t.tasks, i, j);
      ReportLeavesFinal(t, status, now, i);
    case Grace(now) =>
      SameTask(t.tasks, i, j);
    case Fail(isError, message) =>
      SameTask(t.tasks, i, j);
  }

  /** The steps give the messages IDs of their own, and keep the task there. */
  ghost predicate Keeping(t: Tracker, steps: seq<Step>, id: int, at: int)
    requires t.Ok()
    decreases |steps|
  {
    Has(t.tasks, id, at)
    && (|steps| > 0 ==> Lasting(steps[0]) && Keeping(Next(t, steps[0], false).0, steps[1..], id, at))
  }

  /** However long a task that is over stays, whatever is taken back and derived
      again: its outcome is the one it had. */
  lemma {:induction false} RunLeavesOutcome(t: Tracker, last: seq<Message>, steps: seq<Step>, id: int, at: int,
      task: Task)
    requires Tidy(t, last) && ProperRun(last, steps) && Keeping(t, steps, id, at) && Over(t.tasks, id, at, task)
    ensures Over(Run(t, steps, false).0.tasks, id, at, task)
    decreases |steps|
  {
    if |steps| > 0 {
      var s := Next(t, steps[0], false).0;
      NextKeepsTidy(t, last, steps[0]);
      var i :| 0 <= i < |t.tasks| && t.tasks[i].id == id && t.tasks[i].startedAt == at;
      forall j | 0 <= j < |s.tasks| && s.tasks[j].id == id && s.tasks[j].startedAt == at
        ensures SameOutcome(task, s.tasks[j])
      {
        NextLeavesOutcome(t, last, steps[0], i, j);
      }
      RunLeavesOutcome(s, Last(last, steps[0]), steps[1..], id, at, task);
    }
  }

  // ---- What changed ----

  /** b differs from a only at the positions changed. */
  ghost predicate Marks(a: seq<Task>, b: seq<Task>, changed: seq<int>) {
    && |a| <= |b|
    && (forall i :: 0 <= i < |b| && i !in changed ==> i < |a| && b[i] == a[i])
    && (forall c :: c in changed ==> 0 <= c < |b|)
  }

  lemma MarksMore(a: seq<Task>, b: seq<Task>, c: seq<Task>, before: seq<int>, after: seq<int>)
    requires Marks(a, b, before) && |b| <= |c|
    requires forall x :: x in before ==> x in after
    requires forall x :: x in after ==> 0 <= x < |c|
    requires forall i :: 0 <= i < |c| && i !in after ==> i < |b| && c[i] == b[i]
    ensures Marks(a, c, after)
  {
  }

  lemma EndGraceMarks(a: seq<Task>, t: Tracker, changed: seq<int>, now: int)
    requires t.Ok() && Marks(a, t.tasks, changed)
    ensures var (s, c) := EndGrace(t, changed, now); Marks(a, s.tasks, c)
  {
    var (s, c) := EndGrace(t, changed, now);
    MarksMore(a, t.tasks, s.tasks, changed, c);
  }

  lemma OwnOneMarks(a: seq<Task>, t: Tracker, msg: Message, changed: seq<int>)
    requires t.Ok() && Marks(a, t.tasks, changed)
    ensures var (s, c) := OwnOne(t, msg, changed); Marks(a, s.tasks, c)
  {
    var (s, c) := OwnOne(t, msg, changed);
    if msg.role == User && msg.id !in t.owners {
      if msg.time < t.since {
        MarksMore(a, t.tasks, s.tasks, changed, c);
      } else {
        var (g, c0) := EndGrace(t, changed, msg.time);
        EndGraceMarks(a, t, changed, msg.time);
        MarksMore(a, g.tasks, s.tasks, c0, c);
      }
    }
  }

  lemma {:induction false} OwnMarks(a: seq<Task>, t: Tracker, msgs: seq<Message>, changed: seq<int>)
    requires t.Ok() && Marks(a, t.tasks, changed)
    ensures var (s, c) := Own(t, msgs, changed); Marks(a, s.tasks, c)
    decreases |msgs|
  {
    if |msgs| > 0 {
      OwnOneMarks(a, t, msgs[0], changed);
      var (s, c) := OwnOne(t, msgs[0], changed);
      OwnMarks(a, s, msgs[1..], c);
    }
  }

  lemma {:induction false} RepliesMarks(a: seq<Task>, t: Tracker, msgs: seq<Message>, k: int, at: map<int, int>,
      changed: seq<int>)
    requires 0 <= k <= |t.tasks| && PositionsOk(at, msgs) && Marks(a, t.tasks, changed)
    ensures var (s, c) := Replies(t, msgs, k, at, changed); Marks(a, s.tasks, c)
    decreases |t.tasks| - k
  {
    if k < |t.tasks| {
      var (s, c) := ReplyOne(t, msgs, k, at, changed);
      MarksMore(a, t.tasks, s.tasks, changed, c);
      RepliesMarks(a, s, msgs, k + 1, at, c);
    }
  }

  lemma {:induction false} KeepMarks(tasks: seq<Task>, msgs: seq<Message>, at: map<int, int>, i: int)
    requires PositionsOk(at, msgs)
    requires var (kept, changed) := Keep(tasks, msgs, at); 0 <= i < |kept| && i !in changed
    ensures Keep(tasks, msgs, at).0[i] in tasks
  {
    var n := |tasks| - 1;
    var (kept, changed) := Keep(tasks[..n], msgs, at);
    if i < |kept| {
      KeepMarks(tasks[..n], msgs, at, i);
    } else {
      assert Trimmed(tasks[n], at) == tasks[n];
    }
  }

  /** A task at a position that isn't reported changed is as it was. */
  lemma DeriveMarks(t: Tracker, msgs: seq<Message>, i: int)
    requires t.Ok()
    requires var (r, changed) := Derive(t, msgs); 0 <= i < |r.tasks| && i !in changed
    ensures Derive(t, msgs).0.tasks[i] in t.tasks
  {
    var (p, c0) := Pruned(t, msgs);
    OwnMarks(p.tasks, p, msgs, c0);
    var (s, c1) := Own(p, msgs, c0);
    RepliesMarks(p.tasks, s, msgs, 0, Positions(msgs), c1);
    var (r, c2) := Derive(t, msgs);
    ChangedGrows(p, msgs, c0);
    RepliesChangedGrows(s, msgs, 0, Positions(msgs), c1);
    assert i !in c0 && r.tasks[i] == p.tasks[i];
    KeepMarks(t.tasks, msgs, Positions(msgs), i);
  }

  lemma {:induction false} ChangedGrows(t: Tracker, msgs: seq<Message>, changed: seq<int>)
    requires t.Ok()
    ensures forall c :: c in changed ==> c in Own(t, msgs, changed).1
    decreases |msgs|
  {
    if |msgs| > 0 {
      var (s, c) := OwnOne(t, msgs[0], changed);
      ChangedGrows(s, msgs[1..], c);
    }
  }

  lemma {:induction false} RepliesChangedGrows(t: Tracker, msgs: seq<Message>, k: int, at: map<int, int>,
      changed: seq<int>)
    requires 0 <= k <= |t.tasks| && PositionsOk(at, msgs)
    ensures forall c :: c in changed ==> c in Replies(t, msgs, k, at, changed).1
    decreases |t.tasks| - k
  {
    if k < |t.tasks| {
      var (s, c) := ReplyOne(t, msgs, k, at, changed);
      RepliesChangedGrows(s, msgs, k + 1, at, c);
    }
  }
}
