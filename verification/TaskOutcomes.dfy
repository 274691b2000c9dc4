/** When a task ends, and with which outcome: what the agent's statuses say of it, over every run. */
module TaskOutcomes {
  import opened Options
  import opened Conversation
  import opened Tasks
  import opened TaskFacts
  import opened TaskTheorems
  import opened TaskRuns

  /** The agent is gone. */
  predicate Gone(status: Status) {
    status.lifecycle == Exited || status.lifecycle == Lifecycle.Failed
  }

  /** The turn that stopped is of the task. */
  predicate Stopped(stop: Option<Stop>, task: Task) {
    stop.Some? && stop.value.stoppedAt >= task.startedAt
  }

  /** What ends a task that noted why: a limit that stopped it, if there is one; the failure that
      is tried again is an error of it; and it completes exactly when it has no error then. */
  ghost predicate EndsAs(was: Task, after: Task, status: Status, why: seq<string>, now: int) {
    && after == was.(status := after.status, endedAt := Some(now), errors := after.errors, limit := after.limit)
    && (after.status == Limited <==> Stopped(status.limit, was))
    && after.limit == (if Stopped(status.limit, was) then status.limit else was.limit)
    && after.errors == was.errors + why
      + (if !Stopped(status.limit, was) && Stopped(status.retry, was) then [status.retry.value.message] else [])
    && (after.status == Completed <==> !Stopped(status.limit, was) && after.errors == [])
    && (after.status == TaskStatus.Failed <==> !Stopped(status.limit, was) && after.errors != [])
  }

  /** The other tasks than the one at i are as they were. */
  ghost predicate OthersStay(was: seq<Task>, now: seq<Task>, i: int) {
    |now| == |was| && forall j :: 0 <= j < |was| && j != i ==> now[j] == was[j]
  }

  /** Why a task ends with an agent that is gone. */
  function WhyGone(status: Status): seq<string> {
    if status.lifecycle == Exited then ["the agent exited"]
    else if status.lifecycle == Lifecycle.Failed then ["the agent failed"]
    else []
  }

  lemma EndedAs(was: Task, status: Status, why: seq<string>, now: int)
    ensures EndsAs(was, Ended(was.(errors := was.errors + why), status, now), status, why, now)
  {
    assert was.errors + [] == was.errors;
    assert was.errors + why + [] == was.errors + why;
  }

  /** A status ends the running task exactly when the agent is gone, or is idle and worked until
      then; it is to be confirmed exactly when the agent is idle, didn't work just before, but was
      seen working in the task. Otherwise the task goes on as it was. */
  lemma ReportEnds(t: Tracker, next: Status, now: int)
    requires t.Ok() && Good(t) && t.open >= 0
    ensures var (r, changed, confirm) := StatusChanged(t, next, now);
      && OthersStay(t.tasks, r.tasks, t.open) && r.status == next
      && (r.tasks[t.open].Final() <==> Gone(next) || (next.Idle() && t.status.agent == Working))
      && (confirm <==> !Gone(next) && next.Idle() && t.status.agent != Working && t.ran)
      && (if r.tasks[t.open].Final()
          then EndsAs(t.tasks[t.open], r.tasks[t.open], next, WhyGone(next), now) && r.open == -1 && changed == [t.open]
          else r.tasks == t.tasks && r.open == t.open && changed == [] && (r.ran <==> t.ran || next.agent == Working))
  {
    hide EndsAs, Ended, Fits;
    var task := t.tasks[t.open];
    EndedAs(task, next, WhyGone(next), now);
    assert task.errors + [] == task.errors;
  }

  /** A status is nothing to a tracker with no running task, but for the status itself. */
  lemma ReportLeaves(t: Tracker, next: Status, now: int)
    requires t.Ok() && t.open < 0
    ensures StatusChanged(t, next, now) == (t.(status := next), [], false)
  {
  }

  /** The grace period ends the running task exactly when the agent is idle and was seen working in it. */
  lemma GraceEnds(t: Tracker, now: int)
    requires t.Ok() && Good(t)
    ensures var (r, changed) := EndIfIdle(t, now);
      if t.open >= 0 && t.ran && t.status.Idle()
      then OthersStay(t.tasks, r.tasks, t.open) && r.open == -1 && changed == [t.open] && r.status == t.status
        && EndsAs(t.tasks[t.open], r.tasks[t.open], t.status, [], now)
      else r == t && changed == []
  {
    if t.open >= 0 {
      var task := t.tasks[t.open];
      EndedAs(task, t.status, [], now);
      assert task.errors + [] == task.errors;
    }
  }

  /** An error the agent reports is noted last in the running task, and nothing else changes. */
  lemma ErrorNoted(t: Tracker, isError: bool, message: string)
    requires t.Ok()
    ensures var (r, changed) := AgentError(t, isError, message);
      if t.open >= 0 && isError
      then OthersStay(t.tasks, r.tasks, t.open) && r == t.(tasks := r.tasks) && changed == [t.open]
        && r.tasks[t.open] == t.tasks[t.open].(errors := t.tasks[t.open].errors + [message])
      else r == t && changed == []
  {
  }

  // ---- Whether the agent was seen working ----

  /** The same task runs. */
  predicate SameRuns(a: Tracker, b: Tracker)
    requires a.Ok() && b.Ok()
  {
    a.open >= 0 && b.open >= 0 && a.tasks[a.open].id == b.tasks[b.open].id
      && a.tasks[a.open].startedAt == b.tasks[b.open].startedAt
  }

  /** The messages of each take have IDs of their own. */
  ghost predicate Named(steps: seq<Step>) {
    forall k :: 0 <= k < |steps| && steps[k].Take? ==> Distinct(steps[k].msgs)
  }

  lemma OwnOneRan(t: Tracker, msg: Message, changed: seq<int>)
    requires t.Ok()
    ensures var r := OwnOne(t, msg, changed).0;
      && r.status == t.status
      && (r.open >= 0 ==>
        ((r.open == t.open && r.ran == t.ran) || (r.open >= |t.tasks| && (r.ran <==> r.status.agent == Working))))
  {
  }

  lemma {:induction false} OwnRan(t: Tracker, msgs: seq<Message>, changed: seq<int>)
    requires t.Ok()
    ensures var r := Own(t, msgs, changed).0;
      && r.status == t.status
      && (r.open >= 0 ==>
        ((r.open == t.open && r.ran == t.ran) || (r.open >= |t.tasks| && (r.ran <==> r.status.agent == Working))))
    decreases |msgs|
  {
    if |msgs| > 0 {
      OwnOneRan(t, msgs[0], changed);
      var (s, c) := OwnOne(t, msgs[0], changed);
      OwnRan(s, msgs[1..], c);
    }
  }

  /** What pruning leaves running ran before. */
  lemma PrunedRan(t: Tracker, msgs: seq<Message>)
    requires t.Ok() && Good(t)
    ensures var p := Pruned(t, msgs).0;
      p.ran == t.ran && p.status == t.status && (p.open >= 0 ==> SameRuns(t, p))
  {
    var at := Positions(msgs);
    var kept := Keep(t.tasks, msgs, at).0;
    var p := Pruned(t, msgs).0;
    if p.open >= 0 {
      if |kept| == |t.tasks| {
        KeepPlaces(t.tasks, msgs, at, t.open);
      } else {
        var i := KeptFrom(t.tasks, msgs, at, p.open);
        assert i == t.open;
      }
    }
  }

  lemma DeriveRan(t: Tracker, msgs: seq<Message>)
    requires Owned(t) && Good(t) && Distinct(msgs)
    ensures var r := Derive(t, msgs).0;
      r.open >= 0 ==> (r.ran <==> (SameRuns(t, r) && t.ran) || r.status.agent == Working)
  {
    hide Pruned, Own, Replies, Keep;
    var (p, c0) := Pruned(t, msgs);
    var (s, c1) := Own(p, msgs, c0);
    var r := Derive(t, msgs).0;
    assert r == Replies(s, msgs, 0, Positions(msgs), c1).0;
    PrunedRan(t, msgs);
    OwnRan(p, msgs, c0);
    RepliesFrame(s, msgs, 0, Positions(msgs), c1);
    if r.open >= 0 {
      assert r.tasks[r.open].id == s.tasks[r.open].id && r.tasks[r.open].startedAt == s.tasks[r.open].startedAt;
      if r.open == p.open {
        OwnKeepsStart(p, msgs, c0, r.open);
      } else if t.open >= 0 {
        AddedIsNew(t, msgs, t.open, r.open);
      }
    }
  }

  lemma NextRan(t: Tracker, last: seq<Message>, step: Step)
    requires Tidy(t, last) && Proper(last, step) && (step.Take? ==> Distinct(step.msgs))
    ensures var r := Next(t, step, false).0;
      r.open >= 0 ==> (r.ran <==> (SameRuns(t, r) && t.ran) || r.status.agent == Working)
  {
    match step
    case Take(msgs, from) =>
      hide Derive, Messages;
      MessagesIsDerive(t, last, msgs, from);
      DeriveRan(t, msgs);
    case Report(status, now) =>
      if t.open >= 0 {
        ReportEnds(t, status, now);
      }
    case Reload(tasks, msgs, now) =>
      RestoreKeeps(t, tasks, msgs, now);
    case _ =>
  }

  // ---- Over every run ----

  /** The tracker after the first k steps. */
  function At(since: int, steps: seq<Step>, k: nat): (r: Tracker)
    requires k <= |steps|
    ensures r.Ok()
  {
    if k == 0 then New(since) else Next(At(since, steps, k - 1), steps[k - 1], false).0
  }

  function LastAt(steps: seq<Step>, k: nat): seq<Message>
    requires k <= |steps|
  {
    if k == 0 then [] else Last(LastAt(steps, k - 1), steps[k - 1])
  }

  /** Each call is one its callers make. */
  ghost predicate AllProper(steps: seq<Step>) {
    forall k :: 0 <= k < |steps| ==> Proper(LastAt(steps, k), steps[k])
  }

  lemma {:induction false} AtTidy(since: int, steps: seq<Step>, k: nat)
    requires k <= |steps| && AllProper(steps)
    ensures Tidy(At(since, steps, k), LastAt(steps, k))
  {
    hide Tidy, Proper;
    if k == 0 {
      NewTidy(since);
    } else {
      AtTidy(since, steps, k - 1);
      NextKeepsTidy(At(since, steps, k - 1), LastAt(steps, k - 1), steps[k - 1]);
    }
  }

  /** That is the run. */
  lemma {:induction false} AtIsRun(since: int, steps: seq<Step>, k: nat)
    requires k <= |steps|
    ensures Run(At(since, steps, k), steps[k..], false).0 == Run(New(since), steps, false).0
  {
    if k == 0 {
      assert steps[0..] == steps;
    } else {
      AtIsRun(since, steps, k - 1);
      assert steps[k - 1..][1..] == steps[k..];
    }
  }

  /** The agent works after the first k steps, and the task that runs after n has run since. */
  ghost predicate WorkedSince(since: int, steps: seq<Step>, k: nat, n: nat)
    requires k <= n <= |steps|
  {
    && At(since, steps, k).status.agent == Working
    && forall j :: k <= j <= n ==> SameRuns(At(since, steps, j), At(since, steps, n))
  }

  ghost predicate Worked(since: int, steps: seq<Step>, n: nat)
    requires n <= |steps|
  {
    exists k :: 0 <= k <= n && WorkedSince(since, steps, k, n)
  }

  lemma WorkedBefore(since: int, steps: seq<Step>, n: nat)
    requires 0 < n <= |steps| && SameRuns(At(since, steps, n - 1), At(since, steps, n))
    ensures Worked(since, steps, n - 1) ==> Worked(since, steps, n)
  {
    hide At;
    if Worked(since, steps, n - 1) {
      var k :| 0 <= k <= n - 1 && WorkedSince(since, steps, k, n - 1);
      assert WorkedSince(since, steps, k, n);
    }
  }

  lemma WorkedNow(since: int, steps: seq<Step>, n: nat)
    requires n <= |steps| && At(since, steps, n).open >= 0 && At(since, steps, n).status.agent == Working
    ensures Worked(since, steps, n)
  {
    hide At;
    assert WorkedSince(since, steps, n, n);
  }

  lemma WorkedThen(since: int, steps: seq<Step>, n: nat)
    requires n <= |steps| && Worked(since, steps, n) && At(since, steps, n).status.agent != Working
    ensures n > 0 && SameRuns(At(since, steps, n - 1), At(since, steps, n)) && Worked(since, steps, n - 1)
  {
    hide At;
    var k :| 0 <= k <= n && WorkedSince(since, steps, k, n);
    assert k < n;
    assert forall j :: k <= j <= n - 1 ==> SameRuns(At(since, steps, j), At(since, steps, n));
    assert WorkedSince(since, steps, k, n - 1);
  }

  lemma RanStep(since: int, steps: seq<Step>, n: nat)
    requires 0 < n <= |steps| && AllProper(steps) && Named(steps)
    ensures var t, r := At(since, steps, n - 1), At(since, steps, n);
      r.open >= 0 ==> (r.ran <==> (SameRuns(t, r) && t.ran) || r.status.agent == Working)
  {
    hide Next, Tidy, SameRuns;
    AtTidy(since, steps, n - 1);
    NextRan(At(since, steps, n - 1), LastAt(steps, n - 1), steps[n - 1]);
  }

  lemma NoneRunsYet(since: int, steps: seq<Step>)
    ensures At(since, steps, 0).open < 0
  {
  }

  /** Over every run: the tracker takes the agent to have worked on the running task exactly when
      it did at some time since that task began. */
  lemma {:induction false} RanExactly(since: int, steps: seq<Step>, n: nat)
    requires n <= |steps| && AllProper(steps) && Named(steps) && At(since, steps, n).open >= 0
    ensures At(since, steps, n).ran <==> Worked(since, steps, n)
  {
    hide At, Worked, AllProper, Named;
    NoneRunsYet(since, steps);
    var t, r := At(since, steps, n - 1), At(since, steps, n);
    RanStep(since, steps, n);
    if r.status.agent == Working {
      WorkedNow(since, steps, n);
    } else {
      if SameRuns(t, r) {
        RanExactly(since, steps, n - 1);
        WorkedBefore(since, steps, n);
      }
      if Worked(since, steps, n) {
        WorkedThen(since, steps, n);
      }
    }
  }

  /** Over every run, what a status does to the running task follows from the statuses: it ends
      exactly when the agent is gone, or is idle and worked in the status before; whether it ends
      later, if the agent stays idle, is asked exactly when the agent worked earlier in the task. */
  lemma ReportExactly(since: int, steps: seq<Step>, next: Status, now: int)
    requires AllProper(steps) && Named(steps)
    ensures var n := |steps|;
      var t := At(since, steps, n);
      var (r, changed, confirm) := StatusChanged(t, next, now);
      && (t.open < 0 ==> r.tasks == t.tasks && !confirm)
      && (t.open >= 0 ==>
        && OthersStay(t.tasks, r.tasks, t.open)
        && (r.tasks[t.open].Final() <==> Gone(next) || (next.Idle() && t.status.agent == Working))
        && (confirm <==> !Gone(next) && next.Idle() && t.status.agent != Working && Worked(since, steps, n))
        && (r.tasks[t.open].Final() ==> EndsAs(t.tasks[t.open], r.tasks[t.open], next, WhyGone(next), now))
        && (!r.tasks[t.open].Final() ==> r.tasks == t.tasks))
  {
    hide At, Worked, EndsAs;
    AtTidy(since, steps, |steps|);
    var t := At(since, steps, |steps|);
    if t.open >= 0 {
      RanExactly(since, steps, |steps|);
      ReportEnds(t, next, now);
    } else {
      ReportLeaves(t, next, now);
    }
  }

  /** Over every run, a task that has a limit was stopped by it after it started, one that failed has
      errors, one that completed has none, and exactly one that runs didn't end. */
  lemma OutcomesFit(since: int, steps: seq<Step>, i: nat)
    requires AllProper(steps) && i < |At(since, steps, |steps|).tasks|
    ensures var task := At(since, steps, |steps|).tasks[i];
      && (task.status == Running <==> task.endedAt.None?)
      && (task.status == Limited <==> task.limit.Some?)
      && (task.limit.Some? ==> task.limit.value.stoppedAt >= task.startedAt)
      && (task.status == Completed ==> task.errors == []) && (task.status == TaskStatus.Failed ==> task.errors != [])
  {
    hide At;
    AtTidy(since, steps, |steps|);
  }

  // ---- Starting over, and from what was stored ----

  /** Nothing of the tasks before is left but the status the agent was last seen with. */
  lemma ResetIsNew(t: Tracker, now: int)
    ensures Tasks.Reset(t, now) == New(now).(status := t.status)
  {
  }

  lemma {:induction false} EndRunningEnds(t: Tracker, i: nat, now: int, changed: seq<int>, j: nat)
    requires i <= |t.tasks| && j < |t.tasks|
    ensures var r := EndRunning(t, i, now, changed).0;
      if j < i || t.tasks[j].Final() then r.tasks[j] == t.tasks[j]
      else EndsAs(t.tasks[j], r.tasks[j], t.status, [], now)
    decreases |t.tasks| - i
  {
    hide EndsAs, Ended;
    if i < |t.tasks| {
      var task := t.tasks[i];
      EndedAs(task, t.status, [], now);
      assert task.errors + [] == task.errors;
      if task.Final() {
        EndRunningEnds(t, i + 1, now, changed, j);
      } else {
        EndRunningEnds(End(t, i, now), i + 1, now, changed + [i], j);
      }
    }
  }

  /** Of the stored tasks that are taken back, those that were over are as they were, and those that
      ran end at once. */
  lemma RestoreEnds(t: Tracker, tasks: seq<Task>, msgs: seq<Message>, now: int, j: nat)
    requires j < |Matching(tasks, msgs, Positions(msgs))|
    ensures var kept, r := Matching(tasks, msgs, Positions(msgs)), Tasks.Restore(t, tasks, msgs, now).0;
      && |r.tasks| == |kept|
      && if kept[j].Final() then r.tasks[j] == kept[j] else EndsAs(kept[j], r.tasks[j], t.status, [], now)
  {
    hide EndsAs, Matching;
    EndRunningEnds(Restored(t, tasks, msgs), 0, now, [], j);
  }
}
