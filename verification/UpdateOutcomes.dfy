/** What the state says of an update that is over. */
module UpdateOutcomes {
  import opened Options
  import opened Updates

  /** The step ends the run under way because it failed: the check did, the download or the restart. */
  predicate Breaks(y: System, step: Step) {
    match step
    case Look(run, found) => At(y, run, Looking) && y.s.run == Some(run) && found == Error
    case Install(run, ok) => At(y, run, Installing) && y.s.run == Some(run) && !ok
    case Fail(run) => At(y, run, Reverted) && y.s.run == Some(run)
    case _ => false
  }

  /** The step is a request that begins another update, or one that the failed one is forgotten with. */
  predicate Clears(y: System, step: Step) {
    match step
    case Post(_, stopping, blocked) => y.s.run.None? && !stopping && !blocked
    case Delete => y.s.state != Restarting
    case _ => false
  }

  lemma StepFails(y: System, step: Step)
    requires Updates.Ok(y)
    ensures Next(y, step).s.state == UpdateState.Failed <==>
      (Breaks(y, step) || (y.s.state == UpdateState.Failed && !Clears(y, step)))
  {
    hide RunsOk, ChoicesOk;
    if step.Fail? && At(y, step.run, Reverted) {
      RevertedIsCurrent(y, step.run);
    }
  }

  lemma RevertedIsCurrent(y: System, run: nat)
    requires Updates.Ok(y) && At(y, run, Reverted)
    ensures y.s.run == Some(run)
  {
  }

  predicate BreaksAt(steps: seq<Step>, k: nat)
    requires k < |steps|
  {
    Breaks(Run(steps[..k]), steps[k])
  }

  predicate ClearsAt(steps: seq<Step>, k: nat)
    requires k < |steps|
  {
    Clears(Run(steps[..k]), steps[k])
  }

  /** A step made the run under way fail, since which nobody asked for another or cleared it. */
  ghost predicate FailedSince(steps: seq<Step>) {
    exists k :: 0 <= k < |steps| && BreaksAt(steps, k) && forall j :: k < j < |steps| ==> !ClearsAt(steps, j)
  }

  lemma SameAt(steps: seq<Step>, k: nat)
    requires k < |steps| - 1
    ensures BreaksAt(steps[..|steps| - 1], k) <==> BreaksAt(steps, k)
    ensures ClearsAt(steps[..|steps| - 1], k) <==> ClearsAt(steps, k)
  {
    hide Breaks, Clears, Run;
    assert steps[..|steps| - 1][..k] == steps[..k];
  }

  lemma SinceNext(steps: seq<Step>)
    requires |steps| > 0
    ensures var n := |steps| - 1;
      FailedSince(steps) <==> (BreaksAt(steps, n) || (FailedSince(steps[..n]) && !ClearsAt(steps, n)))
  {
    hide BreaksAt, ClearsAt;
    var n := |steps| - 1;
    var front := steps[..n];
    forall k | 0 <= k < n
      ensures BreaksAt(front, k) <==> BreaksAt(steps, k)
      ensures ClearsAt(front, k) <==> ClearsAt(steps, k)
    {
      SameAt(steps, k);
    }
    if FailedSince(front) && !ClearsAt(steps, n) {
      var k :| 0 <= k < n && BreaksAt(front, k) && forall j :: k < j < n ==> !ClearsAt(front, j);
      assert BreaksAt(steps, k) && forall j :: k < j < |steps| ==> !ClearsAt(steps, j);
    }
    if FailedSince(steps) && !BreaksAt(steps, n) {
      var k :| 0 <= k < |steps| && BreaksAt(steps, k) && forall j :: k < j < |steps| ==> !ClearsAt(steps, j);
      assert BreaksAt(front, k) && forall j :: k < j < n ==> !ClearsAt(front, j);
    }
  }

  /** Over every interleaving: the update counts as failed exactly when the last one that was under way
      failed, and nobody asked for another or cleared it since; otherwise it is idle, unless one is
      under way. */
  lemma {:induction false} FailedExactly(steps: seq<Step>)
    ensures Run(steps).s.state == UpdateState.Failed <==> FailedSince(steps)
    ensures Run(steps).s.state == Idle <==> Run(steps).s.run.None? && !FailedSince(steps)
  {
    hide Next, FailedSince, Breaks, Clears;
    RunOk(steps);
    if |steps| > 0 {
      var n := |steps| - 1;
      FailedExactly(steps[..n]);
      RunOk(steps[..n]);
      StepFails(Run(steps[..n]), steps[n]);
      SinceNext(steps);
    } else {
      NoneFailed(steps);
    }
    StatesAre(Run(steps).s);
  }

  lemma NoneFailed(steps: seq<Step>)
    requires |steps| == 0
    ensures !FailedSince(steps) && Run(steps).s.state == Idle
  {
  }

  lemma StatesAre(s: Status)
    requires StatusOk(s)
    ensures s.state == Idle <==> s.run.None? && s.state != UpdateState.Failed
  {
  }

  // ---- What a request does ----

  /** A request begins an update exactly when none is under way and nothing keeps it from it; one to
      cancel ends the one under way, unless it restarts by then. */
  lemma RequestsAnswered(y: System, now: bool, stopping: bool, blocked: bool)
    requires Updates.Ok(y)
    ensures var posted := Next(y, Post(now, stopping, blocked));
      && (posted.s.run != y.s.run <==> y.s.run.None? && !stopping && !blocked)
      && (posted.s.run != y.s.run ==> posted.s.run == Some(y.s.next) && posted.s.state == Checking)
      && (posted.s.run != y.s.run ==> At(posted, y.s.next, Looking))
      && (posted.s.run == y.s.run ==> posted.s.state == y.s.state && posted.stages == y.stages)
    ensures var deleted := Next(y, Delete);
      && (y.s.state == Restarting ==> deleted == y)
      && (y.s.state != Restarting ==> deleted.s.run.None? && deleted.s.state == Idle && !deleted.s.holding)
      && (y.s.state != Restarting && y.s.run.Some? ==>
        y.s.run.value in deleted.deleted && y.s.run.value in deleted.s.cancelled)
  {
    hide RunsOk, ChoicesOk;
  }

  /** The step is a request to restart at once, and the run is under way then. */
  predicate Hurries(y: System, step: Step, run: nat) {
    step.Post? && step.now && Next(y, step).s.run == Some(run) && !step.stopping
  }

  predicate HurriesAt(steps: seq<Step>, k: nat, run: nat)
    requires k < |steps|
  {
    Hurries(Run(steps[..k]), steps[k], run)
  }

  ghost predicate Hurried(steps: seq<Step>, run: nat) {
    exists k :: 0 <= k < |steps| && HurriesAt(steps, k, run)
  }

  lemma StepHurries(y: System, step: Step, run: nat)
    requires Updates.Ok(y)
    ensures run in Next(y, step).s.now <==> run in y.s.now || Hurries(y, step, run)
  {
    hide RunsOk, ChoicesOk;
  }

  lemma HurriedNext(steps: seq<Step>, run: nat)
    requires |steps| > 0
    ensures var n := |steps| - 1;
      Hurried(steps, run) <==> Hurried(steps[..n], run) || HurriesAt(steps, n, run)
  {
    hide Hurries, Run;
    var n := |steps| - 1;
    forall k | 0 <= k < n ensures HurriesAt(steps[..n], k, run) <==> HurriesAt(steps, k, run) {
      assert steps[..n][..k] == steps[..k];
    }
  }

  lemma {:induction false} NowIsHurried(steps: seq<Step>, run: nat)
    ensures run in Run(steps).s.now <==> Hurried(steps, run)
  {
    if |steps| > 0 {
      hide Next, Hurried, Hurries, Updates.Ok;
      var n := |steps| - 1;
      NowIsHurried(steps[..n], run);
      RunOk(steps[..n]);
      StepHurries(Run(steps[..n]), steps[n], run);
      HurriedNext(steps, run);
    }
  }

  /** A run that restarts the server saw the agent idle as it held the server's lock, or a request to
      restart at once came while it was under way. */
  lemma BeginsWhenIdle(steps: seq<Step>, run: nat)
    requires run in Run(steps).began
    ensures Run(steps).began[run] || Hurried(steps, run)
  {
    Coordinated(steps);
    NowIsHurried(steps, run);
  }

  // ---- An update that nothing stops ----

  /** The run is the one under way, and at the stage. */
  predicate Stands(y: System, run: nat, stage: Stage, state: UpdateState) {
    At(y, run, stage) && y.s.run == Some(run) && y.s.state == state
  }

  lemma FirstHalf(y: System, now: bool)
    requires Updates.Ok(y) && y.s.run.None? && y.lock.None?
    ensures var run := y.s.next;
      var looked := Next(Next(y, Post(now, false, false)), Look(run, Release));
      var installed := Next(Next(looked, Download(run)), Install(run, true));
      && Stands(looked, run, ToDownload, Checking) && Stands(installed, run, ToBegin(false), Downloading)
      && installed.lock.None?
  {
    hide StatusOk, RunsOk, ChoicesOk;
    var run := y.s.next;
    var posted := Next(y, Post(now, false, false));
    assert Stands(posted, run, Looking, Checking) && posted.lock.None?;
    var looked := Next(posted, Look(run, Release));
    assert Stands(looked, run, ToDownload, Checking) && looked.lock.None?;
  }

  lemma SecondHalf(y: System, run: nat, state: UpdateState)
    requires Stands(y, run, ToBegin(false), state) && y.lock.None?
    ensures var begun := Next(Next(y, TryBegin(run, true, false)), Mark(run));
      var restarts := Next(begun, SetUpdating(run));
      && begun.s.state == Restarting
      && Stands(restarts, run, Replacing, Restarting) && restarts.s.updating && restarts.s.holding
  {
    var chosen := Next(y, TryBegin(run, true, false));
    assert Stands(chosen, run, Chosen(true), state);
    var begun := Next(chosen, Mark(run));
    assert Stands(begun, run, Marked, Restarting) && begun.s.holding;
  }

  /** From a request to the restart, when the agent is idle: the release is downloaded and installed,
      and the server restarts with its queue held. */
  lemma GoesThrough(y: System, now: bool)
    requires Updates.Ok(y) && y.s.run.None? && y.lock.None?
    ensures var run := y.s.next;
      var looked := Next(Next(y, Post(now, false, false)), Look(run, Release));
      var installed := Next(Next(looked, Download(run)), Install(run, true));
      var begun := Next(Next(installed, TryBegin(run, true, false)), Mark(run));
      var restarts := Next(begun, SetUpdating(run));
      && looked.s.state == Checking && installed.s.state == Downloading && begun.s.state == Restarting
      && At(restarts, run, Replacing) && restarts.s.updating && restarts.s.holding && restarts.s.run == Some(run)
  {
    hide Next, Updates.Ok;
    FirstHalf(y, now);
    var looked := Next(Next(y, Post(now, false, false)), Look(y.s.next, Release));
    SecondHalf(Next(Next(looked, Download(y.s.next)), Install(y.s.next, true)), y.s.next, Downloading);
  }

  /** An agent that works has an update wait, with the queue held, until it looks again. */
  lemma WaitsForAgent(y: System, run: nat, restarts: bool)
    requires Updates.Ok(y) && y.s.run == Some(run) && At(y, run, ToBegin(false)) && y.lock.None? && run !in y.s.now
    ensures var waits := Next(Next(y, TryBegin(run, false, restarts)), BeginWait(run));
      && waits.s.state == Waiting && waits.s.holding && waits.lock.None? && At(waits, run, Asleep)
      && At(Next(waits, Wake(run)), run, ToBegin(true))
  {
    hide StatusOk, RunsOk, ChoicesOk;
  }
}
