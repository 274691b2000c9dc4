/** The update of AgentAPI through its API: requests, and the goroutine of each run, interleave
    between the locks of the server and of the updater. */
module Updates {
  import opened Options

  datatype UpdateState = Idle | Checking | Downloading | Waiting | Restarting | Failed

  /** run is the update under way. holding keeps the queued messages for the new program; updating
      is set once the server restarts. now are the runs that don't wait for the agent. */
  datatype Status = Status(state: UpdateState, target: string, run: Option<nat>, holding: bool, updating: bool,
      next: nat, now: set<nat>, cancelled: set<nat>)

  predicate Holds(state: UpdateState) {
    state == Waiting || state == Restarting
  }

  predicate UnderWay(state: UpdateState) {
    state == Checking || state == Downloading || state == Waiting || state == Restarting
  }

  function Published(s: Status): Status {
    s.(holding := Holds(s.state))
  }

  // ---- What happens with the updater's lock held ----

  /** Run moves on to state; it reports false, changing nothing, once run is no longer under way. */
  function Advanced(s: Status, run: nat, state: UpdateState, target: string): (r: (Status, bool)) {
    if s.run != Some(run) then (s, false)
    else (Published(s.(state := state, target := if target != "" then target else s.target)), true)
  }

  function RunEnded(s: Status, run: nat, failed: bool): Status {
    if s.run != Some(run) then s
    else
      var ended := s.(run := None, cancelled := s.cancelled + {run});
      Published(if failed then ended.(state := Failed) else ended.(state := Idle, target := ""))
  }

  datatype PostAnswer = Refused | UnderWayAlready | Started(run: nat)

  /** A request to update: one at a time, and "now" hurries the one under way. */
  function Requested(s: Status, now: bool, allowed: bool, stopping: bool, blocked: bool): (r: (Status, PostAnswer)) {
    if !allowed || stopping then (s, Refused)
    else if s.run.Some? then (if now then s.(now := s.now + {s.run.value}) else s, UnderWayAlready)
    else if blocked then (s, Refused)
    else
      var run := s.next;
      (Published(s.(run := Some(run), next := run + 1, now := if now then s.now + {run} else s.now, state := Checking,
        target := "")), Started(run))
  }

  /** A request to cancel the update: it is refused once it restarts. */
  function Cancelled(s: Status, allowed: bool): (r: (Status, bool)) {
    if !allowed || s.state == Restarting then (s, false)
    else
      var t := if s.run.Some? then s.(run := None, cancelled := s.cancelled + {s.run.value}) else s;
      (Published(t.(state := Idle, target := "")), true)
  }

  class Updater {
    var state: UpdateState
    var target: string
    var run: Option<nat>
    var holding: bool
    var updating: bool
    var next: nat
    var now: set<nat>
    var cancelled: set<nat>

    function View(): Status
      reads this
    {
      Status(state, target, run, holding, updating, next, now, cancelled)
    }

    constructor ()
      ensures View() == NewStatus
    {
      state, target, run, holding, updating, next, now, cancelled := Idle, "", None, false, false, 0, {}, {};
    }

    method Publish()
      modifies this`holding
      ensures View() == Published(old(View()))
    {
      holding := state == Waiting || state == Restarting;
    }

    method Advance(run: nat, state: UpdateState, target: string) returns (current: bool)
      modifies this`state, this`target, this`holding
      ensures (View(), current) == Advanced(old(View()), run, state, target)
    {
      if this.run != Some(run) {
        return false;
      }
      this.state := state;
      if target != "" {
        this.target := target;
      }
      Publish();
      current := true;
    }

    method End(run: nat, failed: bool)
      modifies this`state, this`target, this`holding, this`run, this`cancelled
      ensures View() == RunEnded(old(View()), run, failed)
    {
      if this.run != Some(run) {
        return;
      }
      this.run := None;
      cancelled := cancelled + {run};
      if failed {
        state := Failed;
      } else {
        state, target := Idle, "";
      }
      Publish();
    }

    method PostUpdate(hurry: bool, allowed: bool, stopping: bool, blocked: bool) returns (answer: PostAnswer)
      modifies this
      ensures (View(), answer) == Requested(old(View()), hurry, allowed, stopping, blocked)
    {
      if !allowed || stopping {
        return Refused;
      }
      if run.Some? {
        if hurry {
          now := now + {run.value};
        }
        return UnderWayAlready;
      }
      if blocked {
        return Refused;
      }
      var started := next;
      next := next + 1;
      if hurry {
        now := now + {started};
      }
      run, state, target := Some(started), Checking, "";
      Publish();
      answer := Started(started);
    }

    method DeleteUpdate(allowed: bool) returns (ok: bool)
      modifies this
      ensures (View(), ok) == Cancelled(old(View()), allowed)
    {
      if !allowed || state == Restarting {
        return false;
      }
      if run.Some? {
        cancelled := cancelled + {run.value};
        run := None;
      }
      state, target := Idle, "";
      Publish();
      ok := true;
    }
  }

  const NewStatus := Status(Idle, "", None, false, false, 0, {}, {})

  // ---- The runs ----

  /** Where the goroutine of a run is, between its steps. In Chosen and Marked it holds the server's
      lock: idle says that it saw the agent idle with that lock held. */
  datatype Stage =
    | Looking
    | ToDownload
    | Installing
    | ToBegin(waited: bool)
    | ToWait
    | Asleep
    | Chosen(idle: bool)
    | Marked
    | Replacing
    | Reverted
    | Done

  /** What the check found: an error, nothing newer, a release, or that the program on disk is newer. */
  datatype Found = Error | Nothing | Release | Newer

  /** The server: its lock's holder among the runs, the runs that a request cancelled, and those
      that began to restart it, with whether they saw the agent idle. */
  datatype System = System(s: Status, stages: map<nat, Stage>, lock: Option<nat>, deleted: set<nat>, began: map<nat,
      bool>)

  datatype Step =
    | Post(now: bool, stopping: bool, blocked: bool)
    | Delete
    /** The server stops, which cancels every run. */
    | Stop
    | Look(run: nat, found: Found)
    | Download(run: nat)
    | Install(run: nat, ok: bool)
    /** It looks whether it can begin, with the server's lock. */
    | TryBegin(run: nat, agentIdle: bool, agentRestarts: bool)
    | Mark(run: nat)
    | SetUpdating(run: nat)
    | BeginWait(run: nat)
    | Wake(run: nat)
    | GiveUp(run: nat)
    /** The restart failed: two steps, of a lock each. */
    | Revert(run: nat)
    | Fail(run: nat)

  const NewSystem := System(NewStatus, map[], None, {}, map[])

  predicate At(y: System, run: nat, stage: Stage) {
    run in y.stages && y.stages[run] == stage
  }

  function Go(y: System, run: nat, stage: Stage): System {
    y.(stages := y.stages[run := stage])
  }

  /** The run advances, and goes on to stage, or is done when it is no longer under way. */
  function GoIf(y: System, run: nat, state: UpdateState, stage: Stage): System {
    var (s, current) := Advanced(y.s, run, state, "new");
    Go(y.(s := s), run, if current then stage else Done)
  }

  /** The system after a step; one that isn't possible now does nothing. */
  function Next(y: System, step: Step): System {
    match step
    case Post(now, stopping, blocked) =>
      var (s, answer) := Requested(y.s, now, true, stopping, blocked);
      if answer.Started? then Go(y.(s := s), answer.run, Looking) else y.(s := s)
    case Delete =>
      var (s, ok) := Cancelled(y.s, true);
      y.(s := s, deleted := if ok && y.s.run.Some? then y.deleted + {y.s.run.value} else y.deleted)
    case Stop => y.(s := y.s.(cancelled := y.s.cancelled + y.stages.Keys))
    case Look(run, found) =>
      if !At(y, run, Looking) then y
      else if found == Error || found == Nothing then Go(y.(s := RunEnded(y.s, run, found == Error)), run, Done)
      else Go(y, run, if found == Release then ToDownload else ToBegin(false))
    case Download(run) => if At(y, run, ToDownload) then GoIf(y, run, Downloading, Installing) else y
    case Install(run, ok) =>
      if !At(y, run, Installing) then y
      else if ok then Go(y, run, ToBegin(false))
      else Go(y.(s := RunEnded(y.s, run, true)), run, Done)
    case TryBegin(run, agentIdle, agentRestarts) =>
      if run !in y.stages || !y.stages[run].ToBegin? || y.lock.Some? then y
      else
        var idle := agentIdle && !agentRestarts;
        if run in y.s.now || idle then Go(y.(lock := Some(run)), run, Chosen(idle))
        else Go(y, run, if y.stages[run].waited then Asleep else ToWait)
    case Mark(run) =>
      if run !in y.stages || !y.stages[run].Chosen? then y
      else
        var after := GoIf(y, run, Restarting, Marked);
        if At(after, run, Marked) then after.(began := y.began[run := y.stages[run].idle]) else after.(lock := None)
    case SetUpdating(run) => if At(y, run, Marked)
      then Go(y.(s := y.s.(updating := true), lock := None), run, Replacing) else y
    case BeginWait(run) => if At(y, run, ToWait) then GoIf(y, run, Waiting, Asleep) else y
    case Wake(run) => if At(y, run, Asleep) then Go(y, run, ToBegin(true)) else y
    case GiveUp(run) => if At(y, run, Asleep) && run in y.s.cancelled then Go(y, run, Done) else y
    case Revert(run) => if At(y, run, Replacing) && y.lock.None?
      then Go(y.(s := y.s.(updating := false)), run, Reverted) else y
    case Fail(run) => if At(y, run, Reverted) then Go(y.(s := RunEnded(y.s, run, true)), run, Done) else y
  }

  function Run(steps: seq<Step>): System {
    if |steps| == 0 then NewSystem else Next(Run(steps[..|steps| - 1]), steps[|steps| - 1])
  }

  // ---- What always holds ----

  /** The run restarts the server, or did until just now. */
  predicate Begun(stage: Stage) {
    stage == Marked || stage == Replacing || stage == Reverted
  }

  predicate Locking(stage: Stage) {
    stage.Chosen? || stage == Marked
  }

  ghost predicate StatusOk(s: Status) {
    && (s.run.Some? <==> UnderWay(s.state))
    && (s.holding <==> Holds(s.state))
    && (s.run.Some? ==> s.run.value < s.next)
  }

  /** A run's goroutine is where the status and the lock say. */
  predicate RunFine(s: Status, lock: Option<nat>, run: nat, stage: Stage) {
    && run < s.next && (Locking(stage) <==> lock == Some(run))
    && (Begun(stage) <==> s.state == Restarting && s.run == Some(run))
    && (stage == Replacing <==> s.updating && s.run == Some(run))
  }

  ghost predicate RunsOk(y: System) {
    && (forall run :: run in y.stages ==> RunFine(y.s, y.lock, run, y.stages[run]))
    && (y.s.run.Some? ==> y.s.run.value in y.stages)
    && (y.lock.Some? ==> y.lock.value in y.stages)
    && (y.s.updating ==> y.s.state == Restarting)
  }

  /** A run that began its restart wasn't cancelled by a request, and saw the agent idle or was to
      restart at once. */
  ghost predicate ChoicesOk(y: System) {
    && (forall run :: run in y.deleted ==> run < y.s.next && y.s.run != Some(run) && run !in y.began)
    && (forall run :: run in y.began ==> run < y.s.next && (y.began[run] || run in y.s.now))
    && (forall run :: run in y.began && y.s.run == Some(run) ==> y.s.state == Restarting)
    && (forall run :: run in y.stages && y.stages[run].Chosen? ==> y.stages[run].idle || run in y.s.now)
  }

  ghost predicate Ok(y: System) {
    StatusOk(y.s) && RunsOk(y) && ChoicesOk(y)
  }

  lemma {:induction false} RequestKeeps(y: System, step: Step)
    requires Ok(y) && (step.Post? || step.Delete? || step.Stop?)
    ensures StatusOk(Next(y, step).s) && RunsOk(Next(y, step))
  {
  }

  lemma {:induction false} RequestKeepsChoices(y: System, step: Step)
    requires Ok(y) && (step.Post? || step.Delete? || step.Stop?)
    ensures ChoicesOk(Next(y, step))
  {
  }

  lemma {:induction false} LookKeeps(y: System, step: Step)
    requires Ok(y) && (step.Look?)
    ensures StatusOk(Next(y, step).s) && RunsOk(Next(y, step))
  {
  }

  lemma {:induction false} LookKeepsChoices(y: System, step: Step)
    requires Ok(y) && (step.Look?)
    ensures ChoicesOk(Next(y, step))
  {
  }

  lemma {:induction false} DownloadKeeps(y: System, step: Step)
    requires Ok(y) && step.Download?
    ensures StatusOk(Next(y, step).s) && RunsOk(Next(y, step))
  {
  }

  lemma {:induction false} InstalledKeeps(y: System, step: Step)
    requires Ok(y) && step.Install?
    ensures StatusOk(Next(y, step).s) && RunsOk(Next(y, step))
  {
  }

  lemma {:induction false} InstallKeepsChoices(y: System, step: Step)
    requires Ok(y) && (step.Download? || step.Install?)
    ensures ChoicesOk(Next(y, step))
  {
  }

  lemma {:induction false} BeginKeeps(y: System, step: Step)
    requires Ok(y) && (step.TryBegin?)
    ensures StatusOk(Next(y, step).s) && RunsOk(Next(y, step))
  {
  }

  lemma {:induction false} BeginKeepsChoices(y: System, step: Step)
    requires Ok(y) && (step.TryBegin?)
    ensures ChoicesOk(Next(y, step))
  {
  }

  lemma {:induction false} MarkKeeps(y: System, step: Step)
    requires Ok(y) && (step.Mark?)
    ensures StatusOk(Next(y, step).s) && RunsOk(Next(y, step))
  {
  }

  lemma {:induction false} MarkKeepsChoices(y: System, step: Step)
    requires Ok(y) && (step.Mark?)
    ensures ChoicesOk(Next(y, step))
  {
  }

  lemma {:induction false} SetKeeps(y: System, step: Step)
    requires Ok(y) && (step.SetUpdating?)
    ensures StatusOk(Next(y, step).s) && RunsOk(Next(y, step))
  {
  }

  lemma {:induction false} SetKeepsChoices(y: System, step: Step)
    requires Ok(y) && (step.SetUpdating?)
    ensures ChoicesOk(Next(y, step))
  {
  }

  lemma {:induction false} BeginWaitKeeps(y: System, step: Step)
    requires Ok(y) && step.BeginWait?
    ensures StatusOk(Next(y, step).s) && RunsOk(Next(y, step))
  {
  }

  lemma {:induction false} WaitKeeps(y: System, step: Step)
    requires Ok(y) && (step.Wake? || step.GiveUp?)
    ensures StatusOk(Next(y, step).s) && RunsOk(Next(y, step))
  {
  }

  lemma {:induction false} WaitKeepsChoices(y: System, step: Step)
    requires Ok(y) && (step.BeginWait? || step.Wake? || step.GiveUp?)
    ensures ChoicesOk(Next(y, step))
  {
  }

  lemma {:induction false} EndKeeps(y: System, step: Step)
    requires Ok(y) && (step.Revert? || step.Fail?)
    ensures StatusOk(Next(y, step).s) && RunsOk(Next(y, step))
  {
  }

  lemma {:induction false} EndKeepsChoices(y: System, step: Step)
    requires Ok(y) && (step.Revert? || step.Fail?)
    ensures ChoicesOk(Next(y, step))
  {
  }

  lemma {:induction false} NextOk(y: System, step: Step)
    requires Ok(y)
    ensures Ok(Next(y, step))
  {
    hide StatusOk, RunsOk, ChoicesOk, Next;
    match step
    case Post(_, _, _) =>
      RequestKeeps(y, step);
      RequestKeepsChoices(y, step);
    case Delete =>
      RequestKeeps(y, step);
      RequestKeepsChoices(y, step);
    case Stop =>
      RequestKeeps(y, step);
      RequestKeepsChoices(y, step);
    case Look(_, _) =>
      LookKeeps(y, step);
      LookKeepsChoices(y, step);
    case Download(_) =>
      DownloadKeeps(y, step);
      InstallKeepsChoices(y, step);
    case Install(_, _) =>
      InstalledKeeps(y, step);
      InstallKeepsChoices(y, step);
    case TryBegin(_, _, _) =>
      BeginKeeps(y, step);
      BeginKeepsChoices(y, step);
    case Mark(_) =>
      MarkKeeps(y, step);
      MarkKeepsChoices(y, step);
    case SetUpdating(_) =>
      SetKeeps(y, step);
      SetKeepsChoices(y, step);
    case BeginWait(_) =>
      BeginWaitKeeps(y, step);
      WaitKeepsChoices(y, step);
    case Wake(_) =>
      WaitKeeps(y, step);
      WaitKeepsChoices(y, step);
    case GiveUp(_) =>
      WaitKeeps(y, step);
      WaitKeepsChoices(y, step);
    case Revert(_) =>
      EndKeeps(y, step);
      EndKeepsChoices(y, step);
    case Fail(_) =>
      EndKeeps(y, step);
      EndKeepsChoices(y, step);
  }

  lemma {:induction false} RunOk(steps: seq<Step>)
    ensures Ok(Run(steps))
  {
    if |steps| > 0 {
      hide Ok, Next;
      RunOk(steps[..|steps| - 1]);
      NextOk(Run(steps[..|steps| - 1]), steps[|steps| - 1]);
    }
  }

  /** However requests and runs interleave: there is a run exactly while the state says that one is
      under way, the queue is held exactly while it waits or restarts, and the server is updating
      only while the state says that it restarts; a run is cancelled by a request or begins its
      restart, never both, and without "now" it begins only where it saw the agent idle with the
      server's lock held. */
  lemma Coordinated(steps: seq<Step>)
    ensures var y := Run(steps);
      && (y.s.run.Some? <==> UnderWay(y.s.state))
      && (y.s.holding <==> y.s.state == Waiting || y.s.state == Restarting)
      && (y.s.updating ==> y.s.state == Restarting && y.s.run.Some?)
      && (forall run :: !(run in y.deleted && run in y.began))
      && (forall run :: run in y.began && run !in y.s.now ==> y.began[run])
  {
    RunOk(steps);
  }

  /** Two runs never restart the server at once, nor does one while another holds its lock. */
  lemma OneRestarts(steps: seq<Step>, a: nat, b: nat)
    requires var y := Run(steps);
      a in y.stages && b in y.stages && Begun(y.stages[a]) && (Begun(y.stages[b]) || Locking(y.stages[b]))
    ensures a == b || Run(steps).stages[b].Chosen?
  {
    RunOk(steps);
  }

  /** A run that was cancelled changes nothing any more but where its goroutine is, and doesn't hold
      the lock once it looked. */
  lemma CancelledDoesNothing(steps: seq<Step>, run: nat, step: Step)
    requires run in Run(steps).deleted
    requires step == Download(run) || step == Mark(run) || step == SetUpdating(run) || step == BeginWait(run)
      || step == Revert(run) || step == Fail(run) || (step.Look? && step.run == run)
        || (step.Install? && step.run == run)
    ensures var y := Run(steps);
      Next(y, step).s == y.s && Next(y, step).began == y.began && Next(y, step).deleted == y.deleted
  {
    RunOk(steps);
  }
}
