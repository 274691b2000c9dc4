/** The agent's status as the emitter tells it: what a conversation's status is to the running task,
    and how long the server's lifecycle stands in for the conversation's. */
module EmitterStatus {
  import opened Options
  import opened Conversation
  import opened Tasks
  import opened TaskRuns
  import opened TaskOutcomes
  import opened TaskChanges
  import opened Replication
  import opened ConversationState
  import opened ConversationSteps
  import opened EmitterRuns
  import opened Emitter
  import StateStore
  import TaskFacts
  import Spec = EmitterSpec
  import Ops = EmitterOps
  import Messaging = EmitterMessages
  import Restarting = EmitterRestart
  import Clients = EmitterClients

  // ---- The status ----

  ghost predicate NonePending(requests: seq<RequestState>) {
    forall i :: 0 <= i < |requests| ==> !requests[i].pending
  }

  lemma {:induction false} PendingIs(requests: seq<RequestState>)
    ensures Spec.Pending(requests) == 0 <==> NonePending(requests)
  {
    if |requests| > 0 {
      var n := |requests| - 1;
      PendingIs(requests[..n]);
      assert NonePending(requests) <==> NonePending(requests[..n]) && !requests[n].pending;
    }
  }

  /** The agent counts as idle exactly when the conversation is stable and no request waits. */
  lemma IdleExactly(s: Spec.State, status: Ops.ConversationStatus, now: int)
    requires s.t.Ok()
    ensures var r := Ops.EmitStatus(s, status, now).0;
      && (Spec.StatusOf(r).Idle() <==> status == Ops.Stable && NonePending(s.c.requests))
      && (r.agent == Working <==> status != Ops.Stable)
  {
    hide Spec.Pending;
    var r := Ops.EmitStatus(s, status, now).0;
    StatusFrame(s, status, now);
    PendingIs(r.c.requests);
  }

  /** What a conversation's status makes of the emitter's: a lifecycle that the server holds stays;
      another becomes the conversation's. Something is told exactly when the status changed. */
  lemma StatusFrame(s: Spec.State, status: Ops.ConversationStatus, now: int)
    requires s.t.Ok()
    ensures var (r, events) := Ops.EmitStatus(s, status, now);
      && r.held == s.held && r.c.requests == s.c.requests && r.limitStop == s.limitStop && r.retryWait == s.retryWait
      && (s.held ==> r.lifecycle == s.lifecycle) && (!s.held ==> r.lifecycle == r.reported)
      && (r.reported == Ready <==> status == Ops.Stable) && (r.reported == Starting <==> status == Ops.Initializing)
      && (r.reported == Busy <==> status == Ops.Changing)
      && (events == [] <==> r.agent == s.agent && r.lifecycle == s.lifecycle)
  {
  }

  // ---- What the tracker was told ----

  /** The tracker was told the status as it is, but for the requests that a reset forgot; or nothing yet. */
  predicate Informed(s: Spec.State) {
    s.t.status.agent == Unknown || s.t.status.(pending := 0) == Spec.StatusOf(s).(pending := 0)
  }

  /** It was told of the requests that wait too. */
  predicate Current(s: Spec.State) {
    s.t.status.agent == Unknown || s.t.status == Spec.StatusOf(s)
  }

  /** The parts of the state that say the status. */
  predicate SameStatus(s: Spec.State, r: Spec.State) {
    && r.t.status == s.t.status && r.agent == s.agent && r.lifecycle == s.lifecycle && r.held == s.held
    && r.reported == s.reported && r.limitStop == s.limitStop && r.retryWait == s.retryWait
  }

  lemma NotifyTells(s: Spec.State, now: int)
    requires s.t.Ok()
    ensures var r := Spec.NotifyStatus(s, now).0;
      r.t.status == Spec.StatusOf(r) == Spec.StatusOf(s) && r.held == s.held && r.reported == s.reported
        && r.c.requests == s.c.requests
  {
    if s.t.open >= 0 {
      hide End;
    }
  }

  lemma {:induction false} LoadSame(s: Spec.State, msgs: seq<RichMessage>)
    requires s.t.Ok() && Aligned(s.c)
    ensures var r := Ops.UpsertAll(s, msgs).0; SameStatus(s, r) && r.c.requests == s.c.requests
    decreases |msgs|
  {
    if |msgs| > 0 {
      hide Spec.Upserted;
      LoadSame(Spec.UpsertRich(s, msgs[0], true).0, msgs[1..]);
    }
  }

  lemma {:induction false} OwnSame(t: Tracker, msgs: seq<Message>, changed: seq<int>)
    requires t.Ok()
    ensures Own(t, msgs, changed).0.status == t.status
    decreases |msgs|
  {
    if |msgs| > 0 {
      var (s, c) := OwnOne(t, msgs[0], changed);
      assert s.status == t.status;
      OwnSame(s, msgs[1..], c);
    }
  }

  lemma MessagesSame(s: Spec.State, now: seq<Message>)
    requires s.t.Ok() && |s.c.messageSeq| == |s.c.messages|
    ensures var r := Messaging.EmitMessages(s, now).0; SameStatus(s, r) && r.c.requests == s.c.requests
  {
    hide Pruned, Own, Replies, Messaging.PutMessages, Messaging.MessageNumbers, Messaging.CutFrom, MessageEvents;
    DerivedInRange(s.t, now);
    var (p, c0) := Pruned(s.t, now);
    OwnSame(p, now, c0);
    PrunedSame(s.t, now);
  }

  lemma PrunedSame(t: Tracker, msgs: seq<Message>)
    requires t.Ok()
    ensures Pruned(t, msgs).0.status == t.status
  {
  }

  lemma GraceSame(s: Spec.State, now: int)
    requires s.t.Ok()
    ensures var r := Spec.EndIfIdle(s, now).0; SameStatus(s, r) && r.c.requests == s.c.requests
  {
  }

  lemma ErrorSame(s: Spec.State, isError: bool, message: string)
    requires s.t.Ok()
    ensures var r := Spec.EmitError(s, isError, message).0; SameStatus(s, r) && r.c.requests == s.c.requests
  {
  }

  lemma RichSame(s: Spec.State, msg: RichMessage, replace: bool)
    requires s.t.Ok() && Aligned(s.c)
    ensures var r := Spec.EmitRich(s, msg, replace).0; SameStatus(s, r) && r.c.requests == s.c.requests
  {
    hide Spec.Upserted;
  }

  /** The calls that say nothing of the status. */
  lemma QuietSame(s: Spec.State, call: Call, bufSize: nat)
    requires Clients.Ready(s) && Allowed(s, call) && !call.Restart? && !call.EmitRequest?
    requires !call.EmitStatus? && !call.SetLifecycle? && !call.ReleaseLifecycle? && !call.SetStops?
    ensures var r := EmitterRuns.After(s, call, bufSize).0;
      SameStatus(s, r) && (!call.Reset? ==> r.c.requests == s.c.requests)
  {
    hide Spec.Sound, Aligned, Messaging.EmitMessages, Ops.UpsertAll, Spec.EndIfIdle, Spec.EmitError, Spec.EmitRich;
    match call
    case EmitMessages(messages) => MessagesSame(s, messages);
    case EmitRich(msg, replace) => RichSame(s, msg, replace);
    case LoadRich(msgs) => LoadSame(s, msgs);
    case EndIfIdle(now) => GraceSame(s, now);
    case EmitError(isError, message) => ErrorSame(s, isError, message);
    case _ =>
  }

  lemma StatusInforms(s: Spec.State, status: Ops.ConversationStatus, lifecycle: Lifecycle, limit: Option<Stop>,
      retry: Option<Stop>, now: int)
    requires s.t.Ok()
    ensures var r := Ops.EmitStatus(s, status, now).0; (Informed(s) ==> Informed(r)) && (Current(s) ==> Current(r))
    ensures var r := Ops.SetLifecycle(s, lifecycle, now).0; (Informed(s) ==> Informed(r)) && (Current(s) ==> Current(r))
    ensures var r := Ops.ReleaseLifecycle(s, now).0; (Informed(s) ==> Informed(r)) && (Current(s) ==> Current(r))
    ensures var r := Ops.SetStops(s, limit, retry, now).0; (Informed(s) ==> Informed(r)) && (Current(s) ==> Current(r))
  {
    hide Spec.NotifyStatus;
    var next := if s.held then s.lifecycle else Ops.LifecycleOf(status);
    NotifyTells(s.(reported := Ops.LifecycleOf(status), agent := Ops.AgentOf(status), lifecycle := next), now);
    NotifyTells(s.(held := Ops.Holding(lifecycle), lifecycle := lifecycle), now);
    NotifyTells(s.(held := false, lifecycle := s.reported), now);
    NotifyTells(s.(limitStop := limit, retryWait := retry), now);
  }

  lemma RequestInforms(s: Spec.State, r: RequestState, dropped: seq<int>, now: int)
    requires s.t.Ok() && |s.c.requestSeq| == |s.c.requests|
    requires Ops.Ascending(dropped, |PutRequest(s.c, r, s.number + 1).requests|)
    ensures var x := Ops.EmitRequest(s, r, dropped, now).0;
      && (Informed(s) ==> Informed(x)) && (Current(s) ==> Current(x))
      && x.held == s.held && x.lifecycle == s.lifecycle && x.reported == s.reported && x.agent == s.agent
  {
    hide Spec.NotifyStatus, Spec.Pending, Ops.DeleteAll, PutRequest, Ops.Kept;
    var t := Ops.StoreRequest(s, r, dropped);
    NotifyTells(t, now);
  }

  /** The tracker is told of every change of the status as it comes: after each call it knows the
      status, and after each but a reset the requests that wait too. */
  lemma CallInforms(s: Spec.State, call: Call, bufSize: nat)
    requires Clients.Ready(s) && Allowed(s, call) && !call.Restart?
    ensures var r := EmitterRuns.After(s, call, bufSize).0;
      (Informed(s) ==> Informed(r)) && (Current(s) && !call.Reset? ==> Current(r))
  {
    hide Spec.Sound, Ops.EmitStatus, Ops.SetLifecycle, Ops.ReleaseLifecycle, Ops.SetStops, Ops.EmitRequest, Aligned,
      Ops.Ascending, PutRequest;
    match call
    case EmitStatus(status, now) => StatusInforms(s, status, Starting, None, None, now);
    case SetLifecycle(lifecycle, now) => StatusInforms(s, Ops.Stable, lifecycle, None, None, now);
    case ReleaseLifecycle(now) => StatusInforms(s, Ops.Stable, Starting, None, None, now);
    case SetStops(limit, retry, now) => StatusInforms(s, Ops.Stable, Starting, limit, retry, now);
    case EmitRequest(r, dropped, now) => RequestInforms(s, r, dropped, now);
    case _ =>
      hide EmitterRuns.After, Spec.Pending;
      QuietSame(s, call, bufSize);
  }

  // ---- What a status is to the running task ----

  /** The task at i ended at a time, with the outcome its turn had; the others had ended, and stay. */
  ghost predicate OneEnded(was: seq<Task>, tasks: seq<Task>, i: int, next: Status, at: int) {
    && 0 <= i < |was| && OthersStay(was, tasks, i) && EndsAs(was[i], tasks[i], next, WhyGone(next), at)
    && forall j :: 0 <= j < |tasks| ==> tasks[j].Final()
  }

  /** No task runs any more, if the running one ends; else the tasks are as they were, and it runs. */
  ghost predicate Leaves(s: Spec.State, r: Spec.State, ends: bool, now: int) {
    if ends then r.t.open == -1 && OneEnded(s.c.tasks, r.c.tasks, s.t.open, Spec.StatusOf(r), now)
    else r.c.tasks == s.c.tasks && r.t.open == s.t.open
  }

  lemma NotifyLeaves(s: Spec.State, now: int)
    requires s.t.Ok() && Good(s.t) && s.t.open >= 0 && s.c.tasks == s.t.tasks
    ensures var (r, events, _) := Spec.NotifyStatus(s, now);
      var next := Spec.StatusOf(s);
      events != [] && Leaves(s, r, Gone(next) || (next.Idle() && s.t.status.agent == Working), now)
  {
    hide EndsAs, StatusChanged, Spec.Pending, Fits;
    StatusOnly(s.t, Spec.StatusOf(s), now);
    ReportEnds(s.t, Spec.StatusOf(s), now);
  }

  lemma SoundGood(s: Spec.State)
    requires Spec.Sound(s)
    ensures Good(s.t) && s.c.tasks == s.t.tasks
  {
  }

  /** A conversation's status ends the running task exactly when it is stable, no request waits and
      the agent worked until then, or the server holds that the agent is gone and something is
      told; otherwise it leaves the tasks as they are. */
  lemma StatusEnds(s: Spec.State, status: Ops.ConversationStatus, now: int)
    requires Spec.Sound(s) && Informed(s) && s.t.Ok() && s.t.open >= 0
    ensures var (r, events) := Ops.EmitStatus(s, status, now);
      Leaves(s, r, (status == Ops.Stable && NonePending(s.c.requests) && s.t.status.agent == Working)
        || (s.held && events != [] && (s.lifecycle == Exited || s.lifecycle == Lifecycle.Failed)), now)
  {
    hide Spec.Sound, Good, NonePending, Leaves, Ops.EmitStatus, Spec.NotifyStatus, Spec.Pending;
    SoundGood(s);
    PendingIs(s.c.requests);
    var u := Reporting(s, status);
    EmitsStatus(s, status, now);
    NotifyLeaves(u, now);
    SameLeaves(s, u, Spec.NotifyStatus(u, now).0, now);
    Unchanged(s, s.(reported := u.reported), now);
  }

  /** The state that says the conversation's status, before it is told. */
  function Reporting(s: Spec.State, status: Ops.ConversationStatus): Spec.State {
    s.(reported := Ops.LifecycleOf(status), agent := Ops.AgentOf(status),
      lifecycle := if s.held then s.lifecycle else Ops.LifecycleOf(status))
  }

  lemma EmitsStatus(s: Spec.State, status: Ops.ConversationStatus, now: int)
    requires s.t.Ok()
    ensures var u, (r, events) := Reporting(s, status), Ops.EmitStatus(s, status, now);
      if s.agent == u.agent && s.lifecycle == u.lifecycle then r == s.(reported := u.reported) && events == []
      else r == Spec.NotifyStatus(u, now).0 && events == Spec.NotifyStatus(u, now).1
  {
    hide Spec.NotifyStatus;
  }

  lemma SameLeaves(s: Spec.State, u: Spec.State, r: Spec.State, now: int)
    requires u.c == s.c && u.t == s.t
    ensures Leaves(u, r, true, now) ==> Leaves(s, r, true, now)
    ensures Leaves(u, r, false, now) ==> Leaves(s, r, false, now)
  {
  }

  lemma Unchanged(s: Spec.State, r: Spec.State, now: int)
    requires r.c == s.c && r.t == s.t
    ensures Leaves(s, r, false, now)
  {
  }

  /** The statuses of the conversation take turns with the tasks: with no lifecycle held, what the
      agent worked on ends as the conversation becomes stable, and goes on while it isn't. */
  lemma StableEnds(s: Spec.State, status: Ops.ConversationStatus, now: int)
    requires Spec.Sound(s) && Informed(s) && s.t.Ok() && s.t.open >= 0 && !s.held && s.t.status.agent == Working
    requires NonePending(s.c.requests)
    ensures Leaves(s, Ops.EmitStatus(s, status, now).0, status == Ops.Stable, now)
  {
    hide Spec.Sound, Leaves, Ops.EmitStatus, Informed, NonePending;
    StatusEnds(s, status, now);
  }

  // ---- A lifecycle that the server holds ----

  /** The conversation's lifecycle after the calls: that of its last status. */
  function LastReported(reported: Lifecycle, calls: seq<Call>): Lifecycle
    decreases |calls|
  {
    if |calls| == 0 then reported
    else LastReported(if calls[0].EmitStatus? then Ops.LifecycleOf(calls[0].status) else reported, calls[1..])
  }

  lemma LifecycleFrame(s: Spec.State, call: Call, bufSize: nat)
    requires Clients.Ready(s) && Allowed(s, call) && !call.Restart? && !call.SetLifecycle? && !call.ReleaseLifecycle?
    ensures var r := EmitterRuns.After(s, call, bufSize).0;
      && r.held == s.held && (s.held ==> r.lifecycle == s.lifecycle)
      && r.reported == if call.EmitStatus? then Ops.LifecycleOf(call.status) else s.reported
  {
    hide Spec.Sound, Ops.EmitRequest, Aligned, Ops.Ascending, PutRequest, Spec.NotifyStatus;
    match call
    case EmitStatus(status, now) =>
      var next := if s.held then s.lifecycle else Ops.LifecycleOf(status);
      NotifyFrame(s.(reported := Ops.LifecycleOf(status), agent := Ops.AgentOf(status), lifecycle := next), now);
    case SetStops(limit, retry, now) => NotifyFrame(s.(limitStop := limit, retryWait := retry), now);
    case EmitRequest(r, dropped, now) => RequestInforms(s, r, dropped, now);
    case _ =>
      hide EmitterRuns.After;
      QuietSame(s, call, bufSize);
  }

  lemma NotifyFrame(s: Spec.State, now: int)
    requires s.t.Ok()
    ensures var r := Spec.NotifyStatus(s, now).0;
      r.held == s.held && r.reported == s.reported && r.lifecycle == s.lifecycle
  {
  }

  lemma {:induction false} CallsHold(s: Spec.State, calls: seq<Call>, bufSize: nat, end: Spec.State, told: seq<Event>)
    requires Clients.Calls(s, calls, bufSize, end, told)
    requires s.held && forall i :: 0 <= i < |calls| ==> !calls[i].SetLifecycle? && !calls[i].ReleaseLifecycle?
    ensures end.held && end.lifecycle == s.lifecycle && end.reported == LastReported(s.reported, calls)
    decreases |calls|
  {
    if |calls| > 0 {
      hide Clients.Ready, Allowed, EmitterRuns.After, Clients.Told;
      LifecycleFrame(s, calls[0], bufSize);
      var first := Clients.Told(s, calls[0], bufSize);
      CallsHold(EmitterRuns.After(s, calls[0], bufSize).0, calls[1..], bufSize, end, told[|first|..]);
    }
  }

  /** A lifecycle is held from when the server sets it to restarting, exited or failed until the
      server sets another or releases it, whatever the conversation reports in between; released, it
      is that of the conversation's last status. */
  lemma HeldUntilReleased(s: Spec.State, lifecycle: Lifecycle, at: int, calls: seq<Call>, bufSize: nat,
      end: Spec.State, told: seq<Event>, now: int)
    requires s.t.Ok() && end.t.Ok()
    requires Clients.Calls(Ops.SetLifecycle(s, lifecycle, at).0, calls, bufSize, end, told)
    requires forall i :: 0 <= i < |calls| ==> !calls[i].SetLifecycle? && !calls[i].ReleaseLifecycle?
    requires lifecycle == Restarting || lifecycle == Exited || lifecycle == Lifecycle.Failed
    ensures end.held && end.lifecycle == lifecycle
    ensures var r := Ops.ReleaseLifecycle(end, now).0;
      !r.held && r.lifecycle == r.reported == LastReported(s.reported, calls)
  {
    hide Spec.NotifyStatus, Clients.Calls;
    var setTo := s.(held := Ops.Holding(lifecycle), lifecycle := lifecycle);
    NotifyFrame(setTo, at);
    CallsHold(Ops.SetLifecycle(s, lifecycle, at).0, calls, bufSize, end, told);
    NotifyFrame(end.(held := false, lifecycle := end.reported), now);
  }

  /** Of any calls, the tracker is informed throughout. */
  lemma {:induction false} CallsInform(s: Spec.State, calls: seq<Call>, bufSize: nat, end: Spec.State, told: seq<Event>)
    requires Clients.Calls(s, calls, bufSize, end, told)
    ensures Informed(s) ==> Informed(end)
    ensures Current(s) && (forall i :: 0 <= i < |calls| ==> !calls[i].Reset?) ==> Current(end)
    decreases |calls|
  {
    if |calls| > 0 {
      hide Clients.Ready, Allowed, EmitterRuns.After, Clients.Told, Informed, Current;
      CallInforms(s, calls[0], bufSize);
      var first := Clients.Told(s, calls[0], bufSize);
      CallsInform(EmitterRuns.After(s, calls[0], bufSize).0, calls[1..], bufSize, end, told[|first|..]);
    }
  }

  /** A reset forgets the requests that wait without telling a status: the one told last is as it was
      exactly when none waited. */
  lemma ResetIsCurrent(s: Spec.State, now: int)
    requires Current(s) && s.t.status.agent != Unknown
    ensures Current(Restarting.Clear(s, now).0) <==> NonePending(s.c.requests)
  {
    PendingIs(s.c.requests);
  }

  /** A new emitter's tracker was told nothing yet. */
  lemma NewInformed(now: int)
    ensures Informed(Fresh(now)) && Current(Fresh(now))
  {
  }
}
