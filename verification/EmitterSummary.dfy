/** The conversation's summary, and the feed that sends it to the subscriptions that want it:
    once for all that a call changed, and only if it differs from the one sent last. */
module EmitterSummary {
  import opened Options
  import opened Conversation
  import opened Tasks
  import opened TaskFacts
  import opened TaskTheorems
  import opened TaskRuns
  import opened TaskChanges
  import opened Replication
  import opened ConversationState
  import opened ConversationSteps
  import opened StateStore
  import opened EmitterRuns
  import opened Emitter
  import Spec = EmitterSpec
  import Ops = EmitterOps
  import Messaging = EmitterMessages
  import Clients = EmitterClients

  // ---- The summary ----

  datatype Attention = NoAttention | Asks | AtLimit | Gone

  /** What the summary says that isn't of the conversation: when a client last showed it, what
      the sessions cost, how far an update is, and the instance's settings. */
  datatype Extra = Extra(seenAt: int, spend: int, update: int, settings: int)

  datatype Summary = Summary(
    agent: AgentStatus, lifecycle: Lifecycle, pending: nat, queued: nat, tasks: nat, limit: Option<Stop>,
      retry: Option<Stop>,
    extra: Extra, request: Option<RequestState>, task: Option<Task>, unread: bool, attention: Attention)

  /** The request that has waited longest. */
  function Oldest(requests: seq<RequestState>): Option<RequestState> {
    if |requests| == 0 then None
    else
      var front, r := Oldest(requests[..|requests| - 1]), requests[|requests| - 1];
      if r.pending && (front.None? || r.createdAt < front.value.createdAt) then Some(r) else front
  }

  function SummaryOf(s: State, x: Extra): Summary {
    var pending := Spec.Pending(s.c.requests);
    var task := if |s.c.tasks| > 0 then Some(s.c.tasks[|s.c.tasks| - 1]) else None;
    var attention :=
      if pending > 0 then Asks
      else if s.limitStop.Some? then AtLimit
      else if s.lifecycle == Exited || s.lifecycle == Lifecycle.Failed then Gone
      else NoAttention;
    Summary(s.agent, s.lifecycle, pending, |s.c.queue|, |s.c.tasks|, s.limitStop, s.retryWait, x, Oldest(s.c.requests),
      task,
      task.Some? && task.value.endedAt.Some? && task.value.endedAt.value > x.seenAt, attention)
  }

  // ---- The feed ----

  /** changed: the state changed since the summary was sent last; sent is the one sent last,
      none while no subscription wants it. */
  datatype Feed = Feed(changed: bool, sent: Option<Summary>)

  /** The feed after a call, and the summary it sends. */
  function Unlocked(f: Feed, wanted: bool, now: Summary): (r: (Feed, Option<Summary>)) {
    if !f.changed then (f, None)
    else if !wanted then (Feed(false, None), None)
    else if f.sent == Some(now) then (Feed(false, f.sent), None)
    else (Feed(false, Some(now)), Some(now))
  }

  class SummaryFeed {
    var changed: bool
    var sent: Option<Summary>

    function View(): Feed
      reads this
    {
      Feed(changed, sent)
    }

    constructor ()
      ensures View() == Feed(false, None)
    {
      changed, sent := false, None;
    }

    method Mark()
      modifies this
      ensures View() == Feed(true, old(sent))
    {
      changed := true;
    }

    /** What a new subscription's replay holds; what changes next is news. */
    method Replay(now: Summary)
      modifies this
      ensures View() == Feed(old(changed), if old(sent).None? then Some(now) else old(sent))
    {
      if sent.None? {
        sent := Some(now);
      }
    }

    /** What is sent as the emitter's lock is released. */
    method Unlock(wanted: bool, now: Summary) returns (update: Option<Summary>)
      modifies this
      ensures (View(), update) == Unlocked(old(View()), wanted, now)
    {
      if !changed {
        return None;
      }
      changed := false;
      if !wanted {
        sent := None;
        return None;
      }
      if sent == Some(now) {
        return None;
      }
      sent := Some(now);
      update := Some(now);
    }
  }

  // ---- What a call that sends nothing leaves ----

  /** The call notified the subscriptions of something. */
  ghost predicate Notified(s: State, call: Call, bufSize: nat)
    requires Clients.Ready(s) && Allowed(s, call)
  {
    match call
    case EmitMessages(messages) => var r := Messaging.EmitMessages(s, messages); !r.2 && r.1 != []
    case LoadRich(msgs) => var r := Ops.LoadRich(s, msgs, bufSize); r.2 && r.1 != []
    case _ => EmitterRuns.After(s, call, bufSize).1 != []
  }

  /** What the summary says of the conversation. */
  ghost predicate SameSummary(s: State, t: State) {
    && t.agent == s.agent && t.lifecycle == s.lifecycle && t.limitStop == s.limitStop && t.retryWait == s.retryWait
    && t.c.requests == s.c.requests && t.c.queue == s.c.queue && t.c.tasks == s.c.tasks
  }

  lemma {:induction false} KeepAll(tasks: seq<Task>, msgs: seq<Message>, at: map<int, int>)
    requires PositionsOk(at, msgs) && forall i :: 0 <= i < |tasks| ==> Matched(tasks[i], msgs, at)
    ensures var (kept, changed) := Keep(tasks, msgs, at); |kept| == |tasks| && (changed == [] ==> kept == tasks)
  {
    hide Matched;
    if |tasks| > 0 {
      var n := |tasks| - 1;
      KeepAll(tasks[..n], msgs, at);
      if Keep(tasks, msgs, at).1 == [] {
        assert Trimmed(tasks[n], at) == tasks[n];
        assert tasks == tasks[..n] + [tasks[n]];
      }
    }
  }

  /** Deriving that reports no change made none, when no task's message is gone. */
  lemma {:induction false} NothingDerived(t: Tracker, msgs: seq<Message>)
    requires t.Ok() && IdsArePlaces(msgs) && AllAnchored(t.tasks, msgs) && Derive(t, msgs).1 == []
    ensures Derive(t, msgs).0.tasks == t.tasks
  {
    hide Anchored, IdsArePlaces, Matched, Keep, Own, Replies;
    forall i | 0 <= i < |t.tasks| ensures Matched(t.tasks[i], msgs, Positions(msgs)) {
      MatchedIsAnchored(t.tasks[i], msgs);
    }
    KeepAll(t.tasks, msgs, Positions(msgs));
    var (p, c0) := Pruned(t, msgs);
    OwnMarks(p.tasks, p, msgs, c0);
    var (s, c1) := Own(p, msgs, c0);
    RepliesMarks(p.tasks, s, msgs, 0, Positions(msgs), c1);
    ChangedGrows(p, msgs, c0);
    RepliesChangedGrows(s, msgs, 0, Positions(msgs), c1);
    var (r, c2) := Derive(t, msgs);
    assert (r, c2) == Replies(s, msgs, 0, Positions(msgs), c1) && c2 == [];
    NoneIn(c1, c2);
    NoneIn(c0, c1);
    assert p.tasks == t.tasks;
    MarksNone(p.tasks, r.tasks, c2);
  }

  lemma {:induction false} MarkOne(a: seq<Task>, b: seq<Task>, changed: seq<int>, i: int)
    requires Marks(a, b, changed) && 0 <= i < |b| && i !in changed
    ensures i < |a| && b[i] == a[i]
  {
  }

  lemma {:induction false} MarksNone(a: seq<Task>, b: seq<Task>, changed: seq<int>)
    requires Marks(a, b, changed)
    ensures changed == [] ==> a == b
  {
    if changed == [] {
      forall i | 0 <= i < |b| ensures i < |a| && b[i] == a[i] {
        MarkOne(a, b, changed, i);
      }
      if |b| > 0 {
        MarkOne(a, b, changed, |b| - 1);
      }
    }
  }

  lemma {:induction false} NoneIn(s: seq<int>, all: seq<int>)
    requires forall c :: c in s ==> c in all
    ensures all == [] ==> s == []
  {
    if |s| > 0 {
      var c := s[0];
      assert c in s;
      assert c in all;
    }
  }

  lemma {:induction false} StillAnchored(tasks: seq<Task>, was: seq<Message>, now: seq<Message>)
    requires AllAnchored(tasks, was) && SameStart(was, now) && |was| <= |now|
    ensures AllAnchored(tasks, now) && IdsArePlaces(now)
  {
  }

  lemma {:induction false} QuietMessages(s: State, now: seq<Message>)
    requires Clients.Ready(s) && SameStart(s.c.messages, now) && |s.c.messages| <= |now|
    ensures var (t, events, removed) := Messaging.EmitMessages(s, now); !removed && (events == [] ==> SameSummary(s, t))
  {
    hide Spec.Sound, Aligned, Derive, Tidy, SameStart, MessageEvents, ChangedCount, Messaging.MessageNumbers,
      Messaging.PutMessages, Messaging.CutFrom,
      AllAnchored, TaskEvents, TaskNumbers, Messaging.TakeMessages, PutTasks, Messaging.EmitMessages;
    SoundPlaces(s);
    StillAnchored(s.t.tasks, s.c.messages, now);
    Messaging.CutPlaced(s.c.messages, now, 0);
    Messaging.MoreIs(s, now);
    Messaging.TakenTasks(s, now);
    var (t, changed) := Derive(s.t, now);
    var d := Messaging.WithMessages(s.c, now, s.number);
    var n := s.number + ChangedCount(s.c.messages, now, |now|);
    var stored := Messaging.PutMessages(s.stored, s.c.messages, now, |now|, s.number);
    Messaging.TakeIs(s, now, false, stored, t, changed, d, n);
    if changed == [] {
      NothingDerived(s.t, now);
    }
  }

  lemma {:induction false} SoundPlaces(s: State)
    requires Spec.Sound(s)
    ensures IdsArePlaces(s.c.messages) && AllAnchored(s.t.tasks, s.c.messages) && s.c.tasks == s.t.tasks
  {
  }

  lemma {:induction false} QuietLoad(s: State, msgs: seq<RichMessage>)
    requires s.t.Ok() && Aligned(s.c)
    ensures var (t, events) := Ops.UpsertAll(s, msgs); SameSummary(s, t) && |events| == |msgs|
    decreases |msgs|
  {
    if |msgs| > 0 {
      hide Spec.Upserted;
      QuietLoad(Spec.UpsertRich(s, msgs[0], true).0, msgs[1..]);
    }
  }

  lemma {:induction false} QuietGrace(s: State, now: int)
    requires Spec.Sound(s) && s.t.Ok()
    ensures var (t, events) := Spec.EndIfIdle(s, now); events == [] ==> SameSummary(s, t)
  {
    hide Tidy, Ok, AllAnchored, Tasks.EndIfIdle;
    GraceOnly(s.t, now);
    var (t, changed) := Tasks.EndIfIdle(s.t, now);
  }

  lemma {:induction false} NotifyIsLoud(s: State, now: int)
    requires s.t.Ok()
    ensures Spec.NotifyStatus(s, now).1 != []
  {
  }

  lemma {:induction false} QuietStatus(s: State, status: Ops.ConversationStatus, lifecycle: Lifecycle,
      limit: Option<Stop>, retry: Option<Stop>, now: int)
    requires s.t.Ok()
    ensures var (t, events) := Ops.EmitStatus(s, status, now); events == [] ==> SameSummary(s, t)
    ensures var (t, events) := Ops.SetLifecycle(s, lifecycle, now); events == [] ==> SameSummary(s, t)
    ensures var (t, events) := Ops.ReleaseLifecycle(s, now); events == [] ==> SameSummary(s, t)
    ensures var (t, events) := Ops.SetStops(s, limit, retry, now); events == [] ==> SameSummary(s, t)
  {
    hide Spec.NotifyStatus;
    var reported := s.(reported := Ops.LifecycleOf(status));
    var next := if s.held then s.lifecycle else Ops.LifecycleOf(status);
    NotifyIsLoud(reported.(agent := Ops.AgentOf(status), lifecycle := next), now);
    NotifyIsLoud(s.(held := Ops.Holding(lifecycle)).(lifecycle := lifecycle), now);
    NotifyIsLoud(s.(held := false, lifecycle := s.reported), now);
    NotifyIsLoud(s.(limitStop := limit, retryWait := retry), now);
  }

  lemma {:induction false} QuietRequest(s: State, r: RequestState, dropped: seq<int>, now: int)
    requires s.t.Ok() && |s.c.requestSeq| == |s.c.requests|
    requires Ops.Ascending(dropped, |PutRequest(s.c, r, s.number + 1).requests|)
    ensures Ops.EmitRequest(s, r, dropped, now).1 == [] ==> Ops.EmitRequest(s, r, dropped, now).0 == s
  {
    hide Spec.NotifyStatus, Ops.StoreRequest, Spec.Pending;
  }

  /** A call that notified nobody of anything left what the summary says as it was, unless it
      took messages back. */
  lemma {:induction false} QuietCall(s: State, call: Call, bufSize: nat)
    requires Clients.Ready(s) && Allowed(s, call) && !call.Restart? && !Notified(s, call, bufSize)
    requires call.EmitMessages? ==> |s.c.messages| <= |call.messages|
    ensures SameSummary(s, EmitterRuns.After(s, call, bufSize).0)
  {
    hide Spec.Sound, Aligned, Tidy, Messaging.EmitMessages, Spec.UpsertRich, Ops.UpsertAll, Spec.EndIfIdle,
      Ops.Ascending, SameStart,
      Ops.EmitStatus, Ops.SetLifecycle, Ops.ReleaseLifecycle, Ops.SetStops, Ops.EmitRequest, Spec.StoreTasks,
        PutRequest, Spec.Pending;
    match call
    case EmitMessages(messages) => QuietMessages(s, messages);
    case LoadRich(msgs) => QuietLoad(s, msgs);
    case EmitRequest(r, dropped, now) => QuietRequest(s, r, dropped, now);
    case EndIfIdle(now) => QuietGrace(s, now);
    case EmitStatus(status, now) => QuietStatus(s, status, Starting, None, None, now);
    case SetLifecycle(lifecycle, now) => QuietStatus(s, Ops.Stable, lifecycle, None, None, now);
    case ReleaseLifecycle(now) => QuietStatus(s, Ops.Stable, Starting, None, None, now);
    case SetStops(limit, retry, now) => QuietStatus(s, Ops.Stable, Starting, limit, retry, now);
    case EmitRich(msg, replace) => RichIsLoud(s, msg, replace);
    case _ =>
  }

  lemma {:induction false} RichIsLoud(s: State, msg: RichMessage, replace: bool)
    requires s.t.Ok() && Aligned(s.c)
    ensures Spec.EmitRich(s, msg, replace).1 != []
  {
    hide Spec.Upserted;
  }
}
