/** Whatever calls the emitter gets, and wherever a client is cut off in what they send,
    the client that subscribes again holds the emitter's conversation. */
module EmitterRuns {
  import opened Options
  import opened Conversation
  import opened Tasks
  import opened TaskChanges
  import opened Replication
  import opened ConversationState
  import opened ConversationSteps
  import opened StateStore
  import opened Subscriptions
  import Spec = EmitterSpec
  import Ops = EmitterOps
  import Messaging = EmitterMessages
  import Restarting = EmitterRestart
  import Replaying = EmitterReplay
  import Runs = ReplicationRuns
  import opened Emitter

  datatype Call =
    | EmitMessages(messages: seq<Message>)
    | EmitRich(msg: RichMessage, replace: bool)
    | LoadRich(msgs: seq<RichMessage>)
    | EmitRequest(request: RequestState, dropped: seq<int>, now: int)
    | SetQueue(queue: seq<QueuedMessage>, version: nat)
    | EmitStatus(status: Ops.ConversationStatus, now: int)
    | SetLifecycle(lifecycle: Lifecycle, now: int)
    | ReleaseLifecycle(now: int)
    | SetStops(limit: Option<Stop>, retry: Option<Stop>, now: int)
    | EndIfIdle(now: int)
    | EmitError(isError: bool, message: string)
    | Reset(now: int)
    /** AgentAPI ends, and starts again with what was stored. */
    | Restart(anew: State, load: Conv, now: int)

  /** What the emitter asks of its callers. */
  ghost predicate Allowed(s: State, call: Call) {
    match call
    case EmitMessages(messages) => SameStart(s.c.messages, messages)
    case EmitRequest(r, dropped, _) => Replaying.InStep(s.c)
      && Ops.Ascending(dropped, |PutRequest(s.c, r, s.number + 1).requests|)
    case Restart(anew, load, _) => Restarting.Loaded(s.stored, load) && anew.c.queue == [] && anew.c.queueSeq == 0
    case _ => true
  }

  /** The state after the call and the events it sent. */
  ghost function After(s: State, call: Call, bufSize: nat): (State, seq<Event>)
    requires Spec.Sound(s) && Allowed(s, call) && s.t.Ok() && Aligned(s.c) && Replaying.InStep(s.c)
  {
    match call
    case EmitMessages(messages) => var r := Messaging.EmitMessages(s, messages); (r.0, r.1)
    case EmitRich(msg, replace) => Spec.EmitRich(s, msg, replace)
    case LoadRich(msgs) => var r := Ops.LoadRich(s, msgs, bufSize); (r.0, r.1)
    case EmitRequest(r, dropped, now) => Ops.EmitRequest(s, r, dropped, now)
    case SetQueue(queue, version) => Ops.SetQueue(s, queue, version)
    case EmitStatus(status, now) => Ops.EmitStatus(s, status, now)
    case SetLifecycle(lifecycle, now) => Ops.SetLifecycle(s, lifecycle, now)
    case ReleaseLifecycle(now) => Ops.ReleaseLifecycle(s, now)
    case SetStops(limit, retry, now) => Ops.SetStops(s, limit, retry, now)
    case EndIfIdle(now) => Spec.EndIfIdle(s, now)
    case EmitError(isError, message) => Spec.EmitError(s, isError, message)
    case Reset(now) => Restarting.Clear(s, now)
    case Restart(anew, load, now) => Restarting.Restore(anew, load, s.stored, now)
  }

  /** What the call is to a client, of whose connection fit more events fit the buffer. */
  ghost function StepOf(s: State, call: Call, bufSize: nat, fit: nat): Runs.Step
    requires Spec.Sound(s) && Allowed(s, call) && s.t.Ok() && Aligned(s.c) && Replaying.InStep(s.c)
    requires Aligned(After(s, call, bufSize).0.c)
  {
    var (t, events) := After(s, call, bufSize);
    var n := if fit <= |events| then fit else |events|;
    match call
    case EmitMessages(messages) =>
      if Messaging.EmitMessages(s, messages).2 then Runs.Rebuild(Spec.Seen(t))
        else Runs.Make(Spec.Seen(t), events, {}, n)
    case LoadRich(msgs) =>
      if Ops.LoadRich(s, msgs, bufSize).2 then Runs.Make(Spec.Seen(t), events, {}, n)
        else Runs.Load(Spec.Seen(t), events)
    case EmitRequest(r, dropped, _) => Runs.Make(Spec.Seen(t), events, Ops.LeftOut(s, r, dropped), n)
    case Reset(_) => Runs.Clear(Spec.Seen(t), n > 0)
    case Restart(_, _, _) => Runs.Restart(Spec.Seen(t), events)
    case _ => Runs.Make(Spec.Seen(t), events, {}, n)
  }

  lemma {:induction false} SoundLists(s: State)
    requires Spec.Sound(s)
    ensures s.t.Ok() && Aligned(s.c) && Replaying.InStep(s.c)
  {
    OkAligned(s.c, s.number);
  }

  /** The requests the call leaves out. */
  ghost function LeftOutBy(s: State, call: Call): set<Key>
    requires Replaying.InStep(s.c)
  {
    if call.EmitRequest? then Ops.LeftOut(s, call.request, call.dropped) else {}
  }

  /** The calls that only make changes. */
  lemma {:induction false} CallMakes(s: State, call: Call, bufSize: nat)
    requires Spec.Sound(s) && Allowed(s, call) && s.t.Ok() && Aligned(s.c) && Replaying.InStep(s.c)
    requires !call.EmitMessages? && !call.Reset? && !call.Restart?
    ensures var (t, events) := After(s, call, bufSize);
      Spec.Makes(s, t, events, LeftOutBy(s, call))
  {
    hide Spec.Sound, Spec.Makes, Aligned, Spec.EmitRich, Ops.LoadRich, Ops.EmitRequest, Ops.SetQueue, Ops.EmitStatus,
      Ops.SetLifecycle,
      Ops.ReleaseLifecycle, Ops.SetStops, Spec.EndIfIdle, Spec.EmitError, Ops.LeftOut, Ops.Ascending, PutRequest;
    match call
    case EmitRich(msg, replace) => Ops.EmitRichMakes(s, msg, replace);
    case LoadRich(msgs) => Ops.LoadRichMakes(s, msgs, bufSize);
    case EmitRequest(r, dropped, now) => Ops.EmitRequestMakes(s, r, dropped, now);
    case SetQueue(queue, version) => Ops.SetQueueMakes(s, queue, version);
    case EmitStatus(status, now) => Ops.StatusMakes(s, status, now);
    case SetLifecycle(lifecycle, now) => Ops.LifecycleMakes(s, lifecycle, now);
    case ReleaseLifecycle(now) => Ops.LifecycleMakes(s, Starting, now);
    case SetStops(limit, retry, now) => Ops.StopsMakes(s, limit, retry, now);
    case EndIfIdle(now) => Spec.EndIfIdleMakes(s, now);
    case EmitError(isError, message) => Spec.EmitErrorMakes(s, isError, message);
  }

  /** A call the emitter allows leaves it sound, and is a step of the server to its clients. */
  lemma {:induction false} CallIsStep(s: State, call: Call, bufSize: nat, fit: nat, w: Runs.World)
    requires Spec.Sound(s) && Allowed(s, call) && s.t.Ok() && Aligned(s.c) && Replaying.InStep(s.c)
    requires w.s == Spec.Seen(s)
    ensures var t := After(s, call, bufSize).0;
      Spec.Sound(t) && Aligned(t.c) && Runs.Proper(w, StepOf(s, call, bufSize, fit))
      && Runs.Next(w, StepOf(s, call, bufSize, fit)).s == Spec.Seen(t)
  {
    hide Spec.Sound, Aligned, SameStart, Restarting.Loaded, Changed, Rebuilt, Cleared, Restarted, Data,
      Spec.EmitRich, Ops.LoadRich, Ops.EmitRequest, Ops.SetQueue, Ops.EmitStatus, Ops.SetLifecycle,
        Messaging.EmitMessages,
      Restarting.Clear, Restarting.Restore,
      Ops.ReleaseLifecycle, Ops.SetStops, Spec.EndIfIdle, Spec.EmitError, Ops.LeftOut, Ops.Ascending, PutRequest;
    match call
    case EmitMessages(messages) =>
      if |s.c.messages| <= |messages| {
        Messaging.MoreMessagesMake(s, messages);
      } else {
        Messaging.FewerMessagesRebuild(s, messages);
      }
    case Reset(now) => Restarting.ClearClears(s, now);
    case Restart(anew, load, now) => Restarting.RestoreRestarts(s, anew, load, now);
    case _ => CallMakes(s, call, bufSize);
  }

  // ---- Runs ----

  /** The emitter calls and what the client does, in whatever order. */
  datatype Move = Serve(call: Call, fit: nat) | Follow(step: Runs.Step)

  datatype System = System(s: State, w: Runs.World)

  ghost predicate Joined(sys: System) {
    Spec.Sound(sys.s) && sys.s.t.Ok() && Aligned(sys.s.c) && Replaying.InStep(sys.s.c) && sys.w.s == Spec.Seen(sys.s)
  }

  ghost predicate Possible(sys: System, m: Move) {
    match m
    case Serve(call, _) => Allowed(sys.s, call)
    case Follow(step) => (step.Receive? || step.Cut? || step.Connect? || step.Glimpse?) && Runs.Proper(sys.w, step)
  }

  ghost function Moved(sys: System, m: Move, bufSize: nat): System
    requires Joined(sys) && Possible(sys, m)
  {
    match m
    case Serve(call, fit) =>
      var t := After(sys.s, call, bufSize).0;
      if Aligned(t.c) then System(t, Runs.Next(sys.w, StepOf(sys.s, call, bufSize, fit))) else sys
    case Follow(step) => System(sys.s, Runs.Next(sys.w, step))
  }

  lemma {:induction false} MoveKeeps(sys: System, m: Move, bufSize: nat)
    requires Joined(sys) && Possible(sys, m) && Runs.Inv(sys.w)
    ensures var t := Moved(sys, m, bufSize); Joined(t) && Runs.Inv(t.w)
  {
    hide Spec.Sound, Aligned, Allowed, After, StepOf, Runs.Inv, Spec.Seen, Runs.Proper, Runs.Next;
    match m
    case Serve(call, fit) =>
      CallIsStep(sys.s, call, bufSize, fit, sys.w);
      Runs.NextInv(sys.w, StepOf(sys.s, call, bufSize, fit));
      SoundLists(After(sys.s, call, bufSize).0);
    case Follow(step) =>
      FollowKeepsServer(sys.w, step);
      Runs.NextInv(sys.w, step);
  }

  lemma {:induction false} FollowKeepsServer(w: Runs.World, step: Runs.Step)
    requires step.Receive? || step.Cut? || step.Connect? || step.Glimpse?
    ensures Runs.Next(w, step).s == w.s
  {
  }

  /** The system after the moves, each of which was possible when its turn came. */
  ghost predicate Reaches(sys: System, moves: seq<Move>, bufSize: nat, end: System)
    decreases |moves|
  {
    if |moves| == 0 then end == sys
    else Joined(sys) && Possible(sys, moves[0]) && Reaches(Moved(sys, moves[0], bufSize), moves[1..], bufSize, end)
  }

  lemma {:induction false} RunKeeps(sys: System, moves: seq<Move>, bufSize: nat, end: System)
    requires Joined(sys) && Runs.Inv(sys.w) && Reaches(sys, moves, bufSize, end)
    ensures Joined(end) && Runs.Inv(end.w)
    decreases |moves|
  {
    hide Joined, Runs.Inv, Possible, Moved;
    if |moves| > 0 {
      MoveKeeps(sys, moves[0], bufSize);
      RunKeeps(Moved(sys, moves[0], bufSize), moves[1..], bufSize, end);
    }
  }

  /** A new emitter, and a client that never connected. */
  ghost function Beginning(now: int): System
    requires Aligned(Fresh(now).c)
  {
    System(Fresh(now), Runs.Fresh(Spec.Seen(Fresh(now))))
  }

  lemma {:induction false} BeginningOk(now: int)
    ensures Aligned(Fresh(now).c) && Joined(Beginning(now)) && Runs.Inv(Beginning(now).w)
  {
    NewSound(now);
    SoundLists(Fresh(now));
    var s := Spec.Seen(Fresh(now));
    StoreOk(Fresh(now).c, 0, 1, false);
    Runs.ConnectInv(Runs.Fresh(s), Runs.Fresh(s).c, false);
  }

  /** Convergence of the emitter: after any calls, connections and cuts, and wherever the
      client is in what its connection has for it, subscribing again with the epoch and number
      it is at and taking the replay gives it the emitter's conversation; the replay never
      says that it is further than the emitter. */
  lemma {:induction false} EmitterConverges(now: int, moves: seq<Move>, bufSize: nat, end: System, taken: nat,
      wants: set<Kind>)
    requires Aligned(Fresh(now).c) && Reaches(Beginning(now), moves, bufSize, end)
    requires taken <= |end.w.pending| && ConversationKinds <= wants
    ensures Joined(end)
    ensures var client := TakeAll(end.w.c, end.w.pending[..taken]);
      var seen := Spec.Seen(end.s);
      var since := From(client, seen);
      var replay := Replaying.ReplayOf(end.s.c, since, wants);
      var after := TakeAll(Client(end.s.epoch, since, Base(client, seen)), replay);
      Holds(Client(end.s.epoch, Replaying.Highest(replay, since), after.data), seen)
        && Replaying.Highest(replay, since) <= end.s.number
  {
    hide Spec.Sound, Aligned, Reaches, Holds, Resumable, Data;
    BeginningOk(now);
    RunKeeps(Beginning(now), moves, bufSize, end);
    var client := TakeAll(end.w.c, end.w.pending[..taken]);
    assert Resumable(client, end.w.s);
    Replaying.SubscriberHolds(end.s, client, wants);
  }
}
