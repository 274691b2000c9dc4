/** What the reader of an emitter's subscription makes of what it got: wherever it is cut off,
    it can go on with the emitter's conversation. */
module EmitterClients {
  import opened Options
  import opened Conversation
  import opened Replication
  import opened ConversationState
  import opened Subscriptions
  import opened EmitterRuns
  import opened Emitter
  import Spec = EmitterSpec
  import Ops = EmitterOps
  import Messaging = EmitterMessages
  import Restarting = EmitterRestart
  import Replaying = EmitterReplay
  import Runs = ReplicationRuns

  // ---- The events that are wanted ----

  /** The kinds a client that follows the conversation wants. */
  const ClientKinds := ConversationKinds + {SessionSync}

  lemma {:induction false} UpdatesWanted(wants: set<Kind>, e: Event)
    requires ClientKinds <= wants
    ensures e.Update? || e.Synced? ==> Wants(wants, e)
  {
  }

  lemma {:induction false} WantedJoin(a: seq<Event>, b: seq<Event>, wants: set<Kind>)
    ensures Wanted(a + b, wants) == Wanted(a, wants) + Wanted(b, wants)
    decreases |b|
  {
    if |b| == 0 {
      assert a + b == a;
    } else {
      var n := |b| - 1;
      assert (a + b)[..|a| + n] == a + b[..n];
      WantedJoin(a, b[..n], wants);
    }
  }

  lemma {:induction false} WantedHas(events: seq<Event>, wants: set<Kind>, e: Event)
    ensures e in Wanted(events, wants) <==> e in events && Wants(wants, e)
  {
    if |events| > 0 {
      WantedHas(events[..|events| - 1], wants, e);
      assert events == events[..|events| - 1] + [events[|events| - 1]];
    }
  }

  lemma {:induction false} NumberedFront(events: seq<Event>, low: nat, high: nat)
    requires Numbered(events, low, high) && |events| > 0
    ensures Numbered(events[..|events| - 1], low, high)
  {
  }

  lemma {:induction false} WantedBelow(events: seq<Event>, wants: set<Kind>, low: nat, high: nat)
    requires Numbered(events, low, high) && |events| > 0
    ensures var n := |events| - 1;
      forall e :: e in Wanted(events[..n], wants) && e.Update? && events[n].Update? ==> e.number < events[n].number
  {
    hide Wants;
    var n := |events| - 1;
    forall e | e in Wanted(events[..n], wants) && e.Update? && events[n].Update? ensures e.number < events[n].number {
      WantedHas(events[..n], wants, e);
      var k :| 0 <= k < n && events[..n][k] == e;
      assert events[k] == e;
    }
  }

  lemma {:induction false} NumberedLast(front: seq<Event>, e: Event, low: nat, high: nat)
    requires Numbered(front, low, high) && Numbered([e], low, high)
    requires forall x :: x in front && x.Update? && e.Update? ==> x.number < e.number
    ensures Numbered(front + [e], low, high)
  {
    assert forall i :: 0 <= i < |front| ==> front[i] in front;
    assert [e][0] == e;
  }

  lemma {:induction false} NumberedOne(events: seq<Event>, low: nat, high: nat)
    requires Numbered(events, low, high) && |events| > 0
    ensures Numbered([events[|events| - 1]], low, high)
  {
  }

  lemma {:induction false} WantedNumbered(events: seq<Event>, wants: set<Kind>, low: nat, high: nat)
    requires Numbered(events, low, high)
    ensures Numbered(Wanted(events, wants), low, high)
  {
    if |events| > 0 {
      hide Wants, Numbered;
      var n := |events| - 1;
      NumberedFront(events, low, high);
      WantedNumbered(events[..n], wants, low, high);
      WantedBelow(events, wants, low, high);
      NumberedOne(events, low, high);
      NumberedLast(Wanted(events[..n], wants), events[n], low, high);
      assert Wanted(events[..n], wants) + [] == Wanted(events[..n], wants);
    }
  }

  lemma {:induction false} WantedApplied(data: map<Key, Entry>, events: seq<Event>, wants: set<Kind>)
    requires ClientKinds <= wants
    ensures Applied(data, Wanted(events, wants)) == Applied(data, events)
  {
    hide Wants;
    if |events| > 0 {
      var n := |events| - 1;
      WantedApplied(data, events[..n], wants);
      UpdatesWanted(wants, events[n]);
      AppliedNext(data, Wanted(events[..n], wants), events[n]);
      if !Wants(wants, events[n]) {
        assert Wanted(events, wants) == Wanted(events[..n], wants);
      }
    }
  }

  lemma {:induction false} AppliedNext(data: map<Key, Entry>, events: seq<Event>, e: Event)
    ensures Applied(data, events + [e]) == Apply(Applied(data, events), e)
  {
    assert (events + [e])[..|events|] == events;
  }

  /** What is wanted of the changes makes the same changes. */
  lemma {:induction false} WantedChanged(s: Store, t: Store, events: seq<Event>, dropped: set<Key>, wants: set<Kind>)
    requires Changed(s, t, events, dropped) && ClientKinds <= wants
    ensures Changed(s, t, Wanted(events, wants), dropped)
  {
    hide KindOf;
    WantedNumbered(events, wants, s.number, t.number);
    WantedApplied(s.data, events, wants);
    forall e: Event | e.Update? ensures e in Wanted(events, wants) <==> e in events {
      WantedHas(events, wants, e);
      UpdatesWanted(wants, e);
    }
  }

  lemma {:induction false} UntilJoin(a: seq<Event>, b: seq<Event>)
    ensures HasEnd(a + b) <==> HasEnd(a) || HasEnd(b)
    ensures Until(a + b) == if HasEnd(a) then Until(a) else a + Until(b)
    decreases |b|
  {
    if |b| == 0 {
      assert a + b == a;
      UntilMore(a, Ended);
    } else {
      var n := |b| - 1;
      assert a + b == a + b[..n] + [b[n]] && b == b[..n] + [b[n]];
      UntilJoin(a, b[..n]);
      UntilMore(a + b[..n], b[n]);
      UntilMore(b[..n], b[n]);
      HasEndMore(a + b[..n], b[n]);
      HasEndMore(b[..n], b[n]);
      assert a + (b[..n] + [b[n]]) == a + b[..n] + [b[n]];
    }
  }

  // ---- One call ----

  /** The emitter's state is one that calls find. */
  ghost predicate Ready(s: State) {
    Spec.Sound(s) && s.t.Ok() && Aligned(s.c) && Replaying.InStep(s.c)
  }

  /** What the call adds to the emitter's events: those it sends, or that the subscriptions end. */
  ghost function Told(s: State, call: Call, bufSize: nat): seq<Event>
    requires Ready(s) && Allowed(s, call)
  {
    match call
    case EmitMessages(messages) => var r := Messaging.EmitMessages(s, messages); if r.2 then [Ended] else r.1
    case LoadRich(msgs) => var r := Ops.LoadRich(s, msgs, bufSize); if r.2 then r.1 else [Ended]
    case _ => EmitterRuns.After(s, call, bufSize).1
  }

  /** The subscription as it is after the events, when it never overflowed. */
  ghost predicate Goes(w: Runs.World, told: seq<Event>, wants: set<Kind>, next: Runs.World, s: Store) {
    && next.s == s && next.c == w.c && Runs.Inv(next)
    && (w.open ==> next.pending == w.pending + Wanted(Until(told), wants) && next.open == !HasEnd(told))
    && (!w.open ==> next.pending == w.pending && !next.open)
  }

  lemma {:induction false} MakeGoes(w: Runs.World, t: Store, events: seq<Event>, dropped: set<Key>, wants: set<Kind>)
      returns (next: Runs.World)
    requires Runs.Inv(w) && Changed(w.s, t, events, dropped) && ClientKinds <= wants
    ensures Goes(w, events, wants, next, t)
  {
    hide Runs.Inv, KindOf, Wanted;
    WantedChanged(w.s, t, events, dropped, wants);
    var some := Wanted(events, wants);
    var step := Runs.Make(t, some, dropped, |some|);
    Runs.NextInv(w, step);
    next := Runs.Next(w, step);
    assert some[..|some|] == some;
    NoEnd(events, w.s.number, t.number);
  }

  lemma {:induction false} NoEnd(events: seq<Event>, low: nat, high: nat)
    requires Numbered(events, low, high)
    ensures !HasEnd(events) && Until(events) == events
  {
  }

  lemma {:induction false} EndIs(wants: set<Kind>)
    ensures HasEnd([Ended]) && Wanted(Until([Ended]), wants) == []
  {
    assert [Ended][0].Ended?;
    UntilMore([], Ended);
    assert [] + [Ended] == [Ended];
  }

  lemma {:induction false} SyncedIs(epoch: nat, wants: set<Kind>)
    requires ClientKinds <= wants
    ensures var told := [Synced(epoch)]; !HasEnd(told) && Until(told) == told && Wanted(told, wants) == told
  {
    UpdatesWanted(wants, Synced(epoch));
    WantedMore([], wants, Synced(epoch));
    assert [] + [Synced(epoch)] == [Synced(epoch)];
  }

  lemma {:induction false} EndsGo(w: Runs.World, step: Runs.Step, t: Store, wants: set<Kind>) returns (next: Runs.World)
    requires Runs.Inv(w) && Runs.Proper(w, step) && (step == Runs.Rebuild(t) || (step.Load? && step.next == t))
    ensures Goes(w, [Ended], wants, next, t)
  {
    hide Runs.Inv;
    Runs.NextInv(w, step);
    next := Runs.Next(w, step);
    EndIs(wants);
  }

  lemma {:induction false} ClearGoes(w: Runs.World, t: Store, wants: set<Kind>) returns (next: Runs.World)
    requires Runs.Inv(w) && Cleared(w.s, t) && ClientKinds <= wants
    ensures Goes(w, [Synced(t.epoch)], wants, next, t)
  {
    hide Runs.Inv, Cleared, Wanted;
    Runs.NextInv(w, Runs.Clear(t, true));
    next := Runs.Next(w, Runs.Clear(t, true));
    SyncedIs(t.epoch, wants);
  }

  /** A call to the emitter is a step of the server to the subscription. */
  lemma {:induction false} CallGoes(s: State, call: Call, bufSize: nat, w: Runs.World, wants: set<Kind>)
      returns (next: Runs.World)
    requires Ready(s) && Allowed(s, call) && !call.Restart? && Runs.Inv(w) && w.s == Spec.Seen(s)
    requires ClientKinds <= wants
    ensures var t := EmitterRuns.After(s, call, bufSize).0;
      Ready(t) && Goes(w, Told(s, call, bufSize), wants, next, Spec.Seen(t))
  {
    hide Spec.Sound, Aligned, Goes, Runs.Inv, Changed, Rebuilt, Cleared, Data, Spec.Seen,
      Spec.EmitRich, Ops.LoadRich, Ops.EmitRequest, Ops.SetQueue, Ops.EmitStatus, Ops.SetLifecycle,
        Messaging.EmitMessages, Restarting.Clear,
      Ops.ReleaseLifecycle, Ops.SetStops, Spec.EndIfIdle, Spec.EmitError, Ops.LeftOut, Ops.Ascending;
    if call.EmitMessages? {
      next := MessagesGo(s, call.messages, w, wants);
    } else if call.Reset? {
      var t := Restarting.Clear(s, call.now).0;
      Restarting.ClearClears(s, call.now);
      SoundLists(t);
      SeenEpoch(t);
      next := ClearGoes(w, Spec.Seen(t), wants);
    } else {
      CallMakes(s, call, bufSize);
      var (t, events) := EmitterRuns.After(s, call, bufSize);
      MadeIs(s, t, events, LeftOutBy(s, call));
      if Streams(s, call, bufSize) {
        next := MakeGoes(w, Spec.Seen(t), events, LeftOutBy(s, call), wants);
      } else {
        next := EndsGo(w, Runs.Load(Spec.Seen(t), events), Spec.Seen(t), wants);
      }
    }
  }

  /** The call sends what it changed one by one. */
  ghost predicate Streams(s: State, call: Call, bufSize: nat)
    requires Ready(s)
  {
    call.LoadRich? ==> Ops.LoadRich(s, call.msgs, bufSize).2
  }

  lemma {:induction false} SeenEpoch(s: State)
    requires Aligned(s.c)
    ensures Spec.Seen(s).epoch == s.epoch
  {
  }

  lemma {:induction false} MadeIs(s: State, t: State, events: seq<Event>, dropped: set<Key>)
    requires Spec.Makes(s, t, events, dropped)
    ensures Ready(t) && Aligned(s.c) && Changed(Spec.Seen(s), Spec.Seen(t), events, dropped)
  {
    hide Spec.Sound, Aligned, Changed;
    SoundLists(t);
  }

  lemma {:induction false} MessagesGo(s: State, messages: seq<Message>, w: Runs.World, wants: set<Kind>)
      returns (next: Runs.World)
    requires Ready(s) && Allowed(s, Call.EmitMessages(messages)) && Runs.Inv(w) && w.s == Spec.Seen(s)
    requires ClientKinds <= wants
    ensures var r := Messaging.EmitMessages(s, messages);
      Ready(r.0) && Goes(w, if r.2 then [Ended] else r.1, wants, next, Spec.Seen(r.0))
  {
    hide Spec.Sound, Aligned, Goes, Runs.Inv, Changed, Rebuilt, Data, Spec.Seen, Messaging.EmitMessages;
    var (t, events, removed) := Messaging.EmitMessages(s, messages);
    if |s.c.messages| <= |messages| {
      Messaging.MoreMessagesMake(s, messages);
      MadeIs(s, t, events, {});
      next := MakeGoes(w, Spec.Seen(t), events, {}, wants);
    } else {
      Messaging.FewerMessagesRebuild(s, messages);
      SoundLists(t);
      next := EndsGo(w, Runs.Rebuild(Spec.Seen(t)), Spec.Seen(t), wants);
    }
  }

  // ---- Any calls ----

  /** The calls lead from s to end, and tell what is told. */
  ghost predicate Calls(s: State, calls: seq<Call>, bufSize: nat, end: State, told: seq<Event>)
    decreases |calls|
  {
    if |calls| == 0 then end == s && told == []
    else
      && Ready(s) && Allowed(s, calls[0]) && !calls[0].Restart?
      && var first := Told(s, calls[0], bufSize);
        first <= told && Calls(EmitterRuns.After(s, calls[0], bufSize).0, calls[1..], bufSize, end, told[|first|..])
  }

  lemma {:induction false} GoesOn(w: Runs.World, a: seq<Event>, b: seq<Event>, wants: set<Kind>, mid: Runs.World,
      end: Runs.World)
    requires Goes(w, a, wants, mid, mid.s) && Goes(mid, b, wants, end, end.s)
    ensures Goes(w, a + b, wants, end, end.s)
  {
    hide Runs.Inv, KindOf, Until, HasEnd, Wanted;
    UntilJoin(a, b);
    UntilMore(a, Ended);
    WantedJoin(a, Until(b), wants);
    assert w.pending + Wanted(a, wants) + Wanted(Until(b), wants) ==
      w.pending + (Wanted(a, wants) + Wanted(Until(b), wants));
  }

  lemma {:induction false} NothingGoes(w: Runs.World, wants: set<Kind>)
    requires Runs.Inv(w)
    ensures Goes(w, [], wants, w, w.s)
  {
  }

  lemma {:induction false} CallsGo(s: State, calls: seq<Call>, bufSize: nat, end: State, told: seq<Event>,
      w: Runs.World, wants: set<Kind>)
    returns (next: Runs.World)
    requires Ready(s) && Calls(s, calls, bufSize, end, told) && Runs.Inv(w) && w.s == Spec.Seen(s)
    requires ClientKinds <= wants
    ensures Ready(end) && Goes(w, told, wants, next, Spec.Seen(end))
    decreases |calls|
  {
    hide Ready, Allowed, EmitterRuns.After, Told, Goes, Runs.Inv, Spec.Seen;
    ReadyAligned(s);
    if |calls| == 0 {
      next := w;
      NothingGoes(w, wants);
    } else {
      var first := Told(s, calls[0], bufSize);
      var t := EmitterRuns.After(s, calls[0], bufSize).0;
      var mid := CallGoes(s, calls[0], bufSize, w, wants);
      ReadyAligned(t);
      GoesInv(w, first, wants, mid, Spec.Seen(t));
      next := CallsGo(t, calls[1..], bufSize, end, told[|first|..], mid, wants);
      ReadyAligned(end);
      GoesInv(mid, told[|first|..], wants, next, Spec.Seen(end));
      GoesOn(w, first, told[|first|..], wants, mid, next);
      assert first + told[|first|..] == told;
    }
  }

  lemma {:induction false} ReadyAligned(s: State)
    ensures Ready(s) ==> Spec.Sound(s) && s.t.Ok() && Aligned(s.c) && Replaying.InStep(s.c)
  {
  }

  lemma {:induction false} GoesInv(w: Runs.World, told: seq<Event>, wants: set<Kind>, next: Runs.World, s: Store)
    requires Goes(w, told, wants, next, s)
    ensures Runs.Inv(next) && next.s == s
  {
  }

  // ---- Subscriptions ----

  /** A client that subscribed to the emitter in the state, and took the replay. */
  ghost function Subscribed(s: State, client: Client, wants: set<Kind>): Client
    requires Ready(s)
  {
    var since := From(client, Spec.Seen(s));
    var replay := Replaying.ReplayOf(s.c, since, wants);
    Client(s.epoch, Replaying.Highest(replay, since),
      TakeAll(Client(s.epoch, since, Base(client, Spec.Seen(s))), replay).data)
  }

  /** Whatever calls the emitter gets, a client that took any beginning of what it wants of the
      events since it subscribed, up to where the subscriptions ended, can go on with the
      emitter's conversation; it holds it once it took all, when they didn't end. */
  lemma {:induction false} SubscriberConverges(s: State, client: Client, wants: set<Kind>, calls: seq<Call>,
      bufSize: nat, end: State, told: seq<Event>, taken: seq<Event>)
    requires Ready(s) && Resumable(client, Spec.Seen(s)) && ClientKinds <= wants
    requires Calls(s, calls, bufSize, end, told) && taken <= Wanted(Until(told), wants)
    ensures Ready(end)
    ensures var after := TakeAll(Subscribed(s, client, wants), taken);
      && Resumable(after, Spec.Seen(end))
      && (!HasEnd(told) && taken == Wanted(told, wants) ==> Holds(after, Spec.Seen(end)))
  {
    hide Calls, Spec.Seen, Replaying.ReplayOf, Replaying.Highest, Wanted, Resumable, Holds, Spec.Sound, Aligned;
    Replaying.SubscriberHolds(s, client, wants);
    SeenOk(s);
    var c := Subscribed(s, client, wants);
    var w := Runs.World(Spec.Seen(s), c, [], true);
    Runs.ConnectInv(w, c, true);
    var next := CallsGo(s, calls, bufSize, end, told, w, wants);
    assert [] + Wanted(Until(told), wants) == Wanted(Until(told), wants);
    assert taken == next.pending[..|taken|];
    UntilMore(told, Ended);
    assert next.pending[..|next.pending|] == next.pending;
  }

  lemma {:induction false} SeenOk(s: State)
    requires Ready(s)
    ensures Spec.Seen(s).Ok()
  {
    StoreOk(s.c, s.number, s.epoch, s.stale);
  }

  /** Convergence of the emitter's subscriptions: one that was made when the emitter was in the
      state s, by a client that could resume, lets its reader resume from what it got, be the
      subscription open, cut off when it overflowed, or ended; a reader that keeps up with an
      open one holds the conversation. */
  lemma {:induction false} EverySubscriptionConverges(e: EventEmitter, id: int, s: State, client: Client,
      calls: seq<Call>, told: seq<Event>)
    requires e.Valid() && (id in e.subs.chans || id in e.subs.closed)
    requires e.subs.View().Known(id) && e.subs.began[id].events <= |e.subs.history|
    requires told == e.subs.history[e.subs.began[id].events..]
    requires ClientKinds <= e.subs.began[id].wants && Ready(s) && Resumable(client, Spec.Seen(s))
    requires Calls(s, calls, e.subs.bufSize, e.View(), told)
    ensures Ready(e.View())
    ensures var after := TakeAll(Subscribed(s, client, e.subs.began[id].wants), e.subs.got[id]);
      && Resumable(after, Spec.Seen(e.View()))
      && (id in e.subs.chans && e.subs.Buffer(id) == [] ==> Holds(after, Spec.Seen(e.View())))
  {
    hide Calls, Ready, Spec.Seen, Subscribed, Wanted, Resumable, Holds, Spec.Sound, KindOf;
    var wants := e.subs.began[id].wants;
    e.subs.Yields(id);
    assert MessageUpdate in wants;
    assert e.subs.got[id] + [] == e.subs.got[id];
    UntilMore(told, Ended);
    SubscriberConverges(s, client, wants, calls, e.subs.bufSize, e.View(), told, e.subs.got[id]);
  }
}
