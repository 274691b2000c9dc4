/** An emitter with the calls it got: each method of the emitter is one of the calls that its
    subscriptions' clients converge over. */
module EmitterSessions {
  import opened Options
  import opened Conversation
  import opened TaskChanges
  import opened Replication
  import opened ConversationState
  import opened Subscriptions
  import opened EmitterRuns
  import Clients = EmitterClients
  import opened Emitter
  import Spec = EmitterSpec
  import Ops = EmitterOps
  import Runs = ReplicationRuns

  /** One more call. */
  lemma {:induction false} CallsMore(s: State, calls: seq<Call>, bufSize: nat, mid: State, told: seq<Event>, call: Call)
    requires Clients.Calls(s, calls, bufSize, mid, told) && Clients.Ready(mid) && Allowed(mid, call) && !call.Restart?
    ensures Clients.Calls(s, calls + [call], bufSize, EmitterRuns.After(mid, call, bufSize).0,
      told + Clients.Told(mid, call, bufSize))
    decreases |calls|
  {
    hide Clients.Ready, Allowed, EmitterRuns.After, Clients.Told;
    var more := Clients.Told(mid, call, bufSize);
    Clients.ReadyAligned(mid);
    if |calls| == 0 {
      var all := [] + more;
      assert all == more && more[|more|..] == [];
      assert (calls + [call])[1..] == [];
    } else {
      var first := Clients.Told(s, calls[0], bufSize);
      Clients.ReadyAligned(s);
      CallsMore(EmitterRuns.After(s, calls[0], bufSize).0, calls[1..], bufSize, mid, told[|first|..], call);
      assert (calls + [call])[1..] == calls[1..] + [call];
      assert (told + more)[|first|..] == told[|first|..] + more;
    }
  }

  lemma {:induction false} SoundReady(s: State)
    requires Spec.Sound(s)
    ensures Clients.Ready(s)
  {
    EmitterRuns.SoundLists(s);
  }

  lemma {:induction false} ValidReady(e: EventEmitter)
    requires e.Valid()
    ensures Clients.Ready(e.View())
  {
    hide Spec.Sound, Clients.Ready;
    SoundReady(e.View());
  }

  lemma {:induction false} InPlaceAllowed(s: State, r: RequestState, dropped: seq<int>, now: int)
    requires Clients.Ready(s) && InPlace(s, r, dropped)
    ensures Allowed(s, Call.EmitRequest(r, dropped, now))
  {
  }

  lemma {:induction false} HistoryMore(before: seq<Event>, start: nat, more: seq<Event>)
    requires start <= |before|
    ensures start <= |before + more| && (before + more)[start..] == before[start..] + more
  {
  }

  class Session {
    const e: EventEmitter
    /** The emitter's state when the session began, after so many events; and the calls since. */
    ghost const base: State
    ghost const start: nat
    ghost var calls: seq<Call>

    ghost predicate Valid()
      reads this, e, e.tracker, e.subs
    {
      && e.Valid() && Clients.Ready(base) && start <= |e.subs.history|
      && Clients.Calls(base, calls, e.subs.bufSize, e.View(), e.subs.history[start..])
    }

    constructor (e: EventEmitter)
      requires e.Valid()
      ensures Valid() && this.e == e && base == e.View() && start == |e.subs.history| && calls == []
    {
      this.e := e;
      base, start, calls := e.View(), |e.subs.history|, [];
      new;
      hide Spec.Sound, Clients.Ready;
      SoundReady(base);
      assert e.subs.history[start..] == [];
    }

    /** The emitter got the call, in the state s, after the events before. */
    ghost method Record(call: Call, s: State, before: seq<Event>)
      requires e.Valid() && Clients.Ready(s) && Clients.Ready(base) && Allowed(s, call) && !call.Restart?
      requires start <= |before|
      requires Clients.Calls(base, calls, e.subs.bufSize, s, before[start..])
      requires e.View() == EmitterRuns.After(s, call, e.subs.bufSize).0
      requires e.subs.history == before + Clients.Told(s, call, e.subs.bufSize)
      modifies this`calls
      ensures Valid() && calls == old(calls) + [call]
    {
      hide EventEmitter.Valid, Clients.Ready, Allowed, Clients.Calls, EmitterRuns.After, Clients.Told;
      CallsMore(base, calls, e.subs.bufSize, s, before[start..], call);
      HistoryMore(before, start, Clients.Told(s, call, e.subs.bufSize));
      calls := calls + [call];
    }

    method EmitMessages(messages: seq<Message>)
      requires Valid() && SameStart(e.messages, messages)
      modifies this`calls, e, e.tracker, e.subs
      ensures Valid() && calls == old(calls) + [Call.EmitMessages(messages)]
    {
      hide Spec.Sound, Clients.Ready, Clients.Calls;
      ghost var s, before := e.View(), e.subs.history;
      SoundReady(s);
      e.EmitMessages(messages);
      Record(Call.EmitMessages(messages), s, before);
    }

    method EmitRich(msg: RichMessage, replace: bool)
      requires Valid()
      modifies this`calls, e, e.tracker, e.subs
      ensures Valid() && calls == old(calls) + [Call.EmitRich(msg, replace)]
    {
      hide Spec.Sound, Clients.Ready, Clients.Calls;
      ghost var s, before := e.View(), e.subs.history;
      SoundReady(s);
      e.EmitRich(msg, replace);
      Record(Call.EmitRich(msg, replace), s, before);
    }

    method LoadRich(msgs: seq<RichMessage>)
      requires Valid()
      modifies this`calls, e, e.tracker, e.subs
      ensures Valid() && calls == old(calls) + [Call.LoadRich(msgs)]
    {
      hide Spec.Sound, Clients.Ready, Clients.Calls;
      ghost var s, before := e.View(), e.subs.history;
      SoundReady(s);
      e.LoadRich(msgs);
      Record(Call.LoadRich(msgs), s, before);
    }

    /** dropped are the closed requests it drops. */
    method EmitRequest(r: RequestState, now: int) returns (ghost dropped: seq<int>)
      requires Valid()
      modifies this`calls, e, e.tracker, e.subs
      ensures Valid() && calls == old(calls) + [Call.EmitRequest(r, dropped, now)]
    {
      hide Spec.Sound, Clients.Ready, Clients.Calls, EventEmitter.Valid, Allowed, Trims, InPlace;
      ghost var s, before := e.View(), e.subs.history;
      ValidReady(e);
      dropped := e.EmitRequest(r, now);
      InPlaceAllowed(s, r, dropped, now);
      Record(Call.EmitRequest(r, dropped, now), s, before);
    }

    method SetQueue(queue: seq<QueuedMessage>, version: nat)
      requires Valid()
      modifies this`calls, e, e.tracker, e.subs
      ensures Valid() && calls == old(calls) + [Call.SetQueue(queue, version)]
    {
      hide Spec.Sound, Clients.Ready, Clients.Calls;
      ghost var s, before := e.View(), e.subs.history;
      SoundReady(s);
      e.SetQueue(queue, version);
      Record(Call.SetQueue(queue, version), s, before);
    }

    method EmitStatus(status: Ops.ConversationStatus, now: int)
      requires Valid()
      modifies this`calls, e, e.tracker, e.subs
      ensures Valid() && calls == old(calls) + [Call.EmitStatus(status, now)]
    {
      hide Spec.Sound, Clients.Ready, Clients.Calls;
      ghost var s, before := e.View(), e.subs.history;
      SoundReady(s);
      e.EmitStatus(status, now);
      Record(Call.EmitStatus(status, now), s, before);
    }

    method SetLifecycle(next: Lifecycle, now: int)
      requires Valid()
      modifies this`calls, e, e.tracker, e.subs
      ensures Valid() && calls == old(calls) + [Call.SetLifecycle(next, now)]
    {
      hide Spec.Sound, Clients.Ready, Clients.Calls;
      ghost var s, before := e.View(), e.subs.history;
      SoundReady(s);
      e.SetLifecycle(next, now);
      Record(Call.SetLifecycle(next, now), s, before);
    }

    method ReleaseLifecycle(now: int)
      requires Valid()
      modifies this`calls, e, e.tracker, e.subs
      ensures Valid() && calls == old(calls) + [Call.ReleaseLifecycle(now)]
    {
      hide Spec.Sound, Clients.Ready, Clients.Calls;
      ghost var s, before := e.View(), e.subs.history;
      SoundReady(s);
      e.ReleaseLifecycle(now);
      Record(Call.ReleaseLifecycle(now), s, before);
    }

    method SetStops(limit: Option<Stop>, retry: Option<Stop>, now: int)
      requires Valid()
      modifies this`calls, e, e.tracker, e.subs
      ensures Valid() && calls == old(calls) + [Call.SetStops(limit, retry, now)]
    {
      hide Spec.Sound, Clients.Ready, Clients.Calls;
      ghost var s, before := e.View(), e.subs.history;
      SoundReady(s);
      e.SetStops(limit, retry, now);
      Record(Call.SetStops(limit, retry, now), s, before);
    }

    method EndIfIdle(now: int)
      requires Valid()
      modifies this`calls, e, e.tracker, e.subs
      ensures Valid() && calls == old(calls) + [Call.EndIfIdle(now)]
    {
      hide Spec.Sound, Clients.Ready, Clients.Calls;
      ghost var s, before := e.View(), e.subs.history;
      SoundReady(s);
      e.EndIfIdle(now);
      Record(Call.EndIfIdle(now), s, before);
    }

    method EmitError(isError: bool, message: string)
      requires Valid()
      modifies this`calls, e, e.tracker, e.subs
      ensures Valid() && calls == old(calls) + [Call.EmitError(isError, message)]
    {
      hide Spec.Sound, Clients.Ready, Clients.Calls;
      ghost var s, before := e.View(), e.subs.history;
      SoundReady(s);
      e.EmitError(isError, message);
      Record(Call.EmitError(isError, message), s, before);
    }

    method Reset(now: int)
      requires Valid()
      modifies this`calls, e, e.tracker, e.subs
      ensures Valid() && calls == old(calls) + [Call.Reset(now)]
    {
      hide Spec.Sound, Clients.Ready, Clients.Calls;
      ghost var s, before := e.View(), e.subs.history;
      SoundReady(s);
      e.Reset(now);
      Record(Call.Reset(now), s, before);
    }

    /** A new subscription doesn't change the calls; a session that begins with it is the subscription's. */
    method SubscribeTo(wants: set<Kind>, since: nat, epoch: nat)
        returns (id: int, full: bool, upTo: nat, replay: seq<Event>, session: Session)
      requires Valid()
      modifies e.subs
      ensures Valid() && calls == old(calls) && id in e.subs.chans && e.subs.began[id].wants == wants
      ensures fresh(session) && session.Valid() && session.e == e && session.base == e.View() && session.calls == []
      ensures session.start == e.subs.began[id].events
    {
      hide EventEmitter.Valid, Clients.Ready, Clients.Calls, Aligned, Data;
      id, full, upTo, replay := e.SubscribeTo(wants, since, epoch);
      session := new Session(e);
    }

    /** What the reader of a subscription got lets its client, who could resume when it was made, go on
        with the emitter's conversation, whatever calls the emitter got since. */
    lemma Converges(id: int, client: Client)
      requires Valid() && (id in e.subs.chans || id in e.subs.closed) && e.subs.View().Known(id)
      requires start == e.subs.began[id].events && Clients.ClientKinds <= e.subs.began[id].wants
      requires Resumable(client, Spec.Seen(base))
      ensures Clients.Ready(e.View())
      ensures var after := TakeAll(Clients.Subscribed(base, client, e.subs.began[id].wants), e.subs.got[id]);
        && Resumable(after, Spec.Seen(e.View()))
        && (id in e.subs.chans && e.subs.Buffer(id) == [] ==> Holds(after, Spec.Seen(e.View())))
    {
      hide EventEmitter.Valid, Spec.Sound, Clients.Calls, Resumable, Holds;
      Clients.EverySubscriptionConverges(e, id, base, client, calls, e.subs.history[start..]);
    }
  }
}
