/** Whatever the server does and wherever a client is cut off, the client that
    reconnects holds the conversation. */
module ReplicationRuns {
  import opened Conversation
  import opened Replication

  /** The server, a client, what its connection still has for it, and whether the
      server still sends it changes. The steps of other clients change nothing for this one. */
  datatype World = World(s: Store, c: Client, pending: seq<Event>, open: bool)

  datatype Step =
    /** The server made changes; fit of them fit the connection, which ends when some don't. */
    | Make(next: Store, events: seq<Event>, dropped: set<Key>, fit: nat)
    /** The server made more changes than it sends one by one, and ended the connection. */
    | Load(next: Store, events: seq<Event>)
    | Rebuild(next: Store)
    /** The server cleared the conversation; told says whether that fit the connection. */
    | Clear(next: Store, told: bool)
    | Restart(next: Store, events: seq<Event>)
    /** The client takes the next of what its connection has for it. */
    | Receive
    /** The connection is cut, and what it still had is lost. */
    | Cut
    /** The client connects and takes the whole replay, whose number is given. */
    | Connect(number: nat)
    /** The client connects, and is cut off after some of the replay. */
    | Glimpse(keys: set<Key>)

  ghost predicate Proper(w: World, step: Step) {
    match step
    case Make(next, events, dropped, fit) => Changed(w.s, next, events, dropped) && fit <= |events|
    case Load(next, events) => Changed(w.s, next, events, {})
    case Rebuild(next) => Rebuilt(w.s, next)
    case Clear(next, _) => Cleared(w.s, next)
    case Restart(next, events) => Restarted(w.s, next, events)
    case Receive => w.pending != []
    case Cut => true
    case Connect(number) => IsReplaySeq(w.s, From(w.c, w.s), number)
    case Glimpse(_) => true
  }

  function Next(w: World, step: Step): World {
    match step
    case Make(next, events, _, fit) =>
      if !w.open then w.(s := next)
      else w.(s := next, pending := w.pending + events[..if fit <= |events| then fit else |events|],
        open := fit >= |events|)
    case Load(next, _) => w.(s := next, open := false)
    case Rebuild(next) => w.(s := next, open := false)
    case Clear(next, told) =>
      if w.open && told then w.(s := next, pending := w.pending + [Synced(next.epoch)])
        else w.(s := next, open := false)
    case Restart(next, _) => w.(s := next, pending := [], open := false)
    case Receive => if w.pending == [] then w else w.(c := Take(w.c, w.pending[0]), pending := w.pending[1..])
    case Cut => w.(pending := [], open := false)
    case Connect(number) => World(w.s, Connected(w.c, w.s, number), [], true)
    case Glimpse(keys) => World(w.s, Partly(w.c, w.s, keys), [], false)
  }

  ghost predicate ProperRun(w: World, steps: seq<Step>)
    decreases |steps|
  {
    |steps| > 0 ==> Proper(w, steps[0]) && ProperRun(Next(w, steps[0]), steps[1..])
  }

  function Run(w: World, steps: seq<Step>): World
    decreases |steps|
  {
    if |steps| == 0 then w else Run(Next(w, steps[0]), steps[1..])
  }

  /** A client that has nothing yet. */
  function Fresh(s: Store): World {
    World(s, Client(0, 0, map[]), [], false)
  }

  /** However much of what its connection has for it the client takes, it can resume;
      while the connection is open, all of it gives the client the conversation. */
  ghost predicate Inv(w: World) {
    && w.s.Ok()
    && (forall i :: 0 <= i <= |w.pending| ==> Resumable(TakeAll(w.c, w.pending[..i]), w.s))
    && (w.open ==> Holds(TakeAll(w.c, w.pending), w.s))
  }

  lemma {:induction false} TakeAllMore(c: Client, a: seq<Event>, b: seq<Event>)
    ensures TakeAll(c, a + b) == TakeAll(TakeAll(c, a), b)
    decreases |b|
  {
    if |b| == 0 {
      assert a + b == a;
    } else {
      var n := |b| - 1;
      assert (a + b)[..|a| + n] == a + b[..n];
      TakeAllMore(c, a, b[..n]);
    }
  }

  lemma TakeFirst(c: Client, events: seq<Event>)
    requires events != []
    ensures TakeAll(c, events) == TakeAll(Take(c, events[0]), events[1..])
  {
    TakeAllMore(c, events[..1], events[1..]);
    assert events[..1] + events[1..] == events;
    assert events[..1][..0] == events[..0];
    assert TakeAll(c, events[..1]) == Take(TakeAll(c, events[..1][..0]), events[0]);
  }

  /** The client, however far it is, stays able to resume when the server goes from w.s to t. */
  ghost predicate Harmless(w: World, t: Store) {
    t.Ok() && forall c :: Resumable(c, w.s) ==> Resumable(c, t)
  }

  lemma ChangeHarmless(w: World, t: Store, events: seq<Event>, dropped: set<Key>)
    requires w.s.Ok() && Changed(w.s, t, events, dropped)
    ensures Harmless(w, t)
  {
    ChangedOk(w.s, t, events, dropped);
    forall c | Resumable(c, w.s) ensures Resumable(c, t) {
      ChangedResumable(c, w.s, t, events, dropped);
    }
  }

  /** A restart is a change without the queue. */
  lemma RestartHarmless(w: World, t: Store, events: seq<Event>)
    requires w.s.Ok() && Restarted(w.s, t, events)
    ensures Harmless(w, t)
  {
    var s := w.s.(data := w.s.data - {QueueKey}, stale := true);
    assert Changed(s, t, events, {}) by {
      assert Applied(s.data, events) - {} == Applied(s.data, events);
    }
    ChangedOk(s, t, events, {});
    forall c | Resumable(c, w.s) ensures Resumable(c, t) {
      ChangedResumable(c, s, t, events, {});
    }
  }

  lemma SentPrefix(w: World, sent: seq<Event>, i: nat)
    requires i <= |w.pending + sent|
    ensures TakeAll(w.c, (w.pending + sent)[..i]) ==
      if i <= |w.pending| then TakeAll(w.c, w.pending[..i])
        else TakeAll(TakeAll(w.c, w.pending), sent[..i - |w.pending|])
  {
    if i <= |w.pending| {
      assert (w.pending + sent)[..i] == w.pending[..i];
    } else {
      assert (w.pending + sent)[..i] == w.pending + sent[..i - |w.pending|];
      TakeAllMore(w.c, w.pending, sent[..i - |w.pending|]);
    }
  }

  lemma MakeInv(w: World, t: Store, events: seq<Event>, dropped: set<Key>, fit: nat)
    requires Inv(w) && w.open && Changed(w.s, t, events, dropped) && fit <= |events|
    ensures Inv(Next(w, Make(t, events, dropped, fit)))
  {
    ChangeHarmless(w, t, events, dropped);
    var sent := events[..fit];
    var held := TakeAll(w.c, w.pending);
    assert w.pending[..|w.pending|] == w.pending;
    forall i | 0 <= i <= |w.pending + sent| ensures Resumable(TakeAll(w.c, (w.pending + sent)[..i]), t) {
      SentPrefix(w, sent, i);
      if i > |w.pending| {
        var j := i - |w.pending|;
        assert sent[..j] == events[..j];
        CutOffResumable(held, w.s, t, events, dropped, j);
      }
    }
    if fit == |events| {
      assert sent == events;
      ChangedHolds(held, w.s, t, events, dropped);
      TakeAllMore(w.c, w.pending, events);
    }
  }

  lemma HarmlessInv(w: World, t: Store, pending: seq<Event>)
    requires Inv(w) && Harmless(w, t) && (pending == w.pending || pending == [])
    ensures Inv(World(t, w.c, pending, false))
  {
    if pending == [] {
      assert w.pending[..0] == [] && forall i :: 0 <= i <= |pending| ==> pending[..i] == w.pending[..0];
    }
  }

  lemma ClearInv(w: World, t: Store, told: bool)
    requires Inv(w) && Cleared(w.s, t)
    ensures Inv(Next(w, Clear(t, told)))
  {
    if w.open && told {
      var sent := [Synced(t.epoch)];
      forall i | 0 <= i <= |w.pending + sent| ensures Resumable(TakeAll(w.c, (w.pending + sent)[..i]), t) {
        SentPrefix(w, sent, i);
        if i > |w.pending| {
          assert sent[..1] == sent && sent[..0] == [];
        }
      }
      TakeAllMore(w.c, w.pending, sent);
      assert sent[..0] == [];
    } else {
      HarmlessInv(w, t, w.pending);
    }
  }

  lemma ReceiveInv(w: World)
    requires Inv(w) && w.pending != []
    ensures Inv(Next(w, Receive))
  {
    var rest := w.pending[1..];
    var c := Take(w.c, w.pending[0]);
    forall i | 0 <= i <= |rest| ensures TakeAll(c, rest[..i]) == TakeAll(w.c, w.pending[..i + 1]) {
      TakeFirst(w.c, w.pending[..i + 1]);
      assert w.pending[..i + 1][1..] == rest[..i];
    }
    TakeFirst(w.c, w.pending);
  }

  lemma ConnectInv(w: World, c: Client, open: bool)
    requires w.s.Ok() && Resumable(c, w.s) && (open ==> Holds(c, w.s))
    ensures Inv(World(w.s, c, [], open))
  {
    var none: seq<Event> := [];
    assert forall i :: 0 <= i <= |none| ==> none[..i] == none;
  }

  lemma NextInv(w: World, step: Step)
    requires Inv(w) && Proper(w, step)
    ensures Inv(Next(w, step))
  {
    assert w.pending[..0] == [];
    assert Resumable(w.c, w.s);
    match step
    case Make(next, events, dropped, fit) =>
      if w.open {
        MakeInv(w, next, events, dropped, fit);
      } else {
        ChangeHarmless(w, next, events, dropped);
        HarmlessInv(w, next, w.pending);
      }
    case Load(next, events) =>
      ChangeHarmless(w, next, events, {});
      HarmlessInv(w, next, w.pending);
    case Rebuild(next) => HarmlessInv(w, next, w.pending);
    case Clear(next, told) => ClearInv(w, next, told);
    case Restart(next, events) =>
      RestartHarmless(w, next, events);
      HarmlessInv(w, next, []);
    case Receive => ReceiveInv(w);
    case Cut => HarmlessInv(w, w.s, []);
    case Connect(number) =>
      Reconnects(w.c, w.s, number);
      ConnectInv(w, Connected(w.c, w.s, number), true);
    case Glimpse(keys) =>
      ReconnectsPartly(w.c, w.s, keys);
      ConnectInv(w, Partly(w.c, w.s, keys), false);
  }

  lemma {:induction false} RunInv(w: World, steps: seq<Step>)
    requires Inv(w) && ProperRun(w, steps)
    ensures Inv(Run(w, steps))
    decreases |steps|
  {
    if |steps| > 0 {
      NextInv(w, steps[0]);
      RunInv(Next(w, steps[0]), steps[1..]);
    }
  }

  /** Convergence: after any run, wherever the client is in what its connection has
      for it, reconnecting with the last change it took gives it the conversation. */
  lemma RunConverges(s: Store, steps: seq<Step>, taken: nat, number: nat)
    requires s.Ok() && s.epoch > 0 && ProperRun(Fresh(s), steps)
    requires var w := Run(Fresh(s), steps);
      taken <= |w.pending| && IsReplaySeq(w.s, From(TakeAll(w.c, w.pending[..taken]), w.s), number)
    ensures var w := Run(Fresh(s), steps);
      Holds(Connected(TakeAll(w.c, w.pending[..taken]), w.s, number), w.s)
  {
    ConnectInv(Fresh(s), Fresh(s).c, false);
    RunInv(Fresh(s), steps);
    var w := Run(Fresh(s), steps);
    Reconnects(TakeAll(w.c, w.pending[..taken]), w.s, number);
  }

  /** A client that keeps up needs no replay: once it took all its open connection has for it, it holds the
      conversation. */
  lemma KeepingUpHolds(s: Store, steps: seq<Step>)
    requires s.Ok() && s.epoch > 0 && ProperRun(Fresh(s), steps)
    ensures var w := Run(Fresh(s), steps); w.open ==> Holds(TakeAll(w.c, w.pending), w.s)
  {
    ConnectInv(Fresh(s), Fresh(s).c, false);
    RunInv(Fresh(s), steps);
  }
}
