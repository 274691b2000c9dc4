/** The order in which queued messages go out: that in which they came, but for what says otherwise. */
module MessageOrder {
  import Conversation
  import opened MessageQueue
  import opened MessageDelivery

  /** a is queued ahead of b. */
  ghost predicate Ahead(messages: seq<Queued>, a: int, b: int) {
    exists i, j :: 0 <= i < j < |messages| && messages[i].id == a && messages[j].id == b
  }

  /** The queue is that one and a new message, last or first. */
  predicate Joins(was: seq<Queued>, now: seq<Queued>, m: Queued, first: bool) {
    && |now| == |was| + 1
    && (forall i :: 0 <= i < |was| ==> now[if first then i + 1 else i] == was[i])
    && now[if first then 0 else |was|] == m
  }

  /** A message that is pushed comes after all that are queued, or with front before them; they keep their order. */
  lemma PushJoins(q: Queue, content: seq<Conversation.byte>, time: int, front: bool)
    requires Ok(q)
    ensures var r := Pushed(q, content, time, front);
      && Joins(q.messages, r.messages, Queued(q.lastID + 1, content, time), front)
      && r.lastID == q.lastID + 1 && r.version == q.version + 1
      && (forall a, b :: Has(q.messages, a) && Has(q.messages, b) ==>
            (Ahead(r.messages, a, b) <==> Ahead(q.messages, a, b)))
      && (forall a :: Has(q.messages, a) ==>
            (Ahead(r.messages, a, r.lastID) <==> !front) && (Ahead(r.messages, r.lastID, a) <==> front))
  {
    hide Ahead, Has;
    var r := Pushed(q, content, time, front);
    forall a, b | Has(q.messages, a) && Has(q.messages, b)
      ensures Ahead(r.messages, a, b) <==> Ahead(q.messages, a, b)
    {
      JoinedAhead(q, r, front, a, b);
    }
    forall a | Has(q.messages, a)
      ensures Ahead(r.messages, a, r.lastID) <==> !front
      ensures Ahead(r.messages, r.lastID, a) <==> front
    {
      JoinedAround(q, r, front, a);
    }
  }

  lemma JoinedAhead(q: Queue, r: Queue, front: bool, a: int, b: int)
    requires Ok(q) && |r.messages| == |q.messages| + 1
    requires Joins(q.messages, r.messages, r.messages[if front then 0 else |q.messages|], front)
    requires r.messages[if front then 0 else |q.messages|].id == q.lastID + 1
    requires Has(q.messages, a) && Has(q.messages, b)
    ensures Ahead(r.messages, a, b) <==> Ahead(q.messages, a, b)
  {
    QueuedBefore(q, a);
    QueuedBefore(q, b);
    var d := if front then 1 else 0;
    hide Ok, Has;
    StayAhead(q.messages, r.messages, d, a, b);
    WereAhead(q.messages, r.messages, d, a, b);
  }

  /** was is in now from position d on. */
  predicate Within(was: seq<Queued>, now: seq<Queued>, d: nat) {
    d + |was| <= |now| && forall i :: 0 <= i < |was| ==> now[i + d] == was[i]
  }

  lemma StayAhead(was: seq<Queued>, now: seq<Queued>, d: nat, a: int, b: int)
    requires Within(was, now, d)
    ensures Ahead(was, a, b) ==> Ahead(now, a, b)
  {
    if Ahead(was, a, b) {
      var i, j :| 0 <= i < j < |was| && was[i].id == a && was[j].id == b;
      assert now[i + d].id == a && now[j + d].id == b;
    }
  }

  lemma WereAhead(was: seq<Queued>, now: seq<Queued>, d: nat, a: int, b: int)
    requires Within(was, now, d)
    requires forall k :: 0 <= k < |now| && !(d <= k < d + |was|) ==> now[k].id != a && now[k].id != b
    ensures Ahead(now, a, b) ==> Ahead(was, a, b)
  {
    if Ahead(now, a, b) {
      var i, j :| 0 <= i < j < |now| && now[i].id == a && now[j].id == b;
      assert now[i] == was[i - d] && now[j] == was[j - d];
      assert was[i - d].id == a && was[j - d].id == b;
    }
  }

  lemma QueuedBefore(q: Queue, a: int)
    requires Ok(q) && Has(q.messages, a)
    ensures a <= q.lastID
  {
  }

  lemma JoinedAround(q: Queue, r: Queue, front: bool, a: int)
    requires Ok(q) && |r.messages| == |q.messages| + 1
    requires Joins(q.messages, r.messages, r.messages[if front then 0 else |q.messages|], front)
    requires Has(q.messages, a) && r.messages[if front then 0 else |q.messages|].id == q.lastID + 1 == r.lastID
    ensures Ahead(r.messages, a, r.lastID) <==> !front
    ensures Ahead(r.messages, r.lastID, a) <==> front
  {
    var i := IndexOf(q.messages, a);
    var x := if front then i + 1 else i;
    var y := if front then 0 else |q.messages|;
    assert r.messages[x].id == a && r.messages[y].id == r.lastID;
    forall k | 0 <= k < |r.messages| && k != y ensures r.messages[k].id != r.lastID {
      assert r.messages[k] == q.messages[if front then k - 1 else k];
    }
    forall k | 0 <= k < |r.messages| && k != x ensures r.messages[k].id != a {
      if k != y {
        assert r.messages[k] == q.messages[if front then k - 1 else k];
      }
    }
  }

  // ---- What a step does to the order ----

  /** The messages of now are among those of was, in their order; some may have new content. */
  ghost predicate Thinned(was: seq<Queued>, now: seq<Queued>) {
    forall i, j :: 0 <= i < j < |now| ==> Ahead(was, now[i].id, now[j].id)
  }

  ghost predicate Same(was: seq<Queued>, now: seq<Queued>) {
    QueuedIds(now) == QueuedIds(was)
  }

  lemma SameThinned(was: seq<Queued>, now: seq<Queued>)
    requires Same(was, now)
    ensures Thinned(was, now)
  {
    forall i, j | 0 <= i < j < |now| ensures Ahead(was, now[i].id, now[j].id) {
      assert QueuedIds(was)[i] == now[i].id && QueuedIds(was)[j] == now[j].id;
    }
  }

  lemma RemovedThinned(q: Queue, id: int)
    ensures Thinned(q.messages, Removed(q, id).messages)
  {
    var k := IndexOf(q.messages, id);
    var now := Removed(q, id).messages;
    forall i, j | 0 <= i < j < |now| ensures Ahead(q.messages, now[i].id, now[j].id) {
      var x := if k < 0 || i < k then i else i + 1;
      var y := if k < 0 || j < k then j else j + 1;
      assert q.messages[x].id == now[i].id && q.messages[y].id == now[j].id;
    }
  }

  lemma DispatchedThinned(q: Queue, ready: bool, answer: Answer)
    ensures Thinned(q.messages, Dispatched(q, ready, answer).messages)
  {
    SameThinned(q.messages, q.messages);
    if q.messages != [] {
      var id := q.messages[0].id;
      RemovedThinned(q, id);
      RemovedThinned(Failing(q, id), id);
    }
  }

  lemma EditThinned(q: Queue, id: int, content: seq<Conversation.byte>)
    ensures Thinned(q.messages, Updated(q, id, content).messages)
  {
    assert Same(q.messages, Updated(q, id, content).messages);
    SameThinned(q.messages, Updated(q, id, content).messages);
  }

  /** Only a new order changes which of two queued messages is ahead: whatever else happens, those
      that stay keep their order, and one that comes is last, or first. */
  lemma StepKeepsOrder(w: World, step: Step)
    requires Ok(w.q) && !step.Order?
    ensures var now := MessageDelivery.Next(w, step).q.messages;
      match step
      case Push(content, time, front) => Joins(w.q.messages, now, Queued(w.q.lastID + 1, content, time), front)
      case _ => Thinned(w.q.messages, now)
  {
    hide Thinned, Dispatched, Removed, Updated;
    match step
    case Push(_, _, _) =>
    case Edit(id, content) => EditThinned(w.q, id, content);
    case Delete(id) =>
      RemovedThinned(w.q, id);
      SameThinned(w.q.messages, w.q.messages);
    case Steer(id, answer) =>
      RemovedThinned(w.q, id);
      SameThinned(w.q.messages, w.q.messages);
    case Tick(ready, answer) =>
      DispatchedThinned(w.q, ready, answer);
      SameThinned(w.q.messages, w.q.messages);
    case Clear => NoneThinned(w.q.messages);
    case _ => SameThinned(w.q.messages, w.q.messages);
  }

  lemma NoneThinned(was: seq<Queued>)
    ensures Thinned(was, [])
  {
  }

  // ---- In the order they came ----

  /** Nobody reorders the queue: no message goes first, or into a turn, and no order is given. */
  ghost predicate Plain(steps: seq<Step>) {
    forall k :: 0 <= k < |steps| ==> !steps[k].Order? && !steps[k].Steer? && !(steps[k].Push? && steps[k].front)
  }

  /** The queue is in the order of the IDs, which sends follow; nothing that is queued is behind what was sent. */
  ghost predicate InTurn(w: World) {
    && (forall i, j :: 0 <= i < j < |w.q.messages| ==> w.q.messages[i].id < w.q.messages[j].id)
    && (forall i, j :: 0 <= i < j < |w.sends| ==> w.sends[i].0 <= w.sends[j].0)
    && (forall i, j :: 0 <= i < |w.sends| && 0 <= j < |w.q.messages| ==> w.sends[i].0 <= w.q.messages[j].id)
    && (forall i :: 0 <= i < |w.sends| ==> w.sends[i].0 <= w.q.lastID)
  }

  ghost predicate Rising(messages: seq<Queued>) {
    forall i, j :: 0 <= i < j < |messages| ==> messages[i].id < messages[j].id
  }

  lemma AheadRises(messages: seq<Queued>, a: int, b: int)
    requires Rising(messages) && Ahead(messages, a, b)
    ensures a < b
  {
  }

  lemma ThinnedRises(was: seq<Queued>, now: seq<Queued>)
    requires Rising(was) && Thinned(was, now)
    ensures Rising(now)
  {
    forall i, j | 0 <= i < j < |now| ensures now[i].id < now[j].id {
      AheadRises(was, now[i].id, now[j].id);
    }
  }

  /** What is left of a queue is of what was queued. */
  lemma StillQueued(w: World, step: Step, k: nat)
    requires Accounted(w) && Counted(w) && Refused5(w) && !step.Push?
    requires k < |MessageDelivery.Next(w, step).q.messages|
    ensures StillThere(w.q.messages, MessageDelivery.Next(w, step).q.messages[k].id)
  {
    hide MessageDelivery.Next;
    NextKeeps(w, step);
    var r := MessageDelivery.Next(w, step);
    var id := r.q.messages[k].id;
    HasIs(r.q.messages, id);
    HasIs(w.q.messages, id);
    LastStays(w, step);
    if id in w.fate {
      FatesStay(w, step, id);
    }
  }

  lemma LastStays(w: World, step: Step)
    requires !step.Push?
    ensures MessageDelivery.Next(w, step).q.lastID == w.q.lastID
  {
  }

  lemma HeadFirst(w: World, j: nat)
    requires InTurn(w) && j < |w.q.messages|
    ensures w.q.messages[0].id <= w.q.messages[j].id
  {
  }

  /** The sends a step adds: a tick's, of the head. */
  lemma SendsOf(w: World, step: Step)
    requires !step.Steer?
    ensures var r := MessageDelivery.Next(w, step);
      r.sends == w.sends
        || (w.q.messages != [] && step.Tick? && r.sends == w.sends + [(w.q.messages[0].id, step.answer)])
  {
  }

  lemma StepInTurn(w: World, step: Step)
    requires Accounted(w) && Counted(w) && Refused5(w) && InTurn(w)
    requires !step.Order? && !step.Steer? && !(step.Push? && step.front)
    ensures InTurn(MessageDelivery.Next(w, step))
  {
    var r := MessageDelivery.Next(w, step);
    if step.Push? {
      PushedInTurn(w, step);
    } else {
      hide MessageDelivery.Next, Accounted, Counted, Refused5, InTurn, Thinned;
      StepKeepsOrder(w, step);
      LastStays(w, step);
      SendsOf(w, step);
      forall j | 0 <= j < |r.q.messages| ensures StillThere(w.q.messages, r.q.messages[j].id) {
        StillQueued(w, step, j);
      }
      HeadGiven(w);
      LeavesInTurn(w, r);
    }
  }

  ghost predicate StillThere(messages: seq<Queued>, id: int) {
    exists i :: 0 <= i < |messages| && messages[i].id == id
  }

  lemma LeavesInTurn(w: World, r: World)
    requires InTurn(w) && Thinned(w.q.messages, r.q.messages) && r.q.lastID == w.q.lastID
    requires w.q.messages != [] ==> w.q.messages[0].id <= w.q.lastID
    requires forall j :: 0 <= j < |r.q.messages| ==> StillThere(w.q.messages, r.q.messages[j].id)
    requires r.sends == w.sends || (w.q.messages != [] && |r.sends| == |w.sends| + 1 && w.sends <= r.sends
      && r.sends[|w.sends|].0 == w.q.messages[0].id)
    ensures InTurn(r)
  {
    ThinnedRises(w.q.messages, r.q.messages);
    hide Thinned;
    forall j | 0 <= j < |w.q.messages| ensures w.q.messages[0].id <= w.q.messages[j].id {
      HeadFirst(w, j);
    }
  }

  lemma HeadGiven(w: World)
    requires Accounted(w)
    ensures w.q.messages != [] ==> w.q.messages[0].id <= w.q.lastID
  {
  }

  lemma PushedInTurn(w: World, step: Step)
    requires Accounted(w) && InTurn(w) && step.Push? && !step.front
    ensures InTurn(MessageDelivery.Next(w, step))
  {
  }

  lemma {:induction false} RunInTurn(steps: seq<Step>)
    requires Plain(steps)
    ensures InTurn(MessageDelivery.Run(steps))
  {
    if |steps| > 0 {
      hide InTurn, MessageDelivery.Next, Accounted, Counted, Refused5;
      var n := |steps| - 1;
      RunInTurn(steps[..n]);
      RunKeeps(steps[..n]);
      StepInTurn(MessageDelivery.Run(steps[..n]), steps[n]);
    } else {
      assert InTurn(NewWorld);
    }
  }

  /** When nobody reorders the queue, messages go out in the order in which they came: a message is
      sent only once those that were queued before it arrived, were dropped or deleted, and it isn't
      sent again once a later one was. */
  lemma FirstComeFirstServed(steps: seq<Step>, i: nat, id: int)
    requires Plain(steps) && i < |MessageDelivery.Run(steps).sends| && 0 < id < MessageDelivery.Run(steps).sends[i].0
    ensures var w := MessageDelivery.Run(steps);
      && id in w.fate && !Has(w.q.messages, id)
      && forall j :: i <= j < |w.sends| ==> w.sends[j].0 != id
  {
    hide MessageDelivery.Next;
    RunInTurn(steps);
    RunKeeps(steps);
    var w := MessageDelivery.Run(steps);
    HasIs(w.q.messages, id);
  }

  // ---- A message that is refused ----

  /** The queue after ticks that found the agent ready, and answered so. */
  function Tried(q: Queue, answers: seq<Answer>): Queue {
    if |answers| == 0 then q else Dispatched(Tried(q, answers[..|answers| - 1]), true, answers[|answers| - 1])
  }

  function Noes(answers: seq<Answer>): nat {
    if |answers| == 0 then 0
    else Noes(answers[..|answers| - 1]) + if answers[|answers| - 1] == Busy then 0 else 1
  }

  /** The failures in a row of the head so far. */
  function FailuresOf(q: Queue): nat
    requires q.messages != []
  {
    if q.failedID == q.messages[0].id then q.failures else 0
  }

  lemma {:induction false} TriedStays(q: Queue, answers: seq<Answer>)
    requires q.messages != [] && FailuresOf(q) + Noes(answers) < MaxAttempts
    requires forall i :: 0 <= i < |answers| ==> !Reaches(answers[i])
    ensures var r := Tried(q, answers); r.messages == q.messages && FailuresOf(r) == FailuresOf(q) + Noes(answers)
  {
    if |answers| > 0 {
      TriedStays(q, answers[..|answers| - 1]);
    }
  }

  /** The head is tried until it was refused five times in a row: while it was refused less often it
      stays, whenever the agent was busy in between, and the fifth time it goes. */
  lemma RefusedFiveTimes(q: Queue, answers: seq<Answer>, answer: Answer)
    requires Ok(q) && q.messages != [] && FailuresOf(q) + Noes(answers) < 5
    requires forall i :: 0 <= i < |answers| ==> !Reaches(answers[i])
    requires !Reaches(answer) && answer != Busy
    ensures Tried(q, answers).messages == q.messages
    ensures Tried(q, answers + [answer]).messages ==
      if FailuresOf(q) + Noes(answers) + 1 < 5 then q.messages else q.messages[1..]
  {
    TriedStays(q, answers);
    hide Dispatched, FailuresOf, Noes, Ok;
    assert (answers + [answer])[..|answers|] == answers;
    RefusedOnce(Tried(q, answers), answer);
  }

  lemma RefusedOnce(q: Queue, answer: Answer)
    requires q.messages != [] && !Reaches(answer) && answer != Busy
    ensures Dispatched(q, true, answer).messages == if FailuresOf(q) + 1 < 5 then q.messages else q.messages[1..]
  {
    assert IndexOf(q.messages, q.messages[0].id) == 0;
  }

  // ---- A message that comes in ----

  /** The agent is asked to start a turn with the message: it isn't for the turn that is going on, if
      there is one, and nothing is in front of it. */
  predicate GoesAhead(q: Queue, mode: Mode, agent: Agent) {
    && agent.idle && (q.messages == [] || agent.held)
    && (agent.active ==> mode == ToQueue || (mode == ToSteer && agent.steer == NoTurn))
  }

  /** A message goes straight to the agent only past an empty queue, or one that is held, and only
      when the agent is idle; one that waits is last, or first when it interrupts the turn. */
  lemma PostedInTurn(q: Queue, content: seq<Conversation.byte>, time: int, mode: Mode, agent: Agent)
    ensures var (after, response, asked) := Posted(q, content, time, mode, agent);
      && (response == Sent ==> agent.idle && (q.messages == [] || agent.held))
      && (response == SteeredIn ==> agent.active && mode == ToSteer)
      && (response == Waits ==> Joins(q.messages, after.messages, Queued(q.lastID + 1, content, time),
            mode == ToInterrupt && agent.active))
      && (response != Waits ==> after == q)
      && (response == MessageDelivery.Failed <==>
        (agent.active && mode == ToSteer && agent.steer != Taken && agent.steer != NoTurn)
        || (agent.active && mode == ToInterrupt && agent.interrupt != Taken && agent.interrupt != NoTurn)
        || (GoesAhead(q, mode, agent) && agent.start != Taken && agent.start != Busy))
  {
  }

  // ---- Who hears of the queue ----

  /** A step that changes the queue raises its version, so that who has an older one takes it. */
  lemma VersionRises(w: World, step: Step)
    requires !step.Restart?
    ensures var r := MessageDelivery.Next(w, step);
      r.q.version >= w.q.version && (r.q.messages != w.q.messages ==> r.q.version > w.q.version)
  {
    hide IndexOf, Lists, InOrderOf, Has;
  }

  /** A queued message leaves the queue for the turn exactly when the turn took it, or may have; the
      others stay, in their order. */
  lemma SteeredOnly(q: Queue, id: int, answer: Answer, x: int)
    requires Ok(q)
    ensures var r := Steered(q, id, answer);
      && (Has(r.messages, x) <==> Has(q.messages, x) && !(x == id && Reaches(answer)))
      && Thinned(q.messages, r.messages) && r.lastID == q.lastID
  {
    hide Has, Thinned, Removed, Ok;
    RemovedHas(q, id, x);
    RemovedThinned(q, id);
    SameThinned(q.messages, q.messages);
  }
}
