/** How queued messages reach the agent, whose answer to a message may be lost. */
module MessageDelivery {
  import Conversation
  import opened Q = MessageQueue

  /** What the agent made of a message: it took it, or was busy, or the message went out and
      nothing confirmed it; NoTurn and Unsupported are answers to one added to a running turn. */
  datatype Answer = Taken | Busy | Unsupported | NoTurn | Unconfirmed | Refused

  /** The agent has the message, or may have it. */
  predicate Reaches(a: Answer) {
    a == Taken || a == Unconfirmed
  }

  // ---- The ways a queued message goes out ----

  /** A tick sends the head of the queue to an agent that can take it. One that is refused is
      tried again, five times in a row; one that may have arrived isn't. */
  function Dispatched(q: Queue, ready: bool, answer: Answer): Queue {
    if !ready || q.messages == [] || answer == Busy then q
    else
      var id := q.messages[0].id;
      if answer == Taken then Removed(q, id)
      else
        var failing := Failing(q, id);
        if answer == Unconfirmed || failing.failures >= MaxAttempts then Removed(failing, id) else failing
  }

  /** A queued message is added to the running turn. */
  function Steered(q: Queue, id: int, answer: Answer): Queue {
    if Reaches(answer) then Removed(q, id) else q
  }

  method DispatchNext(q: MessageQueue, ready: bool, answer: Answer)
    requires Ok(q.View())
    modifies q
    ensures q.View() == Dispatched(old(q.View()), ready, answer) && Ok(q.View())
  {
    if |q.messages| == 0 || !ready {
      return;
    }
    var next := q.messages[0];
    if answer == Taken {
      var removed := q.Remove(next.id);
      return;
    }
    if answer == Busy {
      return;
    }
    var attempts := q.Failed(next.id);
    if answer == Unconfirmed || attempts >= MaxAttempts {
      var removed := q.Remove(next.id);
    }
  }

  method SteerQueued(q: MessageQueue, id: int, answer: Answer) returns (ok: bool)
    requires Ok(q.View())
    modifies q
    ensures q.View() == Steered(old(q.View()), id, answer) && Ok(q.View())
    ensures ok == (Has(old(q.messages), id) && answer == Taken)
  {
    var i := q.Index(id);
    if i < 0 {
      return false;
    }
    if Reaches(answer) {
      var removed := q.Remove(id);
    }
    ok := answer == Taken;
  }

  // ---- A message that comes in ----

  datatype Mode = ToQueue | ToSteer | ToInterrupt

  /** What the agent is like, and what it answers to what is asked of it. */
  datatype Agent = Agent(active: bool, idle: bool, held: bool, steer: Answer, interrupt: Answer, start: Answer)

  datatype Response = Sent | SteeredIn | Waits | Failed

  /** A message as it is sent: the queue after it, the answer, and what the agent was asked to take. */
  function Posted(q: Queue, content: seq<Conversation.byte>, time: int, mode: Mode,
      agent: Agent): (r: (Queue, Response, seq<Answer>)) {
    if mode == ToSteer && agent.active && agent.steer == Taken then (q, SteeredIn, [Taken])
    else if mode == ToSteer && agent.active && agent.steer != NoTurn then (q, Failed, [agent.steer])
    else if mode == ToInterrupt && agent.active then
      if agent.interrupt == Taken || agent.interrupt == NoTurn then (Pushed(q, content, time, true), Waits, [])
        else (q, Failed, [])
    else
      var asked := if mode == ToSteer && agent.active then [agent.steer] else [];
      if (q.messages != [] && !agent.held) || !agent.idle then (Pushed(q, content, time, false), Waits, asked)
      else if agent.start == Taken then (q, Sent, asked + [Taken])
      else if agent.start == Busy then (Pushed(q, content, time, false), Waits, asked + [Busy])
      else (q, Failed, asked + [agent.start])
  }

  method CreateMessage(q: MessageQueue, content: seq<Conversation.byte>, time: int, mode: Mode, agent: Agent)
      returns (response: Response, ghost asked: seq<Answer>)
    requires Ok(q.View())
    modifies q
    ensures (q.View(), response, asked) == Posted(old(q.View()), content, time, mode, agent) && Ok(q.View())
  {
    asked := [];
    if mode == ToSteer && agent.active {
      asked := [agent.steer];
      if agent.steer == Taken {
        return SteeredIn, asked;
      }
      if agent.steer != NoTurn {
        return Failed, asked;
      }
    } else if mode == ToInterrupt && agent.active {
      if agent.interrupt != Taken && agent.interrupt != NoTurn {
        return Failed, asked;
      }
      var m := q.Push(content, time, true);
      return Waits, asked;
    }
    if (|q.messages| > 0 && !agent.held) || !agent.idle {
      var m := q.Push(content, time, false);
      return Waits, asked;
    }
    asked := asked + [agent.start];
    if agent.start == Taken {
      return Sent, asked;
    }
    if agent.start == Busy {
      var m := q.Push(content, time, false);
      return Waits, asked;
    }
    response := Failed;
  }

  function Reached(asked: seq<Answer>): nat {
    if |asked| == 0 then 0 else Reached(asked[..|asked| - 1]) + if Reaches(asked[|asked| - 1]) then 1 else 0
  }

  lemma {:induction false} ReachedOne(a: Answer)
    ensures Reached([a]) == if Reaches(a) then 1 else 0
  {
    assert [a][..0] == [];
  }

  /** A message that comes in reaches the agent at most once, and is queued only if it didn't reach it;
      who sent it is told that it arrived exactly when the agent said so. */
  lemma PostedOnce(q: Queue, content: seq<Conversation.byte>, time: int, mode: Mode, agent: Agent)
    ensures var (after, response, asked) := Posted(q, content, time, mode, agent);
      && Reached(asked) <= 1
      && (response == Waits <==> after != q)
      && (response == Waits ==> Reached(asked) == 0 && after.lastID == q.lastID + 1)
      && (response == Sent || response == SteeredIn <==> Taken in asked)
  {
    var asked := Posted(q, content, time, mode, agent).2;
    if |asked| == 1 {
      ReachedOne(asked[0]);
      assert asked == [asked[0]];
    } else if |asked| == 2 {
      assert asked == [NoTurn, agent.start];
      assert asked[..1] == [NoTurn];
      ReachedOne(NoTurn);
    }
  }

  // ---- Runs ----

  /** What became of a message that left the queue: the agent took it, or may have it; it was
      dropped after it was refused; someone deleted it; or the conversation was cleared. */
  datatype Fate = Delivered | Unsure | Dropped | Deleted | Forgotten

  /** The queue, the sends of queued messages so far, and what became of those that left it. */
  datatype World = World(q: Queue, sends: seq<(int, Answer)>, fate: map<int, Fate>)

  datatype Step =
    | Push(content: seq<Conversation.byte>, time: int, front: bool)
    | Edit(id: int, content: seq<Conversation.byte>)
    | Order(ids: seq<int>)
    | Delete(id: int)
    | Clear
    | Steer(id: int, answer: Answer)
    | Tick(ready: bool, answer: Answer)
    /** AgentAPI ends, and starts again with the queue it stored. */
    | Restart

  function Left(w: World, q: Queue, id: int, fate: Fate): World {
    w.(q := q, fate := w.fate[id := fate])
  }

  function ForgetAll(messages: seq<Queued>): (r: map<int, Fate>)
    ensures forall id :: id in r <==> exists i :: 0 <= i < |messages| && messages[i].id == id
    ensures forall id :: id in r ==> r[id] == Forgotten
  {
    map i | 0 <= i < |messages| :: messages[i].id := Forgotten
  }

  ghost function Next(w: World, step: Step): World {
    match step
    case Push(content, time, front) => w.(q := Pushed(w.q, content, time, front))
    case Edit(id, content) => w.(q := Updated(w.q, id, content))
    case Order(ids) => if Lists(ids, w.q.messages) then w.(q := Changed(w.q, InOrderOf(w.q.messages, ids))) else w
    case Delete(id) => if Has(w.q.messages, id) then Left(w, Removed(w.q, id), id, Deleted) else w
    case Clear => w.(q := Cleared(w.q), fate := w.fate + ForgetAll(w.q.messages))
    case Steer(id, answer) =>
      if !Has(w.q.messages, id) then w
      else
        var sent := w.(sends := w.sends + [(id, answer)]);
        if Reaches(answer) then Left(sent, Steered(w.q, id, answer), id, if answer == Taken then Delivered else Unsure)
          else sent
    case Tick(ready, answer) =>
      if !ready || w.q.messages == [] then w
      else
        var id := w.q.messages[0].id;
        var after := Dispatched(w.q, ready, answer);
        var sent := w.(sends := w.sends + [(id, answer)]);
        if Has(after.messages, id) then sent.(q := after)
        else Left(sent, after, id,
          if answer == Taken then Delivered else if answer == Unconfirmed then Unsure else Dropped)
    case Restart => w.(q := w.q.(failedID := 0, failures := 0, version := 1))
  }

  const NewWorld := World(Queue([], 0, 0, 0, 0), [], map[])

  ghost function Run(steps: seq<Step>): World {
    if |steps| == 0 then NewWorld else Next(Run(steps[..|steps| - 1]), steps[|steps| - 1])
  }

  /** How often the message was sent so that it reached the agent, or may have. */
  function Arrivals(sends: seq<(int, Answer)>, id: int): nat {
    if |sends| == 0 then 0
    else
      var (sent, answer) := sends[|sends| - 1];
      Arrivals(sends[..|sends| - 1], id) + if sent == id && Reaches(answer) then 1 else 0
  }

  /** How often it was sent and refused. */
  function Refusals(sends: seq<(int, Answer)>, id: int): nat {
    if |sends| == 0 then 0
    else
      var (sent, answer) := sends[|sends| - 1];
      Refusals(sends[..|sends| - 1], id) + if sent == id && !Reaches(answer) && answer != Busy then 1 else 0
  }

  predicate Arrived(fate: Fate) {
    fate == Delivered || fate == Unsure
  }

  /** Every message that was queued is queued still, or what became of it is known. */
  ghost predicate Accounted(w: World) {
    && Ok(w.q)
    && (forall id :: id in w.fate || Has(w.q.messages, id) <==> 0 < id <= w.q.lastID)
    && (forall id :: id in w.fate ==> !Has(w.q.messages, id))
  }

  /** It arrived as often as what became of it says. */
  ghost predicate Counted(w: World) {
    forall id :: Arrivals(w.sends, id) == if id in w.fate && Arrived(w.fate[id]) then 1 else 0
  }

  /** The failures counted are refusals, and what was dropped was refused that often. */
  ghost predicate Refused5(w: World) {
    && w.q.failedID <= w.q.lastID
    && (Has(w.q.messages, w.q.failedID) ==> w.q.failures <= Refusals(w.sends, w.q.failedID))
    && (forall id :: id in w.fate && w.fate[id] == Dropped ==> Refusals(w.sends, id) >= MaxAttempts)
  }

  lemma {:induction false} SendOnce(sends: seq<(int, Answer)>, id: int, answer: Answer, x: int)
    ensures Arrivals(sends + [(id, answer)], x) == Arrivals(sends, x) + if x == id && Reaches(answer) then 1 else 0
    ensures Refusals(sends + [(id, answer)], x) == Refusals(sends, x) + if x == id && !Reaches(answer) && answer != Busy
      then 1 else 0
  {
    assert (sends + [(id, answer)])[..|sends|] == sends;
  }

  lemma {:induction false} HasIs(messages: seq<Queued>, id: int)
    ensures Has(messages, id) <==> exists i :: 0 <= i < |messages| && messages[i].id == id
  {
  }

  lemma {:induction false} RemovedHas(q: Queue, id: int, x: int)
    requires Ok(q)
    ensures Ok(Removed(q, id)) && (Has(Removed(q, id).messages, x) <==> Has(q.messages, x) && x != id)
    ensures Removed(q, id).lastID == q.lastID && Removed(q, id).failedID == q.failedID
    ensures Removed(q, id).failures == q.failures
  {
    var i := IndexOf(q.messages, id);
    var r := Removed(q, id).messages;
    HasIs(q.messages, id);
    if i >= 0 {
      HasId(q.messages, x);
      HasId(r, x);
      WithoutHas(q.messages, i, x);
    }
  }

  lemma {:induction false} WithoutHas(messages: seq<Queued>, i: nat, x: int)
    requires i < |messages| && NoTwice(QueuedIds(messages))
    ensures x in QueuedIds(messages[..i] + messages[i + 1..]) <==> x in QueuedIds(messages) && x != messages[i].id
  {
    var ids := QueuedIds(messages);
    assert QueuedIds(messages[..i] + messages[i + 1..]) == ids[..i] + ids[i + 1..];
    assert ids == ids[..i] + [ids[i]] + ids[i + 1..];
  }

  lemma {:induction false} PushedHas(q: Queue, content: seq<Conversation.byte>, time: int, front: bool, x: int)
    requires Ok(q)
    ensures var r := Pushed(q, content, time, front);
      Ok(r) && (Has(r.messages, x) <==> Has(q.messages, x) || x == q.lastID + 1)
  {
    hide IndexOf;
    var r := Pushed(q, content, time, front).messages;
    var id := q.lastID + 1;
    HasId(q.messages, x);
    HasId(r, x);
    assert QueuedIds(r) == if front then [id] + QueuedIds(q.messages) else QueuedIds(q.messages) + [id];
  }

  lemma {:induction false} UpdatedHas(q: Queue, id: int, content: seq<Conversation.byte>, x: int)
    requires Ok(q)
    ensures Ok(Updated(q, id, content)) && (Has(Updated(q, id, content).messages, x) <==> Has(q.messages, x))
  {
    var r := Updated(q, id, content).messages;
    HasId(q.messages, x);
    HasId(r, x);
    assert QueuedIds(r) == QueuedIds(q.messages);
  }

  lemma {:induction false} OrderedStill(q: Queue, ids: seq<int>, x: int)
    requires Ok(q) && Lists(ids, q.messages)
    ensures var r := Changed(q, InOrderOf(q.messages, ids)); Ok(r) && (Has(r.messages, x) <==> Has(q.messages, x))
  {
    hide Lists, InOrderOf, Has;
    OrderedOk(q, ids);
    ListsHas(ids, q.messages, x);
    HasId(q.messages, x);
    HasId(InOrderOf(q.messages, ids), x);
  }

  /** A message that leaves the queue has its fate from then on. */
  lemma {:induction false} LeftAccounted(w: World, q: Queue, id: int, fate: Fate, sends: seq<(int, Answer)>)
    requires Accounted(w) && Has(w.q.messages, id) && q.messages == Removed(w.q, id).messages && q.lastID == w.q.lastID
    ensures Accounted(Left(w.(sends := sends), q, id, fate))
  {
    hide Ok, Has;
    RemovedHas(w.q, id, id);
    forall x ensures Has(q.messages, x) <==> Has(w.q.messages, x) && x != id {
      RemovedHas(w.q, id, x);
    }
    SameOk(Removed(w.q, id), q);
  }

  lemma {:induction false} SameOk(a: Queue, b: Queue)
    requires a.messages == b.messages && a.lastID == b.lastID
    ensures Ok(a) <==> Ok(b)
  {
  }

  /** What a tick does to the queue. */
  lemma {:induction false} TickIs(q: Queue, answer: Answer)
    requires Ok(q) && q.messages != []
    ensures var id := q.messages[0].id;
      var after := Dispatched(q, true, answer);
      && Ok(after) && after.lastID == q.lastID && Has(q.messages, id) && id <= q.lastID
      && after.messages == (if Has(after.messages, id) then q.messages else Removed(q, id).messages)
      && (Reaches(answer) ==> !Has(after.messages, id))
      && (!Has(after.messages, id) && !Reaches(answer) ==> answer != Busy && Failing(q, id).failures >= MaxAttempts)
      && (if answer == Busy || answer == Taken then after.failedID == q.failedID && after.failures == q.failures
          else after.failedID == Failing(q, id).failedID == id && after.failures == Failing(q, id).failures)
  {
    hide Removed, Ok;
    var id := q.messages[0].id;
    OkPositive(q);
    HeadHas(q);
    RemovedHas(q, id, id);
    SameOk(q, Failing(q, id));
    RemovedHas(Failing(q, id), id, id);
    SameRemoved(q, Failing(q, id), id);
  }

  lemma {:induction false} HeadHas(q: Queue)
    requires q.messages != []
    ensures Has(q.messages, q.messages[0].id)
  {
  }

  lemma {:induction false} SameRemoved(a: Queue, b: Queue, id: int)
    requires a.messages == b.messages
    ensures Removed(a, id).messages == Removed(b, id).messages
  {
  }

  lemma {:induction false} TickKeeps(w: World, answer: Answer)
    requires Accounted(w) && Counted(w) && Refused5(w) && w.q.messages != []
    ensures var r := Next(w, Tick(true, answer)); Accounted(r) && Counted(r) && Refused5(r)
  {
    hide Dispatched, Has, Arrivals, Refusals, Ok, Removed;
    var id := w.q.messages[0].id;
    var r := Next(w, Tick(true, answer));
    TickIs(w.q, answer);
    TickCounts(w, r, id, answer);
    if Has(r.q.messages, id) {
      StillAccounted(w, r);
    } else {
      LeftAccounted(w, r.q, id, r.fate[id], r.sends);
    }
    forall x ensures Refusals(r.sends, x) >= Refusals(w.sends, x) {
      SendOnce(w.sends, id, answer, x);
    }
    SendOnce(w.sends, id, answer, id);
    RemovedHas(w.q, id, w.q.failedID);
  }

  lemma {:induction false} OkPositive(q: Queue)
    requires Ok(q) && q.messages != []
    ensures 0 < q.messages[0].id <= q.lastID
  {
  }

  lemma {:induction false} StillAccounted(w: World, r: World)
    requires Accounted(w) && r.fate == w.fate && r.q.messages == w.q.messages && r.q.lastID == w.q.lastID
    ensures Accounted(r)
  {
    hide Has;
    SameOk(w.q, r.q);
  }

  lemma {:induction false} TickCounts(w: World, r: World, id: int, answer: Answer)
    requires Accounted(w) && Counted(w) && Has(w.q.messages, id) && r.sends == w.sends + [(id, answer)]
    requires if Has(r.q.messages, id) then r.fate == w.fate && !Reaches(answer)
      else r.fate == w.fate[id := if answer == Taken then Delivered else if answer ==
        Unconfirmed then Unsure else Dropped]
    ensures Counted(r)
  {
    hide Has, Arrivals, Refusals, Ok;
    forall x ensures Arrivals(r.sends, x) == if x in r.fate && Arrived(r.fate[x]) then 1 else 0 {
      SendOnce(w.sends, id, answer, x);
    }
  }

  lemma {:induction false} SteerKeeps(w: World, id: int, answer: Answer)
    requires Accounted(w) && Counted(w) && Refused5(w) && Has(w.q.messages, id)
    ensures var r := Next(w, Steer(id, answer)); Accounted(r) && Counted(r) && Refused5(r)
  {
    hide Has, Arrivals, Refusals, Ok, Removed;
    var r := Next(w, Steer(id, answer));
    forall x ensures Refusals(r.sends, x) >= Refusals(w.sends, x) {
      SendOnce(w.sends, id, answer, x);
    }
    RemovedHas(w.q, id, id);
    RemovedHas(w.q, id, w.q.failedID);
    forall x ensures Arrivals(r.sends, x) == if x in r.fate && Arrived(r.fate[x]) then 1 else 0 {
      SendOnce(w.sends, id, answer, x);
    }
    if Reaches(answer) {
      LeftAccounted(w, r.q, id, r.fate[id], r.sends);
    } else {
      StillAccounted(w, r);
    }
  }

  lemma {:induction false} ClearKeeps(w: World)
    requires Accounted(w) && Counted(w) && Refused5(w)
    ensures var r := Next(w, Clear); Accounted(r) && Counted(r) && Refused5(r)
  {
    hide Arrivals, Refusals, Has, ForgetAll;
    var all := ForgetAll(w.q.messages);
    forall id ensures Has(w.q.messages, id) <==> id in all {
      HasIs(w.q.messages, id);
    }
    NoneHas();
  }

  lemma {:induction false} NoneHas()
    ensures forall id :: !Has([], id)
  {
  }

  lemma {:induction false} DeleteKeeps(w: World, id: int)
    requires Accounted(w) && Counted(w) && Refused5(w) && Has(w.q.messages, id)
    ensures var r := Next(w, Delete(id)); Accounted(r) && Counted(r) && Refused5(r)
  {
    hide Has, Arrivals, Refusals, Ok, Removed;
    RemovedHas(w.q, id, id);
    RemovedHas(w.q, id, w.q.failedID);
    LeftAccounted(w, Removed(w.q, id), id, Deleted, w.sends);
  }

  /** What only changes the messages that wait, or their order, or adds one. */
  lemma {:induction false} EditKeeps(w: World, step: Step)
    requires Accounted(w) && Counted(w) && Refused5(w) && (step.Push? || step.Edit? || step.Order? || step.Restart?)
    ensures var r := Next(w, step); Accounted(r) && Counted(r) && Refused5(r)
  {
    hide Has, Arrivals, Refusals, Ok, Lists, InOrderOf, IndexOf;
    var r := Next(w, step);
    forall x ensures Ok(r.q) && (Has(r.q.messages, x) <==> Has(w.q.messages, x) || (step.Push? && x == r.q.lastID)) {
      match step
      case Push(content, time, front) => PushedHas(w.q, content, time, front, x);
      case Edit(id, content) => UpdatedHas(w.q, id, content, x);
      case Order(ids) => if Lists(ids, w.q.messages) { OrderedStill(w.q, ids, x); }
      case Restart => SameOk(w.q, r.q);
    }
  }

  lemma {:induction false} NextKeeps(w: World, step: Step)
    requires Accounted(w) && Counted(w) && Refused5(w)
    ensures var r := Next(w, step); Accounted(r) && Counted(r) && Refused5(r)
  {
    hide Accounted, Counted, Refused5, Has;
    match step
    case Delete(id) => if Has(w.q.messages, id) { DeleteKeeps(w, id); }
    case Clear => ClearKeeps(w);
    case Steer(id, answer) => if Has(w.q.messages, id) { SteerKeeps(w, id, answer); }
    case Tick(ready, answer) => if ready && w.q.messages != [] { TickKeeps(w, answer); }
    case _ => EditKeeps(w, step);
  }

  lemma {:induction false} RunKeeps(steps: seq<Step>)
    ensures Accounted(Run(steps)) && Counted(Run(steps)) && Refused5(Run(steps))
  {
    if |steps| > 0 {
      hide Accounted, Counted, Refused5, Next;
      RunKeeps(steps[..|steps| - 1]);
      NextKeeps(Run(steps[..|steps| - 1]), steps[|steps| - 1]);
    }
  }

  /** At most once: over any run of pushes, edits, orders, deletions, clears, steers, ticks and
      restarts, a queued message reaches the agent, or may have, at most once, and does exactly
      when that is what became of it; every message that was queued is queued or had one fate;
      and one that was dropped was refused five times. */
  lemma AtMostOnce(steps: seq<Step>, id: int)
    ensures var w := Run(steps);
      && Arrivals(w.sends, id) <= 1
      && (Arrivals(w.sends, id) == 1 <==> id in w.fate && Arrived(w.fate[id]))
      && (0 < id <= w.q.lastID <==> id in w.fate || Has(w.q.messages, id))
      && !(id in w.fate && Has(w.q.messages, id))
      && (id in w.fate && w.fate[id] == Dropped ==> Refusals(w.sends, id) >= MaxAttempts)
  {
    RunKeeps(steps);
  }

  /** A message that is queued gets an ID no message had, whatever happened before. */
  lemma NeverReused(steps: seq<Step>, content: seq<Conversation.byte>, time: int, front: bool)
    ensures var w := Run(steps);
      var id := Next(w, Push(content, time, front)).q.lastID;
      id !in w.fate && !Has(w.q.messages, id) && Arrivals(w.sends, id) == 0
        && Has(Next(w, Push(content, time, front)).q.messages, id)
  {
    RunKeeps(steps);
    var w := Run(steps);
    PushedHas(w.q, content, time, front, w.q.lastID + 1);
  }

  /** What became of a message never changes. */
  lemma {:induction false} FatesStay(w: World, step: Step, id: int)
    requires Accounted(w) && id in w.fate
    ensures id in Next(w, step).fate && Next(w, step).fate[id] == w.fate[id]
  {
    hide Ok;
    HasIs(w.q.messages, id);
    if step.Tick? && w.q.messages != [] {
      assert w.q.messages[0].id != id;
    }
  }
}
