/** The subscriptions to the emitter's events: each is a channel with a buffer,
    which ends when it overflows. */
module Subscriptions {
  import opened Options
  import opened Conversation
  import opened Replication

  datatype Kind =
    | MessageUpdate | RichMessageUpdate | RequestUpdate | TaskUpdate | QueueUpdate
    | SessionSync | StatusChange | AgentError | SummaryUpdate

  function KindOf(e: Event): Kind {
    match e
    case Update(MessageKey(_), _, _) => MessageUpdate
    case Update(RichKey(_), _, _) => RichMessageUpdate
    case Update(RequestKey(_), _, _) => RequestUpdate
    case Update(TaskKey(_), _, _) => TaskUpdate
    case Update(QueueKey, _, _) => QueueUpdate
    case Synced(_) => SessionSync
    case Other(what) => if what == "summary" then SummaryUpdate else if what == "error" then AgentError
      else StatusChange
    case Ended => StatusChange
  }

  const ConversationKinds := {MessageUpdate, RichMessageUpdate, RequestUpdate, TaskUpdate, QueueUpdate}

  /** The subscription gets changes of the conversation; a summary stream doesn't. */
  predicate WantsConversation(wants: set<Kind>) {
    MessageUpdate in wants || RichMessageUpdate in wants || RequestUpdate in wants || TaskUpdate in wants
      || QueueUpdate in wants
  }

  predicate Wants(wants: set<Kind>, e: Event) {
    !e.Ended? && KindOf(e) in wants
  }

  /** Those of the events that are wanted. */
  function Wanted(events: seq<Event>, wants: set<Kind>): (r: seq<Event>)
    ensures |r| <= |events|
  {
    if |events| == 0 then []
    else
      var last := events[|events| - 1];
      Wanted(events[..|events| - 1], wants) + if Wants(wants, last) then [last] else []
  }

  lemma WantedMore(events: seq<Event>, wants: set<Kind>, e: Event)
    ensures Wanted(events + [e], wants) == Wanted(events, wants) + if Wants(wants, e) then [e] else []
  {
    assert (events + [e])[..|events|] == events;
  }

  /** The numbers of the changes increase, from after low. */
  ghost predicate Rising(events: seq<Event>, low: nat) {
    && (forall i :: 0 <= i < |events| && events[i].Update? ==> low < events[i].number)
    && (forall i, j :: 0 <= i < j < |events| && events[i].Update? && events[j].Update? ==>
      events[i].number < events[j].number)
  }

  ghost predicate UpTo(events: seq<Event>, high: nat) {
    forall i :: 0 <= i < |events| && events[i].Update? ==> events[i].number <= high
  }

  /** What is wanted of events whose numbers rise has numbers that rise. */
  lemma {:induction false} WantedRises(events: seq<Event>, wants: set<Kind>, low: nat)
    requires Rising(events, low)
    ensures Rising(Wanted(events, wants), low)
    ensures forall e :: e in Wanted(events, wants) ==> e in events
  {
    if |events| > 0 {
      var n := |events| - 1;
      var front := events[..n];
      WantedRises(front, wants, low);
      var w := Wanted(front, wants);
      forall i | 0 <= i < |w| && w[i].Update? && events[n].Update? ensures w[i].number < events[n].number {
        assert w[i] in front;
      }
    }
  }

  /** The subscriptions to the conversation ended among the events. */
  predicate HasEnd(events: seq<Event>) {
    exists i :: 0 <= i < |events| && events[i].Ended?
  }

  /** The events up to where the subscriptions to the conversation ended. */
  function Until(events: seq<Event>): (r: seq<Event>)
    ensures r <= events
  {
    if |events| == 0 || !HasEnd(events) then events else Until(events[..|events| - 1])
  }

  /** The events that a subscription can get. */
  function Reach(events: seq<Event>, wants: set<Kind>): seq<Event> {
    if WantsConversation(wants) then Until(events) else events
  }

  lemma HasEndMore(events: seq<Event>, e: Event)
    ensures HasEnd(events + [e]) <==> HasEnd(events) || e.Ended?
  {
    var all := events + [e];
    assert all[|events|] == e;
    if HasEnd(events) {
      var i :| 0 <= i < |events| && events[i].Ended?;
      assert all[i].Ended?;
    }
  }

  lemma UntilMore(events: seq<Event>, e: Event)
    ensures Until(events + [e]) == if HasEnd(events) || e.Ended? then Until(events) else events + [e]
    ensures !HasEnd(events) ==> Until(events) == events
  {
    HasEndMore(events, e);
    assert (events + [e])[..|events|] == events;
  }

  lemma ReachMore(events: seq<Event>, wants: set<Kind>, e: Event)
    ensures Wanted(Reach(events, wants), wants) <= Wanted(Reach(events + [e], wants), wants)
    ensures !(WantsConversation(wants) && HasEnd(events)) ==>
      Wanted(Reach(events + [e], wants), wants) == Wanted(Reach(events, wants), wants) + if Wants(wants, e) then [e]
        else []
  {
    UntilMore(events, e);
    WantedMore(events, wants, e);
  }

  datatype Sub = Sub(wants: set<Kind>, buffer: seq<Event>)

  /** What a subscription's reader got, and the events from its start on that it wants. */
  ghost predicate GapFree(got: seq<Event>, buffer: seq<Event>, events: seq<Event>, wants: set<Kind>, open: bool) {
    var all := Wanted(Reach(events, wants), wants);
    if open then got + buffer == all && !(WantsConversation(wants) && HasEnd(events)) else got + buffer <= all
  }

  /** When a subscription began: after so many events, and after the change so numbered. */
  datatype Start = Start(events: nat, number: nat, wants: set<Kind>)

  /** The subscription doesn't want the event, or has room for it. */
  predicate Fits(sub: Sub, e: Event, bufSize: nat) {
    !Wants(sub.wants, e) || |sub.buffer| < bufSize
  }

  function Put(sub: Sub, e: Event): Sub {
    if Wants(sub.wants, e) then sub.(buffer := sub.buffer + [e]) else sub
  }

  /** The event was put into the channels it fits, and the others were closed. */
  ghost predicate Sent(chans: map<int, Sub>, open: map<int, Sub>, closed: map<int, seq<Event>>, full: map<int,
      seq<Event>>, e: Event, bufSize: nat, n: int) {
    && (forall x :: x in open <==> x in chans && (x >= n || Fits(chans[x], e, bufSize)))
    && (forall x :: x in open ==> open[x] == if x >= n then chans[x] else Put(chans[x], e))
    && (forall x :: x in full <==> x in closed || (x in chans && x < n && !Fits(chans[x], e, bufSize)))
    && (forall x :: x in full ==>
          full[x] == if x in chans && x < n && !Fits(chans[x], e, bufSize) then chans[x].buffer else closed[x])
  }

  lemma GapFreeMore(got: seq<Event>, sub: Sub, events: seq<Event>, e: Event, bufSize: nat)
    requires GapFree(got, sub.buffer, events, sub.wants, true)
    ensures !e.Ended? && Fits(sub, e, bufSize) ==> GapFree(got, Put(sub, e).buffer, events + [e], sub.wants, true)
    ensures e.Ended? && !WantsConversation(sub.wants) ==> GapFree(got, sub.buffer, events + [e], sub.wants, true)
    ensures GapFree(got, sub.buffer, events + [e], sub.wants, false)
  {
    hide KindOf, Reach, HasEnd;
    ReachMore(events, sub.wants, e);
    HasEndMore(events, e);
    assert got + (sub.buffer + [e]) == got + sub.buffer + [e];
  }

  lemma GapFreeClosed(got: seq<Event>, buffer: seq<Event>, events: seq<Event>, wants: set<Kind>, e: Event)
    requires GapFree(got, buffer, events, wants, false)
    ensures GapFree(got, buffer, events + [e], wants, false)
  {
    hide KindOf, Reach, HasEnd;
    ReachMore(events, wants, e);
  }

  lemma RisingMore(events: seq<Event>, low: nat, e: Event)
    requires Rising(events, low) && (e.Update? ==> low < e.number && UpTo(events, e.number - 1))
    ensures Rising(events + [e], low)
  {
  }

  /** Tries to send the event to every subscription; one whose channel is full is closed. */
  method SendAll(chans: map<int, Sub>, closed: map<int, seq<Event>>, next: nat, e: Event, bufSize: nat)
      returns (open: map<int, Sub>, full: map<int, seq<Event>>)
    requires !e.Ended? && forall x :: x in chans ==> 0 <= x < next
    ensures Sent(chans, open, closed, full, e, bufSize, next)
  {
    hide KindOf, Wants;
    open, full := chans, closed;
    for id := 0 to next
      invariant Sent(chans, open, closed, full, e, bufSize, id)
    {
      if id in chans {
        var sub := chans[id];
        if Wants(sub.wants, e) {
          if |sub.buffer| < bufSize {
            open := open[id := sub.(buffer := sub.buffer + [e])];
          } else {
            open := open - {id};
            full := full[id := sub.buffer];
          }
        }
      }
    }
  }

  /** The channels of the conversation were closed; summary streams go on. */
  ghost predicate ClosedConversation(chans: map<int, Sub>, open: map<int, Sub>, closed: map<int, seq<Event>>,
      ended: map<int, seq<Event>>, n: int) {
    && (forall x :: x in open <==> x in chans && (x >= n || !WantsConversation(chans[x].wants)))
    && (forall x :: x in open ==> open[x] == chans[x])
    && (forall x :: x in ended <==> x in closed || (x in chans && x < n && WantsConversation(chans[x].wants)))
    && (forall x :: x in ended ==>
          ended[x] == if x in chans && x < n && WantsConversation(chans[x].wants) then chans[x].buffer else closed[x])
  }

  method EndAll(chans: map<int, Sub>, closed: map<int, seq<Event>>, next: nat)
      returns (open: map<int, Sub>, ended: map<int, seq<Event>>)
    requires forall x :: x in chans ==> 0 <= x < next
    ensures ClosedConversation(chans, open, closed, ended, next)
  {
    open, ended := chans, closed;
    for id := 0 to next
      invariant ClosedConversation(chans, open, closed, ended, id)
    {
      if id in chans && WantsConversation(chans[id].wants) {
        ended := ended[id := chans[id].buffer];
        open := open - {id};
      }
    }
  }

  /** What one subscription's reader got and its channel holds. */
  ghost predicate SubOk(start: Start, got: seq<Event>, buffer: seq<Event>, history: seq<Event>, open: bool) {
    && start.events <= |history|
    && GapFree(got, buffer, history[start.events..], start.wants, open)
    && Rising(history[start.events..], start.number)
  }

  lemma SubOkMore(start: Start, got: seq<Event>, sub: Sub, history: seq<Event>, e: Event, bufSize: nat)
    requires SubOk(start, got, sub.buffer, history, true) && start.wants == sub.wants
    requires e.Update? ==> e.number > start.number && UpTo(history, e.number - 1)
    ensures !e.Ended? && Fits(sub, e, bufSize) ==> SubOk(start, got, Put(sub, e).buffer, history + [e], true)
    ensures e.Ended? && !WantsConversation(sub.wants) ==> SubOk(start, got, sub.buffer, history + [e], true)
    ensures SubOk(start, got, sub.buffer, history + [e], false)
  {
    var events := history[start.events..];
    assert (history + [e])[start.events..] == events + [e];
    RisingMore(events, start.number, e);
    GapFreeMore(got, sub, events, e, bufSize);
  }

  lemma SubOkClosed(start: Start, got: seq<Event>, buffer: seq<Event>, history: seq<Event>, e: Event)
    requires SubOk(start, got, buffer, history, false)
    requires e.Update? ==> e.number > start.number && UpTo(history, e.number - 1)
    ensures SubOk(start, got, buffer, history + [e], false)
  {
    var events := history[start.events..];
    assert (history + [e])[start.events..] == events + [e];
    RisingMore(events, start.number, e);
    GapFreeClosed(got, buffer, events, start.wants, e);
  }

  /** Where the subscriptions that were ever made stand; high is a number no change
      still to come is at or below. */
  datatype Feed = Feed(history: seq<Event>, high: nat, began: map<int, Start>, got: map<int, seq<Event>>, next: nat)
  {
    ghost predicate Known(id: int) {
      0 <= id < next && id in began && id in got && began[id].number <= high
    }

    ghost predicate Ok() {
      UpTo(history, high) && Rising(history, 0)
    }

    ghost predicate OpenOk(chans: map<int, Sub>, bufSize: nat) {
      forall id :: id in chans ==>
        && Known(id) && |chans[id].buffer| <= bufSize && began[id].wants == chans[id].wants
        && SubOk(began[id], got[id], chans[id].buffer, history, true)
    }

    ghost predicate ClosedOk(closed: map<int, seq<Event>>) {
      forall id :: id in closed ==> Known(id) && SubOk(began[id], got[id], closed[id], history, false)
    }

    function After(e: Event): Feed {
      this.(history := history + [e], high := if e.Update? then e.number else high)
    }
  }

  lemma FeedAfter(f: Feed, e: Event)
    requires f.Ok() && (e.Update? ==> e.number > f.high)
    ensures f.After(e).Ok() && (e.Update? ==> UpTo(f.history, e.number - 1))
  {
    RisingMore(f.history, 0, e);
  }

  /** An event that was sent leaves every subscription gap-free, be it closed by it or not. */
  lemma SentOk(f: Feed, chans: map<int, Sub>, open: map<int, Sub>, closed: map<int, seq<Event>>, full: map<int,
      seq<Event>>, e: Event, bufSize: nat)
    requires f.Ok() && !e.Ended? && (e.Update? ==> e.number > f.high) && f.OpenOk(chans, bufSize) && f.ClosedOk(closed)
    requires Sent(chans, open, closed, full, e, bufSize, f.next)
    ensures f.After(e).OpenOk(open, bufSize) && f.After(e).ClosedOk(full)
  {
    hide SubOk, Rising, UpTo, KindOf;
    FeedAfter(f, e);
    forall id | id in open ensures SubOk(f.began[id], f.got[id], open[id].buffer, f.history + [e], true) {
      SubOkMore(f.began[id], f.got[id], chans[id], f.history, e, bufSize);
    }
    forall id | id in full ensures f.Known(id) && SubOk(f.began[id], f.got[id], full[id], f.history + [e], false) {
      if id in chans && !Fits(chans[id], e, bufSize) {
        SubOkMore(f.began[id], f.got[id], chans[id], f.history, e, bufSize);
      } else {
        SubOkClosed(f.began[id], f.got[id], closed[id], f.history, e);
      }
    }
  }

  /** The subscriptions that end with the conversation's, and those that go on, stay gap-free. */
  lemma EndedOk(f: Feed, chans: map<int, Sub>, open: map<int, Sub>, closed: map<int, seq<Event>>, ended: map<int,
      seq<Event>>, bufSize: nat)
    requires f.Ok() && f.OpenOk(chans, bufSize) && f.ClosedOk(closed)
    requires ClosedConversation(chans, open, closed, ended, f.next)
    ensures f.After(Ended).OpenOk(open, bufSize) && f.After(Ended).ClosedOk(ended)
  {
    hide SubOk, Rising, UpTo, KindOf, WantsConversation;
    forall id | id in open ensures SubOk(f.began[id], f.got[id], open[id].buffer, f.history + [Ended], true) {
      SubOkMore(f.began[id], f.got[id], chans[id], f.history, Ended, bufSize);
    }
    forall id | id in ended ensures f.Known(id)
      && SubOk(f.began[id], f.got[id], ended[id], f.history + [Ended], false) {
      if id in chans && WantsConversation(chans[id].wants) {
        SubOkMore(f.began[id], f.got[id], chans[id], f.history, Ended, bufSize);
      } else {
        SubOkClosed(f.began[id], f.got[id], closed[id], f.history, Ended);
      }
    }
  }

  class Subscriptions {
    const bufSize: nat
    /** The open subscriptions, by ID. */
    var chans: map<int, Sub>
    /** What the channels that were closed still hold. */
    var closed: map<int, seq<Event>>
    var next: nat
    /** All events so far, and the number no later change has or is below. */
    ghost var history: seq<Event>
    ghost var high: nat
    ghost var began: map<int, Start>
    /** What the readers took. */
    ghost var got: map<int, seq<Event>>

    ghost function View(): Feed
      reads this
    {
      Feed(history, high, began, got, next)
    }

    ghost predicate Valid()
      reads this
    {
      View().Ok() && View().OpenOk(chans, bufSize) && View().ClosedOk(closed) && forall id :: id in chans ==>
        id !in closed
    }

    constructor (bufSize: nat)
      ensures Valid() && history == [] && high == 0 && chans == map[] && this.bufSize == bufSize
    {
      this.bufSize := bufSize;
      chans, closed, next := map[], map[], 0;
      history, high, began, got := [], 0, map[], map[];
    }

    /** Sends the event to the subscriptions that want it; one whose channel is full ends. */
    method Notify(e: Event)
      requires Valid() && !e.Ended? && (e.Update? ==> e.number > high)
      modifies this`chans, this`closed, this`history, this`high
      ensures Valid() && View() == old(View()).After(e)
      ensures Sent(old(chans), chans, old(closed), closed, e, bufSize, next)
    {
      hide SubOk, Rising, UpTo, Fits;
      var open, full := SendAll(chans, closed, next, e, bufSize);
      SentOk(View(), chans, open, closed, full, e, bufSize);
      FeedAfter(View(), e);
      chans, closed, history := open, full, history + [e];
      high := if e.Update? then e.number else high;
    }

    /** A new subscription, whose replay says it is at the change numbered number. */
    method Subscribe(wants: set<Kind>, ghost number: nat) returns (id: int)
      requires Valid() && number >= high
      modifies this`chans, this`next, this`high, this`began, this`got
      ensures Valid() && id == old(next) && id !in old(chans) && next == id + 1 && high == number
      ensures chans == old(chans)[id := Sub(wants, [])]
      ensures began == old(began)[id := Start(|history|, number, wants)] && got == old(got)[id := []]
    {
      hide Rising, Wanted;
      id := next;
      NewSubOk(View(), number, wants);
      chans := chans[id := Sub(wants, [])];
      next := next + 1;
      began, got := began[id := Start(|history|, number, wants)], got[id := []];
      high := number;
    }

    method Unsubscribe(id: int)
      requires Valid()
      modifies this`chans, this`closed
      ensures Valid() && chans == old(chans) - {id}
      ensures closed == if id in old(chans) then old(closed)[id := old(chans)[id].buffer] else old(closed)
    {
      hide Rising, UpTo, Wanted;
      if id in chans {
        closed := closed[id := chans[id].buffer];
        chans := chans - {id};
      }
    }

    /** Ends the subscriptions that get the conversation's changes; summary streams go on. */
    method EndConversation()
      requires Valid()
      modifies this`chans, this`closed, this`history
      ensures Valid() && ClosedConversation(old(chans), chans, old(closed), closed, next)
      ensures history == old(history) + [Ended]
    {
      hide SubOk, Rising, UpTo;
      var open, ended := EndAll(chans, closed, next);
      EndedOk(View(), chans, open, closed, ended, bufSize);
      FeedAfter(View(), Ended);
      chans, closed, history := open, ended, history + [Ended];
    }

    /** What a subscription's channel holds, whether it was closed or not. */
    function Buffer(id: int): seq<Event>
      requires id in chans || id in closed
      reads this
    {
      if id in chans then chans[id].buffer else closed[id]
    }

    /** The reader takes the next event of its channel, which may be closed by now. */
    method Receive(id: int) returns (e: Option<Event>)
      requires Valid() && (id in chans || id in closed)
      modifies this`chans, this`closed, this`got
      ensures Valid() && chans.Keys == old(chans.Keys) && closed.Keys == old(closed.Keys)
      ensures forall x :: x != id && (x in chans || x in closed) ==> Buffer(x) == old(Buffer(x))
      ensures if e.None? then old(Buffer(id)) == [] && Buffer(id) == [] && got == old(got)
              else old(Buffer(id)) == [e.value] + Buffer(id) && got == old(got)[id := old(got)[id] + [e.value]]
    {
      hide Rising, UpTo, Wanted;
      var buffer := Buffer(id);
      if |buffer| == 0 {
        return None;
      }
      e := Some(buffer[0]);
      var left := buffer[1..];
      assert got[id] + buffer == got[id] + [buffer[0]] + left;
      got := got[id := got[id] + [buffer[0]]];
      if id in chans {
        chans := chans[id := chans[id].(buffer := left)];
      } else {
        closed := closed[id := left];
      }
    }

    /** What a subscription's reader got, with what its channel still holds, is a gap-free
        start of the events it wants since it began; their numbers rise, from after its replay's. */
    lemma Yields(id: int)
      requires Valid() && (id in chans || id in closed)
      ensures var events := history[began[id].events..];
        var all := got[id] + Buffer(id);
        && all <= Wanted(Reach(events, began[id].wants), began[id].wants) && Rising(all, began[id].number)
        && (id in chans ==> !(WantsConversation(began[id].wants) && HasEnd(events)))
        && (id in chans ==> all == Wanted(events, began[id].wants))
    {
      var events, wants := history[began[id].events..], began[id].wants;
      UntilMore(events, Ended);
      WantedRises(Reach(events, wants), wants, began[id].number);
    }
  }

  lemma NewSubOk(f: Feed, number: nat, wants: set<Kind>)
    requires number >= f.high && f.Ok()
    ensures SubOk(Start(|f.history|, number, wants), [], [], f.history, true)
  {
    assert f.history[|f.history|..] == [];
  }
}
