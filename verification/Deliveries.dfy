/** The IDs of the events the hub took: a copy of one is refused while its signature holds. */
module Deliveries {
  /** The most IDs the hub remembers. */
  const MaxSeen := 4096

  /** When each ID's signature stops holding, and the IDs in the order they came to be remembered. */
  datatype Taken = Taken(seen: map<string, int>, order: seq<string>)

  /** Without the oldest, as long as they are too many or the first no longer holds. */
  function Trimmed(seen: map<string, int>, order: seq<string>, now: int): (t: Taken)
    requires forall i :: 0 <= i < |order| ==> order[i] in seen
    requires forall i, j :: 0 <= i < j < |order| ==> order[i] != order[j]
    decreases |order|
  {
    if |order| > 0 && (|order| > MaxSeen || seen[order[0]] <= now) then Trimmed(seen - {order[0]}, order[1..], now)
    else Taken(seen, order)
  }

  /** The order has the IDs that are remembered, once each. */
  ghost predicate Ok(t: Taken) {
    && (forall id :: id in t.seen <==> id in t.order)
    && (forall i, j :: 0 <= i < j < |t.order| ==> t.order[i] != t.order[j])
  }

  predicate Holds(t: Taken, id: string, now: int) {
    id in t.seen && t.seen[id] > now
  }

  /** What is remembered after an event with the ID came, and whether it was taken. */
  function Added(t: Taken, id: string, expires: int, now: int): (r: (Taken, bool))
    requires Ok(t)
  {
    if Holds(t, id, now) then (t, false)
    else
      var order := if id in t.seen then t.order else t.order + [id];
      (Trimmed(t.seen[id := expires], order, now), true)
  }

  class Deliveries {
    var seen: map<string, int>
    var order: seq<string>

    function View(): Taken
      reads this
    {
      Taken(seen, order)
    }

    constructor ()
      ensures View() == Taken(map[], []) && Ok(View())
    {
      seen, order := map[], [];
    }

    /** Whether the ID is new at now; it is remembered until expires. */
    method Add(id: string, expires: int, now: int) returns (taken: bool)
      requires Ok(View())
      modifies this
      ensures (View(), taken) == Added(old(View()), id, expires, now) && Ok(View())
    {
      if id in seen && seen[id] > now {
        return false;
      }
      if id !in seen {
        order := order + [id];
      }
      seen := seen[id := expires];
      ghost var all := Trimmed(seen, order, now);
      while |order| > 0 && (|order| > MaxSeen || seen[order[0]] <= now)
        invariant Ok(View()) && Trimmed(seen, order, now) == all
        decreases |order|
      {
        DropFirst(View());
        seen := seen - {order[0]};
        order := order[1..];
      }
      taken := true;
    }
  }

  lemma DropFirst(t: Taken)
    requires Ok(t) && |t.order| > 0
    ensures Ok(Taken(t.seen - {t.order[0]}, t.order[1..]))
  {
    var left := Taken(t.seen - {t.order[0]}, t.order[1..]);
    forall id ensures id in left.seen <==> id in left.order {
      assert id in t.order <==> id == t.order[0] || id in t.order[1..];
    }
  }

  /** What the trimming leaves is in order, and not too much; the first of it holds. */
  lemma {:induction false} TrimmedIs(seen: map<string, int>, order: seq<string>, now: int)
    requires Ok(Taken(seen, order))
    ensures var t := Trimmed(seen, order, now);
      Ok(t) && |t.order| <= MaxSeen && (|t.order| > 0 ==> t.seen[t.order[0]] > now)
    decreases |order|
  {
    if |order| > 0 && (|order| > MaxSeen || seen[order[0]] <= now) {
      hide Ok;
      DropFirst(Taken(seen, order));
      OkOrder(Taken(seen - {order[0]}, order[1..]));
      TrimmedIs(seen - {order[0]}, order[1..], now);
    }
  }

  lemma OkOrder(t: Taken)
    requires Ok(t)
    ensures forall i :: 0 <= i < |t.order| ==> t.order[i] in t.seen
    ensures forall i, j :: 0 <= i < j < |t.order| ==> t.order[i] != t.order[j]
  {
  }

  /** It is the end of what there was. */
  lemma {:induction false} TrimmedEnd(seen: map<string, int>, order: seq<string>, now: int)
    requires Ok(Taken(seen, order))
    ensures var t := Trimmed(seen, order, now); |t.order| <= |order| && t.order == order[|order| - |t.order|..]
    decreases |order|
  {
    if |order| > 0 && (|order| > MaxSeen || seen[order[0]] <= now) {
      DropFirst(Taken(seen, order));
      TrimmedEnd(seen - {order[0]}, order[1..], now);
    }
  }

  lemma AddedOk(t: Taken, id: string, expires: int, now: int)
    requires Ok(t)
    ensures Ok(Added(t, id, expires, now).0)
  {
    if !Holds(t, id, now) {
      var order := if id in t.seen then t.order else t.order + [id];
      TrimmedIs(t.seen[id := expires], order, now);
    }
  }

  // ---- Copies ----

  /** The ID is remembered until expires, with behind others that came after it. */
  ghost predicate Remembered(t: Taken, id: string, expires: int, behind: nat) {
    id in t.seen && t.seen[id] == expires && behind < |t.order| && t.order[|t.order| - 1 - behind] == id
  }

  /** One that holds isn't forgotten before MaxSeen others came after it. */
  lemma {:induction false} StaysTrimmed(seen: map<string, int>, order: seq<string>, now: int, id: string, expires: int,
      behind: nat)
    requires Ok(Taken(seen, order)) && Remembered(Taken(seen, order), id, expires, behind) && behind < MaxSeen
    requires expires > now
    ensures Remembered(Trimmed(seen, order, now), id, expires, behind)
    decreases |order|
  {
    if |order| > 0 && (|order| > MaxSeen || seen[order[0]] <= now) {
      DropFirst(Taken(seen, order));
      assert order[0] != id;
      StaysTrimmed(seen - {order[0]}, order[1..], now, id, expires, behind);
    }
  }

  /** One with MaxSeen others after it is forgotten. */
  lemma {:induction false} GoneTrimmed(seen: map<string, int>, order: seq<string>, now: int, id: string)
    requires Ok(Taken(seen, order)) && |order| > MaxSeen && id in order[..|order| - MaxSeen]
    ensures id !in Trimmed(seen, order, now).seen
  {
    TrimmedIs(seen, order, now);
    TrimmedEnd(seen, order, now);
    var r := Trimmed(seen, order, now);
    var k :| 0 <= k < |order| - MaxSeen && order[..|order| - MaxSeen][k] == id;
    var off := |order| - |r.order|;
    forall j | 0 <= j < |r.order| ensures r.order[j] != id {
      assert r.order[j] == order[off + j] && order[k] == id;
    }
  }

  /** The event's ID isn't remembered when it comes: it is taken as a new one. */
  predicate IsNew(t: Taken, a: Arrival) {
    a.id !in t.seen
  }

  /** Another event came: the ID is remembered still, with one more after it if that is new, unless
      they are too many by then. */
  lemma StepRemembers(t: Taken, a: Arrival, id: string, expires: int, behind: nat)
    requires Ok(t) && Remembered(t, id, expires, behind) && behind < MaxSeen && a.id != id && a.now < expires
    ensures var r := Added(t, a.id, a.expires, a.now).0;
      var more := if IsNew(t, a) then behind + 1 else behind;
      if more < MaxSeen then Remembered(r, id, expires, more) else id !in r.seen
  {
    if !Holds(t, a.id, a.now) {
      var order := if a.id in t.seen then t.order else t.order + [a.id];
      var seen := t.seen[a.id := a.expires];
      var more := if IsNew(t, a) then behind + 1 else behind;
      assert order[|order| - 1 - more] == id;
      if more < MaxSeen {
        StaysTrimmed(seen, order, a.now, id, expires, more);
      } else {
        assert order[..|order| - MaxSeen][|order| - 1 - more] == id;
        GoneTrimmed(seen, order, a.now, id);
      }
    }
  }

  /** What is forgotten stays so until it comes again. */
  lemma StaysOut(t: Taken, a: Arrival, id: string)
    requires Ok(t) && id !in t.seen && a.id != id
    ensures id !in Added(t, a.id, a.expires, a.now).0.seen
  {
    if !Holds(t, a.id, a.now) {
      var order := if a.id in t.seen then t.order else t.order + [a.id];
      TrimmedIs(t.seen[a.id := a.expires], order, a.now);
      TrimmedEnd(t.seen[a.id := a.expires], order, a.now);
    }
  }

  datatype Arrival = Arrival(id: string, expires: int, now: int)

  /** What is remembered after the arrivals, one after the other. */
  ghost function After(t: Taken, arrivals: seq<Arrival>): (r: Taken)
    requires Ok(t)
    ensures Ok(r)
    decreases |arrivals|
  {
    if |arrivals| == 0 then t
    else
      AddedOk(t, arrivals[0].id, arrivals[0].expires, arrivals[0].now);
      After(Added(t, arrivals[0].id, arrivals[0].expires, arrivals[0].now).0, arrivals[1..])
  }

  /** How many of the arrivals are of IDs that aren't remembered when they come. */
  ghost function NewOnes(t: Taken, arrivals: seq<Arrival>): nat
    requires Ok(t)
    decreases |arrivals|
  {
    if |arrivals| == 0 then 0
    else
      var a := arrivals[0];
      AddedOk(t, a.id, a.expires, a.now);
      (if IsNew(t, a) then 1 else 0) + NewOnes(Added(t, a.id, a.expires, a.now).0, arrivals[1..])
  }

  /** The arrivals are of other IDs, and come while the signature holds. */
  ghost predicate Others(arrivals: seq<Arrival>, id: string, expires: int) {
    forall i :: 0 <= i < |arrivals| ==> arrivals[i].id != id && arrivals[i].now < expires
  }

  lemma {:induction false} StaysForgotten(t: Taken, arrivals: seq<Arrival>, id: string, expires: int)
    requires Ok(t) && id !in t.seen && Others(arrivals, id, expires)
    ensures id !in After(t, arrivals).seen
    decreases |arrivals|
  {
    if |arrivals| > 0 {
      var a := arrivals[0];
      AddedOk(t, a.id, a.expires, a.now);
      StaysOut(t, a, id);
      StaysForgotten(Added(t, a.id, a.expires, a.now).0, arrivals[1..], id, expires);
    }
  }

  /** An ID is remembered while its signature holds exactly as long as, with those that were behind
      it already, fewer than MaxSeen new ones came after it. */
  lemma {:induction false} HoldsExactly(t: Taken, arrivals: seq<Arrival>, id: string, expires: int, behind: nat,
      later: int)
    requires Ok(t) && Remembered(t, id, expires, behind) && behind < MaxSeen
    requires Others(arrivals, id, expires) && later < expires
    ensures Holds(After(t, arrivals), id, later) <==> behind + NewOnes(t, arrivals) < MaxSeen
    decreases |arrivals|
  {
    if |arrivals| > 0 {
      hide Ok, Remembered;
      var a := arrivals[0];
      var next := Added(t, a.id, a.expires, a.now).0;
      AddedOk(t, a.id, a.expires, a.now);
      StepRemembers(t, a, id, expires, behind);
      var more := if IsNew(t, a) then behind + 1 else behind;
      if more < MaxSeen {
        HoldsExactly(next, arrivals[1..], id, expires, more, later);
      } else {
        StaysForgotten(next, arrivals[1..], id, expires);
      }
    }
  }

  /** When a copy of an event is refused: for one that was taken as a new one, exactly while its
      signature holds and fewer than MaxSeen new ones came since. */
  lemma CopyRefusedExactly(t: Taken, id: string, expires: int, now: int, arrivals: seq<Arrival>, until: int, later: int)
    requires Ok(t) && id !in t.seen && now < expires && Others(arrivals, id, expires) && later < expires
    ensures var (r, taken) := Added(t, id, expires, now);
      taken && Ok(r) && (!Added(After(r, arrivals), id, until, later).1 <==> NewOnes(r, arrivals) < MaxSeen)
  {
    AddedOk(t, id, expires, now);
    StaysTrimmed(t.seen[id := expires], t.order + [id], now, id, expires, 0);
    HoldsExactly(Added(t, id, expires, now).0, arrivals, id, expires, 0, later);
  }

  /** One that is taken again while it is remembered, because its signature doesn't hold any more,
      keeps its old place: a copy of it is refused only until, with those behind it since the first
      time, MaxSeen came. */
  lemma TakenAgainExactly(t: Taken, id: string, before: int, behind: nat, expires: int, now: int,
      arrivals: seq<Arrival>, until: int, later: int)
    requires Ok(t) && Remembered(t, id, before, behind) && behind < MaxSeen && before <= now < expires
    requires Others(arrivals, id, expires) && later < expires
    ensures var (r, taken) := Added(t, id, expires, now);
      && taken && Ok(r) && Remembered(r, id, expires, behind)
      && (!Added(After(r, arrivals), id, until, later).1 <==> behind + NewOnes(r, arrivals) < MaxSeen)
  {
    AddedOk(t, id, expires, now);
    StaysTrimmed(t.seen[id := expires], t.order, now, id, expires, behind);
    HoldsExactly(Added(t, id, expires, now).0, arrivals, id, expires, behind, later);
  }
}
