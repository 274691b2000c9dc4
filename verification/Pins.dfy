/** The instances pinned to the top of the hub's page, in their order. IDs are numbered in theirs. */
module Pins {
  import opened Sorting

  // ---- The pins ----

  const PinLast := 0x7fff_ffff_ffff_ffff

  datatype Place = Place(pin: int, id: int)

  function Before(a: Place, b: Place): bool {
    a.pin < b.pin || (a.pin == b.pin && a.id <= b.id)
  }

  function AtMost(a: int, b: int): bool {
    a <= b
  }

  /** order has the pinned IDs from the top. */
  ghost predicate Orders(order: seq<int>, pins: map<int, int>) {
    && (forall i :: 0 <= i < |order| ==> order[i] in pins && pins[order[i]] > 0)
    && (forall i, j :: 0 <= i < j < |order| ==>
          order[i] != order[j] && Before(Place(pins[order[i]], order[i]), Place(pins[order[j]], order[j])))
    && (forall id :: id in pins && pins[id] > 0 ==> id in order)
  }

  /** The pins are exactly 1 to the number of those pinned. */
  ghost predicate Numbered(order: seq<int>, pins: map<int, int>) {
    && (forall i :: 0 <= i < |order| ==> order[i] in pins && pins[order[i]] == i + 1)
    && (forall id :: id in pins && pins[id] > 0 ==> id in order)
    && (forall id :: id in pins ==> pins[id] >= 0)
  }

  /** The pins with those of order numbered from 1. */
  function Renumber(pins: map<int, int>, order: seq<int>): (r: map<int, int>)
    requires forall i :: 0 <= i < |order| ==> order[i] in pins
    ensures r.Keys == pins.Keys
  {
    if |order| == 0 then pins
    else Renumber(pins, order[..|order| - 1])[order[|order| - 1] := |order|]
  }

  ghost predicate NoTwice(order: seq<int>) {
    forall i, j :: 0 <= i < j < |order| ==> order[i] != order[j]
  }

  lemma {:induction false} RenumberIs(pins: map<int, int>, order: seq<int>)
    requires (forall i :: 0 <= i < |order| ==> order[i] in pins) && NoTwice(order)
    ensures var r := Renumber(pins, order);
      && (forall i :: 0 <= i < |order| ==> r[order[i]] == i + 1)
      && (forall id :: id in pins && id !in order ==> r[id] == pins[id])
  {
    if |order| > 0 {
      var n := |order| - 1;
      RenumberIs(pins, order[..n]);
      assert order == order[..n] + [order[n]];
    }
  }

  lemma {:induction false} NumberedOrders(order: seq<int>, pins: map<int, int>)
    requires Numbered(order, pins)
    ensures Orders(order, pins)
  {
  }

  /** There is one order of the pins. */
  lemma {:induction false} OrderUnique(a: seq<int>, b: seq<int>, pins: map<int, int>)
    requires Orders(a, pins) && Orders(b, pins)
    ensures a == b
  {
    var p, q := Places(a, pins), Places(b, pins);
    forall x ensures multiset(p)[x] == multiset(q)[x] {
      PlacesOnce(a, pins, x);
      PlacesOnce(b, pins, x);
    }
    BeforeIsOrder();
    SortedUnique(p, q, Before);
    assert |a| == |p| == |q| == |b|;
    forall i | 0 <= i < |a| ensures a[i] == b[i] {
      assert p[i].id == a[i] && q[i].id == b[i];
    }
  }

  lemma BeforeIsOrder()
    ensures TotalOrder(Before) && TotalOrder(AtMost)
  {
  }

  function Places(order: seq<int>, pins: map<int, int>): (r: seq<Place>)
    requires forall i :: 0 <= i < |order| ==> order[i] in pins
    ensures |r| == |order| && forall i :: 0 <= i < |r| ==> r[i] == Place(pins[order[i]], order[i])
  {
    seq(|order|, i requires 0 <= i < |order| => Place(pins[order[i]], order[i]))
  }

  lemma {:induction false} PlacesOnce(order: seq<int>, pins: map<int, int>, x: Place)
    requires Orders(order, pins)
    ensures multiset(Places(order, pins))[x] == if x.id in pins && pins[x.id] > 0 && pins[x.id] == x.pin then 1 else 0
  {
    var p := Places(order, pins);
    OnceEach(p, x);
    if x.id in pins && pins[x.id] > 0 && pins[x.id] == x.pin {
      var i :| 0 <= i < |order| && order[i] == x.id;
      assert p[i] == x;
    }
  }

  /** The IDs of places that are sorted. */
  function IdsOf(places: seq<Place>): (r: seq<int>)
    ensures |r| == |places| && forall i :: 0 <= i < |r| ==> r[i] == places[i].id
  {
    seq(|places|, i requires 0 <= i < |places| => places[i].id)
  }

  lemma {:induction false} SortedOrders(places: seq<Place>, found: seq<Place>, pins: map<int, int>)
    requires Sorted(places, Before) && multiset(places) == multiset(found)
    requires forall i, j :: 0 <= i < j < |found| ==> found[i] != found[j]
    requires forall x :: x in found <==> x.id in pins && pins[x.id] > 0 && pins[x.id] == x.pin
    ensures Orders(IdsOf(places), pins)
  {
    var order := IdsOf(places);
    forall x ensures x in places <==> x in found {
      assert x in places <==> x in multiset(places);
      assert x in found <==> x in multiset(found);
    }
    forall i, j | 0 <= i < j < |places| ensures order[i] != order[j] {
      if places[i] == places[j] {
        OnceEach(found, places[i]);
        TwiceThere(places, i, j);
      }
      assert places[i] in found && places[j] in found;
    }
    forall i | 0 <= i < |order| ensures order[i] in pins && pins[order[i]] == places[i].pin > 0 {
      assert places[i] in found;
    }
    forall id | id in pins && pins[id] > 0 ensures id in order {
      assert Place(pins[id], id) in places;
    }
  }

  /** Whether the IDs list each pinned one once, and what else is wrong with them. */
  datatype SetResult = Set | Unknown(id: int) | Differ

  /** An order without one of its IDs. */
  function Except(order: seq<int>, id: int): seq<int> {
    if |order| == 0 then []
    else Except(order[..|order| - 1], id) + if order[|order| - 1] == id then [] else [order[|order| - 1]]
  }

  lemma {:induction false} ExceptFrom(order: seq<int>, id: int)
    ensures forall x :: x in Except(order, id) <==> x in order && x != id
    ensures id !in order ==> Except(order, id) == order
  {
    if |order| > 0 {
      var n := |order| - 1;
      ExceptFrom(order[..n], id);
      assert order == order[..n] + [order[n]];
    }
  }

  /** Leaving one out keeps the others in their order. */
  lemma {:induction false} ExceptOrders(order: seq<int>, pins: map<int, int>, id: int)
    requires forall i :: 0 <= i < |order| ==> order[i] in pins && pins[order[i]] == i + 1
    ensures forall i :: 0 <= i < |Except(order, id)| ==> Except(order, id)[i] in pins
    ensures forall i, j :: 0 <= i < j < |Except(order, id)| ==> pins[Except(order, id)[i]] < pins[Except(order, id)[j]]
  {
    if |order| > 0 {
      var n := |order| - 1;
      ExceptOrders(order[..n], pins, id);
      ExceptFrom(order[..n], id);
      forall i | 0 <= i < |Except(order[..n], id)| ensures pins[Except(order[..n], id)[i]] <= n {
        var x := Except(order[..n], id)[i];
        assert x in Except(order[..n], id);
        assert x in order[..n];
      }
    }
  }

  /** The order without one that isn't pinned any more, or isn't there. */
  lemma {:induction false} ExceptIsOrder(order: seq<int>, pins: map<int, int>, id: int, left: map<int, int>)
    requires Numbered(order, pins)
    requires forall x :: x != id ==> (x in left <==> x in pins) && (x in pins ==> left[x] == pins[x])
    requires id in left ==> left[id] == 0
    ensures Orders(Except(order, id), left)
  {
    ExceptOrders(order, pins, id);
    ExceptFrom(order, id);
    var rest := Except(order, id);
    forall i | 0 <= i < |rest| ensures rest[i] in left && left[rest[i]] == pins[rest[i]] && pins[rest[i]] > 0 {
      assert rest[i] in rest;
      var k :| 0 <= k < |order| && order[k] == rest[i];
    }
  }

  /** The order with one pinned below the others. */
  lemma {:induction false} LastIsOrder(order: seq<int>, pins: map<int, int>, id: int)
    requires Numbered(order, pins) && id in pins && pins[id] == 0 && |order| < PinLast
    ensures Orders(order + [id], pins[id := PinLast])
  {
    assert id !in order;
    var all := order + [id];
    forall x | x in pins && pins[id := PinLast][x] > 0 ensures x in all {
      assert all[|order|] == id;
      assert x != id ==> x in order;
    }
  }

  // ---- Numbering ----

  lemma EmptyOrNot(s: set<int>)
    ensures s == {} || exists x :: x in s
  {
    if forall x :: x !in s {
      assert s == {};
    }
  }

  /** The places of the pinned instances, in no order. */
  method FindPinned(pins: map<int, int>) returns (found: seq<Place>)
    ensures forall i, j :: 0 <= i < j < |found| ==> found[i] != found[j]
    ensures forall x :: x in found <==> x.id in pins && pins[x.id] > 0 && pins[x.id] == x.pin
  {
    found := [];
    var left := pins.Keys;
    while left != {}
      invariant left <= pins.Keys
      invariant forall i, j :: 0 <= i < j < |found| ==> found[i] != found[j]
      invariant forall x :: x in found <==> x.id in pins && x.id !in left && pins[x.id] > 0 && pins[x.id] == x.pin
      decreases left
    {
      EmptyOrNot(left);
      var id :| id in left;
      if pins[id] > 0 {
        found := found + [Place(pins[id], id)];
      }
      left := left - {id};
    }
  }

  /** The pinned instances from the top: by pin, then by ID. */
  method Pinned(pins: map<int, int>) returns (order: seq<int>)
    ensures Orders(order, pins)
  {
    hide TotalOrder, Orders;
    var found := FindPinned(pins);
    BeforeIsOrder();
    var places := SortFunc(found, Before);
    SortedOrders(places, found, pins);
    order := IdsOf(places);
  }

  lemma {:induction false} RenumberNext(pins: map<int, int>, order: seq<int>, n: nat)
    requires n < |order| && (forall i :: 0 <= i < |order| ==> order[i] in pins) && NoTwice(order)
    ensures var now, next := Renumber(pins, order[..n]), Renumber(pins, order[..n + 1]);
      && next == now[order[n] := n + 1] && now[order[n]] == pins[order[n]]
      && forall id :: id in order[..n + 1] <==> id in order[..n] || id == order[n]
  {
    RenumberIs(pins, order[..n]);
    assert order[..n + 1] == order[..n] + [order[n]];
    assert order[n] !in order[..n];
  }

  /** Gives the instances of order the numbers from 1, and returns those whose number it changed. */
  method NumberAll(pins: map<int, int>, order: seq<int>) returns (numbered: map<int, int>, renumbered: seq<int>)
    requires (forall i :: 0 <= i < |order| ==> order[i] in pins) && NoTwice(order)
    ensures numbered == Renumber(pins, order)
    ensures forall id :: id in renumbered <==> id in pins && numbered[id] != pins[id]
  {
    numbered, renumbered := pins, [];
    var n := 0;
    assert order[..0] == [];
    while n < |order|
      invariant 0 <= n <= |order| && numbered == Renumber(pins, order[..n])
      invariant forall id :: id in renumbered <==> id in order[..n] && numbered[id] != pins[id]
    {
      RenumberNext(pins, order, n);
      var id := order[n];
      if numbered[id] != n + 1 {
        renumbered := renumbered + [id];
      }
      numbered := numbered[id := n + 1];
      n := n + 1;
    }
    assert order[..n] == order;
    RenumberIs(pins, order);
  }

  lemma {:induction false} RenumberedIs(pins: map<int, int>, order: seq<int>)
    requires (forall id :: id in pins ==> pins[id] >= 0) && NoTwice(order)
    requires (forall i :: 0 <= i < |order| ==> order[i] in pins)
    requires forall id :: id in pins && pins[id] > 0 ==> id in order
    ensures Numbered(order, Renumber(pins, order))
  {
    RenumberIs(pins, order);
  }

  class Store {
    /** Where each instance is pinned, from 1; 0 is not. */
    var pins: map<int, int>
    /** The pinned ones, from the top. */
    ghost var order: seq<int>

    ghost predicate Valid()
      reads this
    {
      Numbered(order, pins)
    }

    /** The pins a file keeps: one edited by hand may have gaps, twins or negative ones. */
    constructor (kept: map<int, int>)
      ensures Valid() && pins.Keys == kept.Keys
      ensures Orders(order, map id | id in kept :: if kept[id] > 0 then kept[id] else 0)
    {
      pins := map id | id in kept :: if kept[id] > 0 then kept[id] else 0;
      order := [];
      new;
      var renumbered := NumberPins();
    }

    /** Numbers the pinned instances in their order, and returns those whose pin it changed. */
    method NumberPins() returns (renumbered: seq<int>)
      requires forall id :: id in pins ==> pins[id] >= 0
      modifies this
      ensures Valid() && Orders(order, old(pins)) && pins.Keys == old(pins.Keys)
      ensures forall id :: id in renumbered <==> id in pins && pins[id] != old(pins)[id]
    {
      var pinned := Pinned(pins);
      RenumberedIs(pins, pinned);
      order := pinned;
      pins, renumbered := NumberAll(pins, pinned);
    }

    /** Pins an instance, if it is not: below the pinned ones. */
    method Pin(id: int)
      requires Valid() && id in pins && |order| < PinLast
      modifies this
      ensures Valid() && pins.Keys == old(pins.Keys)
      ensures order == if old(pins)[id] > 0 then old(order) else old(order) + [id]
    {
      hide Orders;
      if pins[id] != 0 {
        return;
      }
      ghost var was := order;
      LastIsOrder(was, pins, id);
      pins := pins[id := PinLast];
      ghost var all := pins;
      var renumbered := NumberPins();
      OrderUnique(was + [id], order, all);
    }

    method Unpin(id: int)
      requires Valid() && id in pins
      modifies this
      ensures Valid() && pins.Keys == old(pins.Keys) && order == Except(old(order), id)
    {
      hide Orders;
      if pins[id] == 0 {
        NotAmong(order, pins, id);
        return;
      }
      ghost var was, before := order, pins;
      pins := pins[id := 0];
      ghost var left := pins;
      ExceptIsOrder(was, before, id, left);
      var renumbered := NumberPins();
      OrderUnique(Except(was, id), order, left);
    }

    /** Adds an instance, which is not pinned, if it is not there; other changes of one keep the pins. */
    method Create(id: int)
      requires Valid()
      modifies this
      ensures Valid() && order == old(order) && pins.Keys == old(pins.Keys) + {id}
    {
      if id !in pins {
        pins := pins[id := 0];
      }
    }

    /** Forgets an instance: the pinned ones below it move up. */
    method Remove(id: int) returns (ok: bool)
      requires Valid()
      modifies this
      ensures Valid() && pins.Keys == old(pins.Keys) - {id} && order == Except(old(order), id)
      ensures ok == (id in old(pins))
    {
      hide Orders;
      ok := id in pins;
      if !ok || pins[id] == 0 {
        NotAmong(order, pins, id);
        pins := pins - {id};
        return;
      }
      ghost var was, before := order, pins;
      pins := pins - {id};
      ghost var left := pins;
      ExceptIsOrder(was, before, id, left);
      var renumbered := NumberPins();
      OrderUnique(Except(was, id), order, left);
    }

    /** Orders the pinned instances as ids, if they list each once; otherwise it changes nothing. */
    method SetPins(ids: seq<int>) returns (result: SetResult)
      requires Valid()
      modifies this
      ensures Valid() && pins.Keys == old(pins.Keys)
      ensures result == Set <==> multiset(ids) == multiset(old(order))
      ensures if result == Set then order == ids else order == old(order) && pins == old(pins)
      ensures result.Unknown? ==> result.id in ids && result.id !in pins
      ensures (exists id :: id in ids && id !in pins) ==> result.Unknown?
    {
      hide Orders, TotalOrder, Sorted, Numbered;
      var pinned := Pinned(pins);
      NumberedOrders(order, pins);
      OrderUnique(pinned, order, pins);
      NumberedOnce(order, pins);
      for i := 0 to |ids|
        invariant forall k :: 0 <= k < i ==> ids[k] in pins
      {
        if ids[i] !in pins {
          NotListed(ids, order, ids[i]);
          return Unknown(ids[i]);
        }
      }
      var same := SameElements(ids, pinned);
      if !same {
        return Differ;
      }
      SameIds(ids, order);
      SetNumbered(order, pins, ids);
      order := ids;
      var renumbered;
      pins, renumbered := NumberAll(pins, ids);
      result := Set;
    }
  }

  lemma {:induction false} SetNumbered(order: seq<int>, pins: map<int, int>, ids: seq<int>)
    requires Numbered(order, pins) && NoTwice(ids) && forall id :: id in ids <==> id in order
    ensures forall i :: 0 <= i < |ids| ==> ids[i] in pins
    ensures Numbered(ids, Renumber(pins, ids))
  {
    forall i | 0 <= i < |ids| ensures ids[i] in pins {
      assert ids[i] in ids;
      var k :| 0 <= k < |order| && order[k] == ids[i];
    }
    forall id | id in pins && pins[id] > 0 ensures id in ids {
      assert id in order;
    }
    RenumberedIs(pins, ids);
  }

  /** Whether the lists are equal once they are sorted. */
  method SameElements(ids: seq<int>, pinned: seq<int>) returns (same: bool)
    ensures same == (multiset(ids) == multiset(pinned))
  {
    hide TotalOrder, Sorted;
    BeforeIsOrder();
    var a := SortFunc(ids, AtMost);
    var b := SortFunc(pinned, AtMost);
    if multiset(ids) == multiset(pinned) {
      SortedUnique(a, b, AtMost);
    }
    same := a == b;
  }

  lemma {:induction false} NotAmong(order: seq<int>, pins: map<int, int>, id: int)
    requires Numbered(order, pins) && (id in pins ==> pins[id] == 0)
    ensures Except(order, id) == order && Numbered(order, pins - {id})
  {
    ExceptFrom(order, id);
  }

  lemma {:induction false} NumberedOnce(order: seq<int>, pins: map<int, int>)
    requires Numbered(order, pins)
    ensures NoTwice(order) && forall id :: id in order ==> id in pins
  {
    assert forall i :: 0 <= i < |order| ==> pins[order[i]] == i + 1;
  }

  lemma {:induction false} NotListed(ids: seq<int>, order: seq<int>, id: int)
    requires id in ids && id !in order
    ensures multiset(ids) != multiset(order)
  {
    assert id in multiset(ids) && id !in multiset(order);
  }

  lemma {:induction false} SameIds(ids: seq<int>, order: seq<int>)
    requires multiset(ids) == multiset(order) && NoTwice(order)
    ensures NoTwice(ids) && (forall id :: id in ids <==> id in order)
  {
    forall id ensures id in ids <==> id in order {
      assert id in ids <==> id in multiset(ids);
      assert id in order <==> id in multiset(order);
    }
    forall i, j | 0 <= i < j < |ids| ensures ids[i] != ids[j] {
      OnceEach(order, ids[i]);
      if ids[i] == ids[j] {
        TwiceThere(ids, i, j);
      }
    }
  }
}
