/** The messages waiting for the agent, and how they reach it: each at most once. */
module MessageQueue {
  import opened Options
  import opened Conversation

  const MaxAttempts := 5

  datatype Queued = Queued(id: int, content: seq<byte>, time: int)

  /** IDs count up to lastID; failures counts the failed sends in a row of the message failedID. */
  datatype Queue = Queue(messages: seq<Queued>, lastID: nat, failedID: int, failures: nat, version: nat)

  function QueuedIds(messages: seq<Queued>): (ids: seq<int>)
    ensures |ids| == |messages| && forall i :: 0 <= i < |ids| ==> ids[i] == messages[i].id
  {
    seq(|messages|, i requires 0 <= i < |messages| => messages[i].id)
  }

  /** Where the message is, or -1. */
  function IndexOf(messages: seq<Queued>, id: int): (i: int)
    ensures -1 <= i < |messages|
    ensures i >= 0 ==> messages[i].id == id
    ensures i < 0 <==> forall j :: 0 <= j < |messages| ==> messages[j].id != id
  {
    if |messages| == 0 then -1
    else if messages[0].id == id then 0
    else
      var i := IndexOf(messages[1..], id);
      if i < 0 then -1 else i + 1
  }

  /** The IDs are distinct ones that were given. */
  ghost predicate Ok(q: Queue) {
    && (forall i :: 0 <= i < |q.messages| ==> 0 < q.messages[i].id <= q.lastID)
    && (forall i, j :: 0 <= i < j < |q.messages| ==> q.messages[i].id != q.messages[j].id)
  }

  // ---- What each call makes of the queue ----

  function Changed(q: Queue, messages: seq<Queued>): Queue {
    q.(messages := messages, version := q.version + 1)
  }

  function Pushed(q: Queue, content: seq<byte>, time: int, front: bool): Queue {
    var m := Queued(q.lastID + 1, content, time);
    Changed(q, if front then [m] + q.messages else q.messages + [m]).(lastID := q.lastID + 1)
  }

  function Updated(q: Queue, id: int, content: seq<byte>): Queue {
    var i := IndexOf(q.messages, id);
    if i < 0 then q else Changed(q, q.messages[i := q.messages[i].(content := content)])
  }

  function Removed(q: Queue, id: int): Queue {
    var i := IndexOf(q.messages, id);
    if i < 0 then q else Changed(q, q.messages[..i] + q.messages[i + 1..])
  }

  function MessageOf(messages: seq<Queued>, id: int): Queued {
    var i := IndexOf(messages, id);
    if i >= 0 then messages[i] else Queued(id, [], 0)
  }

  /** The messages with the IDs, in their order. */
  function InOrderOf(messages: seq<Queued>, ids: seq<int>): (r: seq<Queued>)
    ensures |r| == |ids| && forall i :: 0 <= i < |ids| ==> r[i] == MessageOf(messages, ids[i])
  {
    seq(|ids|, i requires 0 <= i < |ids| => MessageOf(messages, ids[i]))
  }

  predicate Has(messages: seq<Queued>, id: int) {
    IndexOf(messages, id) >= 0
  }

  /** ids lists every queued message once. */
  ghost predicate Lists(ids: seq<int>, messages: seq<Queued>) {
    multiset(ids) == multiset(QueuedIds(messages))
  }

  function Failing(q: Queue, id: int): Queue {
    if q.failedID != id then q.(failedID := id, failures := 1) else q.(failures := q.failures + 1)
  }

  function Cleared(q: Queue): Queue {
    Changed(q, []).(failedID := 0, failures := 0)
  }

  // ---- Reordering ----

  lemma {:induction false} ListsHas(ids: seq<int>, messages: seq<Queued>, id: int)
    requires Lists(ids, messages)
    ensures id in ids <==> id in QueuedIds(messages)
    ensures |ids| == |messages|
  {
    assert id in ids <==> multiset(ids)[id] > 0;
    assert id in QueuedIds(messages) <==> multiset(QueuedIds(messages))[id] > 0;
    assert |multiset(ids)| == |ids| && |multiset(QueuedIds(messages))| == |messages|;
  }

  ghost predicate NoTwice(ids: seq<int>) {
    forall i, j :: 0 <= i < j < |ids| ==> ids[i] != ids[j]
  }

  lemma {:induction false} DistinctOnce(ids: seq<int>, id: int)
    requires NoTwice(ids)
    ensures multiset(ids)[id] == if id in ids then 1 else 0
  {
    if |ids| > 0 {
      var n := |ids| - 1;
      DistinctOnce(ids[..n], id);
      assert ids == ids[..n] + [ids[n]];
      assert id in ids <==> id in ids[..n] || id == ids[n];
    }
  }

  lemma {:induction false} SubsetFewer(a: seq<int>, b: seq<int>)
    requires NoTwice(a) && |a| == |b| && (forall id :: id in a ==> id in b)
    ensures forall id :: id in b ==> id in a
    decreases |a|
  {
    if |a| > 0 {
      var n := |a| - 1;
      assert a[n] in a;
      var k :| 0 <= k < |b| && b[k] == a[n];
      var rest := b[..k] + b[k + 1..];
      assert forall x :: x in b <==> x in rest || x == a[n];
      forall x | x in a[..n] ensures x in rest {
        assert x in a && x != a[n];
      }
      SubsetFewer(a[..n], rest);
    }
  }

  /** As many distinct IDs as are queued, each of a queued message, list them all once. */
  lemma {:induction false} DistinctLists(ids: seq<int>, messages: seq<Queued>)
    requires NoTwice(ids) && |ids| == |messages| && NoTwice(QueuedIds(messages))
    requires forall id :: id in ids ==> id in QueuedIds(messages)
    ensures Lists(ids, messages)
  {
    var queued := QueuedIds(messages);
    SubsetFewer(ids, queued);
    forall id ensures multiset(ids)[id] == multiset(queued)[id] {
      DistinctOnce(ids, id);
      DistinctOnce(queued, id);
    }
  }

  lemma {:induction false} ListsDistinct(ids: seq<int>, messages: seq<Queued>, i: int, j: int)
    requires Lists(ids, messages) && NoTwice(QueuedIds(messages)) && 0 <= i < j < |ids|
    ensures ids[i] != ids[j]
  {
    if ids[i] == ids[j] {
      DistinctOnce(QueuedIds(messages), ids[i]);
      ListedTwice(ids, i, j);
    }
  }

  lemma {:induction false} ListedTwice(ids: seq<int>, i: int, j: int)
    requires 0 <= i < j < |ids| && ids[i] == ids[j]
    ensures multiset(ids)[ids[j]] >= 2
  {
    assert ids == ids[..j] + [ids[j]] + ids[j + 1..];
    assert ids[..j][i] == ids[j];
  }

  lemma {:induction false} HasId(messages: seq<Queued>, id: int)
    ensures Has(messages, id) <==> id in QueuedIds(messages)
  {
    var i := IndexOf(messages, id);
    assert i >= 0 ==> QueuedIds(messages)[i] == id;
  }

  class MessageQueue {
    var messages: seq<Queued>
    var lastID: nat
    var failedID: int
    var failures: nat
    var version: nat

    function View(): Queue
      reads this
    {
      Queue(messages, lastID, failedID, failures, version)
    }

    constructor ()
      ensures View() == Queue([], 0, 0, 0, 0) && Ok(View())
    {
      messages, lastID, failedID, failures, version := [], 0, 0, 0, 0;
    }

    method Index(id: int) returns (i: int)
      ensures i == IndexOf(messages, id)
    {
      i := 0;
      while i < |messages|
        invariant 0 <= i <= |messages|
        invariant IndexOf(messages, id) == if IndexOf(messages[i..], id) < 0 then -1 else i + IndexOf(messages[i..], id)
      {
        if messages[i].id == id {
          return;
        }
        assert messages[i..][1..] == messages[i + 1..];
        i := i + 1;
      }
      i := -1;
    }

    /** Queues content: last, or first with front. */
    method Push(content: seq<byte>, time: int, front: bool) returns (m: Queued)
      requires Ok(View())
      modifies this
      ensures View() == Pushed(old(View()), content, time, front) && Ok(View())
      ensures m == Queued(lastID, content, time) && m in messages
    {
      lastID := lastID + 1;
      m := Queued(lastID, content, time);
      messages := if front then [m] + messages else messages + [m];
      version := version + 1;
      assert m == if front then messages[0] else messages[|messages| - 1];
    }

    method Update(id: int, content: seq<byte>) returns (ok: bool)
      requires Ok(View())
      modifies this`messages, this`version
      ensures View() == Updated(old(View()), id, content) && Ok(View())
      ensures ok == (id in QueuedIds(old(messages)))
    {
      var i := Index(id);
      assert i >= 0 ==> QueuedIds(messages)[i] == id;
      if i < 0 {
        return false;
      }
      messages := messages[i := messages[i].(content := content)];
      version := version + 1;
      ok := true;
    }

    method Remove(id: int) returns (ok: bool)
      requires Ok(View())
      modifies this`messages, this`version
      ensures View() == Removed(old(View()), id) && Ok(View())
      ensures ok == (id in QueuedIds(old(messages)))
    {
      var i := Index(id);
      assert i >= 0 ==> QueuedIds(messages)[i] == id;
      if i < 0 {
        return false;
      }
      messages := messages[..i] + messages[i + 1..];
      version := version + 1;
      ok := true;
    }

    /** Puts the queue in the order of ids, if they list every queued message once. */
    method Reorder(ids: seq<int>) returns (ok: bool)
      requires Ok(View())
      modifies this`messages, this`version
      ensures ok == Lists(ids, old(messages)) && Ok(View())
      ensures View() == if ok then Changed(old(View()), InOrderOf(old(messages), ids)) else old(View())
    {
      hide Ok, Lists, InOrderOf;
      OkNoTwice(View());
      if |ids| != |messages| {
        ListsLength(ids, messages);
        return false;
      }
      var reordered;
      ok, reordered := Pick(messages, ids);
      if ok {
        OrderedOk(View(), ids);
        messages := reordered;
        version := version + 1;
      }
    }

    /** Counts a failed send of the message, and returns how many sends of it failed in a row. */
    method Failed(id: int) returns (attempts: nat)
      modifies this`failedID, this`failures
      ensures View() == Failing(old(View()), id) && attempts == failures
    {
      if failedID != id {
        failedID := id;
        failures := 0;
      }
      failures := failures + 1;
      attempts := failures;
    }

    method Clear()
      modifies this
      ensures View() == Cleared(old(View())) && Ok(View())
    {
      messages, failedID, failures, version := [], 0, 0, version + 1;
    }

    /** Puts back a queue stored before; its IDs go on counting from the highest there was. */
    method Restore(stored: seq<Queued>, lastID: nat)
      modifies this
      ensures messages == stored && failedID == old(failedID) && failures == old(failures)
      ensures version == old(version) + 1
      ensures this.lastID >= lastID && (forall i :: 0 <= i < |stored| ==> stored[i].id <= this.lastID)
      ensures this.lastID == lastID || exists i :: 0 <= i < |stored| && stored[i].id == this.lastID
    {
      messages := stored;
      this.lastID := lastID;
      for i := 0 to |stored|
        invariant messages == stored && this.lastID >= lastID && failedID == old(failedID) && failures == old(failures)
        invariant version == old(version)
        invariant forall k :: 0 <= k < i ==> stored[k].id <= this.lastID
        invariant this.lastID == lastID || exists k :: 0 <= k < |stored| && stored[k].id == this.lastID
      {
        if stored[i].id > this.lastID {
          this.lastID := stored[i].id;
        }
      }
      version := version + 1;
    }
  }

  lemma {:induction false} OkNoTwice(q: Queue)
    requires Ok(q)
    ensures NoTwice(QueuedIds(q.messages))
  {
  }

  lemma {:induction false} ListsLength(ids: seq<int>, messages: seq<Queued>)
    requires |ids| != |messages|
    ensures !Lists(ids, messages)
  {
    assert |multiset(ids)| == |ids| && |multiset(QueuedIds(messages))| == |messages|;
  }

  method ById(messages: seq<Queued>) returns (byId: map<int, Queued>)
    requires NoTwice(QueuedIds(messages))
    ensures forall id :: id in byId <==> Has(messages, id)
    ensures forall id :: id in byId ==> byId[id] == MessageOf(messages, id)
  {
    byId := map[];
    for i := 0 to |messages|
      invariant forall id :: id in byId ==> exists k :: 0 <= k < i && messages[k].id == id && byId[id] == messages[k]
      invariant forall k :: 0 <= k < i ==> messages[k].id in byId
    {
      byId := byId[messages[i].id := messages[i]];
    }
    forall id | id in byId ensures Has(messages, id) && byId[id] == MessageOf(messages, id) {
      var k :| 0 <= k < |messages| && messages[k].id == id && byId[id] == messages[k];
      assert QueuedIds(messages)[k] == id && QueuedIds(messages)[IndexOf(messages, id)] == id;
    }
  }

  /** The first i IDs are distinct ones of queued messages, and left has the other messages. */
  ghost predicate Picked(messages: seq<Queued>, ids: seq<int>, i: nat, left: map<int, Queued>) {
    && i <= |ids| && NoTwice(ids[..i])
    && (forall k :: 0 <= k < i ==> Has(messages, ids[k]))
    && (forall id :: id in left <==> Has(messages, id) && id !in ids[..i])
    && (forall id :: id in left ==> left[id] == MessageOf(messages, id))
  }

  lemma {:induction false} PickedNext(messages: seq<Queued>, ids: seq<int>, i: nat, left: map<int, Queued>)
    requires i < |ids| && Picked(messages, ids, i, left) && ids[i] in left
    ensures Picked(messages, ids, i + 1, left - {ids[i]})
  {
    hide Has, MessageOf;
    assert ids[..i + 1] == ids[..i] + [ids[i]];
  }

  lemma {:induction false} PickedAll(messages: seq<Queued>, ids: seq<int>, left: map<int, Queued>)
    requires Picked(messages, ids, |ids|, left) && |ids| == |messages| && NoTwice(QueuedIds(messages))
    ensures Lists(ids, messages)
  {
    assert ids[..|ids|] == ids;
    forall id | id in ids ensures id in QueuedIds(messages) {
      HasId(messages, id);
    }
    DistinctLists(ids, messages);
  }

  /** The messages with the IDs, in their order, if the IDs list every one once. */
  method Pick(messages: seq<Queued>, ids: seq<int>) returns (ok: bool, reordered: seq<Queued>)
    requires NoTwice(QueuedIds(messages)) && |ids| == |messages|
    ensures ok == Lists(ids, messages)
    ensures ok ==> reordered == InOrderOf(messages, ids)
  {
    hide Has, MessageOf, Lists, NoTwice;
    var left := ById(messages);
    reordered := [];
    NonePicked(messages, ids, left);
    var i := 0;
    while i < |ids|
      invariant 0 <= i <= |ids| && |reordered| == i
      invariant Picked(messages, ids, i, left)
      invariant forall k :: 0 <= k < i ==> reordered[k] == MessageOf(messages, ids[k])
    {
      if ids[i] !in left {
        NotLeft(ids, i, messages, left);
        return false, [];
      }
      PickedNext(messages, ids, i, left);
      reordered := reordered + [left[ids[i]]];
      left := left - {ids[i]};
      i := i + 1;
    }
    PickedAll(messages, ids, left);
    ok := true;
  }

  lemma {:induction false} NonePicked(messages: seq<Queued>, ids: seq<int>, left: map<int, Queued>)
    requires forall id :: id in left <==> Has(messages, id)
    requires forall id :: id in left ==> left[id] == MessageOf(messages, id)
    ensures Picked(messages, ids, 0, left)
  {
  }

  /** IDs one of which comes twice, or is of no queued message, don't list the queue. */
  lemma {:induction false} NotLeft(ids: seq<int>, i: nat, messages: seq<Queued>, left: map<int, Queued>)
    requires i < |ids| && Picked(messages, ids, i, left) && ids[i] !in left && NoTwice(QueuedIds(messages))
    ensures !Lists(ids, messages)
  {
    hide Lists, MessageOf, Has;
    HasId(messages, ids[i]);
    if Lists(ids, messages) {
      ListsHas(ids, messages, ids[i]);
      var k :| 0 <= k < i && ids[..i][k] == ids[i];
      ListsDistinct(ids, messages, k, i);
    }
  }

  lemma {:induction false} OrderedOk(q: Queue, ids: seq<int>)
    requires Ok(q) && Lists(ids, q.messages)
    ensures Ok(Changed(q, InOrderOf(q.messages, ids)))
    ensures QueuedIds(InOrderOf(q.messages, ids)) == ids
    ensures forall m :: m in InOrderOf(q.messages, ids) <==> m in q.messages
  {
    hide Lists;
    var r := InOrderOf(q.messages, ids);
    OkNoTwice(q);
    forall i | 0 <= i < |r| ensures Has(q.messages, ids[i]) && r[i].id == ids[i] && r[i] in q.messages {
      ListsHas(ids, q.messages, ids[i]);
      HasId(q.messages, ids[i]);
    }
    forall i, j | 0 <= i < j < |r| ensures r[i].id != r[j].id {
      ListsDistinct(ids, q.messages, i, j);
    }
    forall m | m in q.messages ensures m in r {
      OrderedHas(q, ids, m);
    }
  }

  lemma {:induction false} OrderedHas(q: Queue, ids: seq<int>, m: Queued)
    requires Ok(q) && Lists(ids, q.messages) && m in q.messages
    ensures m in InOrderOf(q.messages, ids)
  {
    hide Lists;
    var k :| 0 <= k < |q.messages| && q.messages[k] == m;
    assert QueuedIds(q.messages)[k] == m.id;
    ListsHas(ids, q.messages, m.id);
    var i :| 0 <= i < |ids| && ids[i] == m.id;
    assert IndexOf(q.messages, m.id) == k;
    assert InOrderOf(q.messages, ids)[i] == m;
  }
}
