/** The fast way to take a change of the messages leaves what deriving all
    tasks anew leaves, in every state a run of the tracker reaches. */
module TaskTheorems {
  import opened Options
  import opened Conversation
  import opened Tasks
  import opened TaskFacts

  // ---- Pruning ----

  lemma {:induction false} KeepIdsAll(ids: seq<int>, at: map<int, int>)
    requires forall i :: 0 <= i < |ids| ==> ids[i] in at
    ensures KeepIds(ids, at) == ids
    decreases |ids|
  {
    if |ids| > 0 {
      KeepIdsAll(ids[1..], at);
      assert [ids[0]] + ids[1..] == ids;
    }
  }

  lemma {:induction false} KeepIdsHas(ids: seq<int>, at: map<int, int>, id: int)
    ensures id in KeepIds(ids, at) <==> id in ids && id in at
    decreases |ids|
  {
    if |ids| > 0 {
      KeepIdsHas(ids[1..], at, id);
      assert ids == [ids[0]] + ids[1..];
    }
  }

  lemma {:induction false} KeepAll(tasks: seq<Task>, msgs: seq<Message>, at: map<int, int>)
    requires PositionsOk(at, msgs) && forall i :: 0 <= i < |tasks| ==> GroundedOne(tasks[i], msgs, at)
    ensures Keep(tasks, msgs, at) == (tasks, [])
  {
    if |tasks| > 0 {
      var n := |tasks| - 1;
      KeepAll(tasks[..n], msgs, at);
      assert GroundedOne(tasks[n], msgs, at);
      KeepIdsAll(tasks[n].steered, at);
      assert tasks[..n] + [tasks[n]] == tasks;
    }
  }

  /** A kept task is one of the tasks, without the messages taken back. */
  lemma {:induction false} KeptFrom(tasks: seq<Task>, msgs: seq<Message>, at: map<int, int>, i: int) returns (j: int)
    requires PositionsOk(at, msgs) && 0 <= i < |Keep(tasks, msgs, at).0|
    ensures 0 <= j < |tasks| && Matched(tasks[j], msgs, at) && Keep(tasks, msgs, at).0[i] == Trimmed(tasks[j], at)
  {
    var n := |tasks| - 1;
    if i < |Keep(tasks[..n], msgs, at).0| {
      j := KeptFrom(tasks[..n], msgs, at, i);
    } else {
      j := n;
    }
  }

  lemma {:induction false} KeepDisjoint(tasks: seq<Task>, msgs: seq<Message>, at: map<int, int>)
    requires PositionsOk(at, msgs) && Disjoint(tasks)
    ensures Disjoint(Keep(tasks, msgs, at).0)
  {
    if |tasks| > 0 {
      var n := |tasks| - 1;
      KeepDisjoint(tasks[..n], msgs, at);
      var kept := Keep(tasks[..n], msgs, at).0;
      forall i, id | 0 <= i < |kept| && kept[i].Holds(id)
        ensures !Trimmed(tasks[n], at).Holds(id)
      {
        var j := KeptFrom(tasks[..n], msgs, at, i);
        KeepIdsHas(tasks[j].steered, at, id);
        KeepIdsHas(tasks[n].steered, at, id);
        assert tasks[j].Holds(id);
      }
      DisjointPush(kept, Trimmed(tasks[n], at));
    }
  }

  lemma PrunedKeeps(t: Tracker, msgs: seq<Message>)
    requires t.Ok() && Disjoint(t.tasks)
    ensures var p := Pruned(t, msgs).0; Owned(p) && Ordered(p, msgs)
  {
    var at := Positions(msgs);
    var kept := Keep(t.tasks, msgs, at).0;
    KeepDisjoint(t.tasks, msgs, at);
    OwnersOfOk(kept);
    forall i | 0 <= i < |kept|
      ensures GroundedOne(kept[i], msgs, at)
    {
      var j := KeptFrom(t.tasks, msgs, at, i);
      forall n | 0 <= n < |kept[i].steered|
        ensures kept[i].steered[n] in at
      {
        KeepIdsHas(t.tasks[j].steered, at, kept[i].steered[n]);
      }
    }
  }

  lemma RepliesKeep(t: Tracker, msgs: seq<Message>, k: int, at: map<int, int>, changed: seq<int>)
    requires 0 <= k <= |t.tasks| && PositionsOk(at, msgs)
    ensures var r := Replies(t, msgs, k, at, changed).0;
      (Owned(t) ==> Owned(r)) && (Ordered(t, msgs) ==> Ordered(r, msgs))
  {
    RepliesFrame(t, msgs, k, at, changed);
    var r := Replies(t, msgs, k, at, changed).0;
    assert forall i, id :: 0 <= i < |t.tasks| ==> (r.tasks[i].Holds(id) <==> t.tasks[i].Holds(id));
    if Ordered(t, msgs) {
      forall i | 0 <= i < |r.tasks|
        ensures GroundedOne(r.tasks[i], msgs, Positions(msgs))
      {
        assert GroundedOne(t.tasks[i], msgs, Positions(msgs));
      }
    }
  }

  /** After the tasks are derived, the tracker holds what the messages say. */
  lemma DeriveInv(t: Tracker, msgs: seq<Message>)
    requires t.Ok() && Disjoint(t.tasks)
    ensures Inv(Derive(t, msgs).0, msgs) && AllOwned(Derive(t, msgs).0.owners, msgs)
  {
    hide Own, Replies, Settled, Keep, OwnersOf, OwnersOk, AllOwned, GroundedOne;
    var (p, c0) := Pruned(t, msgs);
    PrunedKeeps(t, msgs);
    OwnOwned(p, msgs, c0);
    OwnExtends(p, msgs, c0);
    var (s, c1) := Own(p, msgs, c0);
    RepliesKeep(s, msgs, 0, Positions(msgs), c1);
    if s.inOrder {
      OwnOrdered(p, msgs, c0, msgs);
      forall i | 0 <= i < |s.tasks|
        ensures Settled(Derive(t, msgs).0.tasks, i, msgs, Positions(msgs))
      {
        RepliesSettle(s, msgs, 0, Positions(msgs), c1, i);
      }
    }
  }

  // ---- The fast way ----

  /** msgs starts as last did, up to from. */
  ghost predicate Agree(last: seq<Message>, msgs: seq<Message>, from: int) {
    forall i :: 0 <= i < from && i < |last| && i < |msgs| ==> msgs[i] == last[i]
  }

  /** A change the fast way takes. */
  ghost predicate Taken(t: Tracker, last: seq<Message>, msgs: seq<Message>, from: int) {
    && t.Ok() && Disjoint(t.tasks) && Synced(t, last) && t.inOrder && !t.rederive
    && 0 <= from <= |last| <= |msgs| && Agree(last, msgs, from)
    && Passable(t, msgs, from)
  }

  lemma {:induction false} TakenOrder(t: Tracker, last: seq<Message>, msgs: seq<Message>, from: int, n: int)
    requires Taken(t, last, msgs, from) && 0 <= n <= |msgs|
    requires forall i :: 0 <= i < |last| ==> msgs[i].id == last[i].id
    ensures InOrder(msgs[..n])
  {
    if n > |last| {
      TakenOrder(t, last, msgs, from, n - 1);
      assert PassableAt(t, msgs, n - 1);
      var most := msgs[..n - 1];
      assert forall i :: 0 <= i < n - 1 ==> most[i].id <= most[n - 2].id;
    }
  }

  lemma TakenIds(t: Tracker, last: seq<Message>, msgs: seq<Message>, from: int)
    requires Taken(t, last, msgs, from)
    ensures InOrder(msgs) && Distinct(msgs)
    ensures forall i :: 0 <= i < |last| ==> msgs[i].id == last[i].id
    ensures t.ids + Ids(msgs)[|t.ids|..] == Ids(msgs)
  {
    forall i | 0 <= i < |last|
      ensures msgs[i].id == last[i].id
    {
      assert Ids(last)[i] == t.ids[i];
      assert i >= from ==> PassableAt(t, msgs, i);
    }
    TakenOrder(t, last, msgs, from, |msgs|);
    assert msgs[..|msgs|] == msgs;
  }

  lemma TakenPositions(t: Tracker, last: seq<Message>, msgs: seq<Message>, from: int, id: int)
    requires Taken(t, last, msgs, from) && id in Positions(last)
    ensures id in Positions(msgs) && Positions(msgs)[id] == Positions(last)[id]
  {
    TakenIds(t, last, msgs, from);
    PositionFound(last, id);
    PositionsDistinct(msgs, Positions(last)[id]);
  }

  lemma TakenMatched(t: Tracker, last: seq<Message>, msgs: seq<Message>, from: int, i: int)
    requires Taken(t, last, msgs, from) && 0 <= i < |t.tasks|
    ensures Matched(t.tasks[i], msgs, Positions(msgs))
  {
    var id := t.tasks[i].id;
    assert GroundedOne(t.tasks[i], last, Positions(last));
    TakenPositions(t, last, msgs, from, id);
    assert t.tasks[i].Holds(id);
    assert t.tasks[t.owners[id]].Holds(id);
    assert t.owners[id] == i;
    var p := Positions(msgs)[id];
    PositionFound(msgs, id);
    assert p < from ==> msgs[p] == last[p];
    assert p >= from ==> PassableAt(t, msgs, p);
  }

  lemma TakenGrounded(t: Tracker, last: seq<Message>, msgs: seq<Message>, from: int, i: int)
    requires Taken(t, last, msgs, from) && 0 <= i < |t.tasks|
    ensures GroundedOne(t.tasks[i], msgs, Positions(msgs))
  {
    TakenMatched(t, last, msgs, from, i);
    assert GroundedOne(t.tasks[i], last, Positions(last));
    var steered := t.tasks[i].steered;
    forall j | 0 <= j < |steered|
      ensures steered[j] in Positions(msgs)
    {
      TakenPositions(t, last, msgs, from, steered[j]);
    }
  }

  /** Nothing is pruned. */
  lemma TakenPruned(t: Tracker, last: seq<Message>, msgs: seq<Message>, from: int)
    requires Taken(t, last, msgs, from)
    ensures Pruned(t, msgs) == (t.(ids := Ids(msgs)), [])
  {
    TakenIds(t, last, msgs, from);
    forall i | 0 <= i < |t.tasks|
      ensures GroundedOne(t.tasks[i], msgs, Positions(msgs))
    {
      TakenGrounded(t, last, msgs, from, i);
    }
    KeepAll(t.tasks, msgs, Positions(msgs));
    OwnersOfOk(t.tasks);
    OwnersUnique(t.tasks, OwnersOf(t.tasks), t.owners);
  }

  /** The messages before from have their owners, so owning starts there. */
  lemma TakenOwn(t: Tracker, last: seq<Message>, msgs: seq<Message>, from: int, ids: seq<int>)
    requires Taken(t, last, msgs, from)
    ensures var (s, c) := Own(t, msgs[from..], []); Own(t.(ids := ids), msgs, []) == (s.(ids := ids), c)
  {
    assert AllOwned(t.owners, msgs[..from]) by {
      assert forall msg :: msg in msgs[..from] ==> msg in last;
    }
    OwnNothing(t.(ids := ids), msgs[..from], []);
    OwnAppend(t.(ids := ids), msgs[..from], msgs[from..], []);
    assert msgs[..from] + msgs[from..] == msgs;
    OwnIds(t, msgs[from..], [], ids);
  }

  lemma PositionBefore(msgs: seq<Message>, id: int, from: int)
    requires InOrder(msgs) && id in Positions(msgs) && 0 < from <= |msgs|
    ensures Positions(msgs)[id] < from <==> id <= msgs[from - 1].id
  {
    PositionFound(msgs, id);
  }

  /** A task up to the last ID before from has its message there, and no other does. */
  lemma TakenWhere(t: Tracker, last: seq<Message>, msgs: seq<Message>, from: int, i: int)
    requires Taken(t, last, msgs, from) && 0 <= i < |t.tasks|
    ensures t.tasks[i].id in Positions(msgs)
    ensures Positions(msgs)[t.tasks[i].id] < from <==> from > 0 && t.tasks[i].id <= msgs[from - 1].id
  {
    TakenMatched(t, last, msgs, from, i);
    TakenIds(t, last, msgs, from);
    if from > 0 {
      PositionBefore(msgs, t.tasks[i].id, from);
    }
  }

  lemma {:induction false} LastReplyAgrees(a: seq<Message>, b: seq<Message>, lo: int, hi: int)
    requires 0 <= lo && hi <= |a| && hi <= |b| && forall i :: 0 <= i < hi ==> a[i] == b[i]
    ensures LastReply(a, lo, hi) == LastReply(b, lo, hi)
    decreases hi - lo
  {
    if lo < hi {
      assert a[hi - 1] == b[hi - 1];
      LastReplyAgrees(a, b, lo, hi - 1);
    }
  }

  /** Settling a task takes the messages up to its next task. */
  lemma SettledAgrees(
    a: seq<Task>, b: seq<Task>, i: int, last: seq<Message>, msgs: seq<Message>, p: map<int, int>, q: map<int, int>)
    requires 0 <= i && i + 1 < |a| && i + 1 < |b| && PositionsOk(p, last) && PositionsOk(q, msgs)
    requires a[i].id == b[i].id && a[i].replyId == b[i].replyId && a[i + 1].id == b[i + 1].id
    requires PlacedAt(a[i].id, p, q) && PlacedAt(a[i + 1].id, p, q)
    requires forall j :: 0 <= j < p[a[i + 1].id] ==> last[j] == msgs[j]
    requires Settled(a, i, last, p)
    ensures Settled(b, i, msgs, q)
  {
    LastReplyAgrees(last, msgs, p[a[i].id] + 1, p[a[i + 1].id]);
    assert ReplyAt(a, last, i, p) == ReplyAt(b, msgs, i, q);
  }

  ghost predicate PlacedAt(id: int, all: map<int, int>, at: map<int, int>) {
    id in all && id in at && all[id] == at[id]
  }

  lemma TasksIncrease(tasks: seq<Task>, i: int, j: int)
    requires TasksInOrder(tasks) && 0 <= i <= j < |tasks|
    ensures tasks[i].id <= tasks[j].id
  {
  }

  /** A task before one that started before from has its reply still. */
  lemma SettledStays(t: Tracker, last: seq<Message>, msgs: seq<Message>, from: int, s: Tracker, i: int)
    requires Taken(t, last, msgs, from) && Extends(t, s)
    requires 0 <= i && i + 1 < |t.tasks|
    requires t.tasks[i + 1].id in Positions(msgs) && Positions(msgs)[t.tasks[i + 1].id] < from
    ensures Settled(s.tasks, i, msgs, Positions(msgs))
  {
    assert GroundedOne(t.tasks[i], last, Positions(last)) && GroundedOne(t.tasks[i + 1], last, Positions(last));
    TakenPositions(t, last, msgs, from, t.tasks[i].id);
    TakenPositions(t, last, msgs, from, t.tasks[i + 1].id);
    assert Settled(t.tasks, i, last, Positions(last));
    SettledAgrees(t.tasks, s.tasks, i, last, msgs, Positions(last), Positions(msgs));
  }

  lemma TakenBelow(t: Tracker, last: seq<Message>, msgs: seq<Message>, from: int, k: int, i: int)
    requires Taken(t, last, msgs, from) && 0 < from
    requires 0 <= i <= k < |t.tasks| && t.tasks[k].id <= msgs[from - 1].id
    ensures t.tasks[i].id in Positions(msgs) && Positions(msgs)[t.tasks[i].id] < from
  {
    TakenWhere(t, last, msgs, from, i);
    TasksIncrease(t.tasks, i, k);
  }

  lemma TakenSettled(t: Tracker, last: seq<Message>, msgs: seq<Message>, from: int, s: Tracker, k: int, i: int)
    requires Taken(t, last, msgs, from) && Extends(t, s) && 0 < from
    requires 0 <= i < k < |t.tasks| && t.tasks[k].id <= msgs[from - 1].id
    ensures Settled(s.tasks, i, msgs, Positions(msgs))
  {
    TakenBelow(t, last, msgs, from, k, i + 1);
    SettledStays(t, last, msgs, from, s, i);
  }

  /** The fast way knows where the messages are of the tasks it adds. */
  lemma TakenNew(t: Tracker, last: seq<Message>, msgs: seq<Message>, from: int, i: int)
    requires Taken(t, last, msgs, from) && |t.tasks| <= i < |Own(t, msgs[from..], []).0.tasks|
    ensures var id := Own(t, msgs[from..], []).0.tasks[i].id; id in Positions(msgs) && Positions(msgs)[id] >= from
  {
    var id := Own(t, msgs[from..], []).0.tasks[i].id;
    OwnAdds(t, msgs[from..], [], i);
    var j :| 0 <= j < |msgs[from..]| && Ids(msgs[from..])[j] == id;
    assert msgs[from + j].id == id;
    PositionHas(msgs, from + j);
  }

  /** The replies of the tasks before first are settled, and at places the others. */
  ghost predicate Placed(s: Tracker, msgs: seq<Message>, first: int, at: map<int, int>)
    requires PositionsOk(at, msgs)
  {
    && 0 <= first <= |s.tasks|
    && (forall i :: 0 <= i < first ==> Settled(s.tasks, i, msgs, Positions(msgs)))
    && (forall i :: first <= i < |s.tasks| ==> PlacedAt(s.tasks[i].id, Positions(msgs), at))
  }

  lemma IncrementalIsDerive(t: Tracker, last: seq<Message>, msgs: seq<Message>, from: int, first: int, at: map<int,
      int>)
    requires Taken(t, last, msgs, from) && PositionsOk(at, msgs) && 0 <= first <= |t.tasks|
    requires Placed(Own(t, msgs[from..], []).0, msgs, first, at)
    ensures Incremental(t, msgs, from, first, at) == Derive(t, msgs)
  {
    var (s, c) := Own(t, msgs[from..], []);
    TakenPruned(t, last, msgs, from);
    TakenOwn(t, last, msgs, from, Ids(msgs));
    RepliesSkip(s, msgs, 0, first, Positions(msgs), c);
    assert forall i :: first <= i < |s.tasks| ==> PlacedAt(s.tasks[i].id, Positions(msgs), at);
    RepliesAgree(s, msgs, first, Positions(msgs), at, c);
    RepliesIds(s, msgs, 0, Positions(msgs), c, Ids(msgs));
    TakenIds(t, last, msgs, from);
  }

  /** No task started before from: at places them all. */
  lemma NoneBefore(t: Tracker, last: seq<Message>, msgs: seq<Message>, from: int)
    requires Taken(t, last, msgs, from)
    requires forall i :: 0 <= i < |t.tasks| ==> from == 0 || t.tasks[i].id > msgs[from - 1].id
    ensures Placed(Own(t, msgs[from..], []).0, msgs, 0, PositionsFrom(msgs, from))
  {
    var s := Own(t, msgs[from..], []).0;
    OwnExtends(t, msgs[from..], []);
    forall i | 0 <= i < |s.tasks|
      ensures PlacedAt(s.tasks[i].id, Positions(msgs), PositionsFrom(msgs, from))
    {
      if i < |t.tasks| {
        TakenWhere(t, last, msgs, from, i);
      } else {
        TakenNew(t, last, msgs, from, i);
      }
    }
  }

  lemma PlacedFrom(msgs: seq<Message>, from: int, k: int, j: int, id: int)
    requires k in Positions(msgs) && Positions(msgs)[k] == j < from
    requires id in Positions(msgs) && (id == k || Positions(msgs)[id] >= from)
    ensures PlacedAt(id, Positions(msgs), PositionsFrom(msgs, from)[k := j])
  {
  }

  lemma SomeBeforePlaced(t: Tracker, last: seq<Message>, msgs: seq<Message>, from: int, k: int, i: int)
    requires Taken(t, last, msgs, from) && 0 <= k < |t.tasks| && 0 < from
    requires forall i :: k < i < |t.tasks| ==> t.tasks[i].id > msgs[from - 1].id
    requires k < i < |Own(t, msgs[from..], []).0.tasks|
    ensures var id := Own(t, msgs[from..], []).0.tasks[i].id; id in Positions(msgs) && Positions(msgs)[id] >= from
  {
    OwnExtends(t, msgs[from..], []);
    if i >= |t.tasks| {
      TakenNew(t, last, msgs, from, i);
    } else {
      TakenWhere(t, last, msgs, from, i);
    }
  }

  lemma AfterPlaced(t: Tracker, last: seq<Message>, msgs: seq<Message>, from: int, k: int, j: int, i: int)
    requires Taken(t, last, msgs, from) && 0 <= k < |t.tasks| && 0 <= j < from && msgs[j].id == t.tasks[k].id
    requires forall i :: k < i < |t.tasks| ==> t.tasks[i].id > msgs[from - 1].id
    requires k <= i < |Own(t, msgs[from..], []).0.tasks|
    ensures var s := Own(t, msgs[from..], []).0;
      PlacedAt(s.tasks[i].id, Positions(msgs), PositionsFrom(msgs, from)[t.tasks[k].id := j])
  {
    TakenIds(t, last, msgs, from);
    PositionsDistinct(msgs, j);
    if i > k {
      SomeBeforePlaced(t, last, msgs, from, k, i);
    } else {
      OwnExtends(t, msgs[from..], []);
    }
    PlacedFrom(msgs, from, t.tasks[k].id, j, Own(t, msgs[from..], []).0.tasks[i].id);
  }

  /** Task k is the last that started before from, in the message at position j. */
  lemma SomeBefore(t: Tracker, last: seq<Message>, msgs: seq<Message>, from: int, k: int, j: int)
    requires Taken(t, last, msgs, from) && 0 <= k < |t.tasks| && 0 <= j < from && msgs[j].id == t.tasks[k].id
    requires t.tasks[k].id <= msgs[from - 1].id
    requires forall i :: k < i < |t.tasks| ==> t.tasks[i].id > msgs[from - 1].id
    ensures Placed(Own(t, msgs[from..], []).0, msgs, k, PositionsFrom(msgs, from)[t.tasks[k].id := j])
  {
    var s := Own(t, msgs[from..], []).0;
    OwnExtends(t, msgs[from..], []);
    forall i | 0 <= i < k
      ensures Settled(s.tasks, i, msgs, Positions(msgs))
    {
      TakenSettled(t, last, msgs, from, s, k, i);
    }
    forall i | k <= i < |s.tasks|
      ensures PlacedAt(s.tasks[i].id, Positions(msgs), PositionsFrom(msgs, from)[t.tasks[k].id := j])
    {
      AfterPlaced(t, last, msgs, from, k, j, i);
    }
  }

  /** Nothing changed: deriving the tasks anew changes nothing. */
  lemma NothingChanged(t: Tracker, last: seq<Message>, msgs: seq<Message>)
    requires Taken(t, last, msgs, |msgs|) && |msgs| == |last|
    ensures Derive(t, msgs) == (t, [])
  {
    assert msgs == last;
    TakenPruned(t, last, msgs, |msgs|);
    assert t.(ids := Ids(msgs)) == t;
    OwnNothing(t, msgs, []);
    RepliesSkip(t, msgs, 0, |t.tasks|, Positions(msgs), []);
  }

  lemma FastFrom(t: Tracker, last: seq<Message>, msgs: seq<Message>, from: int, k: int, j: int)
    requires Taken(t, last, msgs, from) && 0 <= k < |t.tasks| && 0 <= j < from && msgs[j].id == t.tasks[k].id
    requires t.tasks[k].id <= msgs[from - 1].id
    requires forall i :: k < i < |t.tasks| ==> t.tasks[i].id > msgs[from - 1].id
    ensures Incremental(t, msgs, from, k, PositionsFrom(msgs, from)[t.tasks[k].id := j]) == Derive(t, msgs)
  {
    SomeBefore(t, last, msgs, from, k, j);
    IncrementalIsDerive(t, last, msgs, from, k, PositionsFrom(msgs, from)[t.tasks[k].id := j]);
  }

  lemma FastNone(t: Tracker, last: seq<Message>, msgs: seq<Message>, from: int)
    requires Taken(t, last, msgs, from) && Before(t.tasks, if from > 0 then msgs[from - 1].id else MinInt) == 0
    ensures FastAfter(t, msgs, from, 0) == Derive(t, msgs)
  {
    NoneBefore(t, last, msgs, from);
    IncrementalIsDerive(t, last, msgs, from, 0, PositionsFrom(msgs, from));
  }

  lemma FastSome(t: Tracker, last: seq<Message>, msgs: seq<Message>, from: int, k: int)
    requires Taken(t, last, msgs, from) && k == Before(t.tasks, if from > 0 then msgs[from - 1].id else MinInt) && k > 0
    requires FindBack(msgs, from, t.tasks[k - 1].id) >= 0
    ensures FastAfter(t, msgs, from, k) == Derive(t, msgs)
  {
    FastFrom(t, last, msgs, from, k - 1, FindBack(msgs, from, t.tasks[k - 1].id));
  }

  lemma FastMissed(t: Tracker, msgs: seq<Message>, from: int, k: int)
    requires t.Ok() && 0 <= from <= |t.ids| <= |msgs| && 0 < k <= |t.tasks|
    requires FindBack(msgs, from, t.tasks[k - 1].id) < 0
    ensures FastAfter(t, msgs, from, k) == Derive(t, msgs)
  {
  }

  lemma FastIsDerive(t: Tracker, last: seq<Message>, msgs: seq<Message>, from: int, k: int)
    requires Taken(t, last, msgs, from) && k == Before(t.tasks, if from > 0 then msgs[from - 1].id else MinInt)
    ensures FastAfter(t, msgs, from, k) == Derive(t, msgs)
  {
    if k == 0 {
      FastNone(t, last, msgs, from);
    } else if FindBack(msgs, from, t.tasks[k - 1].id) >= 0 {
      FastSome(t, last, msgs, from, k);
    } else {
      FastMissed(t, msgs, from, k);
    }
  }

  /** The fast way leaves what deriving all tasks anew would, and changes what it would. */
  lemma MessagesIsDerive(t: Tracker, last: seq<Message>, msgs: seq<Message>, from: int)
    requires Inv(t, last) && 0 <= from && Agree(last, msgs, from)
    ensures Messages(t, msgs, from) == Derive(t, msgs)
  {
    if t.inOrder && !t.rederive {
      var n := Min(from, Min(|t.ids|, |msgs|));
      if n == |msgs| == |t.ids| {
        NothingChanged(t, last, msgs);
      } else if Passable(t, msgs, n) {
        FastIsDerive(t, last, msgs, n, Before(t.tasks, if n > 0 then msgs[n - 1].id else MinInt));
      }
    }
  }
}
