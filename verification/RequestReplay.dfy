/** The requests a client holds that keeps the same bound as the server: it drops the closed ones
    beyond the 50 that closed last itself, since the server tells nobody that it dropped them. */
module RequestReplay {
  import opened Replication
  import opened ConversationState
  import opened ConversationSteps
  import opened EmitterOps

  type Held = map<string, RequestState>

  /** Requests by ID, of which rank says the order in which they were first there. */
  ghost function Above(m: Held, x: string, rank: string -> int): set<string>
    requires x in m
  {
    set y | y in m && !m[y].pending && Later(m, y, x, rank)
  }

  /** y closed after x, or at the same time and was there later. */
  predicate Later(m: Held, y: string, x: string, rank: string -> int)
    requires x in m && y in m
  {
    m[y].closedAt > m[x].closedAt || (m[y].closedAt == m[x].closedAt && rank(y) > rank(x))
  }

  ghost predicate Keeps(m: Held, x: string, rank: string -> int)
    requires x in m
  {
    m[x].pending || |Above(m, x, rank)| < MaxClosedRequests
  }

  /** The pending requests, and of the closed ones those that closed last. */
  ghost function Trim(m: Held, rank: string -> int): Held {
    map x | x in m && Keeps(m, x, rank) :: m[x]
  }

  /** The part of m is of m. */
  ghost predicate Part(a: Held, m: Held) {
    forall x :: x in a ==> x in m && a[x] == m[x]
  }

  // ---- Trimming ----

  lemma {:induction false} SubsetFewer(a: set<string>, b: set<string>)
    requires a <= b
    ensures |a| <= |b| && (forall x :: x in b && x !in a ==> |a| < |b|)
  {
    assert b == a + (b - a);
    forall x | x in b && x !in a ensures |a| < |b| {
      assert x in b - a;
    }
  }

  lemma {:induction false} AbovePart(a: Held, m: Held, x: string, rank: string -> int)
    requires Part(a, m) && x in a
    ensures Above(a, x, rank) <= Above(m, x, rank) && |Above(a, x, rank)| <= |Above(m, x, rank)|
  {
    SubsetFewer(Above(a, x, rank), Above(m, x, rank));
  }

  /** Of the requests above one that is dropped, enough are kept to drop it by. */
  lemma {:induction false} EnoughKept(m: Held, x: string, rank: string -> int)
    requires x in m && |Above(m, x, rank)| >= MaxClosedRequests
    ensures |Above(m, x, rank) * Trim(m, rank).Keys| >= MaxClosedRequests
    decreases |Above(m, x, rank)|
  {
    var above := Above(m, x, rank);
    var kept := above * Trim(m, rank).Keys;
    if y :| y in above && y !in kept {
      SubsetFewer(Above(m, y, rank), above);
      EnoughKept(m, y, rank);
      SubsetFewer(Above(m, y, rank) * Trim(m, rank).Keys, kept);
    } else {
      assert kept == above;
    }
  }

  /** What is between what is kept of m and m is trimmed to the same. */
  lemma {:induction false} TrimBetween(a: Held, m: Held, rank: string -> int)
    requires Part(Trim(m, rank), a) && Part(a, m)
    ensures Trim(a, rank) == Trim(m, rank)
  {
    forall x | x in a ensures Keeps(a, x, rank) <==> Keeps(m, x, rank) {
      AbovePart(a, m, x, rank);
      if !Keeps(m, x, rank) {
        EnoughKept(m, x, rank);
        SubsetFewer(Above(m, x, rank) * Trim(m, rank).Keys, Above(a, x, rank));
      }
    }
  }

  // ---- The server ----

  /** The latest state of every request that was ever put. */
  function Latest(puts: seq<RequestState>): Held {
    if |puts| == 0 then map[] else Latest(puts[..|puts| - 1])[puts[|puts| - 1].id := puts[|puts| - 1]]
  }

  /** What the server holds, which trims after each put. */
  ghost function Server(puts: seq<RequestState>, rank: string -> int): Held {
    if |puts| == 0 then map[]
    else Trim(Server(puts[..|puts| - 1], rank)[puts[|puts| - 1].id := puts[|puts| - 1]], rank)
  }

  /** A request that closed stays as it closed. */
  ghost predicate Final(puts: seq<RequestState>) {
    forall i, j :: 0 <= i < j < |puts| && puts[i].id == puts[j].id ==> puts[i].pending
  }

  ghost predicate PutSince(puts: seq<RequestState>, k: nat, x: string) {
    exists i :: k <= i < |puts| && puts[i].id == x
  }

  lemma {:induction false} LatestPut(puts: seq<RequestState>, x: string) returns (i: int)
    ensures x in Latest(puts) <==> i >= 0
    ensures i >= 0 ==> i < |puts| && puts[i].id == x && Latest(puts)[x] == puts[i]
    ensures forall j :: 0 <= j < |puts| && j > i ==> puts[j].id != x
  {
    var n := |puts| - 1;
    if n < 0 {
      i := -1;
    } else if puts[n].id == x {
      i := n;
    } else {
      i := LatestPut(puts[..n], x);
    }
  }

  /** A put after which a request was pending before it, or not there. */
  lemma {:induction false} PutOpen(puts: seq<RequestState>)
    requires Final(puts) && |puts| > 0
    ensures Final(puts[..|puts| - 1])
    ensures var before, id := Latest(puts[..|puts| - 1]), puts[|puts| - 1].id; id in before ==> before[id].pending
  {
    var n := |puts| - 1;
    var i := LatestPut(puts[..n], puts[n].id);
    assert i >= 0 ==> puts[..n][i] == puts[i];
  }

  /** One more put trims to the same, whether what was dropped before is there or not. */
  lemma {:induction false} PutTrims(m: Held, r: RequestState, rank: string -> int)
    requires r.id in m ==> m[r.id].pending
    ensures Trim(Trim(m, rank)[r.id := r], rank) == Trim(m[r.id := r], rank)
  {
    var next := m[r.id := r];
    var a := Trim(m, rank)[r.id := r];
    forall x | x in Trim(next, rank) ensures x in a && a[x] == next[x] {
      if x != r.id && !m[x].pending {
        SubsetFewer(Above(m, x, rank), Above(next, x, rank));
      }
    }
    TrimBetween(a, next, rank);
  }

  /** The server holds what is kept of the latest states of all requests there ever were. */
  lemma {:induction false} ServerIsTrim(puts: seq<RequestState>, rank: string -> int)
    requires Final(puts)
    ensures Server(puts, rank) == Trim(Latest(puts), rank)
  {
    if |puts| > 0 {
      var n := |puts| - 1;
      PutOpen(puts);
      ServerIsTrim(puts[..n], rank);
      PutTrims(Latest(puts[..n]), puts[n], rank);
    }
  }

  // ---- The client ----

  /** What a replay brings to a client that has the first k puts: the requests put since that are there. */
  ghost function Updated(puts: seq<RequestState>, k: nat, rank: string -> int): Held {
    map x | x in Server(puts, rank) && PutSince(puts, k, x) :: Server(puts, rank)[x]
  }

  /** What the client then holds: it takes the updates, and drops the closed requests beyond those kept. */
  ghost function Resumed(puts: seq<RequestState>, k: nat, rank: string -> int): Held
    requires k <= |puts|
  {
    Trim(Server(puts[..k], rank) + Updated(puts, k, rank), rank)
  }

  /** A request not put since is as it was. */
  lemma {:induction false} LatestStays(puts: seq<RequestState>, k: nat, x: string)
    requires k <= |puts| && !PutSince(puts, k, x)
    ensures x in Latest(puts) <==> x in Latest(puts[..k])
    ensures x in Latest(puts) ==> Latest(puts)[x] == Latest(puts[..k])[x]
    decreases |puts|
  {
    if k < |puts| {
      var n := |puts| - 1;
      assert puts[n].id != x;
      assert !PutSince(puts[..n], k, x);
      assert puts[..n][..k] == puts[..k];
      LatestStays(puts[..n], k, x);
    } else {
      assert puts[..k] == puts;
    }
  }

  /** One that was put since was pending before, if it was there. */
  lemma {:induction false} PutSinceOpen(puts: seq<RequestState>, k: nat, x: string)
    requires Final(puts) && k <= |puts| && PutSince(puts, k, x) && x in Latest(puts[..k])
    ensures Latest(puts[..k])[x].pending && x in Latest(puts)
  {
    var i := LatestPut(puts[..k], x);
    assert puts[..k][i] == puts[i];
    var j :| k <= j < |puts| && puts[j].id == x;
    var l := LatestPut(puts, x);
  }

  /** The closed requests of the first k puts are closed, the same, after all. */
  lemma {:induction false} ClosedStays(puts: seq<RequestState>, k: nat, rank: string -> int, x: string)
    requires Final(puts) && k <= |puts| && x in Latest(puts[..k]) && !Latest(puts[..k])[x].pending
    ensures x in Latest(puts) && Latest(puts)[x] == Latest(puts[..k])[x]
    ensures Above(Latest(puts[..k]), x, rank) <= Above(Latest(puts), x, rank)
  {
    if PutSince(puts, k, x) {
      PutSinceOpen(puts, k, x);
    }
    LatestStays(puts, k, x);
    forall y | y in Above(Latest(puts[..k]), x, rank) ensures y in Above(Latest(puts), x, rank) {
      if PutSince(puts, k, y) {
        PutSinceOpen(puts, k, y);
      }
      LatestStays(puts, k, y);
    }
  }

  /** What the server holds, the client has, before it trims. */
  lemma {:induction false} HoldsAll(puts: seq<RequestState>, k: nat, rank: string -> int, x: string)
    requires Final(puts) && k <= |puts| && x in Server(puts, rank)
    ensures var a := Server(puts[..k], rank) + Updated(puts, k, rank); x in a && a[x] == Server(puts, rank)[x]
  {
    ServerIsTrim(puts, rank);
    FinalFront(puts, k);
    ServerIsTrim(puts[..k], rank);
    if !PutSince(puts, k, x) {
      LatestStays(puts, k, x);
      if !Latest(puts)[x].pending {
        ClosedStays(puts, k, rank, x);
        SubsetFewer(Above(Latest(puts[..k]), x, rank), Above(Latest(puts), x, rank));
      }
    }
  }

  lemma {:induction false} FinalFront(puts: seq<RequestState>, k: nat)
    requires Final(puts) && k <= |puts|
    ensures Final(puts[..k])
  {
  }

  /** What the client has besides is of requests it holds as pending that the server dropped. */
  lemma {:induction false} HoldsNothingElse(puts: seq<RequestState>, k: nat, rank: string -> int, x: string)
    requires Final(puts) && k <= |puts| && x in Server(puts[..k], rank) + Updated(puts, k, rank)
    ensures var a := Server(puts[..k], rank) + Updated(puts, k, rank);
      (x in Latest(puts) && a[x] == Latest(puts)[x])
      || (x in Server(puts[..k], rank) && Server(puts[..k], rank)[x].pending && x !in Server(puts, rank))
  {
    ServerIsTrim(puts, rank);
    FinalFront(puts, k);
    ServerIsTrim(puts[..k], rank);
    if x !in Updated(puts, k, rank) {
      if PutSince(puts, k, x) {
        PutSinceOpen(puts, k, x);
      } else {
        LatestStays(puts, k, x);
      }
    }
  }

  lemma {:induction false} PendingStays(m: Held, x: string, rank: string -> int)
    requires x in m && m[x].pending
    ensures x in Trim(m, rank)
  {
  }

  /** A client that was away and takes the replay holds exactly the server's requests, as a full
      replay would give them, exactly when the server dropped none that the client holds as pending:
      one that closed while the client was away, and then 50 others after it. */
  lemma {:induction false} ResumesExactly(puts: seq<RequestState>, k: nat, rank: string -> int)
    requires Final(puts) && k <= |puts|
    ensures Resumed(puts, k, rank) == Server(puts, rank) <==>
      forall x :: x in Server(puts[..k], rank) && Server(puts[..k], rank)[x].pending ==> x in Server(puts, rank)
  {
    hide Above, Latest, Server, Trim, Updated, Keeps;
    var was, all := Server(puts[..k], rank), Server(puts, rank);
    var a := was + Updated(puts, k, rank);
    ServerIsTrim(puts, rank);
    if forall x :: x in was && was[x].pending ==> x in all {
      forall x | x in all ensures x in a && a[x] == all[x] {
        HoldsAll(puts, k, rank, x);
      }
      forall x | x in a ensures x in Latest(puts) && a[x] == Latest(puts)[x] {
        HoldsNothingElse(puts, k, rank, x);
      }
      TrimBetween(a, Latest(puts), rank);
    }
    forall x | x in was && was[x].pending && x !in all ensures x in Resumed(puts, k, rank) {
      NotUpdated(puts, k, rank, x);
      PendingStays(a, x, rank);
    }
  }

  lemma {:induction false} NotUpdated(puts: seq<RequestState>, k: nat, rank: string -> int, x: string)
    requires x !in Server(puts, rank)
    ensures x !in Updated(puts, k, rank)
  {
  }

  /** A client that follows every put holds the server's requests. */
  lemma {:induction false} FollowingHolds(puts: seq<RequestState>, r: RequestState, rank: string -> int)
    ensures Server(puts + [r], rank) == Trim(Server(puts, rank)[r.id := r], rank)
  {
    assert (puts + [r])[..|puts|] == puts;
  }

  // ---- As the server's list ----

  ghost predicate Ranked(requests: seq<RequestState>, rank: string -> int) {
    forall i, j :: 0 <= i < j < |requests| ==> rank(requests[i].id) < rank(requests[j].id)
  }

  function MapOf(requests: seq<RequestState>): Held {
    if |requests| == 0 then map[]
    else MapOf(requests[..|requests| - 1])[requests[|requests| - 1].id := requests[|requests| - 1]]
  }

  lemma {:induction false} MapHas(requests: seq<RequestState>, x: string)
    requires DistinctIds(requests)
    ensures x in MapOf(requests) <==> exists i :: 0 <= i < |requests| && requests[i].id == x
    ensures forall i :: 0 <= i < |requests| && requests[i].id == x ==> MapOf(requests)[x] == requests[i]
  {
    if |requests| > 0 {
      MapHas(requests[..|requests| - 1], x);
    }
  }

  function ClosedIds(requests: seq<RequestState>): set<string> {
    set i | 0 <= i < |requests| && !requests[i].pending :: requests[i].id
  }

  lemma {:induction false} ClosedIdsNext(front: seq<RequestState>, r: RequestState)
    requires DistinctIds(front + [r])
    ensures ClosedIds(front + [r]) == ClosedIds(front) + if r.pending then {} else {r.id}
    ensures r.id !in ClosedIds(front) && DistinctIds(front)
  {
    var all := front + [r];
    assert all[|front|] == r;
    assert forall i :: 0 <= i < |front| ==> all[i] == front[i];
    forall id ensures id in ClosedIds(all) <==> id in ClosedIds(front) || (!r.pending && id == r.id) {
      if id in ClosedIds(all) {
        var i :| 0 <= i < |all| && !all[i].pending && all[i].id == id;
        assert i < |front| ==> front[i].id == id;
      }
      if id in ClosedIds(front) {
        var i :| 0 <= i < |front| && !front[i].pending && front[i].id == id;
        assert all[i].id == id;
      }
    }
  }

  lemma {:induction false} ClosedIdsCount(requests: seq<RequestState>)
    requires DistinctIds(requests)
    ensures |ClosedIds(requests)| == ClosedCount(requests)
  {
    if |requests| > 0 {
      hide ClosedIds, DistinctIds;
      var n := |requests| - 1;
      assert requests == requests[..n] + [requests[n]];
      ClosedIdsNext(requests[..n], requests[n]);
      ClosedIdsCount(requests[..n]);
    } else {
      assert ClosedIds(requests) == {};
    }
  }

  function DroppedIds(requests: seq<RequestState>, dropped: seq<int>): set<string>
    requires forall i :: 0 <= i < |dropped| ==> 0 <= dropped[i] < |requests|
  {
    set i | 0 <= i < |dropped| :: requests[dropped[i]].id
  }

  lemma {:induction false} DroppedIdsCount(requests: seq<RequestState>, dropped: seq<int>)
    requires DistinctIds(requests) && Ascending(dropped, |requests|)
    ensures |DroppedIds(requests, dropped)| == |dropped|
  {
    if |dropped| > 0 {
      var n := |dropped| - 1;
      DroppedIdsCount(requests, dropped[..n]);
      assert requests[dropped[n]].id !in DroppedIds(requests, dropped[..n]);
      assert DroppedIds(requests, dropped) == DroppedIds(requests, dropped[..n]) + {requests[dropped[n]].id};
    }
  }

  /** The closed requests that stay. */
  function KeptIds(requests: seq<RequestState>, dropped: seq<int>): set<string>
    requires forall i :: 0 <= i < |dropped| ==> 0 <= dropped[i] < |requests|
  {
    ClosedIds(requests) - DroppedIds(requests, dropped)
  }

  lemma {:induction false} KeptIdsCount(requests: seq<RequestState>, dropped: seq<int>)
    requires DistinctIds(requests) && Excess(requests, dropped)
    ensures |KeptIds(requests, dropped)| == ClosedCount(requests) - |dropped|
  {
    ClosedIdsCount(requests);
    DroppedIdsCount(requests, dropped);
    var closed, gone := ClosedIds(requests), DroppedIds(requests, dropped);
    assert gone <= closed;
    assert closed == gone + (closed - gone);
  }

  /** Request i closed later than j, or as late and behind it. */
  predicate Outlasts(requests: seq<RequestState>, i: int, j: int)
    requires 0 <= i < |requests| && 0 <= j < |requests|
  {
    && !requests[i].pending
    && (requests[i].closedAt > requests[j].closedAt || (requests[i].closedAt == requests[j].closedAt && i > j))
  }

  lemma {:induction false} DroppedFirst(requests: seq<RequestState>, dropped: seq<int>, i: int, j: int)
    requires Excess(requests, dropped) && 0 <= i < |requests| && 0 <= j < |requests| && j !in dropped
    requires !requests[j].pending
    ensures i in dropped ==> !Outlasts(requests, i, j)
  {
    if i in dropped {
      var d :| 0 <= d < |dropped| && dropped[d] == i;
    }
  }

  /** Which requests are above one in the list: those that closed later, or as late and behind it. */
  lemma {:induction false} AboveAt(requests: seq<RequestState>, rank: string -> int, j: int, y: string)
    requires DistinctIds(requests) && Ranked(requests, rank) && 0 <= j < |requests|
    ensures requests[j].id in MapOf(requests)
    ensures y in Above(MapOf(requests), requests[j].id, rank) <==>
      exists i :: 0 <= i < |requests| && requests[i].id == y && Outlasts(requests, i, j)
  {
    hide MapOf;
    MapHas(requests, requests[j].id);
    MapHas(requests, y);
  }

  lemma {:induction false} InDropped(requests: seq<RequestState>, dropped: seq<int>, j: int)
    requires DistinctIds(requests) && Ascending(dropped, |requests|) && 0 <= j < |requests|
    ensures requests[j].id in DroppedIds(requests, dropped) <==> j in dropped
  {
    if j in dropped {
      var i :| 0 <= i < |dropped| && dropped[i] == j;
    }
  }

  lemma {:induction false} DroppedBelow(requests: seq<RequestState>, dropped: seq<int>, rank: string -> int, j: int)
    requires DistinctIds(requests) && Ranked(requests, rank) && Excess(requests, dropped) && 0 <= j < |requests|
    requires j in dropped
    ensures requests[j].id in MapOf(requests)
    ensures KeptIds(requests, dropped) <= Above(MapOf(requests), requests[j].id, rank)
  {
    hide MapOf, Above;
    var d :| 0 <= d < |dropped| && dropped[d] == j;
    AboveAt(requests, rank, j, "");
    forall y | y in KeptIds(requests, dropped) ensures y in Above(MapOf(requests), requests[j].id, rank) {
      var i :| 0 <= i < |requests| && !requests[i].pending && requests[i].id == y;
      InDropped(requests, dropped, i);
      AboveAt(requests, rank, j, y);
    }
  }

  lemma {:induction false} KeptAbove(requests: seq<RequestState>, dropped: seq<int>, rank: string -> int, j: int)
    requires DistinctIds(requests) && Ranked(requests, rank) && Excess(requests, dropped) && 0 <= j < |requests|
    requires j !in dropped && !requests[j].pending
    ensures requests[j].id in MapOf(requests)
    ensures Above(MapOf(requests), requests[j].id, rank) <= KeptIds(requests, dropped) - {requests[j].id}
    ensures requests[j].id in KeptIds(requests, dropped)
  {
    hide MapOf, Above;
    AboveAt(requests, rank, j, requests[j].id);
    InDropped(requests, dropped, j);
    forall y | y in Above(MapOf(requests), requests[j].id, rank)
      ensures y in KeptIds(requests, dropped) && y != requests[j].id
    {
      AboveAt(requests, rank, j, y);
      var i :| 0 <= i < |requests| && requests[i].id == y && Outlasts(requests, i, j);
      InDropped(requests, dropped, i);
      DroppedFirst(requests, dropped, i, j);
    }
  }

  /** The request at j is kept exactly when it isn't one of those dropped. */
  lemma {:induction false} KeepsExactly(requests: seq<RequestState>, dropped: seq<int>, rank: string -> int, j: int)
    requires DistinctIds(requests) && Ranked(requests, rank) && Excess(requests, dropped) && 0 <= j < |requests|
    ensures requests[j].id in MapOf(requests) && MapOf(requests)[requests[j].id] == requests[j]
    ensures Keeps(MapOf(requests), requests[j].id, rank) <==> j !in dropped
  {
    hide MapOf, Above, KeptIds;
    var x := requests[j].id;
    MapHas(requests, x);
    KeptIdsCount(requests, dropped);
    if j in dropped {
      var d :| 0 <= d < |dropped| && dropped[d] == j;
      DroppedBelow(requests, dropped, rank, j);
      SubsetFewer(KeptIds(requests, dropped), Above(MapOf(requests), x, rank));
    } else if !requests[j].pending {
      KeptAbove(requests, dropped, rank, j);
      SubsetFewer(Above(MapOf(requests), x, rank), KeptIds(requests, dropped));
    }
  }

  /** The server's list without the positions that are dropped has exactly the requests that are kept. */
  lemma {:induction false} KeptIsTrim(requests: seq<RequestState>, dropped: seq<int>, rank: string -> int)
    requires DistinctIds(requests) && Ranked(requests, rank) && Excess(requests, dropped)
    ensures MapOf(Kept(requests, dropped)) == Trim(MapOf(requests), rank)
  {
    hide MapOf, Keeps, Excess, Kept, Ranked, DistinctIds;
    var left, m := Kept(requests, dropped), MapOf(requests);
    KeptDistinct(requests, dropped);
    forall x ensures x in MapOf(left) <==> x in Trim(m, rank)
      ensures x in MapOf(left) ==> MapOf(left)[x] == m[x]
    {
      MapHas(left, x);
      MapHas(requests, x);
      if x in MapOf(left) {
        var j :| 0 <= j < |left| && left[j].id == x;
        var i := KeptFrom(requests, requests, dropped, j);
        KeepsExactly(requests, dropped, rank, i);
      }
      if x in Trim(m, rank) {
        var i :| 0 <= i < |requests| && requests[i].id == x;
        KeepsExactly(requests, dropped, rank, i);
        var j := KeptTo(requests, requests, dropped, i);
        assert left[j].id == x;
      }
    }
  }

  /** The list with the request's latest state: at its place, or at the end. */
  function PutIn(requests: seq<RequestState>, r: RequestState): seq<RequestState> {
    var i := FindRequest(requests, r.id);
    if i >= 0 then requests[i := r] else requests + [r]
  }

  lemma {:induction false} PutInMap(requests: seq<RequestState>, r: RequestState)
    requires DistinctIds(requests) && DistinctIds(PutIn(requests, r))
    ensures MapOf(PutIn(requests, r)) == MapOf(requests)[r.id := r]
  {
    hide MapOf, DistinctIds;
    var next := PutIn(requests, r);
    var i := FindRequest(requests, r.id);
    forall x ensures x in MapOf(next) <==> x in MapOf(requests)[r.id := r]
      ensures x in MapOf(next) ==> MapOf(next)[x] == MapOf(requests)[r.id := r][x]
    {
      MapHas(requests, x);
      MapHas(next, x);
      assert next[if i >= 0 then i else |requests|] == r;
      assert forall j :: 0 <= j < |requests| && j != i ==> next[j] == requests[j];
    }
  }

  /** That is the list the emitter has after a put, before it trims. */
  lemma {:induction false} PutInIs(c: Conv, r: RequestState, number: nat)
    requires |c.requestSeq| == |c.requests|
    ensures PutRequest(c, r, number).requests == PutIn(c.requests, r)
  {
  }

  /** The emitter's list, from put to put, is what the server is said to hold. */
  lemma {:induction false} ListIsServer(c: Conv, r: RequestState, number: nat, dropped: seq<int>,
      puts: seq<RequestState>, rank: string -> int)
    requires |c.requestSeq| == |c.requests|
    requires DistinctIds(c.requests) && MapOf(c.requests) == Server(puts, rank)
    requires var next := PutRequest(c, r, number).requests;
      DistinctIds(next) && Ranked(next, rank) && Excess(next, dropped)
    ensures MapOf(Kept(PutRequest(c, r, number).requests, dropped)) == Server(puts + [r], rank)
  {
    hide MapOf, Trim, Server, PutIn, PutRequest, Kept, Excess, Ranked, DistinctIds;
    PutInIs(c, r, number);
    PutInMap(c.requests, r);
    KeptIsTrim(PutIn(c.requests, r), dropped, rank);
    FollowingHolds(puts, r, rank);
  }
}
