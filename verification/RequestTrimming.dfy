/** The closed requests that are dropped so that the 50 closed last remain. */
module RequestTrimming {
  import opened Sorting
  import opened Replication
  import opened EmitterOps

  datatype Closed = Closed(at: int, i: int)

  predicate Earlier(a: Closed, b: Closed) {
    a.at < b.at || (a.at == b.at && a.i <= b.i)
  }

  predicate AtMost(a: int, b: int) {
    a <= b
  }

  lemma Orders()
    ensures TotalOrder(Earlier) && TotalOrder(AtMost)
  {
  }

  /** The closed requests among the first n. */
  function ClosedOf(requests: seq<RequestState>, n: nat): (r: seq<Closed>)
    requires n <= |requests|
  {
    if n == 0 then []
    else
      var front := ClosedOf(requests, n - 1);
      if requests[n - 1].pending then front else front + [Closed(requests[n - 1].closedAt, n - 1)]
  }

  lemma {:induction false} ClosedAre(requests: seq<RequestState>, n: nat)
    requires n <= |requests|
    ensures |ClosedOf(requests, n)| == ClosedCount(requests[..n])
    ensures forall x :: x in ClosedOf(requests, n) <==>
      0 <= x.i < n && !requests[x.i].pending && x.at == requests[x.i].closedAt
    ensures forall i, j :: 0 <= i < j < |ClosedOf(requests, n)| ==> ClosedOf(requests, n)[i] != ClosedOf(requests, n)[j]
  {
    if n > 0 {
      ClosedAre(requests, n - 1);
      assert requests[..n][..n - 1] == requests[..n - 1];
      var front := ClosedOf(requests, n - 1);
      forall i | 0 <= i < |front| ensures front[i].i < n - 1 {
        assert front[i] in front;
      }
    }
  }

  function Indexes(closed: seq<Closed>): (r: seq<int>)
    ensures |r| == |closed| && forall k :: 0 <= k < |r| ==> r[k] == closed[k].i
  {
    seq(|closed|, k requires 0 <= k < |closed| => closed[k].i)
  }

  /** The first of the closed requests, by when they closed and where they are. */
  ghost predicate First(requests: seq<RequestState>, sorted: seq<Closed>, n: nat) {
    && n <= |sorted| && Sorted(sorted, Earlier)
    && (forall x :: x in sorted <==> 0 <= x.i < |requests| && !requests[x.i].pending && x.at == requests[x.i].closedAt)
    && (forall i, j :: 0 <= i < j < |sorted| ==> sorted[i] != sorted[j])
  }

  lemma {:induction false} SortedFirst(requests: seq<RequestState>, sorted: seq<Closed>, n: nat)
    requires Sorted(sorted, Earlier) && multiset(sorted) == multiset(ClosedOf(requests, |requests|)) && n <= |sorted|
    ensures First(requests, sorted, n) && |sorted| == ClosedCount(requests)
  {
    var closed := ClosedOf(requests, |requests|);
    ClosedAre(requests, |requests|);
    assert requests[..|requests|] == requests;
    assert |sorted| == |multiset(sorted)| && |closed| == |multiset(closed)|;
    forall x ensures x in sorted <==> x in closed {
      assert x in sorted <==> x in multiset(sorted);
      assert x in closed <==> x in multiset(closed);
    }
    forall i, j | 0 <= i < j < |sorted| ensures sorted[i] != sorted[j] {
      OnceEach(closed, sorted[i]);
      if sorted[i] == sorted[j] {
        TwiceThere(sorted, i, j);
      }
    }
  }

  lemma {:induction false} SameMembers(a: seq<int>, b: seq<int>)
    requires multiset(a) == multiset(b)
    ensures |a| == |b| && forall x :: x in a <==> x in b
  {
    assert |a| == |multiset(a)| && |b| == |multiset(b)|;
    forall x ensures x in a <==> x in b {
      assert x in a <==> x in multiset(a);
      assert x in b <==> x in multiset(b);
    }
  }

  lemma {:induction false} FirstAscend(requests: seq<RequestState>, sorted: seq<Closed>, n: nat, dropped: seq<int>)
    requires First(requests, sorted, n) && Sorted(dropped, AtMost)
    requires multiset(dropped) == multiset(Indexes(sorted[..n]))
    ensures Ascending(dropped, |requests|) && |dropped| == n
    ensures forall i :: i in dropped <==> exists k :: 0 <= k < n && sorted[k].i == i
  {
    var some := Indexes(sorted[..n]);
    SameMembers(dropped, some);
    forall i, j | 0 <= i < j < |some| ensures some[i] != some[j] {
      assert sorted[i] in sorted && sorted[j] in sorted;
    }
    forall i | i in dropped ensures exists k :: 0 <= k < n && sorted[k].i == i {
      var k :| 0 <= k < |some| && some[k] == i;
      assert sorted[k].i == i;
    }
    forall k | 0 <= k < n ensures sorted[k].i in dropped {
      assert some[k] == sorted[k].i;
    }
    forall i | 0 <= i < |dropped| ensures 0 <= dropped[i] < |requests| {
      assert dropped[i] in dropped;
      var k :| 0 <= k < n && sorted[k].i == dropped[i];
      assert sorted[k] in sorted;
    }
    forall i, j | 0 <= i < j < |dropped| ensures dropped[i] < dropped[j] {
      OnceEach(some, dropped[i]);
      if dropped[i] == dropped[j] {
        TwiceThere(dropped, i, j);
      }
      assert AtMost(dropped[i], dropped[j]);
    }
  }

  lemma {:induction false} FirstExcess(requests: seq<RequestState>, sorted: seq<Closed>, n: nat, dropped: seq<int>)
    requires First(requests, sorted, n) && |sorted| == ClosedCount(requests) && n == |sorted| - MaxClosedRequests
    requires Ascending(dropped, |requests|) && |dropped| == n
    requires forall i :: i in dropped <==> exists k :: 0 <= k < n && sorted[k].i == i
    ensures Excess(requests, dropped)
  {
    forall i | 0 <= i < |dropped| ensures !requests[dropped[i]].pending {
      assert dropped[i] in dropped;
      var k :| 0 <= k < n && sorted[k].i == dropped[i];
      assert sorted[k] in sorted;
    }
    forall i, j | 0 <= i < |dropped| && 0 <= j < |requests| && !requests[j].pending && j !in dropped
      ensures var at := requests[dropped[i]].closedAt;
        at < requests[j].closedAt || (at == requests[j].closedAt && dropped[i] < j)
    {
      assert dropped[i] in dropped;
      var k :| 0 <= k < n && sorted[k].i == dropped[i];
      assert sorted[k] in sorted;
      var x := Closed(requests[j].closedAt, j);
      assert x in sorted;
      var m :| 0 <= m < |sorted| && sorted[m] == x;
      assert m >= n;
      assert Earlier(sorted[k], sorted[m]);
    }
  }

  /** The positions, ascending, of the closed requests to drop: those that closed first. */
  method ExcessClosed(requests: seq<RequestState>) returns (dropped: seq<int>)
    ensures Excess(requests, dropped)
  {
    hide TotalOrder, Sorted, First;
    var closed: seq<Closed> := [];
    var i := 0;
    while i < |requests|
      invariant 0 <= i <= |requests| && closed == ClosedOf(requests, i)
    {
      if !requests[i].pending {
        closed := closed + [Closed(requests[i].closedAt, i)];
      }
      i := i + 1;
    }
    ClosedAre(requests, |requests|);
    assert requests[..|requests|] == requests;
    var excess := |closed| - MaxClosedRequests;
    if excess <= 0 {
      return [];
    }
    Orders();
    var sorted := SortFunc(closed, Earlier);
    assert |sorted| == |multiset(sorted)| && |closed| == |multiset(closed)|;
    SortedFirst(requests, sorted, excess);
    dropped := SortFunc(Indexes(sorted[..excess]), AtMost);
    FirstAscend(requests, sorted, excess, dropped);
    FirstExcess(requests, sorted, excess, dropped);
  }

  // ---- What is kept ----

  /** How many of the positions are below n. */
  function Below(dropped: seq<int>, n: int): nat {
    if |dropped| == 0 then 0 else Below(dropped[..|dropped| - 1], n) + if dropped[|dropped| - 1] < n then 1 else 0
  }

  lemma {:induction false} BelowNext(dropped: seq<int>, n: int)
    requires forall i, j :: 0 <= i < j < |dropped| ==> dropped[i] < dropped[j]
    ensures Below(dropped, n + 1) == Below(dropped, n) + if n in dropped then 1 else 0
  {
    if |dropped| > 0 {
      var k := |dropped| - 1;
      BelowNext(dropped[..k], n);
      assert dropped == dropped[..k] + [dropped[k]];
    }
  }

  lemma {:induction false} BelowAll(dropped: seq<int>, n: int)
    ensures (forall i :: 0 <= i < |dropped| ==> dropped[i] < n) ==> Below(dropped, n) == |dropped|
    ensures (forall i :: 0 <= i < |dropped| ==> dropped[i] >= n) ==> Below(dropped, n) == 0
  {
    if |dropped| > 0 {
      BelowAll(dropped[..|dropped| - 1], n);
    }
  }

  lemma {:induction false} OneMore(front: seq<RequestState>, r: RequestState, dropped: seq<int>)
    requires |front| in dropped ==> !r.pending
    ensures ClosedCount(Kept(front + [r], dropped)) - ClosedCount(Kept(front, dropped))
      == ClosedCount(front + [r]) - ClosedCount(front) - if |front| in dropped then 1 else 0
  {
    hide Kept, ClosedCount;
    CountNext(front, r);
    KeptNext(front, r, dropped);
    CountNext(Kept(front, dropped), r);
  }

  lemma {:induction false} KeptClosed(requests: seq<RequestState>, dropped: seq<int>, n: nat)
    requires Ascending(dropped, |requests|) && n <= |requests| && forall i :: i in dropped && 0 <= i < |requests| ==>
      !requests[i].pending
    ensures ClosedCount(Kept(requests[..n], dropped)) == ClosedCount(requests[..n]) - Below(dropped, n)
  {
    if n == 0 {
      BelowAll(dropped, 0);
    } else {
      hide Below, Kept, ClosedCount;
      KeptClosed(requests, dropped, n - 1);
      BelowNext(dropped, n - 1);
      assert requests[..n] == requests[..n - 1] + [requests[n - 1]];
      OneMore(requests[..n - 1], requests[n - 1], dropped);
    }
  }

  lemma {:induction false} CountNext(requests: seq<RequestState>, r: RequestState)
    ensures ClosedCount(requests + [r]) == ClosedCount(requests) + if r.pending then 0 else 1
  {
    assert (requests + [r])[..|requests|] == requests;
  }

  lemma {:induction false} KeptNext(requests: seq<RequestState>, r: RequestState, dropped: seq<int>)
    ensures Kept(requests + [r], dropped) == if |requests| in dropped then Kept(requests, dropped)
      else Kept(requests, dropped) + [r]
  {
    assert (requests + [r])[..|requests|] == requests;
  }

  /** Trimming keeps every request that is pending, and of the closed ones 50, or all when there are
      fewer; those it drops closed no later than any it keeps. */
  lemma TrimmingKeeps(requests: seq<RequestState>, dropped: seq<int>)
    requires Excess(requests, dropped)
    ensures var n := ClosedCount(requests);
      ClosedCount(Kept(requests, dropped)) == if n > MaxClosedRequests then MaxClosedRequests else n
    ensures forall i :: 0 <= i < |requests| && requests[i].pending ==> i !in dropped
    ensures forall i, j :: i in dropped && 0 <= j < |requests| && !requests[j].pending && j !in dropped ==>
      requests[i].closedAt <= requests[j].closedAt
  {
    forall i | i in dropped ensures !requests[i].pending {
      var k :| 0 <= k < |dropped| && dropped[k] == i;
    }
    KeptClosed(requests, dropped, |requests|);
    BelowAll(dropped, |requests|);
    assert requests[..|requests|] == requests;
  }
}
