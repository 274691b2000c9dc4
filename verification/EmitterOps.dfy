/** The emitter's operations on rich messages, requests, the queue and the status,
    and the changes they make. */
module EmitterOps {
  import opened Options
  import opened Conversation
  import opened Tasks
  import opened TaskFacts
  import opened TaskTheorems
  import opened TaskRuns
  import opened TaskChanges
  import opened Replication
  import opened ConversationState
  import opened ConversationSteps
  import opened StateStore
  import opened EmitterSpec

  // ---- Rich messages ----

  /** Each of msgs stored in place of the one with its ID. */
  function UpsertAll(s: State, msgs: seq<RichMessage>): (r: (State, seq<Event>))
    requires s.t.Ok() && Aligned(s.c)
    ensures r.0.t == s.t && Aligned(r.0.c)
    decreases |msgs|
  {
    if |msgs| == 0 then (s, [])
    else
      var (a, first) := UpsertRich(s, msgs[0], true);
      assert Aligned(a.c);
      var (r, rest) := UpsertAll(a, msgs[1..]);
      (r, first + rest)
  }

  /** A resumed session's rich messages; whether the subscriptions get them one by one,
      or end because they are too many. */
  function LoadRich(s: State, msgs: seq<RichMessage>, bufSize: nat): (r: (State, seq<Event>, bool))
    requires s.t.Ok() && Aligned(s.c)
  {
    if |msgs| == 0 then (s, [], true)
    else
      var (r, events) := UpsertAll(s, msgs);
      (Saved(r), events, |msgs| <= bufSize / 4)
  }

  lemma {:induction false} SoundSaved(s: State)
    requires Sound(s)
    ensures Saved(s) == s && s.t.Ok() && Aligned(s.c)
  {
    OkAligned(s.c, s.number);
  }

  lemma {:induction false} NoChange(s: State)
    requires Sound(s)
    ensures Makes(s, s, [], {})
  {
    OkAligned(s.c, s.number);
    NoneDropped(Data(s.c));
  }

  /** Changes after changes, from one state to the next. */
  lemma {:induction false} MakesThen(a: State, b: State, c: State, first: seq<Event>, dropped: set<Key>,
      second: seq<Event>)
    requires Makes(a, b, first, dropped) && Makes(b, c, second, {})
    requires forall k :: k in dropped ==> Untouched(second, k)
    ensures Makes(a, c, first + second, dropped)
  {
    hide Sound, Aligned, Data, Changed, Untouched;
    ChangedThen(Seen(a), Seen(b), Seen(c), first, dropped, second);
  }

  lemma {:induction false} SavedSeen(a: State, b: State, events: seq<Event>, dropped: set<Key>)
    requires Aligned(a.c)
    ensures Makes(Saved(a), b, events, dropped) <==> Makes(a, b, events, dropped)
  {
  }

  lemma {:induction false} UpsertAllMakes(s: State, msgs: seq<RichMessage>)
    requires Sound(Saved(s))
    ensures s.t.Ok() && Aligned(s.c)
    ensures var (r, events) := UpsertAll(s, msgs); Makes(s, Saved(r), events, {})
    decreases |msgs|
  {
    hide Sound, Aligned, Data, Changed, UpsertRich, Makes, Changed;
    SoundSaved(Saved(s));
    if |msgs| == 0 {
      NoChange(Saved(s));
      SavedSeen(s, Saved(s), [], {});
    } else {
      UpsertRichMakes(s, msgs[0], true);
      var (a, first) := UpsertRich(s, msgs[0], true);
      MakesGood(s, Saved(a), first, {});
      UpsertAllMakes(a, msgs[1..]);
      var (r, rest) := UpsertAll(a, msgs[1..]);
      SavedSeen(a, Saved(r), rest, {});
      MakesThen(s, Saved(a), Saved(r), first, {}, rest);
    }
  }

  lemma {:induction false} MakesGood(a: State, b: State, events: seq<Event>, dropped: set<Key>)
    requires Makes(a, b, events, dropped)
    ensures Sound(b) && Aligned(a.c) && Aligned(b.c)
  {
  }

  /** Loading rich messages changes what emitting each would, and their subscriptions
      either get all of it or end. */
  lemma {:induction false} LoadRichMakes(s: State, msgs: seq<RichMessage>, bufSize: nat)
    requires Sound(s)
    ensures s.t.Ok() && Aligned(s.c)
    ensures var (r, events, _) := LoadRich(s, msgs, bufSize); Makes(s, r, events, {})
  {
    hide Sound, Makes, Aligned, UpsertAll;
    SoundSaved(s);
    if |msgs| == 0 {
      NoChange(s);
    } else {
      UpsertAllMakes(s, msgs);
    }
  }

  lemma {:induction false} EmitRichMakes(s: State, msg: RichMessage, replace: bool)
    requires Sound(s)
    ensures s.t.Ok() && Aligned(s.c)
    ensures var (r, events) := EmitRich(s, msg, replace); Makes(s, r, events, {})
  {
    hide Sound, Makes, Aligned, UpsertRich;
    SoundSaved(s);
    UpsertRichMakes(s, msg, replace);
  }

  // ---- The queue ----

  /** The queue after its version-th change; one reported late is dropped. */
  function SetQueue(s: State, queue: seq<QueuedMessage>, version: nat): (r: (State, seq<Event>)) {
    if version <= s.queueVersion then (s, [])
    else
      var n := s.number + 1;
      (Saved(s.(c := s.c.(queue := queue, queueSeq := n), number := n, queueVersion := version, stale := false)),
       [Update(QueueKey, QueueValue(queue), n)])
  }

  lemma {:induction false} SetQueueMakes(s: State, queue: seq<QueuedMessage>, version: nat)
    requires Sound(s)
    ensures var (r, events) := SetQueue(s, queue, version);
      Makes(s, r, events, {}) && (version > s.queueVersion ==> !r.stale)
  {
    if version <= s.queueVersion {
      NoChange(s);
    } else {
      hide MessagesOk, RichOk, RequestsOk, TasksOk, MessagesStored, RichStored, RequestsStored, TasksStored, Data, Tidy;
      var (r, events) := SetQueue(s, queue, version);
      OkAligned(s.c, s.number);
      SetQueueOk(s.c, queue, s.number + 1);
      OkAligned(r.c, s.number + 1);
      NoneDropped(Data(r.c));
      QueueChange(Seen(s), Seen(r), events);
    }
  }

  lemma {:induction false} QueueChange(s: Store, t: Store, events: seq<Event>)
    requires |events| == 1 && events[0].Update? && events[0].key.QueueKey?
    requires events[0].number == t.number == s.number + 1
    requires t.epoch == s.epoch && !t.stale && t.data == Applied(s.data, events) - {}
    ensures Changed(s, t, events, {})
  {
    assert events[0] in events;
  }

  // ---- Requests ----

  /** What is left of entries without those at the positions dropped. */
  function Kept<T>(entries: seq<T>, dropped: seq<int>): (r: seq<T>)
    ensures |r| <= |entries|
  {
    if |entries| == 0 then []
    else
      var n := |entries| - 1;
      Kept(entries[..n], dropped) + if n in dropped then [] else [entries[n]]
  }

  /** The positions increase, and are of entries. */
  ghost predicate Ascending(dropped: seq<int>, n: nat) {
    && (forall i :: 0 <= i < |dropped| ==> 0 <= dropped[i] < n)
    && (forall i, j :: 0 <= i < j < |dropped| ==> dropped[i] < dropped[j])
  }

  function ClosedCount(requests: seq<RequestState>): (n: nat)
    ensures n <= |requests|
  {
    if |requests| == 0 then 0
    else ClosedCount(requests[..|requests| - 1]) + if requests[|requests| - 1].pending then 0 else 1
  }

  const MaxClosedRequests := 50

  /** The closed requests beyond those kept: those that closed first, of those that
      closed at the same time the ones listed first. */
  ghost predicate Excess(requests: seq<RequestState>, dropped: seq<int>) {
    && Ascending(dropped, |requests|)
    && (forall i :: 0 <= i < |dropped| ==> !requests[dropped[i]].pending)
    && |dropped| == (if ClosedCount(requests) > MaxClosedRequests then ClosedCount(requests) - MaxClosedRequests else 0)
    && (forall i, j :: 0 <= i < |dropped| && 0 <= j < |requests| && !requests[j].pending && j !in dropped ==>
          var at := requests[dropped[i]].closedAt;
          at < requests[j].closedAt || (at == requests[j].closedAt && dropped[i] < j))
  }

  function DroppedKeys(requests: seq<RequestState>, dropped: seq<int>): set<Key> {
    set i | 0 <= i < |requests| && i in dropped :: RequestKey(requests[i].id)
  }

  function DropRequests(c: Conv, dropped: seq<int>): Conv {
    c.(requests := Kept(c.requests, dropped), requestSeq := Kept(c.requestSeq, dropped))
  }

  /** The requests at the positions dropped, deleted one after the other. */
  function DeleteAll(s: Stored, requests: seq<RequestState>, dropped: seq<int>): Stored
    requires forall i :: 0 <= i < |dropped| ==> 0 <= dropped[i] < |requests|
  {
    if |dropped| == 0 then s
    else
      var n := |dropped| - 1;
      DeleteAll(s, requests, dropped[..n]).DeleteRequest(requests[dropped[n]].id)
  }

  // ---- What dropping requests leaves ----

  /** Entries of two lists that are kept stay beside each other. */
  lemma {:induction false} KeptFrom<T, U>(a: seq<T>, b: seq<U>, dropped: seq<int>, j: nat) returns (i: nat)
    requires |a| == |b| && j < |Kept(a, dropped)|
    ensures |Kept(a, dropped)| == |Kept(b, dropped)|
    ensures j <= i < |a| && i !in dropped && Kept(a, dropped)[j] == a[i] && Kept(b, dropped)[j] == b[i]
    decreases |a|
  {
    var n := |a| - 1;
    KeptLength(a[..n], b[..n], dropped);
    if j < |Kept(a[..n], dropped)| {
      i := KeptFrom(a[..n], b[..n], dropped, j);
    } else {
      i := n;
    }
  }

  lemma {:induction false} KeptLength<T, U>(a: seq<T>, b: seq<U>, dropped: seq<int>)
    requires |a| == |b|
    ensures |Kept(a, dropped)| == |Kept(b, dropped)|
    decreases |a|
  {
    if |a| > 0 {
      KeptLength(a[..|a| - 1], b[..|b| - 1], dropped);
    }
  }

  lemma {:induction false} KeptTo<T, U>(a: seq<T>, b: seq<U>, dropped: seq<int>, i: nat) returns (j: nat)
    requires |a| == |b| && i < |a| && i !in dropped
    ensures j < |Kept(a, dropped)| == |Kept(b, dropped)| && Kept(a, dropped)[j] == a[i] && Kept(b, dropped)[j] == b[i]
    decreases |a|
  {
    KeptLength(a, b, dropped);
    var n := |a| - 1;
    KeptLength(a[..n], b[..n], dropped);
    if i < n {
      j := KeptTo(a[..n], b[..n], dropped, i);
    } else {
      j := |Kept(a[..n], dropped)|;
    }
  }

  ghost predicate DistinctIds(requests: seq<RequestState>) {
    forall i, j :: 0 <= i < j < |requests| ==> requests[i].id != requests[j].id
  }

  lemma {:induction false} DistinctMore(k: seq<RequestState>, r: RequestState)
    requires DistinctIds(k) && forall i :: 0 <= i < |k| ==> k[i].id != r.id
    ensures DistinctIds(k + [r])
  {
  }

  /** Entries at positions that aren't dropped are kept together. */
  lemma {:induction false} KeptRun<T>(entries: seq<T>, dropped: seq<int>, p: nat, q: nat)
    requires p <= q <= |entries| && forall x :: p <= x < q ==> x !in dropped
    ensures Kept(entries[..q], dropped) == Kept(entries[..p], dropped) + entries[p..q]
    decreases q
  {
    if p == q {
      assert entries[p..q] == [];
    } else {
      KeptRun(entries, dropped, p, q - 1);
      assert entries[..q][..q - 1] == entries[..q - 1];
      assert entries[p..q] == entries[p..q - 1] + [entries[q - 1]];
    }
  }

  lemma KeptNot<T>(entries: seq<T>, dropped: seq<int>, q: nat)
    requires q < |entries| && q in dropped
    ensures Kept(entries[..q + 1], dropped) == Kept(entries[..q], dropped)
  {
    assert entries[..q + 1][..q] == entries[..q];
  }

  /** Where the entries not yet looked at start, when the first n positions were dropped. */
  function Reached(dropped: seq<int>, n: nat): int
    requires n <= |dropped|
  {
    if n == 0 then 0 else dropped[n - 1] + 1
  }

  /** The entries once those at the first n positions dropped are gone: each position less
      those dropped before it. */
  ghost predicate Dropped<T>(entries: seq<T>, left: seq<T>, dropped: seq<int>, n: nat) {
    && n <= |dropped| && 0 <= Reached(dropped, n) <= |entries|
    && |Kept(entries[..Reached(dropped, n)], dropped)| == Reached(dropped, n) - n
    && left == Kept(entries[..Reached(dropped, n)], dropped) + entries[Reached(dropped, n)..]
  }

  lemma {:induction false} DropFirst<T>(entries: seq<T>, dropped: seq<int>)
    ensures Dropped(entries, entries, dropped, 0)
  {
    assert entries[..0] == [];
  }

  lemma {:induction false} DropNext<T>(entries: seq<T>, left: seq<T>, dropped: seq<int>, n: nat)
    requires Ascending(dropped, |entries|) && n < |dropped| && Dropped(entries, left, dropped, n)
    ensures 0 <= dropped[n] - n < |left| && left[dropped[n] - n] == entries[dropped[n]]
    ensures Dropped(entries, left[..dropped[n] - n] + left[dropped[n] - n + 1..], dropped, n + 1)
  {
    var p, q := Reached(dropped, n), dropped[n];
    var front := Kept(entries[..p], dropped);
    assert forall m :: 0 <= m < n ==> dropped[m] < p;
    assert forall m :: 0 <= m < |dropped| ==> !(p <= dropped[m] < q);
    KeptRun(entries, dropped, p, q);
    KeptNot(entries, dropped, q);
    assert left[..q - n] == front + entries[p..q];
    assert left[q - n + 1..] == entries[q + 1..];
  }

  lemma {:induction false} DropLast<T>(entries: seq<T>, left: seq<T>, dropped: seq<int>)
    requires Ascending(dropped, |entries|) && Dropped(entries, left, dropped, |dropped|)
    ensures left == Kept(entries, dropped)
  {
    var p := Reached(dropped, |dropped|);
    assert forall m :: 0 <= m < |dropped| ==> dropped[m] < p;
    KeptRun(entries, dropped, p, |entries|);
    assert entries[..|entries|] == entries && entries[p..|entries|] == entries[p..];
  }

  /** IDs stay distinct. */
  lemma {:induction false} KeptDistinct(requests: seq<RequestState>, dropped: seq<int>)
    requires DistinctIds(requests)
    ensures DistinctIds(Kept(requests, dropped))
    decreases |requests|
  {
    if |requests| > 0 {
      var n := |requests| - 1;
      KeptDistinct(requests[..n], dropped);
      var k := Kept(requests[..n], dropped);
      forall i | 0 <= i < |k| ensures k[i].id != requests[n].id {
        var m := KeptFrom(requests[..n], requests[..n], dropped, i);
        assert k[i] == requests[m];
      }
      DistinctMore(k, requests[n]);
      assert Kept(requests, dropped) == k || Kept(requests, dropped) == k + [requests[n]];
    }
  }

  lemma {:induction false} KeptRequestsOk(requests: seq<RequestState>, numbers: seq<nat>, high: nat, dropped: seq<int>)
    requires RequestsOk(requests, numbers, high)
    ensures RequestsOk(Kept(requests, dropped), Kept(numbers, dropped), high)
  {
    KeptLength(requests, numbers, dropped);
    KeptDistinct(requests, dropped);
    var left: seq<nat> := Kept(numbers, dropped);
    forall j | 0 <= j < |left| ensures 0 < left[j] <= high {
      var i := KeptFrom(requests, numbers, dropped, j);
    }
  }

  /** A request that isn't dropped is found as it was; one that is, isn't. */
  lemma {:induction false} FindKept(requests: seq<RequestState>, numbers: seq<nat>, high: nat, dropped: seq<int>,
      id: string)
    requires RequestsOk(requests, numbers, high)
    ensures |Kept(requests, dropped)| == |Kept(numbers, dropped)|
    ensures var i, j := FindRequest(requests, id), FindRequest(Kept(requests, dropped), id);
      if i >= 0 && i !in dropped
        then j >= 0 && Kept(requests, dropped)[j] == requests[i] && Kept(numbers, dropped)[j] == numbers[i]
      else j < 0
  {
    KeptLength(requests, numbers, dropped);
    KeptDistinct(requests, dropped);
    var i, j := FindRequest(requests, id), FindRequest(Kept(requests, dropped), id);
    if j >= 0 {
      var m := KeptFrom(requests, numbers, dropped, j);
      FindRequestIs(requests, m);
    }
    if i >= 0 && i !in dropped {
      var m := KeptTo(requests, numbers, dropped, i);
      FindRequestIs(Kept(requests, dropped), m);
    }
  }

  lemma {:induction false} DropKeepsOk(c: Conv, high: nat, dropped: seq<int>)
    requires Ok(c, high)
    ensures Ok(DropRequests(c, dropped), high)
  {
    KeptRequestsOk(c.requests, c.requestSeq, high, dropped);
  }

  lemma {:induction false} DropRequest(c: Conv, high: nat, dropped: seq<int>, id: string)
    requires Ok(c, high)
    ensures var d := DropRequests(c, dropped);
      && Aligned(c) && Aligned(d)
      && EntryAt(d, RequestKey(id)) == if RequestKey(id) in DroppedKeys(c.requests, dropped) then None
        else EntryAt(c, RequestKey(id))
  {
    DropKeepsOk(c, high, dropped);
    FindKept(c.requests, c.requestSeq, high, dropped, id);
    var i := FindRequest(c.requests, id);
    if RequestKey(id) in DroppedKeys(c.requests, dropped) {
      var m :| 0 <= m < |c.requests| && m in dropped && RequestKey(c.requests[m].id) == RequestKey(id);
      FindRequestIs(c.requests, m);
    }
  }

  lemma {:induction false} NotRequests(c: Conv, dropped: seq<int>, k: Key)
    requires Aligned(c) && Aligned(DropRequests(c, dropped)) && !k.RequestKey?
    ensures EntryAt(DropRequests(c, dropped), k) == EntryAt(c, k)
  {
  }

  /** Dropping requests leaves everything else, and nothing of them. */
  lemma {:induction false} DropData(c: Conv, high: nat, dropped: seq<int>)
    requires Ok(c, high)
    ensures var d := DropRequests(c, dropped);
      Ok(d, high) && Aligned(c) && Aligned(d) && Data(d) == Data(c) - DroppedKeys(c.requests, dropped)
  {
    hide Ok, Data, EntryAt, Aligned;
    var d := DropRequests(c, dropped);
    DropKeepsOk(c, high, dropped);
    OkAligned(c, high);
    OkAligned(d, high);
    forall k ensures k in Data(d) <==> k in Data(c) - DroppedKeys(c.requests, dropped)
      ensures k in Data(d) ==> k in Data(c) && Data(d)[k] == Data(c)[k]
    {
      DataAt(c, k);
      DataAt(d, k);
      if k.RequestKey? {
        DropRequest(c, high, dropped, k.request);
      } else {
        NotRequests(c, dropped, k);
      }
    }
  }

  lemma {:induction false} DeletedRows(s: Stored, requests: seq<RequestState>, dropped: seq<int>, id: string)
    requires forall i :: 0 <= i < |dropped| ==> 0 <= dropped[i] < |requests|
    ensures var r := DeleteAll(s, requests, dropped);
      && r == s.(requests := r.requests)
      && (id in r.requests <==> id in s.requests && forall i :: 0 <= i < |dropped| ==> requests[dropped[i]].id != id)
      && (id in r.requests ==> r.requests[id] == s.requests[id])
    decreases |dropped|
  {
    if |dropped| > 0 {
      DeletedRows(s, requests, dropped[..|dropped| - 1], id);
    }
  }

  lemma {:induction false} DroppedStored(s: Stored, requests: seq<RequestState>, numbers: seq<nat>, high: nat,
      dropped: seq<int>)
    requires RequestsStored(s.requests, requests, numbers) && RequestsOk(requests, numbers, high)
    requires forall i :: 0 <= i < |dropped| ==> 0 <= dropped[i] < |requests|
    ensures RequestsStored(DeleteAll(s, requests, dropped).requests, Kept(requests, dropped), Kept(numbers, dropped))
  {
    var rows := DeleteAll(s, requests, dropped).requests;
    var left := Kept(requests, dropped);
    KeptLength(requests, numbers, dropped);
    forall id | id in rows ensures FindRequest(left, id) >= 0 {
      DeletedRows(s, requests, dropped, id);
      FindKept(requests, numbers, high, dropped, id);
      var i := FindRequest(requests, id);
      assert i !in dropped;
    }
    forall j | 0 <= j < |left| ensures left[j].id in rows && rows[left[j].id] == (left[j], Kept(numbers, dropped)[j]) {
      var i := KeptFrom(requests, numbers, dropped, j);
      DeletedRows(s, requests, dropped, left[j].id);
      forall m | 0 <= m < |dropped| ensures requests[dropped[m]].id != left[j].id {
        assert dropped[m] in dropped && dropped[m] != i;
      }
    }
  }

  // ---- Sending a request ----

  /** The request is stored, and the closed ones beyond those kept are dropped. */
  function StoreRequest(s: State, r: RequestState, dropped: seq<int>): (t: State)
    requires |s.c.requestSeq| == |s.c.requests| && Ascending(dropped, |PutRequest(s.c, r, s.number + 1).requests|)
    ensures t.t == s.t
  {
    var n := s.number + 1;
    var c := PutRequest(s.c, r, n);
    var stored := s.stored.PutRequest(r, n).SetSeq(s.epoch, n);
    s.(c := DropRequests(c, dropped), number := n, stored := DeleteAll(stored, c.requests, dropped))
  }

  lemma {:induction false} StoreRequestMakes(s: State, r: RequestState, dropped: seq<int>)
    requires Sound(s) && Ascending(dropped, |PutRequest(s.c, r, s.number + 1).requests|)
    ensures Makes(s, StoreRequest(s, r, dropped), [Update(RequestKey(r.id), RequestValue(r), s.number + 1)],
      DroppedKeys(PutRequest(s.c, r, s.number + 1).requests, dropped))
  {
    hide Tidy, Data, AllAnchored, TasksStored, RichStored, MessagesStored, PutRequest, DropRequests, RequestsStored,
      MessagesOk, RichOk, TasksOk;
    var n := s.number + 1;
    var c := PutRequest(s.c, r, n);
    var t := StoreRequest(s, r, dropped);
    PutRequestOk(s.c, r, n);
    PutRequestRest(s.c, r, n);
    DropData(c, n, dropped);
    OkAligned(s.c, s.number);
    RequestStoredAfter(s.stored, s.c, r, n);
    var stored := s.stored.PutRequest(r, n).SetSeq(s.epoch, n);
    DroppedStored(stored, c.requests, c.requestSeq, n, dropped);
    DeletedRows(stored, c.requests, dropped, "");
    DropRest(c, dropped);
    MadeChange(s.c, t.c, s.epoch, s.number, n, s.stale, [Update(RequestKey(r.id), RequestValue(r), n)],
      DroppedKeys(c.requests, dropped));
  }

  lemma {:induction false} PutRequestRest(c: Conv, r: RequestState, number: nat)
    requires |c.requestSeq| == |c.requests|
    ensures var d := PutRequest(c, r, number); d == c.(requests := d.requests, requestSeq := d.requestSeq)
  {
  }

  lemma {:induction false} DropRest(c: Conv, dropped: seq<int>)
    ensures var d := DropRequests(c, dropped);
      d == c.(requests := Kept(c.requests, dropped), requestSeq := Kept(c.requestSeq, dropped))
  {
  }

  /** A request's latest state: stored and sent, with the status if the number of pending
      ones changed. One that closed before it was known belongs to a conversation that was
      cleared. */
  function EmitRequest(s: State, r: RequestState, dropped: seq<int>, now: int): (x: (State, seq<Event>))
    requires s.t.Ok() && |s.c.requestSeq| == |s.c.requests|
    requires Ascending(dropped, |PutRequest(s.c, r, s.number + 1).requests|)
  {
    if FindRequest(s.c.requests, r.id) < 0 && !r.pending then (s, [])
    else
      var t := StoreRequest(s, r, dropped);
      var event := [Update(RequestKey(r.id), RequestValue(r), s.number + 1)];
      if Pending(t.c.requests) == Pending(s.c.requests) then (t, event)
      else
        var (x, events, _) := NotifyStatus(t, now);
        (x, event + events)
  }

  /** The requests a change leaves out. */
  function LeftOut(s: State, r: RequestState, dropped: seq<int>): set<Key>
    requires |s.c.requestSeq| == |s.c.requests|
  {
    if FindRequest(s.c.requests, r.id) < 0 && !r.pending then {}
    else DroppedKeys(PutRequest(s.c, r, s.number + 1).requests, dropped)
  }

  /** The status's events are of no request. */
  lemma {:induction false} StatusNotRequests(s: State, now: int, k: Key)
    requires s.t.Ok() && k.RequestKey?
    ensures Untouched(NotifyStatus(s, now).1, k)
  {
  }

  lemma {:induction false} EmitRequestMakes(s: State, r: RequestState, dropped: seq<int>, now: int)
    requires Sound(s) && Ascending(dropped, |PutRequest(s.c, r, s.number + 1).requests|)
    ensures s.t.Ok() && |s.c.requestSeq| == |s.c.requests|
    ensures var (x, events) := EmitRequest(s, r, dropped, now); Makes(s, x, events, LeftOut(s, r, dropped))
  {
    hide Sound, Makes, NotifyStatus, StoreRequest, Ascending, Aligned, PutRequest;
    SoundLists(s);
    if FindRequest(s.c.requests, r.id) < 0 && !r.pending {
      NoChange(s);
    } else {
      StoreRequestMakes(s, r, dropped);
      var t := StoreRequest(s, r, dropped);
      var event := [Update(RequestKey(r.id), RequestValue(r), s.number + 1)];
      MakesGood(s, t, event, LeftOut(s, r, dropped));
      SoundSaved(t);
      NotifyStatusMakes(t, now);
      var (x, events, _) := NotifyStatus(t, now);
      forall k | k in LeftOut(s, r, dropped) ensures Untouched(events, k) {
        StatusNotRequests(t, now, k);
      }
      MakesThen(s, t, x, event, LeftOut(s, r, dropped), events);
    }
  }

  lemma {:induction false} SoundLists(s: State)
    requires Sound(s)
    ensures s.t.Ok() && Aligned(s.c) && |s.c.requestSeq| == |s.c.requests|
  {
    OkAligned(s.c, s.number);
  }

  // ---- The lifecycle ----

  datatype ConversationStatus = Initializing | Stable | Changing

  function AgentOf(status: ConversationStatus): AgentStatus {
    if status.Stable? then AgentStatus.Stable else Working
  }

  function LifecycleOf(status: ConversationStatus): Lifecycle {
    match status
    case Initializing => Starting
    case Stable => Ready
    case Changing => Busy
  }

  /** The conversation's status; its lifecycle doesn't replace one the server holds. */
  function EmitStatus(s: State, status: ConversationStatus, now: int): (r: (State, seq<Event>))
    requires s.t.Ok()
  {
    var next := if s.held then s.lifecycle else LifecycleOf(status);
    var t := s.(reported := LifecycleOf(status));
    if s.agent == AgentOf(status) && s.lifecycle == next then (t, [])
    else
      var (r, events, _) := NotifyStatus(t.(agent := AgentOf(status), lifecycle := next), now);
      (r, events)
  }

  predicate Holding(lifecycle: Lifecycle) {
    lifecycle == Restarting || lifecycle == Exited || lifecycle == Lifecycle.Failed
  }

  function SetLifecycle(s: State, lifecycle: Lifecycle, now: int): (r: (State, seq<Event>))
    requires s.t.Ok()
  {
    var t := s.(held := Holding(lifecycle));
    if s.lifecycle == lifecycle then (t, [])
    else
      var (r, events, _) := NotifyStatus(t.(lifecycle := lifecycle), now);
      (r, events)
  }

  /** The lifecycle is the conversation's again. */
  function ReleaseLifecycle(s: State, now: int): (r: (State, seq<Event>))
    requires s.t.Ok()
  {
    if !s.held then (s, [])
    else if s.lifecycle == s.reported then (s.(held := false), [])
    else
      var (r, events, _) := NotifyStatus(s.(held := false, lifecycle := s.reported), now);
      (r, events)
  }

  /** The turn a usage limit stopped, and the one that waits to be tried again. */
  function SetStops(s: State, limit: Option<Stop>, retry: Option<Stop>, now: int): (r: (State, seq<Event>))
    requires s.t.Ok()
  {
    if s.limitStop == limit && s.retryWait == retry then (s, [])
    else
      var (r, events, _) := NotifyStatus(s.(limitStop := limit, retryWait := retry), now);
      (r, events)
  }

  /** What doesn't concern the conversation makes no difference to its changes. */
  lemma {:induction false} SameConversation(s: State, t: State)
    requires Sound(s)
    requires t == s.(agent := t.agent, lifecycle := t.lifecycle, held := t.held, reported := t.reported,
      limitStop := t.limitStop, retryWait := t.retryWait)
    ensures Sound(t) && Makes(s, t, [], {})
    ensures forall r, events, dropped :: Makes(t, r, events, dropped) ==> Makes(s, r, events, dropped)
  {
    OkAligned(s.c, s.number);
    NoneDropped(Data(s.c));
  }

  lemma {:induction false} StatusMakes(s: State, status: ConversationStatus, now: int)
    requires Sound(s)
    ensures s.t.Ok()
    ensures var (r, events) := EmitStatus(s, status, now); Makes(s, r, events, {})
  {
    hide Sound, Makes, NotifyStatus;
    SoundLists(s);
    var t := s.(reported := LifecycleOf(status));
    var u := t.(agent := AgentOf(status), lifecycle := if s.held then s.lifecycle else LifecycleOf(status));
    SameConversation(s, t);
    SameConversation(s, u);
    NotifyStatusMakes(u, now);
  }

  lemma {:induction false} LifecycleMakes(s: State, lifecycle: Lifecycle, now: int)
    requires Sound(s)
    ensures s.t.Ok()
    ensures var (r, events) := SetLifecycle(s, lifecycle, now); Makes(s, r, events, {})
    ensures var (r, events) := ReleaseLifecycle(s, now); Makes(s, r, events, {})
  {
    hide Sound, Makes, NotifyStatus;
    SoundLists(s);
    var t := s.(held := Holding(lifecycle));
    SameConversation(s, t);
    SameConversation(s, t.(lifecycle := lifecycle));
    NotifyStatusMakes(t.(lifecycle := lifecycle), now);
    var u := s.(held := false);
    SameConversation(s, u);
    SameConversation(s, s.(held := s.held));
    SameConversation(s, u.(lifecycle := s.reported));
    NotifyStatusMakes(u.(lifecycle := s.reported), now);
    NoChange(s);
  }

  lemma {:induction false} StopsMakes(s: State, limit: Option<Stop>, retry: Option<Stop>, now: int)
    requires Sound(s)
    ensures s.t.Ok()
    ensures var (r, events) := SetStops(s, limit, retry, now); Makes(s, r, events, {})
  {
    hide Sound, Makes, NotifyStatus;
    SoundLists(s);
    var t := s.(limitStop := limit, retryWait := retry);
    SameConversation(s, t);
    NotifyStatusMakes(t, now);
    NoChange(s);
  }
}
