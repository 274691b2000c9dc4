/** How clients follow the conversation: they take the changes as they come,
    and after a connection ends they ask for those since the last they took. */
module Replication {
  import opened Options
  import opened Conversation
  import opened Tasks

  type RichId = (string, string)

  /** A structured message: its blocks, and the task it belongs to. */
  datatype Block = Block(kind: string, toolUse: string, body: string)
  datatype RichMessage = RichMessage(id: RichId, content: seq<Block>, stop: string, time: int, taskId: Option<int>)

  datatype RequestState = RequestState(id: string, pending: bool, createdAt: int, closedAt: int, title: string)

  datatype QueuedMessage = QueuedMessage(id: int, content: seq<byte>)

  /** What an update replaces: clients keep the latest value of each key. */
  datatype Key =
    | MessageKey(id: int) | RichKey(rich: RichId) | RequestKey(request: string) | TaskKey(task: int) | QueueKey

  datatype Value =
    | MessageValue(message: Message)
    | RichValue(rich: RichMessage)
    | RequestValue(request: RequestState)
    | TaskValue(task: Task)
    | QueueValue(queue: seq<QueuedMessage>)

  /** A value, and the number of the change that gave it. */
  datatype Entry = Entry(value: Value, number: nat)

  /** The server's conversation. Epochs are numbered in the order they began. stale
      says that the queue is not of this conversation: it was reset, or restored, and
      the queue's own change is still to come. */
  datatype Store = Store(epoch: nat, number: nat, data: map<Key, Entry>, stale: bool)
  {
    /** Clients can expect the key. */
    predicate Current(k: Key) {
      k in data && !(stale && k.QueueKey?)
    }

    ghost predicate Ok() {
      forall k :: k in data ==> 0 < data[k].number <= number
    }
  }

  /** Synced tells that the conversation was reset; Other carries no change of it. Ended is
      sent to nobody: it says that the subscriptions to the conversation ended there. */
  datatype Event = Update(key: Key, value: Value, number: nat) | Synced(epoch: nat) | Other(what: string) | Ended

  /** What a client holds, and the last change of the epoch it took. Epoch 0 is none. */
  datatype Client = Client(epoch: nat, since: nat, data: map<Key, Value>)

  // ---- Server steps ----

  function Apply(data: map<Key, Entry>, e: Event): map<Key, Entry> {
    if e.Update? then data[e.key := Entry(e.value, e.number)] else data
  }

  function Applied(data: map<Key, Entry>, events: seq<Event>): map<Key, Entry> {
    if |events| == 0 then data
    else Apply(Applied(data, events[..|events| - 1]), events[|events| - 1])
  }

  /** The changes' numbers increase, from after low up to high. */
  ghost predicate Numbered(events: seq<Event>, low: nat, high: nat) {
    && low <= high
    && (forall i :: 0 <= i < |events| && events[i].Update? ==> low < events[i].number <= high)
    && (forall i, j :: 0 <= i < j < |events| && events[i].Update? && events[j].Update? ==>
      events[i].number < events[j].number)
    && (forall i :: 0 <= i < |events| ==> !events[i].Synced? && !events[i].Ended?)
  }

  /** The server made the changes events; closed requests beyond those kept go without one. */
  ghost predicate Changed(s: Store, t: Store, events: seq<Event>, dropped: set<Key>) {
    && t.epoch == s.epoch
    && Numbered(events, s.number, t.number)
    && (forall k :: k in dropped ==> k.RequestKey?)
    && t.data == Applied(s.data, events) - dropped
    && t.stale == (s.stale && forall e :: e in events && e.Update? ==> !e.key.QueueKey?)
  }

  /** The conversation got a new epoch: its messages were taken back. */
  ghost predicate Rebuilt(s: Store, t: Store) {
    t.epoch > s.epoch && t.number >= s.number && t.Ok() && t.stale == s.stale
  }

  /** The conversation was cleared; the queue is cleared next. */
  ghost predicate Cleared(s: Store, t: Store) {
    && t.epoch > s.epoch && t.number == s.number && t.stale && t.Ok()
    && forall k :: k in t.data ==> k.QueueKey?
  }

  /** The server was restarted with the state it stored, and ended the tasks that ran. */
  ghost predicate Restarted(s: Store, t: Store, events: seq<Event>) {
    && t.epoch == s.epoch && t.stale
    && Numbered(events, s.number, t.number)
    && t.data == Applied(s.data - {QueueKey}, events)
    && forall e :: e in events && e.Update? ==> !e.key.QueueKey?
  }

  // ---- Client steps ----

  function Take(c: Client, e: Event): Client {
    match e
    case Update(key, value, number) => c.(since := if number > c.since then number else c.since,
      data := c.data[key := value])
    case Synced(epoch) => Client(epoch, 0, map[])
    case Other(_) => c
    case Ended => c
  }

  function TakeAll(c: Client, events: seq<Event>): Client {
    if |events| == 0 then c
    else Take(TakeAll(c, events[..|events| - 1]), events[|events| - 1])
  }

  /** The client must replace what it holds, rather than add to it. */
  predicate FullReplay(c: Client, s: Store) {
    c.epoch != s.epoch || c.since == 0 || c.since > s.number
  }

  function From(c: Client, s: Store): nat {
    if FullReplay(c, s) then 0 else c.since
  }

  function Base(c: Client, s: Store): map<Key, Value> {
    if FullReplay(c, s) then map[] else c.data
  }

  /** What the replay brings: what changed after the change numbered since. */
  function Replay(s: Store, since: nat): map<Key, Value> {
    map k | k in s.data && s.data[k].number > since :: s.data[k].value
  }

  /** The number of the last change in the replay: since when there is none. */
  ghost predicate IsReplaySeq(s: Store, since: nat, number: nat) {
    && since <= number
    && (forall k :: k in s.data ==> s.data[k].number <= number || s.data[k].number <= since)
    && (number == since || exists k :: k in s.data && s.data[k].number == number)
  }

  /** A client that connected and took the whole replay. */
  function Connected(c: Client, s: Store, number: nat): Client {
    Client(s.epoch, number, Base(c, s) + Replay(s, From(c, s)))
  }

  /** A client whose connection ended before the replay did, after it took the keys given. */
  function Partly(c: Client, s: Store, keys: set<Key>): Client {
    var replay := Replay(s, From(c, s));
    Client(s.epoch, From(c, s), Base(c, s) + map k | k in replay && k in keys :: replay[k])
  }

  // ---- What clients can rely on ----

  /** The client holds the conversation. Of the closed requests it may hold some that
      the server let go. */
  ghost predicate Holds(c: Client, s: Store) {
    && c.epoch == s.epoch
    && (forall k :: s.Current(k) ==> k in c.data && c.data[k] == s.data[k].value)
    && NothingElse(c, s)
  }

  ghost predicate NothingElse(c: Client, s: Store) {
    forall k :: k in c.data ==> k in s.data || k.RequestKey? || (s.stale && k.QueueKey?)
  }

  /** Asking for what changed since its last change gives the client the conversation. */
  ghost predicate Resumable(c: Client, s: Store) {
    && c.epoch <= s.epoch
    && (c.epoch == s.epoch && c.since > 0 ==>
          && c.since <= s.number
          && (forall k :: s.Current(k) && s.data[k].number <= c.since ==> k in c.data && c.data[k] == s.data[k].value)
          && NothingElse(c, s))
  }

  /** Convergence: a client that can resume, and does, holds the conversation. */
  lemma Reconnects(c: Client, s: Store, number: nat)
    requires Resumable(c, s) && s.Ok() && IsReplaySeq(s, From(c, s), number)
    ensures Holds(Connected(c, s, number), s) && Resumable(Connected(c, s, number), s)
  {
    var after := Connected(c, s, number);
    forall k | s.Current(k) ensures k in after.data && after.data[k] == s.data[k].value {
    }
    assert number <= s.number by {
      if number > From(c, s) {
        var k :| k in s.data && s.data[k].number == number;
      }
    }
  }

  lemma ReconnectsPartly(c: Client, s: Store, keys: set<Key>)
    requires Resumable(c, s) && s.Ok()
    ensures Resumable(Partly(c, s, keys), s)
  {
  }

  // ---- Server steps keep what clients rely on ----

  /** No change in events is of the key. */
  ghost predicate Untouched(events: seq<Event>, k: Key) {
    forall i :: 0 <= i < |events| && events[i].Update? ==> events[i].key != k
  }

  lemma {:induction false} AppliedUntouched(data: map<Key, Entry>, events: seq<Event>, k: Key)
    requires Untouched(events, k)
    ensures k in Applied(data, events) <==> k in data
    ensures k in data ==> Applied(data, events)[k] == data[k]
  {
    if |events| > 0 {
      AppliedUntouched(data, events[..|events| - 1], k);
    }
  }

  /** A key that was changed has the value and number of its last change. */
  lemma {:induction false} AppliedTouched(data: map<Key, Entry>, events: seq<Event>, k: Key) returns (i: nat)
    requires !Untouched(events, k)
    ensures i < |events| && events[i].Update? && events[i].key == k && Untouched(events[i + 1..], k)
    ensures k in Applied(data, events) && Applied(data, events)[k] == Entry(events[i].value, events[i].number)
  {
    var n := |events| - 1;
    if events[n].Update? && events[n].key == k {
      i := n;
    } else {
      i := AppliedTouched(data, events[..n], k);
      assert events[i + 1..] == events[..n][i + 1..] + [events[n]];
    }
  }

  /** Every value in the store after changes is from before, or has a number of theirs. */
  lemma AppliedNumbers(data: map<Key, Entry>, events: seq<Event>, low: nat, high: nat, k: Key)
    requires Numbered(events, low, high) && k in Applied(data, events)
    ensures Untouched(events, k) || low < Applied(data, events)[k].number <= high
    ensures Untouched(events, k) ==> k in data && Applied(data, events)[k] == data[k]
  {
    if Untouched(events, k) {
      AppliedUntouched(data, events, k);
    } else {
      var i := AppliedTouched(data, events, k);
    }
  }

  lemma ChangedOk(s: Store, t: Store, events: seq<Event>, dropped: set<Key>)
    requires s.Ok() && Changed(s, t, events, dropped)
    ensures t.Ok()
  {
    forall k | k in t.data ensures 0 < t.data[k].number <= t.number {
      AppliedNumbers(s.data, events, s.number, t.number, k);
    }
  }

  /** A change makes no client unable to resume. */
  lemma ChangedResumable(c: Client, s: Store, t: Store, events: seq<Event>, dropped: set<Key>)
    requires Resumable(c, s) && s.Ok() && Changed(s, t, events, dropped)
    ensures Resumable(c, t)
  {
    if c.epoch == s.epoch && c.since > 0 {
      forall k | t.Current(k) && t.data[k].number <= c.since ensures k in c.data && c.data[k] == t.data[k].value {
        AppliedNumbers(s.data, events, s.number, t.number, k);
      }
      forall k | k in c.data ensures k in t.data || k.RequestKey? || (t.stale && k.QueueKey?) {
        if Untouched(events, k) {
          AppliedUntouched(s.data, events, k);
        } else {
          var i := AppliedTouched(s.data, events, k);
        }
      }
    }
  }

  /** A client with these values has those of the store, but for the queue while it is stale. */
  ghost predicate Mirrors(held: map<Key, Value>, data: map<Key, Entry>, stale: bool) {
    && (forall k :: k in data && !(stale && k.QueueKey?) ==> k in held && held[k] == data[k].value)
    && (forall k :: k in held ==> k in data || k.RequestKey? || (stale && k.QueueKey?))
  }

  function StaleAfter(stale: bool, events: seq<Event>): bool {
    if |events| == 0 then stale
    else
      var e := events[|events| - 1];
      StaleAfter(stale, events[..|events| - 1]) && !(e.Update? && e.key.QueueKey?)
  }

  lemma {:induction false} TakenMirrors(c: Client, data: map<Key, Entry>, stale: bool, events: seq<Event>)
    requires Mirrors(c.data, data, stale) && forall i :: 0 <= i < |events| ==> !events[i].Synced?
    ensures Mirrors(TakeAll(c, events).data, Applied(data, events), StaleAfter(stale, events))
    ensures TakeAll(c, events).epoch == c.epoch
  {
    if |events| > 0 {
      TakenMirrors(c, data, stale, events[..|events| - 1]);
    }
  }

  lemma {:induction false} StaleMeans(stale: bool, events: seq<Event>)
    ensures StaleAfter(stale, events) == (stale && forall e :: e in events && e.Update? ==> !e.key.QueueKey?)
  {
    if |events| > 0 {
      var n := |events| - 1;
      StaleMeans(stale, events[..n]);
      assert forall e :: e in events <==> e in events[..n] || e == events[n];
    }
  }

  /** A client that holds the conversation and takes the changes holds it after them. */
  lemma ChangedHolds(c: Client, s: Store, t: Store, events: seq<Event>, dropped: set<Key>)
    requires Holds(c, s) && Changed(s, t, events, dropped)
    ensures Holds(TakeAll(c, events), t)
  {
    TakenMirrors(c, s.data, s.stale, events);
    StaleMeans(s.stale, events);
  }

  /** How far a client is that took some of the changes. */
  lemma {:induction false} TakenSince(c: Client, events: seq<Event>, low: nat, high: nat)
    requires Numbered(events, low, high) && c.since <= low
    ensures c.since <= TakeAll(c, events).since <= high
    ensures forall i :: 0 <= i < |events| && events[i].Update? ==> events[i].number <= TakeAll(c, events).since
    ensures TakeAll(c, events).since == c.since
      || exists i :: 0 <= i < |events| && events[i].Update? && TakeAll(c, events).since == events[i].number
  {
    var n := |events| - 1;
    if n >= 0 {
      var front := events[..n];
      TakenSince(c, front, low, high);
      var m := TakeAll(c, front).since;
      if m != c.since {
        var i :| 0 <= i < n && front[i].Update? && m == front[i].number;
        assert events[i].Update? && m == events[i].number;
      }
      if events[n].Update? {
        assert events[n].number >= m;
        assert TakeAll(c, events).since == events[n].number;
      }
    }
  }

  /** What a client that took the first j changes has is what they left, as far as it took them. */
  lemma TakenCurrent(c: Client, s: Store, t: Store, events: seq<Event>, dropped: set<Key>, j: nat, k: Key)
    requires Holds(c, s) && c.since <= s.number && s.Ok() && Changed(s, t, events, dropped) && j <= |events|
    requires t.Current(k) && t.data[k].number <= TakeAll(c, events[..j]).since
    ensures var d := TakeAll(c, events[..j]); k in d.data && d.data[k] == t.data[k].value
  {
    var front := events[..j];
    StaleMeans(s.stale, front);
    TakenMirrors(c, s.data, s.stale, front);
    if Untouched(events, k) {
      AppliedUntouched(s.data, events, k);
      AppliedUntouched(s.data, front, k);
    } else {
      var i := AppliedTouched(s.data, events, k);
      TouchedEarly(c, s, t, events, j, i);
      TouchedFront(s.data, events, j, i, k);
      assert front[i] in front;
    }
  }

  /** The last change of the key is the last among the first j changes too. */
  lemma TouchedFront(data: map<Key, Entry>, events: seq<Event>, j: nat, i: nat, k: Key)
    requires i < j <= |events| && events[i].Update? && events[i].key == k && Untouched(events[i + 1..], k)
    ensures events[..j][i] == events[i]
    ensures k in Applied(data, events[..j]) && Applied(data, events[..j])[k] == Entry(events[i].value, events[i].number)
  {
    var front := events[..j];
    assert events[i + 1..] == front[i + 1..] + events[j..];
    AppliedLast(data, front, i, k);
  }

  /** A change the client is past is one of those it took. */
  lemma TouchedEarly(c: Client, s: Store, t: Store, events: seq<Event>, j: nat, i: nat)
    requires Numbered(events, s.number, t.number) && c.since <= s.number && j <= |events| && i < |events|
    requires events[i].Update? && events[i].number <= TakeAll(c, events[..j]).since
    ensures i < j
  {
    var front := events[..j];
    TakenSince(c, front, s.number, t.number);
    if TakeAll(c, front).since != c.since {
      var m :| 0 <= m < |front| && front[m].Update? && TakeAll(c, front).since == front[m].number;
      assert events[m] == front[m];
    }
  }

  lemma {:induction false} AppliedLast(data: map<Key, Entry>, events: seq<Event>, i: nat, k: Key)
    requires i < |events| && events[i].Update? && events[i].key == k && Untouched(events[i + 1..], k)
    ensures k in Applied(data, events) && Applied(data, events)[k] == Entry(events[i].value, events[i].number)
    decreases |events|
  {
    var n := |events| - 1;
    if i < n {
      assert events[n] == events[i + 1..][n - i - 1];
      assert events[..n][i + 1..] == events[i + 1..][..n - i - 1];
      AppliedLast(data, events[..n], i, k);
    }
  }

  /** Wherever the client is cut off among the changes, it can resume. */
  lemma CutOffResumable(c: Client, s: Store, t: Store, events: seq<Event>, dropped: set<Key>, j: nat)
    requires Holds(c, s) && Resumable(c, s) && s.Ok() && Changed(s, t, events, dropped) && j <= |events|
    ensures Resumable(TakeAll(c, events[..j]), t)
  {
    var front := events[..j];
    var d := TakeAll(c, front);
    TakenMirrors(c, s.data, s.stale, front);
    TakenSince(c, front, s.number, t.number);
    forall k | t.Current(k) && t.data[k].number <= d.since ensures k in d.data && d.data[k] == t.data[k].value {
      TakenCurrent(c, s, t, events, dropped, j, k);
    }
    forall k | k in d.data ensures k in t.data || k.RequestKey? || (t.stale && k.QueueKey?) {
      TakenKeys(s, events, j, k);
      StaleMeans(s.stale, front);
    }
  }

  /** A key that some of the changes left, they all leave. */
  lemma TakenKeys(s: Store, events: seq<Event>, j: nat, k: Key)
    requires j <= |events|
    ensures k in Applied(s.data, events[..j]) ==> k in Applied(s.data, events)
    ensures !Untouched(events, k) ==> k in Applied(s.data, events)
  {
    if Untouched(events, k) {
      AppliedUntouched(s.data, events, k);
      AppliedUntouched(s.data, events[..j], k);
    } else {
      var i := AppliedTouched(s.data, events, k);
    }
  }
}
