/** When the hub counts an instance as stopped, and when it follows it again. */
module HubStops {
  import opened Options
  import opened HubInstances

  predicate IsStopped(h: Hub) {
    h.instance.Some? && h.instance.value.connection == Stopped
  }

  // ---- An event of the instance ----

  /** No instance counts as stopped once it sent an event that says where it is: one that did is tried
      again, and watched anew. */
  lemma EventRevives(h: Hub, server: string, url: string, heartbeat: nat, now: int)
    requires Ok(h) && server != "" && url != ""
    ensures var (after, restart) := Upsert(Current(h), server, url, heartbeat, now);
      && Next(h, Event(server, url, heartbeat, now)).instance == Some(after)
      && after.connection != Stopped
      && (IsStopped(h) ==> after.connection == Connecting && restart)
      && (h.instance.None? ==> after.connection == Connecting && restart && after.source == Webhook)
  {
  }

  /** An event that may say where the instance is, does: it is there then, of that run, and was heard
      at the time; it is watched anew exactly when it moved, or is of another run, or was stopped. */
  lemma EventTaken(h: Hub, server: string, url: string, heartbeat: nat, now: int)
    requires Ok(h) && server != "" && url != ""
    requires h.instance.None? || h.instance.value.url == url || Moves(h, Event(server, url, heartbeat, now))
    ensures var (after, restart) := Upsert(Current(h), server, url, heartbeat, now);
      && after.url == url && after.server == server && after.heartbeat == heartbeat && after.lastSeen == now
      && (h.instance.Some? ==> after.source == h.instance.value.source)
      && (restart <==>
        (h.instance.None? || h.instance.value.url != url || h.instance.value.server != server || IsStopped(h)))
      && (restart ==> after.connection == Connecting && !after.failed && after.answeredBy == "")
      && (!restart ==> after.connection == h.instance.value.connection && after.failed == h.instance.value.failed)
  {
  }

  /** One that may not leaves the instance as it was, but that a stopped one is tried where it is. */
  lemma EventRefused(h: Hub, server: string, url: string, heartbeat: nat, now: int)
    requires Ok(h) && server != "" && url != "" && h.instance.Some? && h.instance.value.url != url
    requires !Moves(h, Event(server, url, heartbeat, now))
    ensures var after := Next(h, Event(server, url, heartbeat, now)).instance.value;
      after == h.instance.value.(connection := if IsStopped(h) then Connecting else h.instance.value.connection,
        refusedRun := after.refusedRun)
  {
  }

  /** Another run's events say nothing of the instance. */
  lemma OtherRun(h: Hub, server: string, now: int)
    requires h.instance.Some? && h.instance.value.server != "" && h.instance.value.server != server
    ensures Next(h, StopEvent(server, now)) == h && Next(h, OtherEvent(server, now)) == h
  {
  }

  // ---- When it was heard ----

  /** The step is word of the instance that the hub takes. */
  predicate Hears(h: Hub, step: Step) {
    match step
    case Event(_, url, _, _) => h.instance.None? || h.instance.value.url == url || Moves(h, step)
    case StopEvent(server, _) => h.instance.Some? && h.instance.value.source != Manual
      && (h.instance.value.server == "" || (server != "" && server == h.instance.value.server))
    case OtherEvent(server, _) => h.instance.Some?
      && (h.instance.value.server == "" || (server != "" && server == h.instance.value.server))
    case AddByHand(_, _, _, _) => true
    case Summary(_, _) => h.instance.Some? && h.watch == Some(h.instance.value.url) && !IsStopped(h)
    case _ => false
  }

  function TimeOf(step: Step): int
    requires step.Event? || step.StopEvent? || step.OtherEvent? || step.AddByHand? || step.Summary? || step.Fail?
  {
    step.now
  }

  lemma HeardStep(h: Hub, step: Step)
    requires Ok(h) && Proper(step) && !step.Reload? && Next(h, step).instance.Some?
    ensures Hears(h, step) ==> Next(h, step).instance.value.lastSeen == TimeOf(step)
    ensures !Hears(h, step) ==> h.instance.Some? && Next(h, step).instance.value.lastSeen == h.instance.value.lastSeen
  {
  }

  /** Of the first n steps, k is the last that was word of the instance. */
  ghost predicate HeardLast(steps: seq<Step>, k: nat, n: nat)
    requires k < n <= |steps|
  {
    Hears(After(steps, k), steps[k]) && forall j :: k < j < n ==> !Hears(After(steps, j), steps[j])
  }

  ghost predicate NoReload(steps: seq<Step>) {
    forall k :: 0 <= k < |steps| ==> !steps[k].Reload?
  }

  /** When the instance was last seen is when the hub last had word of it. */
  lemma {:induction false} LastHeard(steps: seq<Step>, n: nat) returns (k: nat)
    requires n <= |steps| && AllProper(steps) && NoReload(steps) && After(steps, n).instance.Some?
    ensures k < n && HeardLast(steps, k, n) && After(steps, n).instance.value.lastSeen == TimeOf(steps[k])
  {
    hide Next, Hears, Ok;
    NothingFailed();
    AlwaysOk(steps, n - 1);
    HeardStep(After(steps, n - 1), steps[n - 1]);
    if Hears(After(steps, n - 1), steps[n - 1]) {
      k := n - 1;
    } else {
      k := LastHeard(steps, n - 1);
    }
  }

  // ---- When it counts as stopped ----

  /** Step n is a failure past the grace of an instance that was to send heartbeats, three of which
      would have come since the hub last had word of it. */
  ghost predicate Missed(steps: seq<Step>, n: nat)
    requires n < |steps|
  {
    var h := After(steps, n);
    && steps[n].Fail? && !steps[n].grace && h.watch.Some? && Joined(h) && h.instance.value.heartbeat > 0
    && exists k :: 0 <= k < n && HeardLast(steps, k, n) && HeardSecondsAgo(steps, k, n, 3 * h.instance.value.heartbeat)
  }

  predicate HeardSecondsAgo(steps: seq<Step>, k: nat, n: nat, seconds: nat)
    requires k < n < |steps| && steps[n].Fail? && Hears(After(steps, k), steps[k])
  {
    steps[n].now - TimeOf(steps[k]) >= seconds * 1_000_000_000
  }

  /** Step n says that the instance, which joined by an event, stopped: in an event of its run, or by
      the heartbeats it missed. */
  ghost predicate Stops(steps: seq<Step>, n: nat)
    requires n < |steps|
  {
    (steps[n].StopEvent? && Hears(After(steps, n), steps[n])) || Missed(steps, n)
  }

  /** It is followed again: it said where it is, or someone added it; or it is forgotten. */
  predicate Revives(step: Step) {
    step.Event? || step.AddByHand? || step.Forget?
  }

  lemma HeardOnce(steps: seq<Step>, a: nat, b: nat, n: nat)
    requires a < n <= |steps| && b < n && HeardLast(steps, a, n) && HeardLast(steps, b, n)
    ensures a == b
  {
    hide After, Hears;
  }

  lemma MissedIs(steps: seq<Step>, n: nat)
    requires n < |steps| && AllProper(steps) && NoReload(steps) && steps[n].Fail?
    requires After(steps, n).watch.Some? && After(steps, n).instance.Some?
    ensures Missed(steps, n) <==> Silent(After(steps, n).instance.value, steps[n].now, steps[n].grace)
  {
    hide After, Hears, Ok;
    AlwaysOk(steps, n);
    KnownSource(After(steps, n));
    var k := LastHeard(steps, n);
    forall j | 0 <= j < n && HeardLast(steps, j, n) ensures j == k {
      HeardOnce(steps, j, k, n);
    }
  }

  lemma KnownSource(h: Hub)
    requires Ok(h) && h.instance.Some?
    ensures Joined(h) <==> h.instance.value.source == Webhook
  {
  }

  /** What a step makes of whether the instance counts as stopped. */
  lemma StopStep(h: Hub, step: Step)
    requires Ok(h) && Proper(step) && !step.Reload?
    ensures IsStopped(Next(h, step)) <==>
      (h.instance.Some? && step.Fail? && h.watch.Some? && Silent(h.instance.value, step.now, step.grace))
      || (step.StopEvent? && Hears(h, step))
      || (IsStopped(h) && !Revives(step))
  {
  }

  lemma StopAt(steps: seq<Step>, n: nat)
    requires n < |steps| && AllProper(steps) && NoReload(steps)
    ensures IsStopped(After(steps, n + 1)) <==> Stops(steps, n) || (IsStopped(After(steps, n)) && !Revives(steps[n]))
  {
    hide Ok, Silent, Hears, Missed, IsStopped, Next;
    AlwaysOk(steps, n);
    StopStep(After(steps, n), steps[n]);
    if steps[n].Fail? && After(steps, n).watch.Some? && After(steps, n).instance.Some? {
      MissedIs(steps, n);
    }
    NotMissed(steps, n);
  }

  lemma NotMissed(steps: seq<Step>, n: nat)
    requires n < |steps|
    ensures Missed(steps, n) ==> steps[n].Fail? && After(steps, n).watch.Some? && After(steps, n).instance.Some?
  {
  }

  /** Some step up to n said that it stopped, since which it wasn't followed again. */
  ghost predicate StoppedSince(steps: seq<Step>, n: nat)
    requires n <= |steps|
  {
    exists k :: 0 <= k < n && Stops(steps, k) && forall j :: k < j < n ==> !Revives(steps[j])
  }

  /** Over every run of a hub: an instance counts as stopped exactly when it said so, or missed three
      heartbeats, and wasn't followed again since. */
  lemma {:induction false} StoppedExactly(steps: seq<Step>, n: nat)
    requires n <= |steps| && AllProper(steps) && NoReload(steps)
    ensures IsStopped(After(steps, n)) <==> StoppedSince(steps, n)
  {
    hide Stops, IsStopped, Next;
    if n == 0 {
      NoneStopped();
    } else {
      StoppedExactly(steps, n - 1);
      StopAt(steps, n - 1);
      if StoppedSince(steps, n - 1) && !Revives(steps[n - 1]) {
        var k :| 0 <= k < n - 1 && Stops(steps, k) && forall j :: k < j < n - 1 ==> !Revives(steps[j]);
        assert forall j :: k < j < n ==> !Revives(steps[j]);
      }
      if StoppedSince(steps, n) && !Stops(steps, n - 1) {
        var k :| 0 <= k < n && Stops(steps, k) && forall j :: k < j < n ==> !Revives(steps[j]);
        assert k < n - 1;
      }
    }
  }

  lemma NoneStopped()
    ensures !IsStopped(NewHub)
  {
  }

  // ---- What the end of a watch means otherwise ----

  /** A watch that ended of an instance that didn't miss its heartbeats: within the grace it is tried
      again, past it the instance is unreachable, and another AgentAPI that answers is told at once. */
  lemma WatchEnds(h: Hub, failure: Failure, now: int, grace: bool)
    requires h.instance.Some? && h.watch.Some? && !IsStopped(h)
    requires !IsStopped(Next(h, Fail(failure, now, grace))) && (failure.Answered? ==> failure.other != "")
    ensures var i, after := h.instance.value, Next(h, Fail(failure, now, grace)).instance.value;
      && (after.connection == Connecting <==> grace && !failure.Answered?)
      && (after.connection == Unreachable <==> !grace || failure.Answered?)
      && after.answeredBy == (if failure.Answered? then failure.other else "")
      && (after.failed <==> i.failed || !grace || failure.Answered?)
      && after == i.(connection := after.connection, answeredBy := after.answeredBy, failed := after.failed)
  {
  }

  // ---- A hub that starts again ----

  /** What a hub that ended left is followed again where it was last confirmed, or where it was added;
      only an instance that stopped is left alone, until its next event. */
  lemma RestartFollows(h: Hub)
    requires Ok(h) && h.instance.Some?
    ensures var i, after := h.instance.value, Next(Next(h, Save), Reload);
      && after.instance.Some? && after.watch.None?
      && (IsStopped(after) <==> IsStopped(h))
      && (!IsStopped(h) ==> after.instance.value.connection == Connecting)
      && !after.instance.value.failed && after.instance.value.source == i.source
      && after.instance.value.token == i.token
      && after.instance.value.url == (if i.source != Manual && i.confirmed != "" then i.confirmed else i.url)
  {
  }

  // ---- A summary ----

  /** A summary read where the instance is says that it is reached there, and of which run it is; what
      was read elsewhere, or of a stopped one, says nothing. */
  lemma SummaryTaken(h: Hub, server: string, now: int)
    requires h.instance.Some?
    ensures var i, next := h.instance.value, Next(h, Summary(server, now));
      if h.watch == Some(i.url) && !IsStopped(h)
      then next == h.(instance := Some(i.(connection := Connected, confirmed := i.url, failed := false,
        answeredBy := "", server := server, lastSeen := now)))
      else next == h
  {
  }

  /** Someone who adds an instance says where it is, whatever the hub knew: it is reached there, with
      the token that was given, and no event moves it or stops it from then on. */
  lemma AddTaken(h: Hub, server: string, url: string, token: string, now: int, step: Step)
    requires Ok(h) && url != "" && Proper(step) && (step.Event? || step.StopEvent? || step.OtherEvent?)
    ensures var added := Next(h, AddByHand(server, url, token, now));
      && added.instance.Some? && var i := added.instance.value;
        && i.url == i.confirmed == url && i.token == token && i.server == server && i.connection == Connected
        && var after := Next(added, step).instance.value;
          after.url == url && after.token == token && after.connection != Stopped
  {
  }
}
