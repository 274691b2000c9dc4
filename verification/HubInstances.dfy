/** An instance the hub watches: where it is, and whether the hub reaches it there, as its
    webhook events, its summaries, failures of the watch and those who add it by hand say. */
module HubInstances {
  import opened Options

  datatype Source = NoSource | Webhook | Manual

  datatype Connection = Connecting | Connected | Unreachable | Stopped

  /** Why a summary stream ended: it just did, another AgentAPI answered, or something else failed. */
  datatype Failure = Ended | Answered(other: string) | Failed(message: string)

  /** token is sent to the AgentAPI at url; confirmed is the URL at which the hub last read a
      summary. failed says that the watch failed past the connect grace since then, and
      answeredBy who else answers. The last refused run is noted to log it once. */
  datatype Instance = Instance(
    url: string, server: string, source: Source, connection: Connection, confirmed: string,
    answeredBy: string, failed: bool, token: string, lastSeen: int, heartbeat: nat, refusedRun: string)

  const StoppedAfter := 3
  const Second := 1_000_000_000

  function NewInstance(): Instance {
    Instance("", "", NoSource, Connecting, "", "", false, "", 0, 0, "")
  }

  /** An event of the run server is of the run the hub knows. */
  predicate SameRun(current: string, server: string) {
    current == "" || (server != "" && current == server)
  }

  // ---- What each event makes of an instance ----

  /** The event may not move i to another URL; check says that the hub tries its URL again. */
  function RefuseMove(i: Instance): (r: (bool, bool)) {
    if i.source == Manual then (true, false)
    else if i.answeredBy != "" || (i.failed && (i.connection == Unreachable || i.connection == Stopped))
      then (false, false)
    else (true, i.connection == Stopped)
  }

  function NoteRefused(i: Instance, server: string, check: bool): Instance {
    if i.refusedRun != server || check then i.(refusedRun := server) else i
  }

  /** The instance after an event that says where it is, and whether it is watched anew. */
  function Upsert(i: Instance, server: string, url: string, heartbeat: nat, now: int): (r: (Instance, bool)) {
    var moved := i.url != "" && i.url != url;
    var (refuse, check) := RefuseMove(i);
    if moved && refuse then
      var noted := NoteRefused(i, server, check);
      (if check then noted.(connection := Connecting) else noted, check)
    else
      var restart := i.url != url || i.server != server || i.connection == Stopped;
      var next := i.(token := if moved then "" else i.token, server := server, url := url, heartbeat := heartbeat,
        refusedRun := "", source := if i.source == NoSource then Webhook else i.source, lastSeen := now);
      (if restart then next.(connection := Connecting, failed := false, answeredBy := "") else next, restart)
  }

  /** The instance after an event that says that it stopped. */
  function StoppedBy(i: Instance, server: string, now: int): Instance {
    if !SameRun(i.server, server) || i.source == Manual then i
    else i.(connection := Stopped, answeredBy := "", lastSeen := now)
  }

  /** It missed its heartbeats. */
  predicate Silent(i: Instance, now: int, grace: bool) {
    !grace && i.source == Webhook && i.heartbeat > 0 && now - i.lastSeen >= StoppedAfter * i.heartbeat * Second
  }

  /** The instance after its summary stream ended; grace is whether the failures began within the connect grace. */
  function StreamFailed(i: Instance, failure: Failure, now: int, grace: bool): Instance {
    if i.connection == Stopped then i
    else if Silent(i, now, grace) then i.(connection := Stopped, answeredBy := "", failed := true)
    else if failure.Answered? then i.(connection := Unreachable, answeredBy := failure.other, failed := true)
    else if grace then i.(connection := Connecting, answeredBy := "")
    else i.(connection := Unreachable, answeredBy := "", failed := true)
  }

  /** The watch of url read a summary, which says which run it is of. */
  predicate Applies(i: Instance, url: string) {
    i.connection != Stopped && i.url == url
  }

  function ApplySummary(i: Instance, url: string, server: string, now: int): Instance {
    if !Applies(i, url) then i
    else i.(connection := Connected, answeredBy := "", failed := false, confirmed := url, lastSeen := now,
      server := server)
  }

  /** Someone added the instance: the hub just read its summary at url. */
  function Add(i: Instance, server: string, url: string, token: string, now: int): Instance {
    i.(server := server, url := url, token := token, source := Manual, lastSeen := now,
      connection := Connected, confirmed := url, failed := false, answeredBy := "")
  }

  /** Any other event only says that it is alive. */
  function Alive(i: Instance, server: string, now: int): Instance {
    if SameRun(i.server, server) then i.(lastSeen := now) else i
  }

  /** The instance as a hub that starts has it, from what was kept of it. */
  function Reloaded(i: Instance): Instance {
    i.(connection := if i.connection == Stopped then Stopped else Connecting, answeredBy := "", failed := false,
      refusedRun := "",
      url := if i.confirmed != "" && i.source != Manual then i.confirmed else i.url)
  }

  // ---- As the hub keeps it ----

  /** The fields a change of the store changes in place. */
  class Entry {
    var url: string
    var server: string
    var source: Source
    var connection: Connection
    var confirmed: string
    var answeredBy: string
    var failed: bool
    var token: string
    var lastSeen: int
    var heartbeat: nat
    var refusedRun: string

    function View(): Instance
      reads this
    {
      Instance(url, server, source, connection, confirmed, answeredBy, failed, token, lastSeen, heartbeat, refusedRun)
    }

    constructor ()
      ensures View() == NewInstance()
    {
      url, server, source, connection, confirmed := "", "", NoSource, Connecting, "";
      answeredBy, failed, token, lastSeen, heartbeat, refusedRun := "", false, "", 0, 0, "";
    }

    method Refuses(instanceServer: string) returns (refuse: bool, check: bool)
      modifies this`refusedRun
      ensures (refuse, check) == RefuseMove(old(View()))
      ensures View() == if refuse then NoteRefused(old(View()), instanceServer, check) else old(View())
    {
      check := false;
      if source == Manual {
      } else if answeredBy != "" || (failed && (connection == Unreachable || connection == Stopped)) {
        return false, false;
      } else if connection == Stopped {
        check := true;
      }
      if refusedRun != instanceServer || check {
        refusedRun := instanceServer;
      }
      refuse := true;
    }

    method UpsertFromWebhook(server: string, url: string, heartbeat: nat, now: int) returns (restart: bool)
      modifies this
      ensures (View(), restart) == Upsert(old(View()), server, url, heartbeat, now)
    {
      restart := false;
      var moved := this.url != "" && this.url != url;
      if moved {
        var refuse, check := Refuses(server);
        if check {
          connection := Connecting;
          restart := true;
        }
        if refuse {
          return;
        }
      }
      restart := this.url != url || this.server != server || connection == Stopped;
      if moved {
        token := "";
      }
      this.server, this.url, this.heartbeat := server, url, heartbeat;
      refusedRun := "";
      if source == NoSource {
        source := Webhook;
      }
      lastSeen := now;
      if restart {
        connection, failed, answeredBy := Connecting, false, "";
      }
    }

    method Stop(server: string, now: int) returns (stopped: bool)
      modifies this
      ensures View() == StoppedBy(old(View()), server, now)
      ensures stopped == (SameRun(old(this.server), server) && source != Manual)
    {
      if !SameRun(this.server, server) || source == Manual {
        return false;
      }
      connection, answeredBy, lastSeen := Stopped, "", now;
      stopped := true;
    }

    /** Whether the instance counts as stopped, which ends its watch. One that was cancelled says nothing. */
    method StreamEnded(failure: Failure, now: int, grace: bool, cancelled: bool) returns (stopped: bool)
      modifies this
      ensures View() == if cancelled then old(View()) else StreamFailed(old(View()), failure, now, grace)
      ensures stopped == (!cancelled && old(connection) != Stopped && connection == Stopped)
    {
      stopped := false;
      if cancelled || connection == Stopped {
        return;
      }
      if !grace && source == Webhook && heartbeat > 0 && now - lastSeen >= StoppedAfter * heartbeat * Second {
        connection, answeredBy, failed := Stopped, "", true;
        stopped := true;
        return;
      }
      if failure.Answered? {
        connection, answeredBy, failed := Unreachable, failure.other, true;
        return;
      }
      answeredBy := "";
      if grace {
        connection := Connecting;
        return;
      }
      connection, failed := Unreachable, true;
    }

    method TakeSummary(watched: string, server: string, now: int, cancelled: bool) returns (applied: bool)
      modifies this
      ensures View() == if cancelled then old(View()) else ApplySummary(old(View()), watched, server, now)
      ensures applied == (!cancelled && Applies(old(View()), watched))
    {
      if cancelled || connection == Stopped || url != watched {
        return false;
      }
      connection, answeredBy, failed, confirmed := Connected, "", false, watched;
      lastSeen, this.server := now, server;
      applied := true;
    }

    method AddByHand(server: string, url: string, token: string, now: int)
      modifies this
      ensures View() == Add(old(View()), server, url, token, now)
    {
      this.server, this.url, this.token, source, lastSeen := server, url, token, Manual, now;
      connection, confirmed, failed, answeredBy := Connected, url, false, "";
    }
  }

  // ---- Runs ----

  /** One instance of the hub's: what its file has of it, and the URL the live watch of it
      reads from, when it reads. addedAt is the URL its token was given for. */
  datatype Hub = Hub(instance: Option<Instance>, saved: Option<Instance>, watch: Option<string>, addedAt: string,
      savedAt: string)

  datatype Step =
    | Event(server: string, url: string, heartbeat: nat, now: int)
    | StopEvent(server: string, now: int)
    | OtherEvent(server: string, now: int)
    /** Someone adds it; whether another is there is checked before. */
    | AddByHand(server: string, url: string, token: string, now: int)
    | Forget
    /** The watch begins to read where the instance is; a new one cancels the one before. */
    | Open
    | Cancel
    /** The watch's stream says something, or ends. */
    | Summary(server: string, now: int)
    | Fail(failure: Failure, now: int, grace: bool)
    /** The file is written, and a hub starts from it. */
    | Save
    | Reload

  /** Events name a run and a URL, and another AgentAPI that answers has an ID. */
  predicate Proper(step: Step) {
    match step
    case Event(server, url, _, _) => server != "" && url != ""
    case AddByHand(_, url, _, _) => url != ""
    case Fail(failure, _, _) => failure.Answered? ==> failure.other != ""
    case _ => true
  }

  function Current(h: Hub): Instance {
    if h.instance.Some? then h.instance.value else NewInstance()
  }

  function Next(h: Hub, step: Step): Hub {
    match step
    case Event(server, url, heartbeat, now) => h.(instance := Some(Upsert(Current(h), server, url, heartbeat, now).0))
    case StopEvent(server, now) => if h.instance.None? then h
      else h.(instance := Some(StoppedBy(Current(h), server, now)))
    case OtherEvent(server, now) => if h.instance.None? then h else h.(instance := Some(Alive(Current(h), server, now)))
    case AddByHand(server, url, token, now) => h.(instance := Some(Add(Current(h), server, url, token, now)),
      addedAt := url)
    case Forget => h.(instance := None, watch := None)
    case Open => if h.instance.Some? && Current(h).connection != Stopped then h.(watch := Some(Current(h).url)) else h
    case Cancel => h.(watch := None)
    case Summary(server, now) =>
      if h.watch.None? || h.instance.None? then h
        else h.(instance := Some(ApplySummary(Current(h), h.watch.value, server, now)))
    case Fail(failure, now, grace) =>
      if h.watch.None? || h.instance.None? then h.(watch := None)
      else h.(instance := Some(StreamFailed(Current(h), failure, now, grace)), watch := None)
    case Save => h.(saved := h.instance, savedAt := h.addedAt)
    case Reload => Hub(if h.saved.Some? then Some(Reloaded(h.saved.value)) else None, h.saved, None, h.savedAt,
      h.savedAt)
  }

  const NewHub := Hub(None, None, None, "", "")

  /** The hub after the first n steps. */
  function After(steps: seq<Step>, n: nat): Hub
    requires n <= |steps|
  {
    if n == 0 then NewHub else Next(After(steps, n - 1), steps[n - 1])
  }

  // ---- What always holds ----

  ghost predicate AllProper(steps: seq<Step>) {
    forall k :: 0 <= k < |steps| ==> Proper(steps[k])
  }

  /** An instance that is connected is where the hub confirmed it, and neither failed nor was
      answered for; who else answers is known only of one that is unreachable; a token is that
      of an instance added by hand, and for the URL it was given with; and one that was added by
      hand never counts as stopped. */
  ghost predicate Sound(i: Instance, addedAt: string) {
    && (i.connection == Connected ==> i.url == i.confirmed && !i.failed && i.answeredBy == "")
    && (i.answeredBy != "" ==> i.connection == Unreachable)
    && (i.connection == Unreachable ==> i.failed)
    && (i.token != "" ==> i.source == Manual)
    && (i.source == Manual ==> i.url == addedAt && i.connection != Stopped)
  }

  /** The hub knows where the instance is, and how it learned of it. */
  predicate Known(i: Instance) {
    i.url != "" && i.source != NoSource
  }

  ghost predicate Ok(h: Hub) {
    && (h.instance.Some? ==> Sound(h.instance.value, h.addedAt) && Known(h.instance.value))
    && (h.saved.Some? ==> Sound(h.saved.value, h.savedAt) && Known(h.saved.value))
  }

  lemma EventsSound(i: Instance, addedAt: string, server: string, url: string, heartbeat: nat, now: int)
    requires Sound(i, addedAt) && (i.source == NoSource <==> i.url == "") && url != ""
    ensures var after := Upsert(i, server, url, heartbeat, now).0;
      Sound(after, addedAt) && after.url != "" && after.source != NoSource
    ensures Sound(StoppedBy(i, server, now), addedAt) && Sound(Alive(i, server, now), addedAt)
  {
  }

  lemma WatchSound(i: Instance, addedAt: string, failure: Failure, now: int, grace: bool, url: string, server: string)
    requires Sound(i, addedAt) && (failure.Answered? ==> failure.other != "")
    ensures Sound(StreamFailed(i, failure, now, grace), addedAt)
    ensures Sound(ApplySummary(i, url, server, now), addedAt) && Sound(Reloaded(i), addedAt)
  {
  }

  lemma NextOk(h: Hub, step: Step)
    requires Ok(h) && Proper(step)
    ensures Ok(Next(h, step))
  {
    hide Sound;
    var i := Current(h);
    NewSound(h.addedAt);
    match step
    case Event(server, url, heartbeat, now) => EventsSound(i, h.addedAt, server, url, heartbeat, now);
    case StopEvent(server, now) => EventsSound(i, h.addedAt, server, "a", 0, now);
    case OtherEvent(server, now) => EventsSound(i, h.addedAt, server, "a", 0, now);
    case AddByHand(server, url, token, now) => AddSound(i, server, url, token, now);
    case Summary(server, now) => if h.watch.Some? { WatchSound(i, h.addedAt, Ended, now, true, h.watch.value, server); }
    case Fail(failure, now, grace) => WatchSound(i, h.addedAt, failure, now, grace, "", "");
    case Reload => if h.saved.Some? { WatchSound(h.saved.value, h.savedAt, Ended, 0, true, "", ""); }
    case _ =>
  }

  lemma NewSound(addedAt: string)
    ensures Sound(NewInstance(), addedAt)
  {
  }

  lemma AddSound(i: Instance, server: string, url: string, token: string, now: int)
    ensures Sound(Add(i, server, url, token, now), url)
  {
  }

  /** Whatever events, failures, summaries, additions and restarts of the hub there are, the instance is sound. */
  lemma {:induction false} AlwaysOk(steps: seq<Step>, n: nat)
    requires n <= |steps| && AllProper(steps)
    ensures Ok(After(steps, n))
  {
    if n > 0 {
      AlwaysOk(steps, n - 1);
      NextOk(After(steps, n - 1), steps[n - 1]);
    }
  }

  /** Only adding it again moves an instance that was added by hand, or says another token of it. */
  lemma ManualStays(h: Hub, step: Step)
    requires Ok(h) && h.instance.Some? && h.instance.value.source == Manual
    requires !step.AddByHand? && !step.Forget? && !step.Reload?
    ensures var after := Next(h, step).instance;
      after.Some? && after.value.source == Manual && after.value.url == h.instance.value.url
        && after.value.token == h.instance.value.token
  {
  }

  // ---- Moves ----

  /** An event moves an instance exactly when it was joined, names another URL, and the watch
      failed where the instance is: that another AgentAPI answers there is such a failure. */
  lemma MovesExactly(h: Hub, server: string, url: string, heartbeat: nat, now: int)
    requires Ok(h) && h.instance.Some? && server != "" && url != ""
    ensures var i := h.instance.value;
      (Next(h, Event(server, url, heartbeat, now)).instance.value.url != i.url) ==
      (url != i.url && i.source != Manual && i.failed && (i.connection == Unreachable || i.connection == Stopped))
  {
  }

  /** Step k is a failure of the watch past the grace, or another AgentAPI's answer, that the hub noted. */
  ghost predicate Deserves(steps: seq<Step>, k: nat)
    requires k < |steps|
  {
    var h := After(steps, k);
    && steps[k].Fail? && (!steps[k].grace || steps[k].failure.Answered?)
    && h.watch.Some? && h.instance.Some? && h.instance.value.connection != Stopped
  }

  /** Since step k the hub has followed the instance at the same URL, and not read a summary there. */
  ghost predicate FollowedSince(steps: seq<Step>, k: nat, n: nat)
    requires k <= n <= |steps|
  {
    After(steps, n).instance.Some? && forall j {:trigger After(steps, j)} :: k <= j <= n ==>
      && After(steps, j).instance.Some? && After(steps, j).instance.value.url == After(steps, n).instance.value.url
      && (k < j ==> After(steps, j).instance.value.failed)
  }

  lemma FailedStep(h: Hub, step: Step)
    requires Ok(h) && Proper(step) && Next(h, step).instance.Some? && Next(h, step).instance.value.failed
    ensures h.instance.Some? && Next(h, step).instance.value.url == h.instance.value.url
    ensures h.instance.value.failed
      || (step.Fail? && h.watch.Some? && h.instance.value.connection != Stopped
        && (!step.grace || step.failure.Answered?))
  {
  }

  lemma NothingFailed()
    ensures NewHub.instance == None
  {
  }

  /** An instance that failed did so at a step since which the hub follows it at its URL. */
  lemma {:induction false} FailedBefore(steps: seq<Step>, n: nat) returns (k: nat)
    requires n <= |steps| && AllProper(steps)
    requires After(steps, n).instance.Some? && After(steps, n).instance.value.failed
    ensures k < n && Deserves(steps, k) && FollowedSince(steps, k, n)
  {
    hide Ok, Next;
    AlwaysOk(steps, n);
    NothingFailed();
    var m := n - 1;
    AlwaysOk(steps, m);
    FailedStep(After(steps, m), steps[m]);
    if After(steps, m).instance.value.failed {
      k := FailedBefore(steps, m);
    } else {
      k := m;
    }
  }

  /** An event that moves an instance comes after a failure past the grace, or another's answer,
      since which the hub kept following it at the URL it leaves and never read a summary there. */
  lemma MovePreceded(steps: seq<Step>, n: nat) returns (k: nat)
    requires n < |steps| && AllProper(steps)
    requires steps[n].Event? && After(steps, n).instance.Some?
    requires After(steps, n + 1).instance.value.url != After(steps, n).instance.value.url
    ensures k < n && Deserves(steps, k) && FollowedSince(steps, k, n)
  {
    AlwaysOk(steps, n);
    k := FailedBefore(steps, n);
  }

  // ---- Whether a move is deserved ----

  /** The step has the hub begin to follow the instance anew, or read a summary where it is. */
  predicate Begins(h: Hub, step: Step) {
    match step
    case Event(server, url, heartbeat, now) => Upsert(Current(h), server, url, heartbeat, now).1
    case AddByHand(_, _, _, _) => true
    case Summary(_, _) => h.watch.Some? && h.instance.Some? && Applies(h.instance.value, h.watch.value)
    case Forget => true
    case Reload => true
    case _ => false
  }

  /** The hub notes the step as a failure past the grace, or as another AgentAPI's answer. */
  predicate Notes(h: Hub, step: Step) {
    step.Fail? && (!step.grace || step.failure.Answered?) && h.watch.Some? && h.instance.Some?
      && h.instance.value.connection != Stopped
  }

  /** The watch reads from where the instance is: what applySummary checks, and streamFailed doesn't. */
  predicate ReadThere(h: Hub) {
    h.watch.Some? && h.instance.Some? && h.watch.value == h.instance.value.url
  }

  /** Since the hub began to follow the instance where it is, a watch that read there failed past
      the grace, or heard another AgentAPI there; and the hub read no summary there since. */
  predicate Dead(steps: seq<Step>, n: nat)
    requires n <= |steps|
  {
    n > 0 && (
      var h := After(steps, n - 1);
      if Notes(h, steps[n - 1]) && ReadThere(h) then true else Dead(steps, n - 1) && !Begins(h, steps[n - 1]))
  }

  /** The event moves the instance to another URL. */
  predicate Moves(h: Hub, event: Step) {
    event.Event? && Proper(event) && h.instance.Some? && Current(Next(h, event)).url != h.instance.value.url
  }

  /** No event that comes now would move the instance unless its URL is dead. */
  ghost predicate OnlyDeadMoves(steps: seq<Step>, n: nat)
    requires n <= |steps|
  {
    forall event :: Moves(After(steps, n), event) ==> Dead(steps, n)
  }

  /** Of a joined instance whose URL isn't dead yet, the hub notes only failures of a watch that reads there. */
  ghost predicate Timely(steps: seq<Step>, n: nat)
    requires n <= |steps|
  {
    forall k :: 0 <= k < n && !Dead(steps, k) ==>
      Notes(After(steps, k), steps[k]) && Current(After(steps, k)).source != Manual ==> ReadThere(After(steps, k))
  }

  predicate Joined(h: Hub) {
    h.instance.Some? && h.instance.value.source != Manual
  }

  predicate HasFailed(h: Hub) {
    h.instance.Some? && h.instance.value.failed
  }

  /** What a step says of a failure: only one that is noted brings it, and what begins anew ends it. */
  lemma StepFailed(h: Hub, step: Step)
    requires Ok(h) && Proper(step)
    ensures HasFailed(Next(h, step)) && !Notes(h, step) ==> HasFailed(h) && !Begins(h, step)
    ensures HasFailed(h) && !Begins(h, step) ==> HasFailed(Next(h, step))
    ensures Notes(h, step) ==> HasFailed(Next(h, step)) && !Begins(h, step)
    ensures Joined(Next(h, step)) && !Begins(h, step) ==>
      Joined(h) && Next(h, step).instance.value.url == h.instance.value.url
  {
  }

  lemma MovesWhen(h: Hub)
    requires Ok(h)
    ensures (exists event :: Moves(h, event)) ==
      (Joined(h) && HasFailed(h)
        && (h.instance.value.connection == Unreachable || h.instance.value.connection == Stopped))
  {
    if h.instance.Some? {
      var other := h.instance.value.url + "a";
      MovesExactly(h, "a", other, 0, 0);
      var event := Event("a", other, 0, 0);
      assert Proper(event);
      assert Moves(h, event) ==
        (Joined(h) && HasFailed(h)
          && (h.instance.value.connection == Unreachable || h.instance.value.connection == Stopped));
      forall e | Moves(h, e) ensures Moves(h, event) {
        MovesExactly(h, e.server, e.url, e.heartbeat, e.now);
      }
    }
  }

  lemma NotedMoves(h: Hub, step: Step)
    requires Ok(h) && Proper(step) && Notes(h, step) && Joined(h)
    ensures var next := Next(h, step);
      Ok(next) && Joined(next) && HasFailed(next)
        && (next.instance.value.connection == Unreachable || next.instance.value.connection == Stopped)
  {
    NextOk(h, step);
  }

  /** Whatever is noted of a joined instance has it move with the next event that names another URL. */
  lemma NotedFailureMoves(h: Hub, step: Step, server: string, url: string, heartbeat: nat, now: int)
    requires Ok(h) && Proper(step) && Notes(h, step) && Joined(h) && server != "" && url != ""
    requires url != h.instance.value.url
    ensures Next(Next(h, step), Event(server, url, heartbeat, now)).instance.value.url == url
  {
    NotedMoves(h, step);
    MovesExactly(Next(h, step), server, url, heartbeat, now);
  }

  lemma {:induction false} FailedIsDead(steps: seq<Step>, n: nat)
    requires n <= |steps| && AllProper(steps) && Timely(steps, n)
    requires Joined(After(steps, n)) && HasFailed(After(steps, n))
    ensures Dead(steps, n)
  {
    hide Next, Notes, Begins, ReadThere, Ok, Joined, HasFailed, Timely;
    NoneAtFirst();
    AlwaysOk(steps, n);
    var h, step := After(steps, n - 1), steps[n - 1];
    AlwaysOk(steps, n - 1);
    StepFailed(h, step);
    if !Notes(h, step) {
      TimelyFront(steps, n);
      FailedIsDead(steps, n - 1);
    } else if !Dead(steps, n - 1) {
      TimelyLast(steps, n);
    }
  }

  lemma NoneAtFirst()
    ensures !HasFailed(NewHub)
  {
  }

  lemma TimelyFront(steps: seq<Step>, n: nat)
    requires 0 < n <= |steps| && Timely(steps, n)
    ensures Timely(steps, n - 1)
  {
  }

  lemma TimelyLast(steps: seq<Step>, n: nat)
    requires 0 < n <= |steps| && Timely(steps, n) && !Dead(steps, n - 1) && Notes(After(steps, n - 1), steps[n - 1])
    requires Joined(After(steps, n)) && !Begins(After(steps, n - 1), steps[n - 1])
    ensures ReadThere(After(steps, n - 1))
  {
    assert Current(After(steps, n - 1)).source != Manual;
  }

  /** The hub moves instances only off URLs that are dead exactly when the failures it notes, of a
      joined instance whose URL isn't dead already, are of a watch that reads where it is. */
  lemma DeservedExactly(steps: seq<Step>)
    requires AllProper(steps)
    ensures (forall n :: 0 <= n <= |steps| ==> OnlyDeadMoves(steps, n)) == Timely(steps, |steps|)
  {
    hide Next, Notes, Begins, ReadThere, Ok, Joined, HasFailed, Moves, Dead;
    if Timely(steps, |steps|) {
      forall n | 0 <= n <= |steps| ensures OnlyDeadMoves(steps, n) {
        AlwaysOk(steps, n);
        MovesWhen(After(steps, n));
        if exists event :: Moves(After(steps, n), event) {
          FailedIsDead(steps, n);
        }
      }
    }
    if forall n :: 0 <= n <= |steps| ==> OnlyDeadMoves(steps, n) {
      forall k | 0 <= k < |steps| && !Dead(steps, k) && Notes(After(steps, k), steps[k])
        && Current(After(steps, k)).source != Manual
        ensures ReadThere(After(steps, k))
      {
        assert OnlyDeadMoves(steps, k + 1);
        NotedThere(steps, k);
      }
    }
  }

  lemma NotedThere(steps: seq<Step>, k: nat)
    requires k < |steps| && AllProper(steps) && OnlyDeadMoves(steps, k + 1)
    requires !Dead(steps, k) && Notes(After(steps, k), steps[k]) && Current(After(steps, k)).source != Manual
    ensures ReadThere(After(steps, k))
  {
    hide Next, Begins, ReadThere, Ok, HasFailed, Moves;
    AlwaysOk(steps, k);
    NotedMoves(After(steps, k), steps[k]);
    MovesWhen(After(steps, k + 1));
  }

  /** A URL that is dead is so by a failure that was read there, since which the hub follows the
      instance there and read no summary. */
  lemma {:induction false} DeadBefore(steps: seq<Step>, n: nat) returns (k: nat)
    requires n <= |steps| && AllProper(steps) && Dead(steps, n) && Joined(After(steps, n))
    ensures k < n && Deserves(steps, k) && FollowedSince(steps, k, n)
    ensures After(steps, k).watch.value == After(steps, n).instance.value.url && HasFailed(After(steps, n))
  {
    hide Next, Ok, Begins;
    var h, step := After(steps, n - 1), steps[n - 1];
    AlwaysOk(steps, n - 1);
    StepFailed(h, step);
    if Notes(h, step) && ReadThere(h) {
      k := n - 1;
    } else {
      k := DeadBefore(steps, n - 1);
    }
  }

  /** When the hub notes only such failures, the one behind a move was read at the URL the instance leaves. */
  lemma MoveDeserved(steps: seq<Step>, n: nat) returns (k: nat)
    requires n < |steps| && AllProper(steps) && Timely(steps, n) && Moves(After(steps, n), steps[n])
    ensures k < n && Deserves(steps, k) && FollowedSince(steps, k, n)
    ensures After(steps, k).watch.value == After(steps, n).instance.value.url
  {
    hide Next, Ok, Timely, Moves, Deserves, FollowedSince, Dead;
    AlwaysOk(steps, n);
    MovesWhen(After(steps, n));
    FailedIsDead(steps, n);
    k := DeadBefore(steps, n);
  }

  /** It needn't be so: the old watch's last failure counts against a URL the hub never tried,
      and the next event moves the instance on. */
  lemma MoveUndeserved(a: string, b: string, c: string, server: string)
    requires a != "" && b != "" && c != "" && a != b && b != c && server != ""
    ensures var steps := [Event(server, a, 0, 0), Open, Fail(Ended, 20, false), Open, Event(server, b, 0, 30),
      Fail(Ended, 31, false), Event(server, c, 0, 40)];
      && AllProper(steps) && Current(After(steps, 6)).url == b && Moves(After(steps, 6), steps[6]) && !Dead(steps, 6)
  {
    hide Dead;
    var steps := [Event(server, a, 0, 0), Open, Fail(Ended, 20, false), Open, Event(server, b, 0, 30),
      Fail(Ended, 31, false), Event(server, c, 0, 40)];
    var h1 := Next(NewHub, steps[0]);
    var h2 := Next(h1, steps[1]);
    var h3 := Next(h2, steps[2]);
    var h4 := Next(h3, steps[3]);
    var h5 := Next(h4, steps[4]);
    var h6 := Next(h5, steps[5]);
    assert After(steps, 0) == NewHub && After(steps, 1) == h1 && After(steps, 2) == h2;
    assert After(steps, 3) == h3 && After(steps, 4) == h4 && After(steps, 5) == h5 && After(steps, 6) == h6;
    NotDeadYet(steps, 4);
    NotDeadYet(steps, 5);
  }

  lemma NotDeadYet(steps: seq<Step>, n: nat)
    requires n < |steps|
    ensures Begins(After(steps, n), steps[n]) && !steps[n].Fail? ==> !Dead(steps, n + 1)
    ensures !Dead(steps, n) && !ReadThere(After(steps, n)) ==> !Dead(steps, n + 1)
  {
  }

  /** An instance that stopped as an event said moves once the hub tried its URL: the first event
      that names another has the hub try, and the next, after it failed there, moves it. */
  lemma StoppedMoves(h: Hub, server: string, url: string, heartbeat: nat, now: int, failure: Failure, later: int)
    requires Ok(h) && server != "" && url != "" && h.instance.Some?
    requires var i := h.instance.value; i.connection == Stopped && !i.failed && i.source == Webhook && i.url != url
    requires failure.Answered? ==> failure.other != ""
    ensures var tried := Next(Next(Next(h, Event(server, url, heartbeat, now)), Cancel), Open);
      && tried.instance.Some? && tried.instance.value.url == h.instance.value.url
        && tried.watch == Some(h.instance.value.url)
      && Next(Next(tried, Fail(failure, later, false)), Event(server, url, heartbeat, later)).instance.value.url == url
      && forall said :: Next(Next(tried, Summary(said, later)),
        Event(server, url, heartbeat, later)).instance.value.url == h.instance.value.url
  {
    hide Ok;
    var event := Event(server, url, heartbeat, now);
    var tried := Next(Next(Next(h, event), Cancel), Open);
    NextOk(h, event);
    NextOk(Next(h, event), Cancel);
    NextOk(Next(Next(h, event), Cancel), Open);
    TriedIs(h, event);
    hide Next;
    NotedFailureMoves(tried, Fail(failure, later, false), server, url, heartbeat, later);
    forall said ensures Next(Next(tried, Summary(said, later)),
      Event(server, url, heartbeat, later)).instance.value.url == h.instance.value.url {
      ReadStays(tried, said, later, Event(server, url, heartbeat, later));
    }
  }

  lemma TriedIs(h: Hub, event: Step)
    requires event.Event? && Ok(h) && h.instance.Some?
    requires var i := h.instance.value;
      i.connection == Stopped && !i.failed && i.source == Webhook && i.url != event.url
    ensures var tried := Next(Next(Next(h, event), Cancel), Open);
      && tried.instance.Some? && tried.instance.value ==
        h.instance.value.(connection := Connecting, refusedRun := event.server)
      && tried.watch == Some(h.instance.value.url)
  {
  }

  /** No event moves an instance whose summary was just read. */
  lemma ReadStays(h: Hub, said: string, now: int, event: Step)
    requires Ok(h) && h.instance.Some? && h.watch == Some(h.instance.value.url)
    requires h.instance.value.connection != Stopped
    requires event.Event? && Proper(event)
    ensures Next(Next(h, Summary(said, now)), event).instance.value.url == h.instance.value.url
  {
    NextOk(h, Summary(said, now));
    MovesExactly(Next(h, Summary(said, now)), event.server, event.url, event.heartbeat, event.now);
  }
}
