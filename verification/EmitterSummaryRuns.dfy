/** The summary over the emitter's runs: what each open subscription to it got last is the
    conversation's, but for what messages that are taken back leave. */
module EmitterSummaryRuns {
  import opened Options
  import opened Conversation
  import opened TaskChanges
  import opened Replication
  import opened EmitterRuns
  import opened Emitter
  import opened EmitterSummary
  import Messaging = EmitterMessages
  import Clients = EmitterClients
  import Removals = EmitterRemovals
  import Spec = EmitterSpec
  import Runs = ReplicationRuns

  /** subs are the open subscriptions to the summary, with the one each got last. */
  datatype System = System(s: State, x: Extra, feed: Feed, subs: map<int, Summary>)

  datatype Step =
    /** A call to the emitter; the channels of those in full are. */
    | Calls(call: Call, full: set<int>)
    | MarkSeen(at: int, full: set<int>)
    | SetSpend(spend: int, full: set<int>)
    | SetUpdate(update: int, full: set<int>)
    | SetSettings(settings: int, full: set<int>)
    | Open(id: int)
    | Close(id: int)

  ghost predicate Possible(y: System, step: Step) {
    step.Calls? ==> Allowed(y.s, step.call) && !step.call.Restart?
  }

  /** The lock is released: the summary goes to those whose channel has room; the others end. */
  function Release(y: System, full: set<int>): System {
    var now := SummaryOf(y.s, y.x);
    var (feed, update) := Unlocked(y.feed, y.subs != map[], now);
    if update.None? then y.(feed := feed)
    else y.(feed := feed, subs := map id | id in y.subs && id !in full :: now)
  }

  /** The update the release sends, if it does. */
  function SentBy(y: System): Option<Summary> {
    Unlocked(y.feed, y.subs != map[], SummaryOf(y.s, y.x)).1
  }

  /** What the step changes before the lock is released. */
  ghost function Changes(y: System, step: Step, bufSize: nat): System
    requires Clients.Ready(y.s) && Possible(y, step)
  {
    match step
    case Calls(call, _) =>
      y.(s := EmitterRuns.After(y.s, call, bufSize).0,
        feed := y.feed.(changed := y.feed.changed || Notified(y.s, call, bufSize)))
    case MarkSeen(at, _) => y.(x := y.x.(seenAt := at), feed := y.feed.(changed := true))
    case SetSpend(spend, _) => if spend == y.x.spend then y
      else y.(x := y.x.(spend := spend), feed := y.feed.(changed := true))
    case SetUpdate(update, _) => if update == y.x.update then y
      else y.(x := y.x.(update := update), feed := y.feed.(changed := true))
    case SetSettings(settings, _) => y.(x := y.x.(settings := settings), feed := y.feed.(changed := true))
    case Open(id) =>
      var now := SummaryOf(y.s, y.x);
      y.(subs := y.subs[id := now], feed := y.feed.(sent := if y.feed.sent.None? then Some(now) else y.feed.sent))
    case Close(id) => y.(subs := y.subs - {id})
  }

  function FullOf(step: Step): set<int> {
    if step.Open? || step.Close? then {} else step.full
  }

  ghost function Next(y: System, step: Step, bufSize: nat): System
    requires Clients.Ready(y.s) && Possible(y, step)
  {
    Release(Changes(y, step, bufSize), FullOf(step))
  }

  /** Between the steps: nothing is left to send, and a subscription to the summary keeps the one sent last. */
  ghost predicate Sane(y: System) {
    Clients.Ready(y.s) && !y.feed.changed && (y.subs != map[] ==> y.feed.sent.Some?)
  }

  /** Every open subscription to the summary got it as it is. */
  ghost predicate UpToDate(y: System) {
    && Sane(y)
    && (forall id :: id in y.subs ==> y.subs[id] == SummaryOf(y.s, y.x))
    && (y.feed.sent.Some? ==> y.feed.sent.value == SummaryOf(y.s, y.x))
  }

  /** The step takes messages back that the summary shows. */
  ghost predicate Affects(y: System, step: Step) {
    step.Calls? && step.call.EmitMessages? && |step.call.messages| < |y.s.c.messages|
    && (y.s.t.rederive || !Removals.Unaffected(y.s.c.tasks, step.call.messages))
  }

  lemma {:induction false} AfterReady(s: State, call: Call, bufSize: nat)
    requires Clients.Ready(s) && Allowed(s, call) && !call.Restart?
    ensures Clients.Ready(EmitterRuns.After(s, call, bufSize).0)
  {
    hide Spec.Sound, Allowed, EmitterRuns.After, Spec.Seen, StepOf;
    var t := EmitterRuns.After(s, call, bufSize).0;
    CallIsStep(s, call, bufSize, 0, Runs.World(Spec.Seen(s), Client(0, 0, map[]), [], false));
    EmitterRuns.SoundLists(t);
  }

  lemma {:induction false} SameIsSame(s: State, t: State, x: Extra)
    requires SameSummary(s, t)
    ensures SummaryOf(s, x) == SummaryOf(t, x)
  {
  }

  /** A removal marks nothing. */
  lemma {:induction false} RemovalIsQuiet(s: State, call: Call, bufSize: nat)
    requires Clients.Ready(s) && Allowed(s, call) && call.EmitMessages? && |call.messages| < |s.c.messages|
    ensures !Notified(s, call, bufSize)
    ensures EmitterRuns.After(s, call, bufSize).0 == Messaging.EmitMessages(s, call.messages).0
    ensures SameStart(s.c.messages, call.messages)
  {
    hide Spec.Sound, SameStart, Messaging.EmitMessages;
    Clients.ReadyAligned(s);
    Removals.RemovalIs(s, call.messages);
  }

  /** What a call that marks nothing leaves of the summary. */
  lemma {:induction false} QuietKeeps(y: System, step: Step, bufSize: nat)
    requires Clients.Ready(y.s) && Possible(y, step) && step.Calls? && !Notified(y.s, step.call, bufSize)
    ensures !Affects(y, step) ==> SummaryOf(EmitterRuns.After(y.s, step.call, bufSize).0, y.x) == SummaryOf(y.s, y.x)
    ensures Affects(y, step) && !y.s.t.rederive ==>
      SummaryOf(EmitterRuns.After(y.s, step.call, bufSize).0, y.x) != SummaryOf(y.s, y.x)
  {
    hide Clients.Ready, Spec.Sound, EmitterRuns.After, Notified, SummaryOf, SameSummary, SameStart,
      Messaging.EmitMessages,
      Removals.Unaffected, Allowed;
    Clients.ReadyAligned(y.s);
    if step.call.EmitMessages? && |step.call.messages| < |y.s.c.messages| {
      RemovalIsQuiet(y.s, step.call, bufSize);
      if !y.s.t.rederive {
        Removals.RemovalExactly(y.s, step.call.messages, y.x);
      }
    } else {
      QuietCall(y.s, step.call, bufSize);
      SameIsSame(y.s, EmitterRuns.After(y.s, step.call, bufSize).0, y.x);
    }
  }

  /** Every step leaves the feed sane; one that takes nothing back that the summary shows leaves it up
      to date, and sends no subscription what it got before. */
  lemma {:induction false} StaysUpToDate(y: System, step: Step, bufSize: nat)
    requires Sane(y) && Possible(y, step)
    ensures Sane(Next(y, step, bufSize))
    ensures UpToDate(y) && !Affects(y, step) ==> UpToDate(Next(y, step, bufSize))
    ensures var mid := Changes(y, step, bufSize);
      UpToDate(y) && SentBy(mid).Some? ==> forall id :: id in mid.subs ==> mid.subs[id] != SentBy(mid).value
  {
    hide Clients.Ready, Allowed, EmitterRuns.After, SummaryOf, Notified, Affects;
    if step.Calls? {
      Clients.ReadyAligned(y.s);
      AfterReady(y.s, step.call, bufSize);
      if !Notified(y.s, step.call, bufSize) {
        QuietKeeps(y, step, bufSize);
      }
    }
  }

  /** While subscriptions are open that are up to date, messages that are taken back leave all of
      them up to date, or all with a summary that isn't the conversation's: exactly as none, or one,
      of the messages is of a task that the summary shows. */
  lemma {:induction false} RemovalStaleExactly(y: System, messages: seq<Message>, full: set<int>, bufSize: nat, id: int)
    requires UpToDate(y) && id in y.subs && !y.s.t.rederive
    requires SameStart(y.s.c.messages, messages) && |messages| < |y.s.c.messages|
    ensures Possible(y, Calls(Call.EmitMessages(messages), full))
    ensures var after := Next(y, Calls(Call.EmitMessages(messages), full), bufSize);
      && after.subs == y.subs
      && (after.subs[id] == SummaryOf(after.s, after.x) <==> Removals.Unaffected(y.s.c.tasks, messages))
  {
    hide Clients.Ready, EmitterRuns.After, SummaryOf, Notified, Removals.Unaffected, SameStart, Messaging.EmitMessages;
    var call := Call.EmitMessages(messages);
    RemovalIsQuiet(y.s, call, bufSize);
    Removals.RemovalExactly(y.s, messages, y.x);
  }

  // ---- Runs ----

  /** The summary may be behind after the step: it took messages back that the summary shows, while
      one was kept as sent last, and nothing was sent since, or nobody wanted it. */
  ghost function BehindAfter(y: System, step: Step, bufSize: nat, behind: bool): bool
    requires Clients.Ready(y.s) && Possible(y, step)
  {
    var mid := Changes(y, step, bufSize);
    if Affects(y, step) then behind || y.feed.sent.Some?
    else behind && !(mid.feed.changed && (mid.subs == map[] || SentBy(mid).Some?))
  }

  /** The steps lead from y to end, whose summary may be behind. */
  ghost predicate Leads(y: System, steps: seq<Step>, bufSize: nat, behind: bool, end: System, endBehind: bool)
    decreases |steps|
  {
    if |steps| == 0 then end == y && endBehind == behind
    else
      && Clients.Ready(y.s) && Possible(y, steps[0])
      && Leads(Next(y, steps[0], bufSize), steps[1..], bufSize, BehindAfter(y, steps[0], bufSize, behind), end,
        endBehind)
  }

  lemma {:induction false} StepBehind(y: System, step: Step, bufSize: nat, behind: bool)
    requires Sane(y) && Possible(y, step) && (!behind ==> UpToDate(y))
    ensures Sane(Next(y, step, bufSize))
    ensures !BehindAfter(y, step, bufSize, behind) ==> UpToDate(Next(y, step, bufSize))
  {
    StaysUpToDate(y, step, bufSize);
    hide Clients.Ready, Possible, Changes, SummaryOf;
    var mid := Changes(y, step, bufSize);
    if Affects(y, step) {
      if !behind && y.feed.sent.None? {
        NobodyWants(y, step, bufSize);
      }
    } else if behind && mid.feed.changed && (mid.subs == map[] || SentBy(mid).Some?) {
      ReleasedIsRight(mid, FullOf(step));
    }
  }

  /** A call while nobody wants the summary. */
  lemma {:induction false} NobodyWants(y: System, step: Step, bufSize: nat)
    requires Sane(y) && Possible(y, step) && step.Calls? && y.feed.sent.None? && Sane(Next(y, step, bufSize))
    ensures UpToDate(Next(y, step, bufSize))
  {
    hide Clients.Ready, EmitterRuns.After, SummaryOf, Notified;
  }

  lemma {:induction false} ReleasedIsRight(mid: System, full: set<int>)
    requires mid.feed.changed && (mid.subs == map[] || SentBy(mid).Some?) && Sane(Release(mid, full))
    ensures UpToDate(Release(mid, full))
  {
    hide Clients.Ready, SummaryOf;
  }

  /** A feed that is new: nobody subscribed to the summary yet. */
  ghost function NewFeed(s: State, x: Extra): System {
    System.System(s, x, Feed(false, None), map[])
  }

  lemma {:induction false} NewUpToDate(s: State, x: Extra)
    requires Clients.Ready(s)
    ensures UpToDate(NewFeed(s, x))
  {
  }

  lemma {:induction false} LeadsRight(y: System, steps: seq<Step>, bufSize: nat, behind: bool, end: System,
      endBehind: bool)
    requires Sane(y) && (!behind ==> UpToDate(y)) && Leads(y, steps, bufSize, behind, end, endBehind)
    ensures Sane(end) && (!endBehind ==> UpToDate(end))
    decreases |steps|
  {
    hide Sane, UpToDate, Possible, Next, BehindAfter, Clients.Ready;
    if |steps| > 0 {
      SaneReady(y);
      StepBehind(y, steps[0], bufSize, behind);
      LeadsRight(Next(y, steps[0], bufSize), steps[1..], bufSize, BehindAfter(y, steps[0], bufSize, behind), end,
        endBehind);
    }
  }

  lemma {:induction false} SaneReady(y: System)
    requires Sane(y)
    ensures Clients.Ready(y.s)
  {
  }

  /** After any run from a new feed, every open subscription to the summary got it as it is, unless
      messages were taken back that it showed and no summary was sent since. */
  lemma {:induction false} SummariesAreRight(s: State, x: Extra, steps: seq<Step>, bufSize: nat, end: System,
      behind: bool)
    requires Clients.Ready(s) && Leads(NewFeed(s, x), steps, bufSize, false, end, behind)
    ensures !behind ==> forall id :: id in end.subs ==> end.subs[id] == SummaryOf(end.s, end.x)
  {
    hide Leads, Clients.Ready, SummaryOf;
    NewUpToDate(s, x);
    LeadsRight(NewFeed(s, x), steps, bufSize, false, end, behind);
  }

  /** A change since then marked the summary, and brought it back to what it was before. */
  ghost predicate BroughtBack(y: System, since: System, back: System) {
    && back.feed == since.feed.(changed := true) && back.subs == since.subs
    && SummaryOf(back.s, back.x) == SummaryOf(y.s, y.x)
  }

  /** Marking it isn't enough: a subscription that is opened while the summary is behind gets it as it
      is then, but the one sent last stays the old one; when a change brings that back, nothing is
      sent, and the new subscription is left with a summary that isn't the conversation's. */
  lemma {:induction false} OpenedBehind(y: System, messages: seq<Message>, full: set<int>, bufSize: nat, id: int,
      back: System)
    requires UpToDate(y) && y.subs != map[] && id !in y.subs && !y.s.t.rederive
    requires SameStart(y.s.c.messages, messages) && |messages| < |y.s.c.messages|
    requires !Removals.Unaffected(y.s.c.tasks, messages)
    ensures Possible(y, Calls(Call.EmitMessages(messages), full))
    ensures var removed := Next(y, Calls(Call.EmitMessages(messages), full), bufSize);
      Clients.Ready(removed.s) && BroughtBack(y, Next(removed, Open(id), bufSize), back) ==>
        var after := Release(back, full);
        id in after.subs && after.subs[id] != SummaryOf(after.s, after.x)
    ensures Clients.Ready(Next(y, Calls(Call.EmitMessages(messages), full), bufSize).s)
  {
    hide Clients.Ready, EmitterRuns.After, SummaryOf, Notified, Removals.Unaffected, SameStart, Messaging.EmitMessages;
    var call := Call.EmitMessages(messages);
    var step := Calls(call, full);
    RemovalIsQuiet(y.s, call, bufSize);
    Removals.RemovalExactly(y.s, messages, y.x);
    AfterReady(y.s, call, bufSize);
  }
}
