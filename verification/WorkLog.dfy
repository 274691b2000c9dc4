/** How long the hub saw an instance working: the spans of the last week. Times are nanoseconds. */
module WorkLog {
  import opened Options

  const Second := 1_000_000_000
  const Day := 24 * 3600 * Second
  const Week := 7 * 24 * 3600 * Second
  const MaxSpans := 2000

  datatype Span = Span(start: int, end: int)

  /** The spans that ended, oldest first, and when the one going on began. */
  datatype Log = Log(spans: seq<Span>, since: Option<int>)

  datatype WorkTime = WorkTime(day: int, week: int, since: Option<int>)

  /** The whole seconds of span between from and to. */
  function Overlap(span: Span, from: int, to: int): int {
    var start := if span.start < from then from else span.start;
    var end := if span.end > to then to else span.end;
    if end <= start then 0 else (end - start) / Second
  }

  function Total(spans: seq<Span>, from: int, to: int): int {
    if |spans| == 0 then 0 else Total(spans[..|spans| - 1], from, to) + Overlap(spans[|spans| - 1], from, to)
  }

  /** The work time at now. */
  function At(spans: seq<Span>, since: Option<int>, now: int): WorkTime {
    WorkTime(Total(spans, now - Day, now), Total(spans, now - Week, now), since)
  }

  // ---- Changes of the log ----

  /** How many of the spans, from the oldest, ended over a week before now. */
  function OldCount(spans: seq<Span>, now: int, i: nat): (n: nat)
    requires i <= |spans|
    ensures i <= n <= |spans|
    ensures forall k :: i <= k < n ==> spans[k].end <= now - Week
    ensures n < |spans| ==> spans[n].end > now - Week
    decreases |spans| - i
  {
    if i == |spans| || spans[i].end > now - Week then i else OldCount(spans, now, i + 1)
  }

  function Max(a: int, b: int): int {
    if a > b then a else b
  }

  function Pruned(spans: seq<Span>, now: int): seq<Span> {
    spans[Max(OldCount(spans, now, 0), |spans| - MaxSpans)..]
  }

  /** The spans with the one that began at since and ended at end. */
  function Closed(spans: seq<Span>, since: int, end: int): seq<Span> {
    if end > since then spans + [Span(since, end)] else spans
  }

  /** When a span that ends at now ends: when the stream last said anything, if that is earlier. */
  function EndOf(now: int, heard: Option<int>): int {
    if heard.Some? && heard.value < now then heard.value else now
  }

  function Tracked(log: Log, working: bool, now: int, heard: Option<int>): Log {
    if working && log.since.None? then log.(since := Some(now))
    else if !working && log.since.Some?
      then Log(Pruned(Closed(log.spans, log.since.value, EndOf(now, heard)), now), None)
    else log
  }

  class WorkLog {
    var spans: seq<Span>
    var since: Option<int>

    function View(): Log
      reads this
    {
      Log(spans, since)
    }

    constructor ()
      ensures View() == Log([], None)
    {
      spans, since := [], None;
    }

    method WorkAt(now: int) returns (work: WorkTime)
      ensures work == At(spans, since, now)
    {
      var day, week := 0, 0;
      for i := 0 to |spans|
        invariant day == Total(spans[..i], now - Day, now) && week == Total(spans[..i], now - Week, now)
      {
        assert spans[..i + 1][..i] == spans[..i];
        day := day + Overlap(spans[i], now - Day, now);
        week := week + Overlap(spans[i], now - Week, now);
      }
      assert spans[..|spans|] == spans;
      work := WorkTime(day, week, since);
    }

    method Prune(now: int)
      modifies this`spans
      ensures spans == Pruned(old(spans), now)
    {
      var first := 0;
      while first < |spans| && spans[first].end <= now - Week
        invariant 0 <= first <= |spans| && OldCount(spans, now, first) == OldCount(spans, now, 0)
      {
        first := first + 1;
      }
      first := Max(first, |spans| - MaxSpans);
      if first > 0 {
        spans := spans[first..];
      }
    }

    method End(end: int, now: int)
      requires since.Some?
      modifies this
      ensures View() == Log(Pruned(Closed(old(spans), old(since).value, end), now), None)
    {
      if end > since.value {
        spans := spans + [Span(since.value, end)];
      }
      since := None;
      Prune(now);
    }

    /** Follows the instance's state at now, and reports whether the log changed. */
    method Track(working: bool, now: int, heard: Option<int>) returns (changed: bool)
      modifies this
      ensures View() == Tracked(old(View()), working, now, heard)
      ensures changed == (working == old(since).None?)
    {
      if working && since.None? {
        since := Some(now);
        return true;
      }
      if !working && since.Some? {
        var end := now;
        if heard.Some? && heard.value < end {
          end := heard.value;
        }
        End(end, now);
        return true;
      }
      changed := false;
    }
  }

  // ---- The spans ----

  /** No span is empty, and each begins no earlier than the one before ended. */
  ghost predicate Sorted(spans: seq<Span>) {
    && (forall i :: 0 <= i < |spans| ==> spans[i].start < spans[i].end)
    && (forall i, j :: 0 <= i < j < |spans| ==> spans[i].end <= spans[j].start)
  }

  /** The log at a time no earlier than any in it. */
  ghost predicate Ok(log: Log, now: int) {
    && Sorted(log.spans) && |log.spans| <= MaxSpans
    && (forall i :: 0 <= i < |log.spans| ==> log.spans[i].end <= now)
    && (log.since.Some? ==> log.since.value <= now && forall i :: 0 <= i < |log.spans| ==>
      log.spans[i].end <= log.since.value)
  }

  lemma ClosedSorted(spans: seq<Span>, since: int, end: int, now: int)
    requires Sorted(spans) && end <= now && forall i :: 0 <= i < |spans| ==> spans[i].end <= since
    requires forall i :: 0 <= i < |spans| ==> spans[i].end <= now
    ensures var closed := Closed(spans, since, end);
      Sorted(closed) && forall i :: 0 <= i < |closed| ==> closed[i].end <= now
  {
  }

  lemma PrunedOk(spans: seq<Span>, now: int)
    requires Sorted(spans) && forall i :: 0 <= i < |spans| ==> spans[i].end <= now
    ensures Ok(Log(Pruned(spans, now), None), now)
  {
  }

  /** While time doesn't go back, the spans stay sorted and disjoint, and few. */
  lemma TrackedOk(log: Log, before: int, working: bool, now: int, heard: Option<int>)
    requires Ok(log, before) && before <= now
    ensures Ok(Tracked(log, working, now, heard), now)
  {
    if !working && log.since.Some? {
      hide Pruned, Closed;
      ClosedSorted(log.spans, log.since.value, EndOf(now, heard), now);
      PrunedOk(Closed(log.spans, log.since.value, EndOf(now, heard)), now);
    }
  }

  // ---- The sums ----

  lemma OverlapBounds(span: Span, from: int, to: int)
    requires from <= to && span.start < span.end
    ensures Overlap(span, from, to) >= 0
    ensures Overlap(span, from, to) * Second <= Max(0, (if span.end > to then to else span.end) - Max(span.start, from))
  {
  }

  /** The spans up to a time take no longer than the window up to it. */
  lemma {:induction false} TotalBound(spans: seq<Span>, from: int, to: int)
    requires Sorted(spans) && from <= to
    ensures 0 <= Total(spans, from, to)
    ensures |spans| > 0 ==>
      Total(spans, from, to) * Second <= Max(0,
        (if spans[|spans| - 1].end > to then to else spans[|spans| - 1].end) - from)
  {
    if |spans| > 0 {
      var n := |spans| - 1;
      TotalBound(spans[..n], from, to);
      OverlapBounds(spans[n], from, to);
    }
  }

  lemma OverlapLonger(span: Span, from: int, longer: int, to: int)
    requires longer <= from
    ensures Overlap(span, from, to) <= Overlap(span, longer, to)
  {
  }

  lemma {:induction false} TotalLonger(spans: seq<Span>, from: int, longer: int, to: int)
    requires longer <= from
    ensures Total(spans, from, to) <= Total(spans, longer, to)
  {
    if |spans| > 0 {
      var n := |spans| - 1;
      TotalLonger(spans[..n], from, longer, to);
      OverlapLonger(spans[n], from, longer, to);
    }
  }

  /** The work time fits the day and the week it is of, and the day's is part of the week's. */
  lemma WorkFits(log: Log, now: int)
    requires Sorted(log.spans)
    ensures var work := At(log.spans, log.since, now);
      0 <= work.day <= 86400 && work.day <= work.week <= 604800
  {
    TotalBound(log.spans, now - Day, now);
    TotalBound(log.spans, now - Week, now);
    TotalLonger(log.spans, now - Day, now - Week, now);
    Seconds(log.spans, now, Day, 86400);
    Seconds(log.spans, now, Week, 604800);
  }

  lemma Seconds(spans: seq<Span>, now: int, window: int, seconds: int)
    requires Sorted(spans) && window == seconds * Second && seconds >= 0
    ensures Total(spans, now - window, now) <= seconds
  {
    TotalBound(spans, now - window, now);
    if |spans| > 0 {
      assert Total(spans, now - window, now) * Second <= seconds * Second;
    }
  }

  // ---- What is forgotten ----

  /** What was tracked at a time. */
  datatype Report = Report(working: bool, now: int, heard: Option<int>)

  function Run(reports: seq<Report>): Log {
    if |reports| == 0 then Log([], None)
    else
      var r := reports[|reports| - 1];
      Tracked(Run(reports[..|reports| - 1]), r.working, r.now, r.heard)
  }

  function FullTracked(log: Log, r: Report): Log {
    if r.working && log.since.None? then log.(since := Some(r.now))
    else if !r.working && log.since.Some? then Log(Closed(log.spans, log.since.value, EndOf(r.now, r.heard)), None)
    else log
  }

  /** The same without forgetting anything. */
  function FullRun(reports: seq<Report>): Log {
    if |reports| == 0 then Log([], None) else FullTracked(FullRun(reports[..|reports| - 1]), reports[|reports| - 1])
  }

  ghost predicate InTime(reports: seq<Report>) {
    forall i, j :: 0 <= i < j < |reports| ==> reports[i].now <= reports[j].now
  }

  /** Of the spans, at most so many as are kept ended within the week before now. */
  ghost predicate Few(spans: seq<Span>, now: int) {
    |spans| - OldCount(spans, now, 0) <= MaxSpans
  }

  /** Whenever a span ended there were few in the week before. */
  ghost predicate AlwaysFew(reports: seq<Report>) {
    forall n :: 0 < n <= |reports| ==> Few(FullRun(reports[..n]).spans, reports[n - 1].now)
  }

  /** spans are the last of full, and the others ended by then. */
  ghost predicate Rest(full: seq<Span>, spans: seq<Span>, past: int) {
    && |spans| <= |full| && spans == full[|full| - |spans|..]
    && forall i :: 0 <= i < |full| - |spans| ==> full[i].end <= past
  }

  lemma {:induction false} FullOk(reports: seq<Report>)
    requires InTime(reports)
    ensures var log := FullRun(reports);
      && Sorted(log.spans) && (reports == [] ==> log == Log([], None))
      && (forall i :: 0 <= i < |log.spans| ==> |reports| > 0 && log.spans[i].end <= reports[|reports| - 1].now)
      && (log.since.Some? ==> |reports| > 0 && log.since.value <= reports[|reports| - 1].now)
      && (log.since.Some? ==> forall i :: 0 <= i < |log.spans| ==> log.spans[i].end <= log.since.value)
  {
    if |reports| > 0 {
      FullOk(reports[..|reports| - 1]);
    }
  }

  lemma OldSorted(spans: seq<Span>, now: int)
    requires Sorted(spans)
    ensures forall i :: OldCount(spans, now, 0) <= i < |spans| ==> spans[i].end > now - Week
  {
    var n := OldCount(spans, now, 0);
    forall i | n <= i < |spans| ensures spans[i].end > now - Week {
      assert spans[n].end <= spans[i].end;
    }
  }

  /** Pruning forgets only what ended over a week ago, when few spans ended since. */
  lemma PrunedRest(full: seq<Span>, spans: seq<Span>, past: int, now: int)
    requires Sorted(full) && Rest(full, spans, past) && past <= now - Week && Few(full, now)
    ensures Rest(full, Pruned(spans, now), now - Week)
  {
    var gone := |full| - |spans|;
    var first := OldCount(spans, now, 0);
    OldSorted(full, now);
    assert first < |spans| ==> full[gone + first] == spans[first];
    assert OldCount(full, now, 0) <= gone + first;
    forall i | 0 <= i < gone + first ensures full[i].end <= now - Week {
      if gone <= i {
        assert full[i] == spans[i - gone];
      }
    }
    assert Pruned(spans, now) == full[gone + first..];
  }

  lemma RestLater(full: seq<Span>, spans: seq<Span>, past: int, later: int)
    requires Rest(full, spans, past) && past <= later
    ensures Rest(full, spans, later)
  {
  }

  lemma ClosedRest(full: seq<Span>, spans: seq<Span>, past: int, since: int, end: int)
    requires Rest(full, spans, past)
    ensures Rest(Closed(full, since, end), Closed(spans, since, end), past)
  {
  }

  /** The log after one more report, if it had the rest of the history before it. */
  lemma TrackedRest(full: Log, log: Log, r: Report)
    requires log.since == full.since && Rest(full.spans, log.spans, r.now - Week)
    requires Sorted(FullTracked(full, r).spans) && Few(FullTracked(full, r).spans, r.now)
    ensures var next := Tracked(log, r.working, r.now, r.heard);
      next.since == FullTracked(full, r).since && Rest(FullTracked(full, r).spans, next.spans, r.now - Week)
  {
    hide Rest, Pruned, Closed, Few, Sorted;
    if !r.working && log.since.Some? {
      var end := EndOf(r.now, r.heard);
      ClosedRest(full.spans, log.spans, r.now - Week, log.since.value, end);
      PrunedRest(FullTracked(full, r).spans, Closed(log.spans, log.since.value, end), r.now - Week, r.now);
    }
  }

  lemma FewFront(reports: seq<Report>)
    requires |reports| > 0 && InTime(reports) && AlwaysFew(reports)
    ensures |reports| > 1 ==> reports[|reports| - 2].now <= reports[|reports| - 1].now
    ensures InTime(reports[..|reports| - 1]) && AlwaysFew(reports[..|reports| - 1])
    ensures Few(FullRun(reports).spans, reports[|reports| - 1].now)
  {
    hide FullRun, Few;
    var front := reports[..|reports| - 1];
    assert forall i :: 0 < i <= |front| ==> front[..i] == reports[..i];
    assert reports[..|reports|] == reports;
  }

  /** The log keeps the last spans of the whole history, and the others ended over a week ago. */
  lemma {:induction false} KeepsRest(reports: seq<Report>)
    requires InTime(reports) && AlwaysFew(reports)
    ensures Run(reports).since == FullRun(reports).since
    ensures var full := FullRun(reports).spans;
      if |reports| == 0 then Run(reports).spans == full
        else Rest(full, Run(reports).spans, reports[|reports| - 1].now - Week)
  {
    if |reports| > 0 {
      hide AlwaysFew, InTime, Few, Rest, Tracked, FullTracked, Sorted;
      var n := |reports| - 1;
      var front, r := reports[..n], reports[n];
      FewFront(reports);
      KeepsRest(front);
      FullOk(reports);
      if n > 0 {
        RestLater(FullRun(front).spans, Run(front).spans, reports[n - 1].now - Week, r.now - Week);
      } else {
        RestSame(r.now - Week);
      }
      TrackedRest(FullRun(front), Run(front), r);
    }
  }

  lemma RestSame(past: int)
    ensures Rest([], [], past)
  {
  }

  lemma {:induction false} OldTotal(spans: seq<Span>, from: int, to: int)
    requires forall i :: 0 <= i < |spans| ==> spans[i].end <= from
    ensures Total(spans, from, to) == 0
  {
    if |spans| > 0 {
      OldTotal(spans[..|spans| - 1], from, to);
    }
  }

  lemma {:induction false} TotalSplit(a: seq<Span>, b: seq<Span>, from: int, to: int)
    ensures Total(a + b, from, to) == Total(a, from, to) + Total(b, from, to)
    decreases |b|
  {
    if |b| == 0 {
      assert a + b == a;
    } else {
      var n := |b| - 1;
      assert (a + b)[..|a| + n] == a + b[..n];
      TotalSplit(a, b[..n], from, to);
    }
  }

  lemma RestAt(full: seq<Span>, spans: seq<Span>, past: int, since: Option<int>, now: int)
    requires Rest(full, spans, past) && past <= now - Week
    ensures At(spans, since, now) == At(full, since, now)
  {
    var gone := full[..|full| - |spans|];
    assert full == gone + spans;
    OldTotal(gone, now - Week, now);
    OldTotal(gone, now - Day, now);
    TotalSplit(gone, spans, now - Week, now);
    TotalSplit(gone, spans, now - Day, now);
  }

  /** What the log forgets makes no difference: as long as no week holds more spans than are
      kept, its work time is that of the whole history, now and later. */
  lemma ForgettingMakesNoDifference(reports: seq<Report>, now: int)
    requires InTime(reports) && AlwaysFew(reports) && (|reports| > 0 ==> reports[|reports| - 1].now <= now)
    ensures var log, full := Run(reports), FullRun(reports);
      At(log.spans, log.since, now) == At(full.spans, full.since, now)
  {
    KeepsRest(reports);
    if |reports| > 0 {
      RestAt(FullRun(reports).spans, Run(reports).spans, reports[|reports| - 1].now - Week, Run(reports).since, now);
    }
  }

  lemma {:induction false} RunOk(reports: seq<Report>)
    requires InTime(reports)
    ensures |reports| > 0 ==> Ok(Run(reports), reports[|reports| - 1].now)
    ensures |reports| == 0 ==> Run(reports) == Log([], None)
  {
    if |reports| > 0 {
      var n := |reports| - 1;
      RunOk(reports[..n]);
      var before := if n > 0 then reports[n - 1].now else reports[n].now;
      TrackedOk(Run(reports[..n]), before, reports[n].working, reports[n].now, reports[n].heard);
    }
  }

  // ---- The log in the hub's file ----

  /** Spans in whole seconds. */
  datatype Stored = Stored(spans: seq<(int, int)>, since: int)

  function StoredLog(log: Log): Stored {
    Stored(seq(|log.spans|, i requires 0 <= i < |log.spans| => (log.spans[i].start / Second,
      log.spans[i].end / Second)),
      if log.since.Some? then log.since.value / Second else 0)
  }

  /** The stored spans that are in order. */
  function Loaded(spans: seq<(int, int)>): seq<Span> {
    if |spans| == 0 then []
    else
      var front := Loaded(spans[..|spans| - 1]);
      var span := Span(spans[|spans| - 1].0 * Second, spans[|spans| - 1].1 * Second);
      if span.end > span.start && (|front| == 0 || span.start >= front[|front| - 1].end) then front + [span] else front
  }

  /** The log a hub kept; a span that was going on ended when the hub last kept its file. */
  function Load(s: Stored, lastSeen: int, now: int): Log {
    var spans := Loaded(s.spans);
    var closed := if s.since > 0 then Pruned(Closed(spans, s.since * Second, lastSeen), now) else spans;
    Log(Pruned(closed, now), None)
  }

  method LoadSpans(stored: seq<(int, int)>) returns (spans: seq<Span>)
    ensures spans == Loaded(stored)
  {
    spans := [];
    for i := 0 to |stored|
      invariant spans == Loaded(stored[..i])
    {
      assert stored[..i + 1][..i] == stored[..i];
      var start, end := stored[i].0 * Second, stored[i].1 * Second;
      if end > start && (|spans| == 0 || start >= spans[|spans| - 1].end) {
        spans := spans + [Span(start, end)];
      }
    }
    assert stored[..|stored|] == stored;
  }

  method LoadLog(s: Stored, lastSeen: int, now: int) returns (log: WorkLog)
    ensures fresh(log) && log.View() == Load(s, lastSeen, now)
  {
    log := new WorkLog();
    log.spans := LoadSpans(s.spans);
    if s.since > 0 {
      log.since := Some(s.since * Second);
      log.End(lastSeen, now);
    }
    log.Prune(now);
  }
}
