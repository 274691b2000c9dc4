/** What a work log that was stored and loaded answers: its spans lost the parts of seconds. */
module WorkStorage {
  import opened Options
  import opened WorkLog

  function Floor(at: int): int {
    at / Second * Second
  }

  /** The span as the file has it; it is left out when nothing of it is left. */
  function Floored(span: Span): Span {
    Span(Floor(span.start), Floor(span.end))
  }

  function FlooredTotal(spans: seq<Span>, from: int, to: int): int {
    if |spans| == 0 then 0
    else FlooredTotal(spans[..|spans| - 1], from, to) + Overlap(Floored(spans[|spans| - 1]), from, to)
  }

  function StoredSpans(spans: seq<Span>): seq<(int, int)> {
    StoredLog(Log(spans, None)).spans
  }

  lemma StoredFront(spans: seq<Span>)
    requires |spans| > 0
    ensures var n := |spans| - 1;
      && |StoredSpans(spans)| == n + 1 && StoredSpans(spans)[..n] == StoredSpans(spans[..n])
      && StoredSpans(spans)[n] == (spans[n].start / Second, spans[n].end / Second)
  {
  }

  lemma FloorAt(a: int, b: int)
    ensures Floor(a) <= a < Floor(a) + Second
    ensures a <= b ==> Floor(a) <= Floor(b)
    ensures a % Second == 0 <==> Floor(a) == a
    ensures Floor(a) < Floor(b) ==> Floor(a) + Second <= Floor(b)
  {
  }

  // ---- What is loaded ----

  /** Whatever a file says, the spans loaded of it are sorted. */
  lemma {:induction false} LoadedSorted(spans: seq<(int, int)>)
    ensures Sorted(Loaded(spans))
  {
    if |spans| > 0 {
      LoadedSorted(spans[..|spans| - 1]);
    }
  }

  ghost predicate EndBy(spans: seq<Span>, at: int) {
    forall i :: 0 <= i < |spans| ==> spans[i].end <= at
  }

  /** They stay so with the span that was going on exactly when that begins no earlier than they end,
      or ends before it begins. */
  lemma ClosedSortedExactly(spans: seq<Span>, since: int, end: int)
    requires Sorted(spans)
    ensures Sorted(Closed(spans, since, end)) <==>
      end <= since || EndBy(spans, since)
  {
    var closed := Closed(spans, since, end);
    if end > since {
      assert closed[|spans|] == Span(since, end);
      assert forall i :: 0 <= i < |spans| ==> closed[i] == spans[i];
    }
  }

  lemma PrunedSorted(spans: seq<Span>, now: int)
    requires Sorted(spans)
    ensures Sorted(Pruned(spans, now))
  {
  }

  /** A log that is loaded from any file whose open span begins after the others ended answers with
      times that fit the day and the week. */
  lemma LoadedFits(s: Stored, lastSeen: int, now: int, later: int)
    requires s.since > 0 ==> lastSeen <= s.since * Second || EndBy(Loaded(s.spans), s.since * Second)
    ensures var log := Load(s, lastSeen, now);
      var work := At(log.spans, log.since, later);
      Sorted(log.spans) && 0 <= work.day <= 86400 && work.day <= work.week <= 604800
  {
    hide Pruned, Loaded, Closed, Sorted, EndBy;
    LoadedSorted(s.spans);
    if s.since > 0 {
      var spans, since := Loaded(s.spans), s.since * Second;
      ClosedSortedExactly(spans, since, lastSeen);
      assert Sorted(Closed(spans, since, lastSeen));
      PrunedSorted(Closed(spans, since, lastSeen), now);
      PrunedSorted(Pruned(Closed(spans, since, lastSeen), now), now);
    } else {
      PrunedSorted(Loaded(s.spans), now);
    }
    WorkFits(Load(s, lastSeen, now), later);
  }

  /** What is loaded of a stored log are its spans in whole seconds, without those in one second. */
  lemma {:induction false} LoadedAre(spans: seq<Span>, from: int, to: int)
    requires Sorted(spans)
    ensures var loaded := Loaded(StoredSpans(spans));
      && Total(loaded, from, to) == FlooredTotal(spans, from, to) && |loaded| <= |spans|
      && (|loaded| > 0 ==> |spans| > 0 && loaded[|loaded| - 1].end <= Floor(spans[|spans| - 1].end))
  {
    if |spans| > 0 {
      hide StoredSpans, Sorted, Overlap, Floored, Floor, Total, Loaded, FlooredTotal;
      TotalLast(spans, from, to);
      var n := |spans| - 1;
      var front := Loaded(StoredSpans(spans[..n]));
      SortedFront(spans);
      LoadedAre(spans[..n], from, to);
      StoredFront(spans);
      LoadedNext(front, if n > 0 then spans[n - 1].end else spans[n].start, spans[n], from, to);
      LoadedLast(spans);
    }
  }

  lemma SortedFront(spans: seq<Span>)
    requires Sorted(spans) && |spans| > 0
    ensures var n := |spans| - 1;
      Sorted(spans[..n]) && spans[n].start < spans[n].end && (n > 0 ==> spans[n - 1].end <= spans[n].start)
  {
  }

  /** What the last span adds. */
  lemma LoadedLast(spans: seq<Span>)
    requires |spans| > 0
    ensures var n := |spans| - 1;
      var front, span := Loaded(StoredSpans(spans[..n])), Floored(spans[n]);
      Loaded(StoredSpans(spans)) ==
        if span.end > span.start && (|front| == 0 || span.start >= front[|front| - 1].end) then front + [span]
          else front
  {
    hide StoredSpans;
    StoredFront(spans);
  }

  lemma LoadedNext(front: seq<Span>, last: int, next: Span, from: int, to: int)
    requires last <= next.start < next.end && (|front| > 0 ==> front[|front| - 1].end <= Floor(last))
    ensures var span := Floored(next);
      && (|front| > 0 ==> front[|front| - 1].end <= span.start) && span.start <= span.end == Floor(next.end)
      && Total(front + [span], from, to) == Total(front, from, to) + Overlap(span, from, to)
      && (span.end <= span.start ==> Overlap(span, from, to) == 0)
  {
    FloorAt(next.start, next.end);
    FloorAt(last, next.start);
    assert (front + [Floored(next)])[..|front|] == front;
  }

  // ---- A span ----

  /** The span answers the same in whole seconds, for every time from week on: one that began since
      is of whole seconds, or within one second; of an older one at most the end counts. */
  predicate KeptSpan(span: Span, week: int) {
    if Floor(span.start) >= week then
      (span.start % Second == 0 && span.end % Second == 0) || Floor(span.start) == Floor(span.end)
    else
      span.end % Second == 0 || span.end - Second < Max(span.start, week)
  }

  lemma SpanKept(span: Span, week: int, from: int, to: int)
    requires span.start < span.end <= to && KeptSpan(span, week) && from >= week
    ensures Overlap(span, from, to) == Overlap(Floored(span), from, to)
  {
    FloorAt(span.start, span.end);
    FloorAt(span.end, span.end);
    FloorAt(from, span.end);
    if Floor(span.start) >= week {
    } else if span.end % Second == 0 {
      if from < span.start {
        SameSeconds(span.end, span.start, from);
      }
    }
  }

  /** From a time in the second in which the span begins to its end, in whole seconds. */
  lemma SameSeconds(end: int, start: int, from: int)
    requires end % Second == 0 && Floor(start) < from <= start < end
    ensures (end - from) / Second == (end - start) / Second
  {
  }

  /** A time from which the span answers differently, when nothing before it counts any more. */
  lemma SpanDiffers(span: Span, week: int) returns (from: int)
    requires span.start < span.end && !KeptSpan(span, week)
    ensures week <= from < span.end && from >= Floor(span.start)
    ensures forall to :: to >= span.end ==> Overlap(span, from, to) != Overlap(Floored(span), from, to)
  {
    FloorAt(span.start, span.end);
    FloorAt(span.end, span.end);
    if span.end % Second != 0 && span.end - Second >= Max(span.start, week) {
      from := span.end - Second;
    } else {
      from := Floor(span.start);
    }
  }

  lemma BeforeCountsNothing(span: Span, next: int, from: int, to: int)
    requires span.start < span.end <= next && from >= Floor(next)
    ensures Overlap(span, from, to) == 0 == Overlap(Floored(span), from, to)
  {
    FloorAt(span.end, next);
    FloorAt(next, next);
    FloorAt(span.start, span.end);
  }

  // ---- The log ----

  ghost predicate AllKept(spans: seq<Span>, week: int) {
    forall i :: 0 <= i < |spans| ==> KeptSpan(spans[i], week)
  }

  lemma {:induction false} KeptTotal(spans: seq<Span>, week: int, from: int, to: int)
    requires Sorted(spans) && AllKept(spans, week) && from >= week && (|spans| > 0 ==> spans[|spans| - 1].end <= to)
    ensures Total(spans, from, to) == FlooredTotal(spans, from, to)
  {
    if |spans| > 0 {
      hide KeptSpan, Overlap, Floored;
      var n := |spans| - 1;
      assert n > 0 ==> spans[n - 1].end <= spans[n].start;
      KeptTotal(spans[..n], week, from, to);
      SpanKept(spans[n], week, from, to);
    }
  }

  lemma {:induction false} NothingBefore(spans: seq<Span>, next: int, from: int, to: int)
    requires Sorted(spans) && (|spans| > 0 ==> spans[|spans| - 1].end <= next) && from >= Floor(next)
    ensures Total(spans, from, to) == 0 == FlooredTotal(spans, from, to)
  {
    if |spans| > 0 {
      hide Overlap, Floored;
      var n := |spans| - 1;
      assert n > 0 ==> spans[n - 1].end <= spans[n].start;
      NothingBefore(spans[..n], next, from, to);
      BeforeCountsNothing(spans[n], next, from, to);
    }
  }

  /** The last span that isn't kept makes a difference at some time. */
  lemma {:induction false} TotalDiffers(spans: seq<Span>, week: int) returns (from: int)
    requires Sorted(spans) && !AllKept(spans, week)
    ensures from >= week
    ensures forall to :: |spans| > 0 && to >= spans[|spans| - 1].end ==>
      Total(spans, from, to) != FlooredTotal(spans, from, to)
  {
    hide KeptSpan, Overlap, Floored, Total, FlooredTotal;
    var n := |spans| - 1;
    assert n > 0 ==> spans[n - 1].end <= spans[n].start;
    if !KeptSpan(spans[n], week) {
      from := SpanDiffers(spans[n], week);
      forall to | to >= spans[n].end ensures Total(spans, from, to) != FlooredTotal(spans, from, to) {
        NothingBefore(spans[..n], spans[n].start, from, to);
        TotalLast(spans, from, to);
      }
    } else {
      from := TotalDiffers(spans[..n], week);
      forall to | to >= spans[n].end ensures Total(spans, from, to) != FlooredTotal(spans, from, to) {
        SpanKept(spans[n], week, from, to);
        TotalLast(spans, from, to);
      }
    }
  }

  lemma {:induction false} TotalLast(spans: seq<Span>, from: int, to: int)
    requires |spans| > 0
    ensures var n := |spans| - 1;
      && Total(spans, from, to) == Total(spans[..n], from, to) + Overlap(spans[n], from, to)
      && FlooredTotal(spans, from, to) == FlooredTotal(spans[..n], from, to) + Overlap(Floored(spans[n]), from, to)
  {
  }

  /** What the log answers at a time after it was stored and loaded. */
  lemma LoadedAt(log: Log, before: int, lastSeen: int, now: int, later: int)
    requires Ok(log, before) && log.since == None && before <= now <= later
    ensures At(Load(StoredLog(log), lastSeen, now).spans, None, later) ==
      WorkTime(FlooredTotal(log.spans, later - Day, later), FlooredTotal(log.spans, later - Week, later), None)
  {
    hide Pruned, Loaded, StoredSpans, Total, FlooredTotal, Few, Rest;
    assert log == Log(log.spans, None);
    assert StoredLog(log).spans == StoredSpans(log.spans) by {
      IsStored(log);
    }
    var loaded := Loaded(StoredSpans(log.spans));
    LoadedSorted(StoredSpans(log.spans));
    LoadedAre(log.spans, later - Day, later);
    LoadedAre(log.spans, later - Week, later);
    NothingForgotten(loaded, now);
    RestAt(loaded, Pruned(loaded, now), now - Week, None, later);
  }

  lemma IsStored(log: Log)
    requires log.since == None
    ensures StoredLog(log).spans == StoredSpans(log.spans) && StoredLog(log).since == 0
  {
    assert log == Log(log.spans, None);
  }

  lemma NothingForgotten(spans: seq<Span>, now: int)
    requires Sorted(spans) && |spans| <= MaxSpans
    ensures Rest(spans, Pruned(spans, now), now - Week)
  {
    PrunedRest(spans, spans, now - Week, now);
  }

  /** A log without a span going on that was stored and loaded answers as before, now and at every
      later time, exactly when each of its spans is of whole seconds or within one second, but for
      those that began over a week ago, of which at most the end counts. */
  lemma StoringMakesNoDifferenceExactly(log: Log, before: int, lastSeen: int, now: int)
    requires Ok(log, before) && log.since == None && before <= now
    ensures (forall later :: later >= now ==>
        At(Load(StoredLog(log), lastSeen, now).spans, None, later) == At(log.spans, None, later))
      <==> AllKept(log.spans, now - Week)
  {
    hide KeptSpan, Load, StoredLog, Total, FlooredTotal, Floored, Overlap;
    var week := now - Week;
    if AllKept(log.spans, week) {
      forall later | later >= now
        ensures At(Load(StoredLog(log), lastSeen, now).spans, None, later) == At(log.spans, None, later)
      {
        LoadedAt(log, before, lastSeen, now, later);
        KeptTotal(log.spans, week, later - Day, later);
        KeptTotal(log.spans, week, later - Week, later);
      }
    } else {
      var from := TotalDiffers(log.spans, week);
      var later := from + Week;
      LoadedAt(log, before, lastSeen, now, later);
      assert At(log.spans, None, later).week == Total(log.spans, from, later);
      assert At(Load(StoredLog(log), lastSeen, now).spans, None, later) != At(log.spans, None, later);
    }
  }

  ghost predicate Whole(spans: seq<Span>) {
    forall i :: 0 <= i < |spans| ==> spans[i].start % Second == 0 && spans[i].end % Second == 0
  }

  /** So does every log of whole seconds. */
  lemma StoringMakesNoDifference(log: Log, before: int, lastSeen: int, now: int, later: int)
    requires Ok(log, before) && log.since == None && Whole(log.spans) && before <= now <= later
    ensures At(Load(StoredLog(log), lastSeen, now).spans, None, later) == At(log.spans, None, later)
  {
    hide Load, StoredLog, Total;
    StoringMakesNoDifferenceExactly(log, before, lastSeen, now);
  }
}
