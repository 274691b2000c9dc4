/** The work time is that for which the agent was seen working, by what was reported of it. */
module WorkTimes {
  import opened Options
  import opened WorkLog

  // ---- When it worked ----

  /** The reports i to j - 1, and no others beside them, say that it works. */
  ghost predicate Streak(reports: seq<Report>, i: int, j: int) {
    && 0 <= i < j <= |reports|
    && (forall k :: i <= k < j ==> reports[k].working)
    && (i > 0 ==> !reports[i - 1].working) && (j < |reports| ==> !reports[j].working)
  }

  /** It worked at x: between the report that it does and the one that it doesn't any more, which
      counts only as far as its stream was heard. */
  ghost predicate WorkedAt(reports: seq<Report>, x: int) {
    exists i, j :: Streak(reports, i, j) && j < |reports| && Spans(reports[i], reports[j], x)
  }

  predicate Spans(first: Report, last: Report, x: int) {
    first.now <= x < last.now && (last.heard.Some? ==> x < last.heard.value)
  }

  ghost predicate Covered(spans: seq<Span>, x: int) {
    exists k :: 0 <= k < |spans| && spans[k].start <= x < spans[k].end
  }

  lemma ClosedCovers(spans: seq<Span>, since: int, end: int, x: int)
    ensures Covered(Closed(spans, since, end), x) <==> Covered(spans, x) || since <= x < end
  {
    var closed := Closed(spans, since, end);
    if Covered(spans, x) {
      var k :| 0 <= k < |spans| && spans[k].start <= x < spans[k].end;
      assert closed[k] == spans[k];
    }
    if since <= x < end {
      assert closed[|spans|] == Span(since, end);
    }
  }

  /** The span going on began with the reports that it works which nothing ended yet. */
  lemma {:induction false} SinceIs(reports: seq<Report>) returns (i: int)
    ensures var log := FullRun(reports);
      && (log.since.Some? <==> |reports| > 0 && reports[|reports| - 1].working)
      && (log.since.Some? ==> Streak(reports, i, |reports|) && log.since.value == reports[i].now)
  {
    i := -1;
    if |reports| > 0 {
      var n := |reports| - 1;
      var front := reports[..n];
      i := SinceIs(front);
      if reports[n].working && FullRun(front).since.None? {
        i := n;
      }
    }
  }

  lemma StreakFront(reports: seq<Report>, i: int, j: int)
    requires |reports| > 0
    ensures j < |reports| - 1 ==> (Streak(reports, i, j) <==> Streak(reports[..|reports| - 1], i, j))
    ensures !reports[|reports| - 1].working ==>
      (Streak(reports, i, |reports| - 1) <==> Streak(reports[..|reports| - 1], i, |reports| - 1))
  {
    var n := |reports| - 1;
    var front := reports[..n];
    assert forall k :: 0 <= k < n ==> front[k] == reports[k];
  }

  lemma OneStreak(reports: seq<Report>, a: int, b: int, j: int)
    requires Streak(reports, a, j) && Streak(reports, b, j)
    ensures a == b
  {
    NoneWorksBefore(reports, a, j);
    NoneWorksBefore(reports, b, j);
  }

  lemma NoneWorksBefore(reports: seq<Report>, a: int, j: int)
    requires Streak(reports, a, j)
    ensures forall b :: b > a ==> !Streak(reports, b, j)
  {
    forall b | a < b < j ensures !Streak(reports, b, j) {
      assert reports[b - 1].working;
    }
  }

  /** One more report ends the work that goes on, if it says that it doesn't work. */
  lemma WorkedMore(reports: seq<Report>, i: int, x: int)
    requires |reports| > 0
    requires var front := reports[..|reports| - 1];
      |front| > 0 && front[|front| - 1].working ==> Streak(front, i, |front|)
    ensures var n := |reports| - 1;
      WorkedAt(reports, x) <==>
        (WorkedAt(reports[..n], x)
          || (!reports[n].working && n > 0 && reports[n - 1].working && Spans(reports[i], reports[n], x)))
  {
    var n := |reports| - 1;
    var front := reports[..n];
    forall a, b | Streak(front, a, b) && b < n && Spans(front[a], front[b], x) ensures WorkedAt(reports, x) {
      StreakFront(reports, a, b);
      assert Spans(reports[a], reports[b], x);
    }
    forall a, b | Streak(reports, a, b) && b < n && Spans(reports[a], reports[b], x) ensures WorkedAt(front, x) {
      StreakFront(reports, a, b);
      assert Spans(front[a], front[b], x);
    }
    if !reports[n].working && n > 0 && reports[n - 1].working {
      StreakFront(reports, i, n);
      assert Spans(reports[i], reports[n], x) ==> WorkedAt(reports, x);
      forall a | Streak(reports, a, n) ensures a == i {
        OneStreak(reports, a, i, n);
      }
    }
  }

  /** The spans of the whole history cover exactly the times at which it worked. */
  lemma {:induction false} CoversExactly(reports: seq<Report>, x: int)
    ensures Covered(FullRun(reports).spans, x) <==> WorkedAt(reports, x)
  {
    if |reports| > 0 {
      hide Covered, WorkedAt, FullRun, Streak;
      var n := |reports| - 1;
      var front, r := reports[..n], reports[n];
      CoversExactly(front, x);
      var i := SinceIs(front);
      WorkedMore(reports, i, x);
      FullNext(reports);
      if !r.working && FullRun(front).since.Some? {
        ClosedCovers(FullRun(front).spans, FullRun(front).since.value, EndOf(r.now, r.heard), x);
      }
    } else {
      assert FullRun(reports).spans == [];
    }
  }

  lemma FullNext(reports: seq<Report>)
    requires |reports| > 0
    ensures FullRun(reports) == FullTracked(FullRun(reports[..|reports| - 1]), reports[|reports| - 1])
  {
  }

  // ---- For how long ----

  predicate Within(lo: int, x: int, hi: int) {
    lo <= x < hi
  }

  ghost function Interval(lo: int, hi: int): set<int> {
    set x | lo <= x < hi && Within(lo, x, hi)
  }

  /** The part of the span between from and to. */
  ghost function Part(span: Span, from: int, to: int): set<int> {
    Interval(if span.start < from then from else span.start, if span.end > to then to else span.end)
  }

  lemma {:induction false} IntervalSize(lo: int, hi: int)
    ensures |Interval(lo, hi)| == if lo < hi then hi - lo else 0
    decreases hi - lo
  {
    if lo < hi {
      IntervalSize(lo, hi - 1);
      assert Interval(lo, hi) == Interval(lo, hi - 1) + {hi - 1};
    } else {
      assert Interval(lo, hi) == {};
    }
  }

  /** The times between from and to that the spans cover. */
  ghost function Times(spans: seq<Span>, from: int, to: int): set<int> {
    set x | x in Interval(from, to) && Covered(spans, x)
  }

  /** A span counts by its whole seconds. */
  lemma OverlapSeconds(span: Span, from: int, to: int)
    ensures Overlap(span, from, to) * Second <= |Part(span, from, to)| < (Overlap(span, from, to) + 1) * Second
  {
    var lo, hi := if span.start < from then from else span.start, if span.end > to then to else span.end;
    IntervalSize(lo, hi);
  }

  lemma TimesLast(spans: seq<Span>, from: int, to: int)
    requires |spans| > 0 && Sorted(spans)
    ensures var n := |spans| - 1;
      var part := Part(spans[n], from, to);
      Times(spans, from, to) == Times(spans[..n], from, to) + part && Times(spans[..n], from, to) !! part
  {
    var n := |spans| - 1;
    forall x ensures Covered(spans, x) <==> Covered(spans[..n], x) || spans[n].start <= x < spans[n].end {
      if Covered(spans[..n], x) {
        var k :| 0 <= k < n && spans[..n][k].start <= x < spans[..n][k].end;
        assert spans[k] == spans[..n][k];
      }
      if Covered(spans, x) && !(spans[n].start <= x < spans[n].end) {
        var k :| 0 <= k < |spans| && spans[k].start <= x < spans[k].end;
        assert spans[..n][k] == spans[k];
      }
    }
    forall x | Covered(spans[..n], x) ensures x < spans[n].start {
      var k :| 0 <= k < n && spans[..n][k].start <= x < spans[..n][k].end;
      assert spans[k].end <= spans[n].start;
    }
  }

  /** What the spans add up to is the time they cover, but for less than a second of each. */
  lemma {:induction false} TotalIsTime(spans: seq<Span>, from: int, to: int)
    requires Sorted(spans)
    ensures Total(spans, from, to) * Second <= |Times(spans, from, to)|
    ensures |Times(spans, from, to)| <= Total(spans, from, to) * Second + |spans| * (Second - 1)
  {
    if |spans| > 0 {
      var n := |spans| - 1;
      hide Sorted, Times, Overlap, Part;
      assert Sorted(spans[..n]) by { SortedPart(spans); }
      TotalIsTime(spans[..n], from, to);
      TimesLast(spans, from, to);
      OverlapSeconds(spans[n], from, to);
    } else {
      assert Times(spans, from, to) == {};
    }
  }

  lemma SortedPart(spans: seq<Span>)
    requires Sorted(spans) && |spans| > 0
    ensures Sorted(spans[..|spans| - 1])
  {
  }

  /** The times between from and to at which it worked. */
  ghost function WorkedTimes(reports: seq<Report>, from: int, to: int): set<int> {
    set x | x in Interval(from, to) && WorkedAt(reports, x)
  }

  lemma RestTimes(full: seq<Span>, spans: seq<Span>, past: int, from: int, to: int)
    requires Rest(full, spans, past) && past <= from
    ensures Times(full, from, to) == Times(spans, from, to)
  {
    var gone := |full| - |spans|;
    forall x | x >= from ensures Covered(full, x) <==> Covered(spans, x) {
      if Covered(full, x) {
        var k :| 0 <= k < |full| && full[k].start <= x < full[k].end;
        assert spans[k - gone] == full[k];
      }
      if Covered(spans, x) {
        var k :| 0 <= k < |spans| && spans[k].start <= x < spans[k].end;
        assert full[k + gone] == spans[k];
      }
    }
  }

  /** The work time of the day, and of the week, is the time in it at which the reports say that the
      instance worked, but for less than a second of each span kept; as long as no week holds more
      spans than are kept. */
  lemma WorkTimeIs(reports: seq<Report>, now: int)
    requires InTime(reports) && AlwaysFew(reports) && |reports| > 0 && reports[|reports| - 1].now <= now
    ensures var log := Run(reports);
      var work := At(log.spans, log.since, now);
      && Near(work.day, |WorkedTimes(reports, now - Day, now)|, |log.spans|)
      && Near(work.week, |WorkedTimes(reports, now - Week, now)|, |log.spans|)
      && (work.since.Some? <==> reports[|reports| - 1].working)
  {
    hide Covered, WorkedAt, FullRun, Run, Rest, Ok;
    KeepsRest(reports);
    RunOk(reports);
    var i := SinceIs(reports);
    SameTimes(reports, now, now - Day);
    SameTimes(reports, now, now - Week);
    assert Sorted(Run(reports).spans) by { OkSorted(Run(reports), reports[|reports| - 1].now); }
    TotalIsTime(Run(reports).spans, now - Day, now);
    TotalIsTime(Run(reports).spans, now - Week, now);
  }

  /** So many seconds are the time, but for less than one of each of n spans. */
  predicate Near(seconds: int, time: int, n: int) {
    seconds * Second <= time <= seconds * Second + n * (Second - 1)
  }

  lemma OkSorted(log: Log, now: int)
    requires Ok(log, now)
    ensures Sorted(log.spans)
  {
  }

  lemma SameTimes(reports: seq<Report>, now: int, from: int)
    requires InTime(reports) && AlwaysFew(reports) && |reports| > 0 && reports[|reports| - 1].now <= now
    requires now - Week <= from
    ensures WorkedTimes(reports, from, now) == Times(Run(reports).spans, from, now)
  {
    hide WorkedAt, Covered, FullRun, Run, Rest;
    KeepsRest(reports);
    RestTimes(FullRun(reports).spans, Run(reports).spans, reports[|reports| - 1].now - Week, from, now);
    forall x ensures WorkedAt(reports, x) <==> Covered(FullRun(reports).spans, x) {
      CoversExactly(reports, x);
    }
  }
}
