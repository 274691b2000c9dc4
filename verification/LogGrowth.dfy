/** However a log grows between the reads, its reader hears what one read of the
    whole log gives, if and only if nothing on a line follows a JSON value on it. */
module LogGrowth {
  import opened Conversation
  import opened LogFeed

  /** What is kept of a log between reads: what its reader heard, and how far it was read. */
  datatype Place = Place(h: Heard, offset: nat)

  const Start := Place(Heard([], true), 0)

  /** A read of the log, which has grown to d. */
  function Next(p: Place, d: seq<byte>, valid: seq<byte> -> bool, more: seq<seq<byte>> -> bool): (q: Place)
    requires p.offset <= |d|
    ensures q.offset <= |d|
  {
    if !p.h.wants then p
    else
      var r := Feed(d[p.offset..], p.h, valid, more);
      Place(r.0, p.offset + r.1)
  }

  /** Each of the files is the start of the next, and the last of them is log. */
  predicate Grows(files: seq<seq<byte>>, log: seq<byte>) {
    if |files| == 0 then log == []
    else files[|files| - 1] == log && GrowsTo(files, log)
  }

  predicate GrowsTo(files: seq<seq<byte>>, log: seq<byte>) {
    |files| == 0 || (files[|files| - 1] <= log && GrowsTo(files[..|files| - 1], files[|files| - 1]))
  }

  /** The reads of the files, one after the other. */
  function Reads(files: seq<seq<byte>>, valid: seq<byte> -> bool, more: seq<seq<byte>> -> bool): (p: Place)
    requires files != [] ==> GrowsTo(files, files[|files| - 1])
    ensures p.offset <= if files == [] then 0 else |files[|files| - 1]|
  {
    if |files| == 0 then Start
    else
      var n := |files| - 1;
      Shorter(files);
      Next(Reads(files[..n], valid, more), files[n], valid, more)
  }

  lemma Shorter(files: seq<seq<byte>>)
    requires files != [] && GrowsTo(files, files[|files| - 1])
    ensures var n := |files| - 1; n > 0 ==> GrowsTo(files[..n], files[n - 1]) && files[n - 1] <= files[n]
  {
    var n := |files| - 1;
    if n > 0 {
      assert files[..n][n - 1] == files[n - 1];
    }
  }

  /** Once a JSON value is read of a line of up to limit bytes, only space follows it on the line. */
  ghost predicate LineOk(line: seq<byte>, limit: int, valid: seq<byte> -> bool) {
    forall n :: 0 <= n <= |line| && n <= MaxLineLength && valid(Trim(line[..n])) ==>
      AllBlank(line[n..]) && |line| <= limit
  }

  /** A line with its newline can be as long as MaxLineLength. */
  ghost predicate LinesOk(d: seq<byte>, valid: seq<byte> -> bool) {
    var k := NewlineAt(d);
    if k < 0 then LineOk(d, MaxLineLength, valid)
    else LineOk(d[..k], MaxLineLength - 1, valid) && LinesOk(d[k + 1..], valid)
  }

  // ---- Trimming ----

  lemma {:induction false} TrimRightBlank(s: seq<byte>, blank: seq<byte>)
    requires AllBlank(blank)
    ensures TrimRight(s + blank) == TrimRight(s)
    decreases |blank|
  {
    if |blank| == 0 {
      assert s + blank == s;
    } else {
      var n := |blank| - 1;
      assert (s + blank)[..|s| + n] == s + blank[..n];
      TrimRightBlank(s, blank[..n]);
    }
  }

  lemma BlankTrims(blank: seq<byte>)
    requires AllBlank(blank)
    ensures Trim(blank) == []
  {
    TrimRightBlank([], blank);
    assert [] + blank == blank;
  }

  /** Space after n bytes of a line changes nothing of what is trimmed of it. */
  lemma TrimSame(line: seq<byte>, n: nat)
    requires n <= |line| && AllBlank(line[n..])
    ensures Trim(line[..n]) == Trim(line) && Trim(line[n..]) == []
  {
    TrimRightBlank(line[..n], line[n..]);
    assert line[..n] + line[n..] == line;
    BlankTrims(line[n..]);
  }

  // ---- One more read ----

  /** A blank line is as good as any. */
  lemma BlankLineOk(line: seq<byte>, limit: int, valid: seq<byte> -> bool)
    requires AllBlank(line) && !valid([])
    ensures LineOk(line, limit, valid)
  {
    forall n | 0 <= n <= |line| ensures !valid(Trim(line[..n])) {
      BlankTrims(line[..n]);
    }
  }

  /** The read of d1, and then of what d2 has past it, is the read of d2. */
  ghost predicate Continues(d1: seq<byte>, d2: seq<byte>, h: Heard, valid: seq<byte> -> bool,
      more: seq<seq<byte>> -> bool)
    requires d1 <= d2 && h.wants
  {
    var r := Feed(d1, h, valid, more);
    var whole := Feed(d2, h, valid, more).0;
    if r.0.wants then LinesOk(d2[r.1..], valid) && Feed(d2[r.1..], r.0, valid, more).0 == whole
    else whole == r.0
  }

  lemma {:induction false} ReadOn(d1: seq<byte>, d2: seq<byte>, h: Heard, valid: seq<byte> -> bool,
      more: seq<seq<byte>> -> bool)
    requires d1 <= d2 && h.wants && LinesOk(d2, valid) && !valid([])
    ensures Continues(d1, d2, h, valid, more)
    decreases |d1|
  {
    var k := NewlineAt(d1);
    if k < 0 {
      ReadOnRest(d1, d2, h, valid, more);
    } else {
      FirstNewline(d2, k);
      var line := d1[..k];
      assert d2[..k] == line && d1[k + 1..] <= d2[k + 1..];
      var next := Hear(h, LineRead(line), more);
      if next.wants {
        ReadOn(d1[k + 1..], d2[k + 1..], next, valid, more);
        ReadOnLine(d1, d2, k, h, valid, more);
      }
    }
  }

  lemma FeedStep(d: seq<byte>, h: Heard, valid: seq<byte> -> bool, more: seq<seq<byte>> -> bool)
    requires h.wants && NewlineAt(d) >= 0
    ensures var k := NewlineAt(d);
      var next := Hear(h, LineRead(d[..k]), more);
      next.wants ==>
        var rest := Feed(d[k + 1..], next, valid, more);
        Feed(d, h, valid, more) == (rest.0, k + 1 + rest.1)
  {
  }

  lemma ReadOnLine(d1: seq<byte>, d2: seq<byte>, k: nat, h: Heard, valid: seq<byte> -> bool,
      more: seq<seq<byte>> -> bool)
    requires d1 <= d2 && h.wants && k == NewlineAt(d1) == NewlineAt(d2) && d1[..k] == d2[..k]
    requires d1[k + 1..] <= d2[k + 1..]
    requires var next := Hear(h, LineRead(d1[..k]), more);
      next.wants && Continues(d1[k + 1..], d2[k + 1..], next, valid, more)
    ensures Continues(d1, d2, h, valid, more)
  {
    hide LineRead, Hear, Feed, LinesOk, NewlineAt;
    var next := Hear(h, LineRead(d1[..k]), more);
    var r := Feed(d1[k + 1..], next, valid, more);
    FeedStep(d1, h, valid, more);
    FeedStep(d2, h, valid, more);
    assert d2[k + 1..][r.1..] == d2[k + 1 + r.1..];
  }

  /** d1 ends without a newline. */
  lemma ReadOnRest(d1: seq<byte>, d2: seq<byte>, h: Heard, valid: seq<byte> -> bool, more: seq<seq<byte>> -> bool)
    requires d1 <= d2 && h.wants && NewlineAt(d1) < 0 && LinesOk(d2, valid) && !valid([])
    ensures Continues(d1, d2, h, valid, more)
  {
    if d1 != [] && |d1| <= MaxLineLength && valid(Trim(d1)) {
      NoNewlineAt(d2, |d1|);
      assert d2[..|d1|] == d1;
      if NewlineAt(d2) < 0 {
        ReadOnEnd(d2, |d1|, h, valid, more);
      } else {
        ReadOnValue(d2, |d1|, NewlineAt(d2), h, valid, more);
      }
    } else {
      assert d2[0..] == d2;
    }
  }

  lemma ReadOnEnd(d2: seq<byte>, n: nat, h: Heard, valid: seq<byte> -> bool, more: seq<seq<byte>> -> bool)
    requires 0 < n <= |d2| && h.wants && NewlineAt(d2) < 0 && NewlineAt(d2[n..]) < 0
    requires LineOk(d2, MaxLineLength, valid) && !valid([]) && n <= MaxLineLength && valid(Trim(d2[..n]))
    ensures LinesOk(d2[n..], valid)
    ensures var next := Hear(h, Trim(d2[..n]), more);
      Feed(d2, h, valid, more).0 == if next.wants then Feed(d2[n..], next, valid, more).0 else next
  {
    hide Trim, Hear;
    TrimSame(d2, n);
    BlankLineOk(d2[n..], MaxLineLength, valid);
  }

  lemma ReadOnValue(d2: seq<byte>, n: nat, k: nat, h: Heard, valid: seq<byte> -> bool, more: seq<seq<byte>> -> bool)
    requires 0 < n <= |d2| && h.wants && k == NewlineAt(d2) && n <= k && NewlineAt(d2[n..]) == k - n
    requires LinesOk(d2, valid) && !valid([]) && n <= MaxLineLength && valid(Trim(d2[..n]))
    ensures LinesOk(d2[n..], valid)
    ensures var next := Hear(h, Trim(d2[..n]), more);
      Feed(d2, h, valid, more).0 == if next.wants then Feed(d2[n..], next, valid, more).0 else next
  {
    hide Trim, Hear, Feed;
    assert d2[..k][..n] == d2[..n];
    TrimSame(d2[..k], n);
    assert d2[n..][..k - n] == d2[..k][n..] && d2[n..][k - n + 1..] == d2[k + 1..];
    BlankLineOk(d2[n..][..k - n], MaxLineLength - 1, valid);
    RestOfValue(d2, n, k, h, valid, more);
  }

  /** What is left of the line of a value that was read is skipped. */
  lemma RestOfValue(d2: seq<byte>, n: nat, k: nat, h: Heard, valid: seq<byte> -> bool, more: seq<seq<byte>> -> bool)
    requires 0 < n <= k == NewlineAt(d2) && NewlineAt(d2[n..]) == k - n && h.wants
    requires d2[n..][k - n + 1..] == d2[k + 1..]
    requires Trim(d2[n..][..k - n]) == [] && Trim(d2[..n]) == Trim(d2[..k]) && k < MaxLineLength
    ensures var next := Hear(h, Trim(d2[..n]), more);
      Feed(d2, h, valid, more).0 == if next.wants then Feed(d2[n..], next, valid, more).0 else next
  {
    hide Trim;
  }

  // ---- All the reads ----

  /** What the rest of the log gives the reader is what all of it would have. */
  ghost predicate OnTrack(p: Place, log: seq<byte>, valid: seq<byte> -> bool, more: seq<seq<byte>> -> bool)
    requires p.offset <= |log|
  {
    var whole := Feed(log, Start.h, valid, more).0;
    if p.h.wants then LinesOk(log[p.offset..], valid) && Feed(log[p.offset..], p.h, valid, more).0 == whole
    else whole == p.h
  }

  lemma NextOnTrack(p: Place, d: seq<byte>, log: seq<byte>, valid: seq<byte> -> bool, more: seq<seq<byte>> -> bool)
    requires p.offset <= |d| && d <= log && OnTrack(p, log, valid, more) && !valid([])
    ensures OnTrack(Next(p, d, valid, more), log, valid, more)
  {
    hide Feed, LinesOk;
    if p.h.wants {
      assert d[p.offset..] <= log[p.offset..];
      ReadOn(d[p.offset..], log[p.offset..], p.h, valid, more);
      var r := Feed(d[p.offset..], p.h, valid, more);
      assert log[p.offset..][r.1..] == log[p.offset + r.1..];
    }
  }

  lemma {:induction false} ReadsOnTrack(files: seq<seq<byte>>, log: seq<byte>, valid: seq<byte> -> bool,
      more: seq<seq<byte>> -> bool)
    requires files != [] ==> GrowsTo(files, files[|files| - 1]) && files[|files| - 1] <= log
    requires LinesOk(log, valid) && !valid([])
    ensures OnTrack(Reads(files, valid, more), log, valid, more)
  {
    if |files| == 0 {
      assert log[0..] == log;
    } else {
      var n := |files| - 1;
      Shorter(files);
      ReadsOnTrack(files[..n], log, valid, more);
      NextOnTrack(Reads(files[..n], valid, more), files[n], log, valid, more);
    }
  }

  /** However the log grew to what it is between the reads, its reader heard what one
      read of it gives: each line once, in order. */
  lemma GrowthMakesNoDifference(files: seq<seq<byte>>, log: seq<byte>, valid: seq<byte> -> bool,
      more: seq<seq<byte>> -> bool)
    requires files != [] && Grows(files, log) && LinesOk(log, valid) && !valid([])
    ensures Reads(files, valid, more).h == Reads([log], valid, more).h
  {
    var n := |files| - 1;
    Shorter(files);
    var p := Reads(files[..n], valid, more);
    ReadsOnTrack(files[..n], log, valid, more);
    assert [log][..0] == [];
    assert log[0..] == log;
  }
}
