/** Which lines a read gives, and when the growth of a log does make a difference. */
module LogLines {
  import opened Options
  import opened Conversation
  import opened LogFeed
  import opened LogGrowth
  import JsonScan
  import JsonGrammar
  import JsonTheorems
  import JsonPrefixes

  lemma {:induction false} Deaf(h: Heard, lines: seq<seq<byte>>, more: seq<seq<byte>> -> bool)
    requires !h.wants
    ensures HearAll(h, lines, more) == h
    decreases |lines|
  {
    if |lines| > 0 {
      Deaf(h, lines[1..], more);
    }
  }

  /** One read hands over the lines of the log, each once, in order, until the reader wants no more. */
  lemma {:induction false} FeedIsLines(d: seq<byte>, h: Heard, valid: seq<byte> -> bool, more: seq<seq<byte>> -> bool)
    requires h.wants && !valid([])
    ensures Feed(d, h, valid, more).0 == HearAll(h, LinesOf(d, valid), more)
    decreases |d|
  {
    hide Trim, LineRead;
    var k := NewlineAt(d);
    if k < 0 {
      EmptyTrims(d);
      assert LinesOf(d, valid)[1..] == [];
      assert HearAll(Hear(h, RestRead(d, valid), more), [], more) == Hear(h, RestRead(d, valid), more);
    } else {
      var next := Hear(h, LineRead(d[..k]), more);
      assert LinesOf(d, valid)[1..] == LinesOf(d[k + 1..], valid);
      if next.wants {
        FeedIsLines(d[k + 1..], next, valid, more);
      } else {
        Deaf(next, LinesOf(d[k + 1..], valid), more);
      }
    }
  }

  lemma EmptyTrims(d: seq<byte>)
    ensures d == [] ==> Trim(d) == []
  {
  }

  // ---- A reader that wants everything ----

  function Some1(line: seq<byte>): seq<seq<byte>> {
    if line == [] then [] else [line]
  }

  /** The lines a reader that wants everything hears. */
  function Fed(d: seq<byte>, valid: seq<byte> -> bool): seq<seq<byte>> {
    var k := NewlineAt(d);
    if k < 0 then (if d == [] then [] else Some1(RestRead(d, valid)))
    else Some1(LineRead(d[..k])) + Fed(d[k + 1..], valid)
  }

  function Taken(d: seq<byte>, valid: seq<byte> -> bool): (n: nat)
    ensures n <= |d|
  {
    var k := NewlineAt(d);
    if k < 0 then (if d != [] && |d| <= MaxLineLength && valid(Trim(d)) then |d| else 0)
    else k + 1 + Taken(d[k + 1..], valid)
  }

  lemma {:induction false} FeedIsFed(d: seq<byte>, h: Heard, valid: seq<byte> -> bool, more: seq<seq<byte>> -> bool)
    requires h.wants && !valid([]) && forall x :: more(x)
    ensures Feed(d, h, valid, more) == (Heard(h.lines + Fed(d, valid), true), Taken(d, valid))
    decreases |d|
  {
    hide Feed, Fed, Taken, Trim, LineRead;
    var k := NewlineAt(d);
    if k < 0 {
      RestIsFed(d, h, valid, more);
    } else {
      var first := Some1(LineRead(d[..k]));
      var next := Hear(h, LineRead(d[..k]), more);
      assert next == Heard(h.lines + first, true);
      FedStep(d, valid);
      FeedStep(d, h, valid, more);
      FeedIsFed(d[k + 1..], next, valid, more);
      assert h.lines + first + Fed(d[k + 1..], valid) == h.lines + Fed(d, valid);
    }
  }

  lemma RestIsFed(d: seq<byte>, h: Heard, valid: seq<byte> -> bool, more: seq<seq<byte>> -> bool)
    requires h.wants && !valid([]) && NewlineAt(d) < 0 && forall x :: more(x)
    ensures Feed(d, h, valid, more) == (Heard(h.lines + Fed(d, valid), true), Taken(d, valid))
  {
    hide Trim;
    assert h.lines + [] == h.lines;
  }

  lemma FedStep(d: seq<byte>, valid: seq<byte> -> bool)
    requires NewlineAt(d) >= 0
    ensures var k := NewlineAt(d);
      && Fed(d, valid) == Some1(LineRead(d[..k])) + Fed(d[k + 1..], valid)
      && Taken(d, valid) == k + 1 + Taken(d[k + 1..], valid)
  {
  }

  lemma {:induction false} TrimRightKeeps(s: seq<byte>, i: nat)
    requires i < |s| && !Blank(s[i])
    ensures i < |TrimRight(s)|
  {
    if Blank(s[|s| - 1]) {
      TrimRightKeeps(s[..|s| - 1], i);
    }
  }

  /** How much space s starts with. */
  function Indent(s: seq<byte>): (n: nat)
    ensures n <= |s| && TrimLeft(s) == s[n..]
    ensures n < |s| ==> !Blank(s[n])
    ensures forall i :: 0 <= i < n ==> Blank(s[i])
  {
    if |s| > 0 && Blank(s[0]) then Indent(s[1..]) + 1 else 0
  }

  lemma IndentOfPrefix(s: seq<byte>, t: seq<byte>)
    requires s <= t && Indent(s) < |s|
    ensures Indent(t) == Indent(s)
  {
    assert !Blank(t[Indent(s)]);
    assert forall i :: 0 <= i < Indent(s) ==> Blank(t[i]);
  }

  /** What is trimmed of a line is longer than what is trimmed of its start, if more than space follows that. */
  lemma TrimLonger(line: seq<byte>, n: nat)
    requires n <= |line| && Trim(line[..n]) != [] && !AllBlank(line[n..])
    ensures |Trim(line)| > |Trim(line[..n])|
  {
    var i :| 0 <= i < |line[n..]| && !Blank(line[n..][i]);
    TrimRightKeeps(line, n + i);
    var s, t := TrimRight(line[..n]), TrimRight(line);
    assert s <= line[..n] && t <= line;
    assert s <= t;
    IndentOfPrefix(s, t);
  }

  /** What two reads give a reader that wants everything, the first of n bytes. */
  function Twice(d: seq<byte>, n: nat, valid: seq<byte> -> bool): seq<seq<byte>>
    requires n <= |d|
  {
    Fed(d[..n], valid) + Fed(d[Taken(d[..n], valid)..], valid)
  }

  lemma BadLine(line: seq<byte>, limit: int, valid: seq<byte> -> bool) returns (n: nat)
    requires !LineOk(line, limit, valid) && !valid([])
    ensures 0 < n <= |line| && n <= MaxLineLength && valid(Trim(line[..n])) && Trim(line[..n]) != []
    ensures |line| <= limit ==> |Trim(line)| > |Trim(line[..n])|
  {
    n :| 0 <= n <= |line| && n <= MaxLineLength && valid(Trim(line[..n])) && !(AllBlank(line[n..]) && |line| <= limit);
    EmptyTrims(line[..n]);
    if |line| <= limit {
      TrimLonger(line, n);
    }
  }

  /** A read that ends in a bad line makes a difference. */
  lemma BadRest(d: seq<byte>, valid: seq<byte> -> bool) returns (n: nat)
    requires NewlineAt(d) < 0 && !LineOk(d, MaxLineLength, valid) && !valid([])
    ensures n <= |d| && Twice(d, n, valid) != Fed(d, valid)
  {
    hide Trim;
    n := BadLine(d, MaxLineLength, valid);
    NoNewline(d, n);
    assert Fed(d[..n], valid) == [Trim(d[..n])];
    assert Twice(d, n, valid)[0] == Trim(d[..n]);
  }

  lemma NoNewline(d: seq<byte>, n: nat)
    requires n <= |d| && (NewlineAt(d) < 0 || n <= NewlineAt(d))
    ensures NewlineAt(d[..n]) < 0
  {
    assert Newline !in d[..n];
  }

  lemma BadFirst(d: seq<byte>, valid: seq<byte> -> bool) returns (n: nat)
    requires NewlineAt(d) >= 0 && !LineOk(d[..NewlineAt(d)], MaxLineLength - 1, valid) && !valid([])
    ensures n <= |d| && Twice(d, n, valid) != Fed(d, valid)
  {
    hide Trim;
    var k := NewlineAt(d);
    n := BadLine(d[..k], MaxLineLength - 1, valid);
    assert d[..k][..n] == d[..n];
    NoNewline(d, n);
    assert Fed(d[..n], valid) == [Trim(d[..n])] && Taken(d[..n], valid) == n;
    NoNewlineAt(d, n);
    assert d[n..][k - n + 1..] == d[k + 1..];
    AfterBad(d, n, k, valid);
  }

  lemma AfterBad(d: seq<byte>, n: nat, k: nat, valid: seq<byte> -> bool)
    requires 0 < n <= k == NewlineAt(d) && NewlineAt(d[n..]) == k - n && d[n..][k - n + 1..] == d[k + 1..]
    requires Fed(d[..n], valid) == [Trim(d[..n])] && Taken(d[..n], valid) == n
    requires k < MaxLineLength ==> |Trim(d[..k])| > |Trim(d[..n])|
    ensures Twice(d, n, valid) != Fed(d, valid)
  {
    hide Trim, Fed, Taken, NewlineAt;
    var tail := Fed(d[k + 1..], valid);
    FedStep(d[n..], valid);
    FedStep(d, valid);
    var twice := [Trim(d[..n])] + (Some1(LineRead(d[n..][..k - n])) + tail);
    assert Twice(d, n, valid) == twice;
    assert twice[0] == Trim(d[..n]) && |twice| > |tail|;
  }

  lemma StartStep(d: seq<byte>, k: nat, n: nat, valid: seq<byte> -> bool)
    requires k == NewlineAt(d) && k + 1 + n <= |d|
    ensures var start, tail := d[..k + 1 + n], d[k + 1..];
      && Fed(start, valid) == Some1(LineRead(d[..k])) + Fed(tail[..n], valid)
      && Taken(start, valid) == k + 1 + Taken(tail[..n], valid)
  {
    hide Trim, LineRead, Fed, Taken;
    var start, tail := d[..k + 1 + n], d[k + 1..];
    assert start[..k] == d[..k] && start[k + 1..] == tail[..n];
    FirstNewline(start, k);
    FedStep(start, valid);
  }

  lemma TwiceStep(d: seq<byte>, k: nat, n: nat, valid: seq<byte> -> bool)
    requires k == NewlineAt(d) && k + 1 + n <= |d|
    ensures Twice(d, k + 1 + n, valid) == Some1(LineRead(d[..k])) + Twice(d[k + 1..], n, valid)
  {
    hide LineRead, Fed, Taken, NewlineAt;
    var tail := d[k + 1..];
    StartStep(d, k, n, valid);
    var t := Taken(tail[..n], valid);
    Dropped(d, k + 1, t);
    Associates(Some1(LineRead(d[..k])), Fed(tail[..n], valid), Fed(tail[t..], valid));
  }

  lemma Dropped(d: seq<byte>, k: nat, t: nat)
    requires k + t <= |d|
    ensures d[k..][t..] == d[k + t..]
  {
  }

  lemma Associates<T>(a: seq<T>, b: seq<T>, c: seq<T>)
    ensures a + b + c == a + (b + c)
  {
  }

  lemma GoodFirst(d: seq<byte>, k: nat, n: nat, valid: seq<byte> -> bool)
    requires k == NewlineAt(d) && k + 1 + n <= |d|
    requires Twice(d[k + 1..], n, valid) != Fed(d[k + 1..], valid)
    ensures Twice(d, k + 1 + n, valid) != Fed(d, valid)
  {
    hide LineRead, Fed, Taken, Twice, NewlineAt;
    FedStep(d, valid);
    TwiceStep(d, k, n, valid);
    Prepended(Some1(LineRead(d[..k])), Twice(d[k + 1..], n, valid), Fed(d[k + 1..], valid));
  }

  lemma Prepended<T>(a: seq<T>, b: seq<T>, c: seq<T>)
    requires b != c
    ensures a + b != a + c
  {
    assert (a + b)[|a|..] == b && (a + c)[|a|..] == c;
  }

  lemma {:induction false} SomeReadMatters(d: seq<byte>, valid: seq<byte> -> bool) returns (n: nat)
    requires !LinesOk(d, valid) && !valid([])
    ensures n <= |d| && Twice(d, n, valid) != Fed(d, valid)
    decreases |d|
  {
    hide Twice, Fed, LineOk, NewlineAt, Trim;
    var k := NewlineAt(d);
    if k < 0 {
      n := BadRest(d, valid);
    } else if !LineOk(d[..k], MaxLineLength - 1, valid) {
      n := BadFirst(d, valid);
    } else {
      n := SomeReadMatters(d[k + 1..], valid);
      GoodFirst(d, k, n, valid);
      n := k + 1 + n;
    }
  }

  /** When more than space follows a JSON value on its line, or its line gets too long
      after it, there is a read midway that makes a difference: the condition is exact. */
  lemma GrowthMatters(log: seq<byte>, valid: seq<byte> -> bool, more: seq<seq<byte>> -> bool) returns (n: nat)
    requires !LinesOk(log, valid) && !valid([]) && forall x :: more(x)
    ensures n <= |log| && Grows([log[..n], log], log)
    ensures Reads([log[..n], log], valid, more).h != Reads([log], valid, more).h
  {
    n := SomeReadMatters(log, valid);
    var start := log[..n];
    var files := [start, log];
    assert files[..1] == [start];
    FirstRead(start, valid, more);
    FirstRead(log, valid, more);
    FeedIsFed(log[Taken(start, valid)..], Heard(Fed(start, valid), true), valid, more);
  }

  lemma FirstRead(d: seq<byte>, valid: seq<byte> -> bool, more: seq<seq<byte>> -> bool)
    requires !valid([]) && forall x :: more(x)
    ensures GrowsTo([d], d) && Reads([d], valid, more) == Place(Heard(Fed(d, valid), true), Taken(d, valid))
  {
    var files := [d];
    assert files[..0] == [];
    assert d[0..] == d;
    FeedIsFed(d, Start.h, valid, more);
    assert [] + Fed(d, valid) == Fed(d, valid);
  }

  // ---- Logs of JSON objects ----

  /** A text that starts with a brace is a JSON value only if it is one whole object. */
  ghost predicate ValidJson(valid: seq<byte> -> bool) {
    && !valid([])
    && forall x :: valid(x) && |x| > 0 && x[0] == JsonScan.OpenBrace ==> JsonScan.Whole(x)
  }

  /** A line that holds a JSON object, as a session log's lines do. */
  datatype ObjectLine = ObjectLine(before: seq<byte>, v: JsonGrammar.Value, after: seq<byte>)
  {
    ghost predicate Ok() {
      JsonGrammar.Ok(v) && v.Obj? && AllBlank(before) && AllBlank(after)
    }

    function Text(): seq<byte> {
      before + JsonGrammar.Text(v) + after
    }
  }

  lemma {:induction false} TrimLeftBlank(blank: seq<byte>, s: seq<byte>)
    requires AllBlank(blank) && |s| > 0 && !Blank(s[0])
    ensures TrimLeft(blank + s) == s
    decreases |blank|
  {
    if |blank| == 0 {
      assert blank + s == s;
    } else {
      assert (blank + s)[1..] == blank[1..] + s;
      TrimLeftBlank(blank[1..], s);
    }
  }

  lemma ObjectOpens(v: JsonGrammar.Value)
    requires v.Obj?
    ensures |JsonGrammar.Text(v)| > 0 && JsonGrammar.Text(v)[0] == JsonScan.OpenBrace
  {
  }

  /** No part of an object is a JSON value. */
  lemma PartIsNotJson(line: ObjectLine, n: nat, valid: seq<byte> -> bool)
    requires line.Ok() && ValidJson(valid) && n < |line.before| + |JsonGrammar.Text(line.v)|
    ensures !valid(Trim(line.Text()[..n]))
  {
    hide JsonGrammar.Text, JsonGrammar.Ok, Trim, TrimRight, JsonScan.Whole;
    var text := JsonGrammar.Text(line.v);
    if n <= |line.before| {
      assert line.Text()[..n] == line.before[..n];
      BlankTrims(line.Text()[..n]);
    } else {
      var m := n - |line.before|;
      assert line.Text()[..n] == line.before + text[..m];
      ObjectOpens(line.v);
      PartTrims(line.before, text, m);
      var part := TrimRight(text[..m]);
      assert part == text[..|part|];
      assert [] + text + [] == text;
      JsonPrefixes.PrefixIsNotWhole([], line.v, [], |part|);
    }
  }

  lemma PartTrims(before: seq<byte>, text: seq<byte>, m: nat)
    requires AllBlank(before) && 0 < m <= |text| && text[0] == JsonScan.OpenBrace
    ensures var part := TrimRight(text[..m]);
      Trim(before + text[..m]) == part && |part| > 0 && part[0] == JsonScan.OpenBrace
  {
    TrimRightKeeps(text[..m], 0);
    var part := TrimRight(text[..m]);
    TrimRightAfter(before, text[..m]);
    TrimLeftBlank(before, part);
  }

  lemma {:induction false} TrimRightAfter(a: seq<byte>, s: seq<byte>)
    requires |s| > 0 && !Blank(s[0])
    ensures TrimRight(a + s) == a + TrimRight(s)
    decreases |s|
  {
    var n := |s| - 1;
    if Blank(s[n]) {
      assert (a + s)[..|a| + n] == a + s[..n];
      TrimRightAfter(a, s[..n]);
    }
  }

  /** A line that holds one JSON object is read the same however it grew, if it isn't
      longer than MaxLineLength with its newline, or the object alone is longer than that. */
  lemma ObjectLineOk(line: ObjectLine, limit: int, valid: seq<byte> -> bool)
    requires line.Ok() && ValidJson(valid)
    requires |line.Text()| <= limit || |line.before| + |JsonGrammar.Text(line.v)| > MaxLineLength
    ensures LineOk(line.Text(), limit, valid)
  {
    var all := line.Text();
    var end := |line.before| + |JsonGrammar.Text(line.v)|;
    forall n | 0 <= n <= |all| && n <= MaxLineLength && valid(Trim(all[..n])) ensures AllBlank(all[n..])
      && |all| <= limit {
      if n < end {
        PartIsNotJson(line, n, valid);
      }
      assert all[n..] == line.after[n - end..];
    }
  }

  // ---- Whole logs ----

  function Join(lines: seq<ObjectLine>): seq<byte> {
    if |lines| == 0 then [] else lines[0].Text() + [Newline] + Join(lines[1..])
  }

  function Texts(lines: seq<ObjectLine>): (r: seq<seq<byte>>)
    ensures |r| == |lines| && forall i :: 0 <= i < |r| ==> r[i] == JsonGrammar.Text(lines[i].v)
  {
    seq(|lines|, i requires 0 <= i < |lines| => JsonGrammar.Text(lines[i].v))
  }

  /** The lines hold an object each, and fit MaxLineLength with their newline. */
  ghost predicate ObjectLines(lines: seq<ObjectLine>) {
    forall i :: 0 <= i < |lines| ==> lines[i].Ok() && Newline !in lines[i].Text() && |lines[i].Text()| < MaxLineLength
  }

  lemma {:induction false} JoinNext(lines: seq<ObjectLine>)
    requires |lines| > 0 && Newline !in lines[0].Text()
    ensures var k := NewlineAt(Join(lines));
      k == |lines[0].Text()| && Join(lines)[..k] == lines[0].Text() && Join(lines)[k + 1..] == Join(lines[1..])
  {
    hide NewlineAt;
    var first, all := lines[0].Text(), Join(lines);
    assert all[..|first|] == first && all[|first|] == Newline;
    FirstNewline(all, |first|);
  }

  lemma {:induction false} ObjectLinesOk(lines: seq<ObjectLine>, valid: seq<byte> -> bool)
    requires ObjectLines(lines) && ValidJson(valid)
    ensures LinesOk(Join(lines), valid)
    decreases |lines|
  {
    hide LineOk, ValidJson, NewlineAt, ObjectLine.Ok;
    if |lines| == 0 {
      NothingOk(valid);
    } else {
      JoinNext(lines);
      ObjectLineOk(lines[0], MaxLineLength - 1, valid);
      ObjectLinesOk(lines[1..], valid);
    }
  }

  lemma NothingOk(valid: seq<byte> -> bool)
    requires ValidJson(valid)
    ensures LinesOk([], valid)
  {
    BlankLineOk([], MaxLineLength, valid);
  }

  lemma ObjectCloses(v: JsonGrammar.Value)
    requires v.Obj?
    ensures var text := JsonGrammar.Text(v); |text| > 0 && !Blank(text[0]) && !Blank(text[|text| - 1])
  {
  }

  lemma ObjectTrims(line: ObjectLine)
    requires line.Ok()
    ensures Trim(line.Text()) == JsonGrammar.Text(line.v)
  {
    hide JsonGrammar.Text, JsonGrammar.Ok;
    var text := JsonGrammar.Text(line.v);
    ObjectCloses(line.v);
    TrimRightBlank(line.before + text, line.after);
    assert TrimRight(line.before + text) == line.before + text;
    TrimLeftBlank(line.before, text);
  }

  lemma LineHeard(line: ObjectLine)
    requires line.Ok() && |line.Text()| < MaxLineLength
    ensures Some1(LineRead(line.Text())) == [JsonGrammar.Text(line.v)]
  {
    hide Trim, JsonGrammar.Text, JsonGrammar.Ok;
    ObjectTrims(line);
    ObjectCloses(line.v);
  }

  /** A read of the whole log hears the objects' texts, in order. */
  lemma {:induction false} ObjectsHeard(lines: seq<ObjectLine>, valid: seq<byte> -> bool)
    requires ObjectLines(lines)
    ensures Fed(Join(lines), valid) == Texts(lines)
    decreases |lines|
  {
    hide NewlineAt, Fed, LineRead, Some1, JsonGrammar.Text, JsonGrammar.Ok, ObjectLine.Text;
    if |lines| > 0 {
      JoinNext(lines);
      FedStep(Join(lines), valid);
      LineHeard(lines[0]);
      ObjectsHeard(lines[1..], valid);
      assert Texts(lines) == [JsonGrammar.Text(lines[0].v)] + Texts(lines[1..]);
    } else {
      NothingFed(valid);
    }
  }

  lemma NothingFed(valid: seq<byte> -> bool)
    ensures Fed([], valid) == []
  {
  }

  /** However a log of lines that hold an object each grew between its reads, the reader hears
      the objects, each once and in order. */
  lemma ObjectsHeardOnce(files: seq<seq<byte>>, lines: seq<ObjectLine>, valid: seq<byte> -> bool,
      more: seq<seq<byte>> -> bool)
    requires files != [] && Grows(files, Join(lines)) && ObjectLines(lines) && ValidJson(valid) && forall x :: more(x)
    ensures Reads(files, valid, more).h.lines == Texts(lines)
  {
    hide ObjectLines, Fed, LinesOk, Join, Reads;
    ObjectLinesOk(lines, valid);
    GrowthMakesNoDifference(files, Join(lines), valid, more);
    FirstRead(Join(lines), valid, more);
    ObjectsHeard(lines, valid);
  }
}
