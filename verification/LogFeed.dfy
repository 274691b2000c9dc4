/** Reading a log as it grows: which lines a read hands to the reader, and that
    how the log grew between the reads makes no difference. */
module LogFeed {
  import opened Conversation

  const Newline: byte := 0x0A
  const MaxLineLength := 64 * 1024 * 1024
  const BufferSize := 64 * 1024

  // ---- Lines ----

  /** What bytes.TrimSpace trims, of ASCII. */
  predicate Blank(c: byte) {
    c == 0x20 || 0x09 <= c <= 0x0D
  }

  predicate AllBlank(s: seq<byte>) {
    forall i :: 0 <= i < |s| ==> Blank(s[i])
  }

  function TrimLeft(s: seq<byte>): (r: seq<byte>)
    ensures |r| <= |s|
  {
    if |s| > 0 && Blank(s[0]) then TrimLeft(s[1..]) else s
  }

  function TrimRight(s: seq<byte>): (r: seq<byte>)
    ensures r <= s
  {
    if |s| > 0 && Blank(s[|s| - 1]) then TrimRight(s[..|s| - 1]) else s
  }

  function Trim(s: seq<byte>): seq<byte> {
    TrimLeft(TrimRight(s))
  }

  /** The position of the first newline, or -1. */
  function NewlineAt(d: seq<byte>): (k: int)
    ensures -1 <= k < |d|
    ensures k >= 0 ==> d[k] == Newline && Newline !in d[..k]
    ensures k < 0 ==> Newline !in d
  {
    if |d| == 0 then -1
    else if d[0] == Newline then 0
    else
      var k := NewlineAt(d[1..]);
      assert k >= 0 ==> d[..k + 1] == [d[0]] + d[1..][..k];
      if k < 0 then -1 else k + 1
  }

  /** What a reader hears: the trimmed lines, one after the other, up to the one after
      which it wants no more; more says what it answers after a history of lines. */
  datatype Heard = Heard(lines: seq<seq<byte>>, wants: bool)

  function Hear(h: Heard, line: seq<byte>, more: seq<seq<byte>> -> bool): Heard {
    if !h.wants || line == [] then h else Heard(h.lines + [line], more(h.lines + [line]))
  }

  function HearAll(h: Heard, lines: seq<seq<byte>>, more: seq<seq<byte>> -> bool): Heard
    decreases |lines|
  {
    if |lines| == 0 then h else HearAll(Hear(h, lines[0], more), lines[1..], more)
  }

  /** A line with its newline is read unless it is longer than MaxLineLength; the last
      one without one only if it is a whole JSON value. */
  function LineRead(line: seq<byte>): seq<byte> {
    if |line| + 1 <= MaxLineLength then Trim(line) else []
  }

  function RestRead(rest: seq<byte>, valid: seq<byte> -> bool): seq<byte> {
    if |rest| <= MaxLineLength && valid(Trim(rest)) then Trim(rest) else []
  }

  /** The lines one read of the file hands over, trimmed; empty ones aren't handed over. */
  function LinesOf(d: seq<byte>, valid: seq<byte> -> bool): seq<seq<byte>> {
    var k := NewlineAt(d);
    if k < 0 then [RestRead(d, valid)] else [LineRead(d[..k])] + LinesOf(d[k + 1..], valid)
  }

  // ---- One read ----

  /** A read of d: what the reader heard by then, and how many bytes the complete lines took. */
  function Feed(d: seq<byte>, h: Heard, valid: seq<byte> -> bool, more: seq<seq<byte>> -> bool): (r: (Heard, nat))
    requires h.wants
    ensures r.1 <= |d|
    decreases |d|
  {
    var k := NewlineAt(d);
    if k < 0 then
      if d != [] && |d| <= MaxLineLength && valid(Trim(d)) then (Hear(h, Trim(d), more), |d|) else (h, 0)
    else
      var next := Hear(h, LineRead(d[..k]), more);
      if !next.wants then (next, k + 1)
      else
        var rest := Feed(d[k + 1..], next, valid, more);
        (rest.0, k + 1 + rest.1)
  }

  /** What bufio.Reader.ReadSlice returns: a line, a full buffer without a newline, or what is left. */
  datatype Slice = Line(end: nat) | Full(end: nat) | End(end: nat)

  method ReadSlice(d: seq<byte>, pos: nat) returns (slice: Slice)
    requires pos <= |d|
    ensures pos <= slice.end <= |d|
    ensures slice.Line? ==> slice.end == pos + NewlineAt(d[pos..]) + 1 > pos && slice.end - pos <= BufferSize
    ensures slice.Full? ==> slice.end == pos + BufferSize && Newline !in d[pos..slice.end]
    ensures slice.End? ==> slice.end == |d| && NewlineAt(d[pos..]) == -1 && |d| - pos < BufferSize
  {
    var end := pos;
    while end < |d| && end - pos < BufferSize
      invariant pos <= end <= |d| && end - pos <= BufferSize
      invariant Newline !in d[pos..end]
    {
      if d[end] == Newline {
        FirstNewline(d[pos..], end - pos);
        return Line(end + 1);
      }
      end := end + 1;
    }
    if end - pos == BufferSize {
      return Full(end);
    }
    assert d[pos..end] == d[pos..];
    return End(end);
  }

  lemma FirstNewline(d: seq<byte>, k: nat)
    requires k < |d| && d[k] == Newline && Newline !in d[..k]
    ensures NewlineAt(d) == k
  {
  }

  lemma {:induction false} NoNewlineAt(d: seq<byte>, n: nat)
    requires n <= |d| && Newline !in d[..n]
    ensures NewlineAt(d) == if NewlineAt(d[n..]) < 0 then -1 else n + NewlineAt(d[n..])
    decreases n
  {
    if n == 0 {
      assert d[0..] == d;
    } else {
      assert d[..n] == [d[0]] + d[1..][..n - 1];
      assert d[n..] == d[1..][n - 1..];
      NoNewlineAt(d[1..], n - 1);
    }
  }

  lemma TrimNewline(line: seq<byte>)
    requires |line| > 0 && line[|line| - 1] == Newline
    ensures Trim(line) == Trim(line[..|line| - 1])
  {
  }

  /** The reader of one log: what it was handed, and whether it wants more of it. */
  class LogReader {
    const more: seq<seq<byte>> -> bool
    var lines: seq<seq<byte>>
    var wants: bool

    ghost function View(): Heard
      reads this
    {
      Heard(lines, wants)
    }

    constructor (more: seq<seq<byte>> -> bool)
      ensures this.more == more && View() == Heard([], true)
    {
      this.more := more;
      lines, wants := [], true;
    }

    /** Reads a line; it makes no difference to it how it is padded. */
    method Line(line: seq<byte>) returns (ok: bool)
      requires wants && Trim(line) != []
      modifies this
      ensures View() == Hear(old(View()), Trim(line), more) && ok == wants
    {
      lines := lines + [Trim(line)];
      wants := more(lines);
      ok := wants;
    }
  }

  /** The read of d from consumed on is what is left of the read of d. */
  ghost predicate Left(d: seq<byte>, consumed: nat, h: Heard, all: (Heard, nat), valid: seq<byte> -> bool,
      more: seq<seq<byte>> -> bool)
    requires consumed <= |d| && h.wants
  {
    var rest := Feed(d[consumed..], h, valid, more);
    all == (rest.0, consumed + rest.1)
  }

  /** A read of s goes over its first line, and then over the rest. */
  lemma FeedLine(s: seq<byte>, line: seq<byte>, tail: seq<byte>, h: Heard, valid: seq<byte> -> bool,
      more: seq<seq<byte>> -> bool)
    requires h.wants && s == line + [Newline] + tail && Newline !in line
    ensures var next := Hear(h, LineRead(line), more);
      if !next.wants then Feed(s, h, valid, more) == (next, |line| + 1)
      else var rest := Feed(tail, next, valid, more);
        Feed(s, h, valid, more) == (rest.0, |line| + 1 + rest.1)
  {
    hide LineRead, Hear;
    assert s[..|line|] == line && s[|line|] == Newline && s[|line| + 1..] == tail;
    FirstNewline(s, |line|);
  }

  /** A line from consumed to its newline before end is read. */
  lemma LineLeft(d: seq<byte>, consumed: nat, end: nat, h: Heard, all: (Heard, nat), valid: seq<byte> -> bool,
      more: seq<seq<byte>> -> bool)
    requires consumed < end <= |d| && d[end - 1] == Newline && Newline !in d[consumed..end - 1] && h.wants
    requires Left(d, consumed, h, all, valid, more)
    ensures var next := Hear(h, LineRead(d[consumed..end - 1]), more);
      if next.wants then Left(d, end, next, all, valid, more) else all == (next, end)
    ensures Trim(d[consumed..end]) == Trim(d[consumed..end - 1])
  {
    hide LineRead, Hear, Feed, Trim;
    var line := d[consumed..end - 1];
    assert d[consumed..] == line + [Newline] + d[end..];
    FeedLine(d[consumed..], line, d[end..], h, valid, more);
    assert d[consumed..end] == line + [Newline];
    TrimNewline(d[consumed..end]);
  }

  /** Hands the line to the reader, unless it is too long or blank. */
  method HandOver(line: seq<byte>, tooLong: bool, reader: LogReader) returns (wants: bool)
    requires reader.wants
    modifies reader
    ensures reader.View() == Hear(old(reader.View()), if tooLong then [] else Trim(line), reader.more)
    ensures wants == reader.wants
  {
    wants := true;
    if !tooLong {
      var trimmed := Trim(line);
      if |trimmed| > 0 {
        wants := reader.Line(line);
      }
    }
  }

  /** The part of a line read so far: long holds it unless it is too long. */
  ghost predicate Gathered(d: seq<byte>, consumed: nat, long: seq<byte>, n: nat, tooLong: bool) {
    && consumed + n <= |d| && Newline !in d[consumed..consumed + n]
    && if tooLong then n > MaxLineLength else n <= MaxLineLength && long == d[consumed..consumed + n]
  }

  /** The line, when its last chunk, up to end, comes after long. */
  method Complete(d: seq<byte>, consumed: nat, long: seq<byte>, n: nat, tooLong: bool, end: nat)
      returns (line: seq<byte>, skip: bool)
    requires Gathered(d, consumed, long, n, tooLong) && consumed + n <= end <= |d| && end - consumed - n <= BufferSize
    ensures skip == (end - consumed > MaxLineLength)
    ensures !skip ==> line == d[consumed..end]
  {
    var chunk := d[consumed + n..end];
    assert d[consumed..end] == d[consumed..consumed + n] + chunk;
    line, skip := chunk, tooLong;
    if |long| > 0 || tooLong {
      if !tooLong && n + |chunk| <= MaxLineLength {
        line := long + chunk;
      } else {
        skip := true;
      }
    }
  }

  /** Reads the complete lines of d into reader, and returns how many bytes they took
      and whether the reader wants more. A line longer than MaxLineLength is skipped. */
  method FeedReader(d: seq<byte>, reader: LogReader, valid: seq<byte> -> bool) returns (consumed: nat, wants: bool)
    requires reader.wants
    modifies reader
    ensures consumed <= |d| && wants == reader.wants
    ensures (reader.View(), consumed) == Feed(d, old(reader.View()), valid, reader.more)
  {
    hide Feed, Hear, Trim, NewlineAt;
    ghost var all := Feed(d, reader.View(), valid, reader.more);
    consumed := 0;
    assert d[0..] == d;
    var long: seq<byte>, n: nat, tooLong := [], 0, false;
    while true
      invariant reader.wants && Gathered(d, consumed, long, n, tooLong)
      invariant Left(d, consumed, reader.View(), all, valid, reader.more)
      decreases |d| - consumed - n
    {
      var pos := consumed + n;
      var slice := ReadSlice(d, pos);
      RestOfLine(d, consumed, pos, slice);
      if slice.Full? {
        n := n + BufferSize;
        if !tooLong && n <= MaxLineLength {
          long := long + d[pos..slice.end];
        } else {
          tooLong, long := true, [];
        }
        continue;
      }
      var line, skip := Complete(d, consumed, long, n, tooLong, slice.end);
      if slice.Line? {
        LineLeft(d, consumed, slice.end, reader.View(), all, valid, reader.more);
        wants := HandOver(line, skip, reader);
        consumed := slice.end;
        if !wants {
          return;
        }
        long, n, tooLong := [], 0, false;
      } else {
        EndLeft(d, consumed, reader.View(), all, valid, reader.more);
        n := slice.end - consumed;
        if n > 0 && !skip && valid(Trim(line)) {
          wants := HandOver(line, skip, reader);
          consumed := consumed + n;
        } else {
          wants := true;
        }
        return;
      }
    }
  }

  /** What is left has no newline: it is read only if it is a whole JSON value. */
  lemma EndLeft(d: seq<byte>, consumed: nat, h: Heard, all: (Heard, nat), valid: seq<byte> -> bool,
      more: seq<seq<byte>> -> bool)
    requires consumed <= |d| && NewlineAt(d[consumed..]) < 0 && h.wants && Left(d, consumed, h, all, valid, more)
    ensures var rest := d[consumed..];
      all == if rest != [] && |rest| <= MaxLineLength && valid(Trim(rest)) then (Hear(h, Trim(rest), more), |d|)
        else (h, consumed)
  {
    hide Hear, Trim;
  }

  /** What a slice says of the line it is of. */
  lemma RestOfLine(d: seq<byte>, consumed: nat, pos: nat, slice: Slice)
    requires consumed <= pos <= slice.end <= |d| && Newline !in d[consumed..pos]
    requires slice.Line? ==> slice.end == pos + NewlineAt(d[pos..]) + 1 > pos
    requires slice.Full? ==> Newline !in d[pos..slice.end]
    requires slice.End? ==> slice.end == |d| && NewlineAt(d[pos..]) == -1
    ensures slice.Line? ==> d[slice.end - 1] == Newline && Newline !in d[consumed..slice.end - 1]
    ensures slice.Full? ==>
      Newline !in d[consumed..slice.end] && d[consumed..slice.end] == d[consumed..pos] + d[pos..slice.end]
    ensures slice.End? ==> NewlineAt(d[consumed..]) == -1 && d[consumed..slice.end] == d[consumed..]
  {
    match slice
    case Full(end) => assert d[consumed..end] == d[consumed..pos] + d[pos..end];
    case Line(end) =>
      var k := NewlineAt(d[pos..]);
      assert d[consumed..end - 1] == d[consumed..pos] + d[pos..][..k];
    case End(end) =>
      assert d[consumed..] == d[consumed..pos] + d[pos..];
  }
}
