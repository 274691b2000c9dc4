/** The scanner of agent-log lines: where a string, a value, the members of an
    object and the elements of an array start and end, without parsing them.
    Each method advances its indexes as lib/agentlog/field.go does, and is
    proved against a forward scan of the same bytes. */
module JsonScan {
  import opened Options
  import opened Conversation

  const Quote: byte := 0x22
  const Backslash: byte := 0x5C
  const Comma: byte := 0x2C
  const Colon: byte := 0x3A
  const OpenBrace: byte := 0x7B
  const CloseBrace: byte := 0x7D
  const OpenBracket: byte := 0x5B
  const CloseBracket: byte := 0x5D

  predicate Space(c: byte) {
    c == 0x20 || c == 0x09 || c == 0x0A || c == 0x0D
  }

  predicate Opens(c: byte) {
    c == OpenBrace || c == OpenBracket
  }

  predicate Closes(c: byte) {
    c == CloseBrace || c == CloseBracket
  }

  /** What ends a number, true, false or null. */
  predicate Delimits(c: byte) {
    c == Comma || Closes(c) || Space(c)
  }

  // ---- The forward scan ----

  function SpaceEnd(b: seq<byte>, i: nat): (j: nat)
    requires i <= |b|
    ensures i <= j <= |b| && (j < |b| ==> !Space(b[j]))
    decreases |b| - i
  {
    if i < |b| && Space(b[i]) then SpaceEnd(b, i + 1) else i
  }

  /** The index after the quote that ends the string whose rest is at b[j], going
      forward over it one character or escape at a time; -1 when it doesn't end. */
  function StringEnd(b: seq<byte>, j: nat): (end: int)
    ensures end == -1 || j < end <= |b|
    decreases |b| - j
  {
    if j >= |b| then -1
    else if b[j] == Quote then j + 1
    else if b[j] == Backslash then StringEnd(b, j + 2)
    else StringEnd(b, j + 1)
  }

  /** The index after the bracket that closes the outermost of depth open ones. */
  function NestedEnd(b: seq<byte>, j: nat, depth: int): (end: int)
    ensures end == -1 || j < end <= |b|
    decreases |b| - j
  {
    if j >= |b| then -1
    else if b[j] == Quote then
      var end := StringEnd(b, j + 1);
      if end < 0 then -1 else NestedEnd(b, end, depth)
    else if Opens(b[j]) then NestedEnd(b, j + 1, depth + 1)
    else if !Closes(b[j]) then NestedEnd(b, j + 1, depth)
    else if depth == 1 then j + 1
    else NestedEnd(b, j + 1, depth - 1)
  }

  function PlainEnd(b: seq<byte>, j: nat): (end: nat)
    requires j <= |b|
    ensures j <= end <= |b|
    decreases |b| - j
  {
    if j < |b| && !Delimits(b[j]) then PlainEnd(b, j + 1) else j
  }

  /** The index after the value at b[i], or -1. */
  function ValueEnd(b: seq<byte>, i: nat): (end: int)
    requires i <= |b|
    ensures end == -1 || i < end <= |b|
  {
    if i == |b| then -1
    else if b[i] == Quote then StringEnd(b, i + 1)
    else if Opens(b[i]) then NestedEnd(b, i, 0)
    else if Delimits(b[i]) then -1
    else PlainEnd(b, i)
  }

  // ---- The methods ----

  /** Models bytes.IndexByte on b[j..]: the first position of c from j on, or -1. */
  method IndexByte(b: seq<byte>, j: nat, c: byte) returns (k: int)
    requires j <= |b|
    ensures k == -1 ==> c !in b[j..]
    ensures k != -1 ==> j <= k < |b| && b[k] == c && c !in b[j..k]
  {
    k := j;
    while k < |b|
      invariant j <= k <= |b| && c !in b[j..k]
    {
      if b[k] == c {
        return;
      }
      k := k + 1;
    }
    return -1;
  }

  method SkipSpace(b: seq<byte>, i: nat) returns (j: nat)
    requires i <= |b|
    ensures j == SpaceEnd(b, i)
  {
    j := i;
    while j < |b| && Space(b[j])
      invariant i <= j <= |b| && SpaceEnd(b, j) == SpaceEnd(b, i)
    {
      j := j + 1;
    }
  }

  /** How many backslashes stand directly before b[q], back to b[lo]. */
  function Run(b: seq<byte>, lo: nat, q: nat): (n: nat)
    requires lo <= q <= |b|
    ensures n <= q - lo && forall k :: q - n <= k < q ==> b[k] == Backslash
    ensures n < q - lo ==> b[q - n - 1] != Backslash
  {
    if q > lo && b[q - 1] == Backslash then 1 + Run(b, lo, q - 1) else 0
  }

  lemma RunStart(b: seq<byte>, lo: nat, lo': nat, q: nat)
    requires lo <= lo' <= q <= |b| && Run(b, lo, q) <= q - lo'
    ensures Run(b, lo', q) == Run(b, lo, q)
  {
  }

  /** A quote ends the string exactly when an even run of backslashes stands before it:
      counting back from the quote agrees with going forward over the escapes. */
  lemma {:induction false} QuoteEnds(b: seq<byte>, j: nat, q: nat)
    requires j <= q < |b| && b[q] == Quote && Quote !in b[j..q]
    ensures StringEnd(b, j) == if Run(b, j, q) % 2 == 0 then q + 1 else StringEnd(b, q + 1)
    decreases q - j
  {
    if j < q {
      assert b[j] == b[j..q][0];
      if b[j] != Backslash {
        QuoteEndsAfter(b, j, j + 1, q);
        RunStart(b, j, j + 1, q);
      } else if j + 1 < q {
        QuoteEndsAfter(b, j, j + 2, q);
        if Run(b, j, q) == q - j {
          RunShorter(b, j, q);
        } else {
          RunStart(b, j, j + 2, q);
        }
      }
    }
  }

  lemma QuoteEndsAfter(b: seq<byte>, j: nat, j': nat, q: nat)
    requires j < j' <= q < |b| && b[q] == Quote && Quote !in b[j..q]
    ensures StringEnd(b, j') == if Run(b, j', q) % 2 == 0 then q + 1 else StringEnd(b, q + 1)
    decreases q - j, 0
  {
    assert b[j'..q] == b[j..q][j' - j..];
    QuoteEnds(b, j', q);
  }

  lemma RunShorter(b: seq<byte>, j: nat, q: nat)
    requires j + 2 <= q <= |b| && Run(b, j, q) == q - j
    ensures Run(b, j + 2, q) == q - j - 2
  {
    assert forall k :: j <= k < q ==> b[k] == Backslash;
  }

  /** A string in which no quote follows doesn't end. */
  lemma {:induction false} NoQuote(b: seq<byte>, j: nat)
    requires j <= |b| ==> Quote !in b[j..]
    ensures StringEnd(b, j) == -1
    decreases |b| - j
  {
    if j < |b| {
      assert b[j] == b[j..][0];
      assert b[j + 1..] == b[j..][1..];
      if b[j] == Backslash {
        if j + 2 <= |b| {
          assert b[j + 2..] == b[j..][2..];
        }
        NoQuote(b, j + 2);
      } else {
        NoQuote(b, j + 1);
      }
    }
  }

  /** The index after the string that starts at b[i], or -1 when it doesn't end:
      it goes from quote to quote, and counts the backslashes before each. */
  method SkipString(b: seq<byte>, i: nat) returns (end: int)
    requires i < |b|
    ensures end == StringEnd(b, i + 1)
  {
    var j := i + 1;
    while true
      invariant i < j <= |b| && StringEnd(b, j) == StringEnd(b, i + 1)
      invariant j > i + 1 ==> b[j - 1] == Quote
      decreases |b| - j
    {
      var k := IndexByte(b, j, Quote);
      if k < 0 {
        NoQuote(b, j);
        return -1;
      }
      QuoteEnds(b, j, k);
      var escapes := 0;
      var p := k - 1;
      while p > i && b[p] == Backslash
        invariant i <= p < k && p >= j - 1 && escapes == k - 1 - p
        invariant forall m :: p < m < k ==> b[m] == Backslash
      {
        escapes := escapes + 1;
        p := p - 1;
      }
      assert escapes == Run(b, j, k);
      if escapes % 2 == 0 {
        return k + 1;
      }
      j := k + 1;
    }
  }

  /** The index after the object or array that starts at b[i], or -1. */
  method SkipNested(b: seq<byte>, i: nat) returns (end: int)
    requires i < |b| && Opens(b[i])
    ensures end == NestedEnd(b, i, 0)
  {
    var depth := 0;
    var j := i;
    while j < |b|
      invariant i <= j <= |b| && NestedEnd(b, j, depth) == NestedEnd(b, i, 0)
    {
      if b[j] == Quote {
        var after := SkipString(b, j);
        if after < 0 {
          return -1;
        }
        j := after;
        continue;
      } else if Opens(b[j]) {
        depth := depth + 1;
      } else if Closes(b[j]) {
        depth := depth - 1;
        if depth == 0 {
          return j + 1;
        }
      }
      j := j + 1;
    }
    return -1;
  }

  /** The index after the value that starts at b[i], or -1 when it doesn't end. */
  method SkipValue(b: seq<byte>, i: nat) returns (end: int)
    requires i <= |b|
    ensures end == ValueEnd(b, i)
  {
    if i >= |b| {
      return -1;
    }
    if b[i] == Quote {
      end := SkipString(b, i);
      return;
    }
    if Opens(b[i]) {
      end := SkipNested(b, i);
      return;
    }
    var j := i;
    while j < |b| && !Delimits(b[j])
      invariant i <= j <= |b| && PlainEnd(b, j) == PlainEnd(b, i)
    {
      j := j + 1;
    }
    if j == i {
      return -1;
    }
    return j;
  }

  // ---- Members, fields and elements ----

  datatype Pair = Pair(key: seq<byte>, value: seq<byte>)

  /** A member, and where what follows it starts. */
  datatype Found = Found(pair: Pair, next: nat)

  /** The member at b[i], up to the space after it. */
  function MemberAt(b: seq<byte>, i: nat): (m: Option<Found>)
    ensures m.Some? ==> i < m.value.next <= |b|
  {
    if i >= |b| || b[i] != Quote then None
    else
      var end := StringEnd(b, i + 1);
      if end < 0 then None
      else
        var colon := SpaceEnd(b, end);
        if colon >= |b| || b[colon] != Colon then None
        else
          var v := SpaceEnd(b, colon + 1);
          var vEnd := ValueEnd(b, v);
          if vEnd < 0 then None else Some(Found(Pair(b[i + 1..end - 1], b[v..vEnd]), SpaceEnd(b, vEnd)))
  }

  /** The members from b[i] on, as far as they can be made out, and the index after
      the brace that closes the object, or -1. */
  function MembersFrom(b: seq<byte>, i: nat): (r: (seq<Pair>, int))
    ensures r.1 == -1 || i < r.1 <= |b|
    decreases |b| - i, 0
  {
    var m := MemberAt(b, i);
    if m.None? then ([], -1)
    else
      var rest := MembersRest(b, m.value.next);
      ([m.value.pair] + rest.0, rest.1)
  }

  /** The same after a member: a comma and more, or the closing brace. */
  function MembersRest(b: seq<byte>, next: nat): (r: (seq<Pair>, int))
    ensures r.1 == -1 || next < r.1 <= |b|
    decreases |b| - next, 1
  {
    if next >= |b| then ([], -1)
    else if b[next] == Comma then MembersFrom(b, SpaceEnd(b, next + 1))
    else if b[next] == CloseBrace then ([], next + 1)
    else ([], -1)
  }

  /** The members of the object on a line, and the index after it, or -1. */
  function Object(line: seq<byte>): (r: (seq<Pair>, int))
    ensures r.1 == -1 || 0 < r.1 <= |line|
  {
    var i := SpaceEnd(line, 0);
    if i >= |line| || line[i] != OpenBrace then ([], -1)
    else
      var i := SpaceEnd(line, i + 1);
      if i < |line| && line[i] == CloseBrace then ([], i + 1) else MembersFrom(line, i)
  }

  /** The line is one object and nothing else. */
  predicate Whole(line: seq<byte>) {
    Alone(line, Object(line).1)
  }

  /** An element, and where what follows it starts. */
  datatype Element = Element(value: seq<byte>, next: nat)

  /** The element at b[i], up to the space after it. */
  function ElementAt(b: seq<byte>, i: nat): (e: Option<Element>)
    requires i <= |b|
    ensures e.Some? ==> i < e.value.next <= |b|
  {
    var end := ValueEnd(b, i);
    if end < 0 then None else Some(Element(b[i..end], SpaceEnd(b, end)))
  }

  function ElementsFrom(b: seq<byte>, i: nat): (r: (seq<seq<byte>>, bool))
    requires i <= |b|
    decreases |b| - i, 0
  {
    var e := ElementAt(b, i);
    if e.None? then ([], false)
    else
      var rest := ElementsRest(b, e.value.next);
      ([e.value.value] + rest.0, rest.1)
  }

  function ElementsRest(b: seq<byte>, next: nat): (r: (seq<seq<byte>>, bool))
    decreases |b| - next, 1
  {
    if next < |b| && b[next] == Comma then ElementsFrom(b, SpaceEnd(b, next + 1))
    else ([], next < |b| && b[next] == CloseBracket)
  }

  /** The elements of an array, and whether its closing bracket was reached. */
  function Array(value: seq<byte>): (r: (seq<seq<byte>>, bool)) {
    var i := SpaceEnd(value, 0);
    if i >= |value| || value[i] != OpenBracket then ([], false)
    else
      var i := SpaceEnd(value, i + 1);
      if i < |value| && value[i] == CloseBracket then ([], true) else ElementsFrom(value, i)
  }

  /** The value of the first member with the key. */
  function First(pairs: seq<Pair>, key: seq<byte>): Option<seq<byte>> {
    if |pairs| == 0 then None
    else if pairs[0].key == key then Some(pairs[0].value)
    else First(pairs[1..], key)
  }

  /** The callback has been called with all, one after the other, up to the first
      call it returned false from; more says what it returns after a history of calls. */
  ghost predicate Heard<T>(calls: seq<T>, all: seq<T>, more: seq<T> -> bool) {
    && calls <= all
    && (forall k :: 0 < k < |calls| ==> more(calls[..k]))
    && (calls == all || (calls != [] && !more(calls)))
  }

  /** Every call returned true. */
  ghost predicate Wanted<T>(calls: seq<T>, more: seq<T> -> bool) {
    forall k :: 0 < k <= |calls| ==> more(calls[..k])
  }

  lemma HeardOne<T>(calls: seq<T>, x: T, rest: seq<T>, all: seq<T>, more: seq<T> -> bool)
    requires Wanted(calls, more) && calls + ([x] + rest) == all
    ensures calls + [x] + rest == all
    ensures more(calls + [x]) ==> Wanted(calls + [x], more)
    ensures !more(calls + [x]) ==> Heard(calls + [x], all, more)
  {
    var next := calls + [x];
    assert next[..|next|] == next;
    assert forall k :: 0 < k <= |calls| ==> next[..k] == calls[..k];
    assert next + rest == all;
  }

  lemma HeardAll<T>(calls: seq<T>, more: seq<T> -> bool)
    requires Wanted(calls, more)
    ensures Heard(calls, calls, more) && calls + [] == calls
    ensures calls != [] ==> more(calls)
  {
    assert calls[..|calls|] == calls;
  }

  method MemberSpan(line: seq<byte>, i: nat) returns (m: Option<Found>)
    requires i <= |line|
    ensures m == MemberAt(line, i)
  {
    if i >= |line| || line[i] != Quote {
      return None;
    }
    var end := SkipString(line, i);
    if end < 0 {
      return None;
    }
    var key := line[i + 1..end - 1];
    var j := SkipSpace(line, end);
    if j >= |line| || line[j] != Colon {
      return None;
    }
    j := SkipSpace(line, j + 1);
    var valueEnd := SkipValue(line, j);
    if valueEnd < 0 {
      return None;
    }
    var next := SkipSpace(line, valueEnd);
    return Some(Found(Pair(key, line[j..valueEnd]), next));
  }

  /** What Field looks for from b[j] on, one member at a time. */
  lemma FieldNext(b: seq<byte>, j: nat, key: seq<byte>)
    ensures var m := MemberAt(b, j);
      First(MembersFrom(b, j).0, key) ==
        if m.None? then None
        else if m.value.pair.key == key then Some(m.value.pair.value)
        else First(MembersRest(b, m.value.next).0, key)
  {
    var m := MemberAt(b, j);
    if m.Some? {
      var rest := MembersRest(b, m.value.next).0;
      assert ([m.value.pair] + rest)[1..] == rest;
    }
  }

  method AfterComma(line: seq<byte>, next: nat) returns (i: Option<nat>)
    requires next <= |line|
    ensures i.Some? ==>
      next < i.value <= |line| && MembersRest(line, next) == MembersFrom(line, SpaceEnd(line, i.value))
    ensures i.None? ==> MembersRest(line, next).0 == []
  {
    if next >= |line| || line[next] != Comma {
      return None;
    }
    return Some(next + 1);
  }

  method FieldFrom(line: seq<byte>, start: nat, key: seq<byte>) returns (value: Option<seq<byte>>)
    requires start <= |line|
    ensures value == First(MembersFrom(line, SpaceEnd(line, start)).0, key)
  {
    ghost var found := First(MembersFrom(line, SpaceEnd(line, start)).0, key);
    var i := start;
    while true
      invariant i <= |line|
      invariant First(MembersFrom(line, SpaceEnd(line, i)).0, key) == found
      decreases |line| - i
    {
      i := SkipSpace(line, i);
      var m := MemberSpan(line, i);
      FieldNext(line, i, key);
      if m.None? {
        return None;
      }
      if m.value.pair.key == key {
        return Some(m.value.pair.value);
      }
      var after := AfterComma(line, m.value.next);
      if after.None? {
        return None;
      }
      i := after.value;
    }
  }

  /** The value of a top-level key: that of the first member that has it, of those
      that can be made out before the object breaks off. */
  method Field(line: seq<byte>, key: seq<byte>) returns (value: Option<seq<byte>>)
    ensures value == First(Object(line).0, key)
  {
    var i := SkipSpace(line, 0);
    if i >= |line| || line[i] != OpenBrace {
      return None;
    }
    value := FieldFrom(line, i + 1, key);
  }

  /** What a callback has been called with, when rest of all is still to come. */
  ghost predicate Told<T>(calls: seq<T>, listening: bool, rest: seq<T>, all: seq<T>, more: seq<T> -> bool) {
    if listening then Wanted(calls, more) && calls + rest == all else Heard(calls, all, more)
  }

  /** Calls the callback with x, unless it has returned false. */
  method Tell<T>(calls: seq<T>, listening: bool, x: T, more: seq<T> -> bool, ghost rest: seq<T>, ghost all: seq<T>)
    returns (told: seq<T>, listens: bool)
    requires Told(calls, listening, [x] + rest, all, more)
    ensures Told(told, listens, rest, all, more)
  {
    told, listens := calls, listening;
    if listening {
      HeardOne(calls, x, rest, all, more);
      told := calls + [x];
      listens := more(told);
    }
  }

  lemma ToldAll<T>(calls: seq<T>, listening: bool, all: seq<T>, more: seq<T> -> bool)
    requires Told(calls, listening, [], all, more)
    ensures Heard(calls, all, more)
  {
    if listening {
      HeardAll(calls, more);
    }
  }

  /** Nothing but space follows the index end, which isn't -1. */
  predicate Alone(line: seq<byte>, end: int)
    requires -1 <= end <= |line|
  {
    end >= 0 && SpaceEnd(line, end) == |line|
  }

  /** What follows a member: where the next one is, or whether the object ends there and the line with it. */
  method AfterMember(line: seq<byte>, next: nat) returns (i: Option<nat>, whole: bool)
    requires next <= |line|
    ensures i.Some? ==> next < i.value <= |line| && MembersRest(line, next) == MembersFrom(line, i.value)
    ensures i.None? ==> MembersRest(line, next).0 == [] && whole == Alone(line, MembersRest(line, next).1)
  {
    if next < |line| && line[next] == Comma {
      var j := SkipSpace(line, next + 1);
      return Some(j), false;
    } else if next < |line| && line[next] == CloseBrace {
      var end := SkipSpace(line, next + 1);
      return None, end == |line|;
    } else {
      return None, false;
    }
  }

  method MembersAfter(line: seq<byte>, start: nat, more: seq<Pair> -> bool) returns (calls: seq<Pair>, whole: bool)
    requires start <= |line|
    ensures Heard(calls, MembersFrom(line, start).0, more)
    ensures whole == Alone(line, MembersFrom(line, start).1)
  {
    ghost var all, close := MembersFrom(line, start).0, MembersFrom(line, start).1;
    calls := [];
    var i := start;
    var listening := true;
    while true
      invariant i <= |line|
      invariant MembersFrom(line, i).1 == close
      invariant Told(calls, listening, MembersFrom(line, i).0, all, more)
      decreases |line| - i
    {
      var m := MemberSpan(line, i);
      if m.None? {
        ToldAll(calls, listening, all, more);
        return calls, false;
      }
      calls, listening := Tell(calls, listening, m.value.pair, more, MembersRest(line, m.value.next).0, all);
      var j, closed := AfterMember(line, m.value.next);
      if j.None? {
        ToldAll(calls, listening, all, more);
        return calls, closed;
      }
      i := j.value;
    }
  }

  /** Calls back with each member until that returns false, and reports whether the
      line is one whole object. */
  method Members(line: seq<byte>, more: seq<Pair> -> bool) returns (calls: seq<Pair>, whole: bool)
    ensures Heard(calls, Object(line).0, more)
    ensures whole == Whole(line)
  {
    var i := SkipSpace(line, 0);
    if i >= |line| || line[i] != OpenBrace {
      return [], false;
    }
    i := SkipSpace(line, i + 1);
    if i < |line| && line[i] == CloseBrace {
      var end := SkipSpace(line, i + 1);
      return [], end == |line|;
    }
    calls, whole := MembersAfter(line, i, more);
  }

  method AfterElement(b: seq<byte>, end: nat) returns (i: Option<nat>, closed: bool)
    requires end <= |b|
    ensures i.Some? ==> end < i.value <= |b| && ElementsRest(b, SpaceEnd(b, end)) == ElementsFrom(b, i.value)
    ensures i.None? ==> ElementsRest(b, SpaceEnd(b, end)) == ([], closed)
  {
    var next := SkipSpace(b, end);
    if next >= |b| || b[next] != Comma {
      return None, next < |b| && b[next] == CloseBracket;
    }
    var j := SkipSpace(b, next + 1);
    return Some(j), false;
  }

  method ElementsAfter(b: seq<byte>, start: nat, more: seq<seq<byte>> -> bool)
      returns (calls: seq<seq<byte>>, isArray: bool)
    requires start <= |b|
    ensures Heard(calls, ElementsFrom(b, start).0, more)
    ensures isArray == (ElementsFrom(b, start).1 || (calls != [] && !more(calls)))
  {
    ghost var all, whole := ElementsFrom(b, start).0, ElementsFrom(b, start).1;
    calls := [];
    var i := start;
    while i < |b|
      invariant i <= |b|
      invariant calls + ElementsFrom(b, i).0 == all && ElementsFrom(b, i).1 == whole
      invariant Wanted(calls, more)
    {
      var end := SkipValue(b, i);
      if end < 0 {
        HeardAll(calls, more);
        return calls, false;
      }
      HeardOne(calls, b[i..end], ElementsRest(b, SpaceEnd(b, end)).0, all, more);
      calls := calls + [b[i..end]];
      if !more(calls) {
        return calls, true;
      }
      var j, closed := AfterElement(b, end);
      if j.None? {
        HeardAll(calls, more);
        return calls, closed;
      }
      i := j.value;
    }
    HeardAll(calls, more);
    return calls, false;
  }

  /** Calls back with each element until that returns false, and reports whether the
      value is an array; what follows where it stopped doesn't count. */
  method Elements(value: seq<byte>, more: seq<seq<byte>> -> bool) returns (calls: seq<seq<byte>>, isArray: bool)
    ensures Heard(calls, Array(value).0, more)
    ensures isArray == (Array(value).1 || (calls != [] && !more(calls)))
  {
    var i := SkipSpace(value, 0);
    if i >= |value| || value[i] != OpenBracket {
      return [], false;
    }
    i := SkipSpace(value, i + 1);
    if i < |value| && value[i] == CloseBracket {
      return [], true;
    }
    calls, isArray := ElementsAfter(value, i, more);
  }
}
