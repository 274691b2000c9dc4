/** What the scanner finds in a text of the grammar: every value, member and
    element, whole and in order. */
module JsonTheorems {
  import opened Options
  import opened Conversation
  import opened JsonScan
  import opened JsonGrammar

  // ---- Going over a nested value ----

  /** Not a byte that nesting depends on. */
  predicate Quiet(c: byte) {
    c != Quote && !Opens(c) && !Closes(c)
  }

  predicate AllQuiet(s: seq<byte>) {
    forall i :: 0 <= i < |s| ==> Quiet(s[i])
  }

  /** No byte that ends a number, true, false or null. */
  predicate Unbroken(s: seq<byte>) {
    forall i :: 0 <= i < |s| ==> Quiet(s[i]) && !Delimits(s[i])
  }

  lemma {:induction false} QuietSkipped(b: seq<byte>, i: nat, s: seq<byte>, depth: int)
    requires At(b, i, s) && AllQuiet(s)
    ensures NestedEnd(b, i, depth) == NestedEnd(b, i + |s|, depth)
    decreases |s|
  {
    if |s| > 0 {
      assert s == [s[0]] + s[1..];
      AtFirst(b, i, s[0], s[1..]);
      QuietSkipped(b, i + 1, s[1..], depth);
    }
  }

  lemma NumberUnbroken(n: Number)
    requires n.Ok()
    ensures Unbroken(n.Text()) && n.Text() != []
  {
    var minus: seq<byte> := if n.minus then [0x2D] else [];
    var fraction: seq<byte> := if n.fraction == [] then [] else [0x2E] + n.fraction;
    var exponent: seq<byte> := if n.exponent.None? then []
      else [n.exponent.value.mark] + n.exponent.value.sign + n.exponent.value.digits;
    assert Unbroken(minus) && Unbroken(n.whole) && Unbroken(fraction);
    assert Unbroken(exponent);
    assert n.Text() == minus + n.whole + fraction + exponent;
  }

  /** A number, true, false or null. */
  predicate Scalar(v: Value) {
    v.Num? || v.Word?
  }

  lemma ScalarUnbroken(v: Value)
    requires Ok(v) && Scalar(v)
    ensures Unbroken(Text(v)) && Text(v) != []
  {
    if v.Num? {
      NumberUnbroken(v.number);
    }
  }

  lemma ScalarNested(b: seq<byte>, i: nat, v: Value, depth: int)
    requires At(b, i, Text(v)) && Ok(v) && Scalar(v)
    ensures NestedEnd(b, i, depth) == NestedEnd(b, i + |Text(v)|, depth)
  {
    ScalarUnbroken(v);
    QuietSkipped(b, i, Text(v), depth);
  }

  lemma StrNested(b: seq<byte>, i: nat, units: seq<Unit>, depth: int)
    requires i < |b| && b[i] == Quote && UnitsOk(units)
    requires At(b, i + 1, UnitsText(units)) && At(b, i + 1 + |UnitsText(units)|, [Quote])
    ensures NestedEnd(b, i, depth) == NestedEnd(b, i + |UnitsText(units)| + 2, depth)
  {
    StringExact(b, i + 1, units);
  }

  /** Where the parts of a member are, when it is at position i. */
  function KeyAt(i: nat, m: Member): nat { i + |m.before| }
  function KeyEnd(i: nat, m: Member): nat { KeyAt(i, m) + 1 + |UnitsText(m.key)| }
  function ColonAt(i: nat, m: Member): nat { KeyEnd(i, m) + 1 + |m.mid| }
  function ValueAt(i: nat, m: Member): nat { ColonAt(i, m) + 1 + |m.gap| }
  function AfterAt(i: nat, m: Member): nat { ValueAt(i, m) + |Text(m.value)| }

  lemma MemberParts(b: seq<byte>, i: nat, m: Member)
    requires At(b, i, MemberText(m))
    ensures At(b, i, m.before)
    ensures KeyAt(i, m) < |b| && b[KeyAt(i, m)] == Quote && At(b, KeyAt(i, m) + 1, UnitsText(m.key))
    ensures At(b, KeyEnd(i, m), [Quote]) && At(b, KeyEnd(i, m) + 1, m.mid)
    ensures ColonAt(i, m) < |b| && b[ColonAt(i, m)] == Colon && At(b, ColonAt(i, m) + 1, m.gap)
    ensures At(b, ValueAt(i, m), Text(m.value)) && At(b, AfterAt(i, m), m.after)
    ensures i + |MemberText(m)| == AfterAt(i, m) + |m.after|
  {
    var s5 := Text(m.value) + m.after;
    var s4 := [Colon] + (m.gap + s5);
    var s3 := [Quote] + (m.mid + s4);
    var s2 := UnitsText(m.key) + s3;
    AtSplit(b, i, m.before, [Quote] + s2);
    AtFirst(b, KeyAt(i, m), Quote, s2);
    AtSplit(b, KeyAt(i, m) + 1, UnitsText(m.key), s3);
    AtSplit(b, KeyEnd(i, m), [Quote], m.mid + s4);
    AtSplit(b, KeyEnd(i, m) + 1, m.mid, s4);
    AtFirst(b, ColonAt(i, m), Colon, m.gap + s5);
    AtSplit(b, ColonAt(i, m) + 1, m.gap, s5);
    AtSplit(b, ValueAt(i, m), Text(m.value), m.after);
  }

  /** Going over a value inside brackets leaves the depth as it was. */
  lemma {:induction false} ValueNested(b: seq<byte>, i: nat, v: Value, depth: int)
    requires At(b, i, Text(v)) && Ok(v) && depth >= 1
    ensures NestedEnd(b, i, depth) == NestedEnd(b, i + |Text(v)|, depth)
    decreases v, 1
  {
    match v
    case Str(units) =>
      AtFirst(b, i, Quote, UnitsText(units) + [Quote]);
      AtSplit(b, i + 1, UnitsText(units), [Quote]);
      StrNested(b, i, units, depth);
    case Num(_) => ScalarNested(b, i, v, depth);
    case Word(_) => ScalarNested(b, i, v, depth);
    case Obj(_, _) => ObjNested(b, i, v, depth);
    case Arr(_, _) => ArrNested(b, i, v, depth);
  }

  lemma {:induction false} ObjNested(b: seq<byte>, i: nat, v: Value, depth: int)
    requires At(b, i, Text(v)) && Ok(v) && depth >= 0 && v.Obj?
    ensures i < |b| && b[i] == OpenBrace
    ensures NestedEnd(b, i, depth) == if depth == 0 then i + |Text(v)| else NestedEnd(b, i + |Text(v)|, depth)
    decreases v, 0
  {
    hide At, NestedEnd, MembersText, MemberText;
    var inner := ObjInner(v.pad, v.members);
    AtFirst(b, i, OpenBrace, inner + [CloseBrace]);
    AtSplit(b, i + 1, inner, [CloseBrace]);
    if v.members == [] {
      QuietSkipped(b, i + 1, v.pad, depth + 1);
    } else {
      MembersNested(b, i + 1, v.members, depth + 1);
    }
    Bracketed(b, i, |inner|, CloseBrace, depth);
  }

  lemma {:induction false} ArrNested(b: seq<byte>, i: nat, v: Value, depth: int)
    requires At(b, i, Text(v)) && Ok(v) && depth >= 0 && v.Arr?
    ensures i < |b| && b[i] == OpenBracket
    ensures NestedEnd(b, i, depth) == if depth == 0 then i + |Text(v)| else NestedEnd(b, i + |Text(v)|, depth)
    decreases v, 0
  {
    hide At, NestedEnd, ItemsText, ItemText;
    var inner := ArrInner(v.pad, v.items);
    AtFirst(b, i, OpenBracket, inner + [CloseBracket]);
    AtSplit(b, i + 1, inner, [CloseBracket]);
    if v.items == [] {
      QuietSkipped(b, i + 1, v.pad, depth + 1);
    } else {
      ItemsNested(b, i + 1, v.items, depth + 1);
    }
    Bracketed(b, i, |inner|, CloseBracket, depth);
  }

  lemma Bracketed(b: seq<byte>, i: nat, n: nat, c: byte, depth: int)
    requires i < |b| && Opens(b[i]) && At(b, i + 1 + n, [c]) && Closes(c) && depth >= 0
    requires NestedEnd(b, i + 1, depth + 1) == NestedEnd(b, i + 1 + n, depth + 1)
    ensures NestedEnd(b, i, depth) == if depth == 0 then i + n + 2 else NestedEnd(b, i + n + 2, depth)
  {
    AtByte(b, i + 1 + n, [c], 0);
    var j := i + 1 + n;
    assert NestedEnd(b, j, depth + 1) == if depth == 0 then j + 1 else NestedEnd(b, j + 1, depth);
  }

  lemma {:induction false} MembersNested(b: seq<byte>, i: nat, members: seq<Member>, depth: int)
    requires members != [] && At(b, i, MembersText(members)) && depth >= 1
    requires MembersOk(members)
    ensures NestedEnd(b, i, depth) == NestedEnd(b, i + |MembersText(members)|, depth)
    decreases members
  {
    hide At, MemberText;
    var first := MemberText(members[0]);
    if |members| == 1 {
      assert MembersText(members) == first + [];
      AtSplit(b, i, first, []);
      MemberNested(b, i, members[0], depth);
    } else {
      var rest := MembersText(members[1..]);
      AtSplit(b, i, first, [Comma] + rest);
      MemberNested(b, i, members[0], depth);
      AtFirst(b, i + |first|, Comma, rest);
      MembersNested(b, i + |first| + 1, members[1..], depth);
    }
  }

  /** A key with the space around it: k, e and c are where that before it, the key and that after it end. */
  lemma KeyNested(b: seq<byte>, i: nat, before: seq<byte>, k: nat, key: seq<Unit>, e: nat, mid: seq<byte>, c: nat,
      depth: int)
    requires At(b, i, before) && Spaces(before) && k == i + |before| && k < |b| && b[k] == Quote
    requires UnitsOk(key) && At(b, k + 1, UnitsText(key)) && e == k + 1 + |UnitsText(key)| && At(b, e, [Quote])
    requires At(b, e + 1, mid) && Spaces(mid) && c == e + 1 + |mid|
    ensures NestedEnd(b, i, depth) == NestedEnd(b, c, depth)
  {
    hide At, NestedEnd, UnitsText, UnitsOk;
    QuotedNested(b, i, before, k, key, e, depth);
    QuietSkipped(b, e + 1, mid, depth);
  }

  lemma QuotedNested(b: seq<byte>, i: nat, before: seq<byte>, k: nat, key: seq<Unit>, e: nat, depth: int)
    requires At(b, i, before) && Spaces(before) && k == i + |before| && k < |b| && b[k] == Quote
    requires UnitsOk(key) && At(b, k + 1, UnitsText(key)) && e == k + 1 + |UnitsText(key)| && At(b, e, [Quote])
    ensures NestedEnd(b, i, depth) == NestedEnd(b, e + 1, depth)
  {
    hide At, NestedEnd, UnitsText, UnitsOk;
    QuietSkipped(b, i, before, depth);
    StrNested(b, k, key, depth);
  }

  lemma ColonNested(b: seq<byte>, i: nat, gap: seq<byte>, depth: int)
    requires i < |b| && b[i] == Colon && At(b, i + 1, gap) && Spaces(gap)
    ensures NestedEnd(b, i, depth) == NestedEnd(b, i + 1 + |gap|, depth)
  {
    assert NestedEnd(b, i, depth) == NestedEnd(b, i + 1, depth);
    QuietSkipped(b, i + 1, gap, depth);
  }

  lemma NameNested(b: seq<byte>, i: nat, m: Member, depth: int)
    requires At(b, i, MemberText(m)) && MemberOk(m)
    ensures NestedEnd(b, i, depth) == NestedEnd(b, ColonAt(i, m), depth)
  {
    hide At, NestedEnd, MemberText, UnitsText;
    MemberParts(b, i, m);
    KeyNested(b, i, m.before, KeyAt(i, m), m.key, KeyEnd(i, m), m.mid, ColonAt(i, m), depth);
  }

  lemma {:induction false} MemberNested(b: seq<byte>, i: nat, m: Member, depth: int)
    requires At(b, i, MemberText(m)) && MemberOk(m) && depth >= 1
    ensures NestedEnd(b, i, depth) == NestedEnd(b, i + |MemberText(m)|, depth)
    decreases m
  {
    hide At, MemberText, UnitsText, Text, NestedEnd;
    MemberParts(b, i, m);
    NameNested(b, i, m, depth);
    ColonNested(b, ColonAt(i, m), m.gap, depth);
    ValueNested(b, ValueAt(i, m), m.value, depth);
    QuietSkipped(b, AfterAt(i, m), m.after, depth);
  }

  lemma {:induction false} ItemsNested(b: seq<byte>, i: nat, items: seq<Item>, depth: int)
    requires items != [] && At(b, i, ItemsText(items)) && depth >= 1
    requires ItemsOk(items)
    ensures NestedEnd(b, i, depth) == NestedEnd(b, i + |ItemsText(items)|, depth)
    decreases items
  {
    hide At, ItemText;
    var first := ItemText(items[0]);
    if |items| == 1 {
      assert ItemsText(items) == first + [];
      AtSplit(b, i, first, []);
      ItemNested(b, i, items[0], depth);
    } else {
      var rest := ItemsText(items[1..]);
      AtSplit(b, i, first, [Comma] + rest);
      ItemNested(b, i, items[0], depth);
      AtFirst(b, i + |first|, Comma, rest);
      ItemsNested(b, i + |first| + 1, items[1..], depth);
    }
  }

  lemma {:induction false} ItemNested(b: seq<byte>, i: nat, e: Item, depth: int)
    requires At(b, i, ItemText(e)) && ItemOk(e) && depth >= 1
    ensures NestedEnd(b, i, depth) == NestedEnd(b, i + |ItemText(e)|, depth)
    decreases e
  {
    hide At, NestedEnd, Text;
    AtSplit(b, i, e.before, Text(e.value) + e.after);
    AtSplit(b, i + |e.before|, Text(e.value), e.after);
    QuietSkipped(b, i, e.before, depth);
    ValueNested(b, i + |e.before|, e.value, depth);
    QuietSkipped(b, i + |e.before| + |Text(e.value)|, e.after, depth);
  }

  // ---- Where values, members and elements end ----

  lemma {:induction false} UnbrokenEnd(b: seq<byte>, i: nat, s: seq<byte>)
    requires At(b, i, s) && Unbroken(s) && (i + |s| == |b| || Delimits(b[i + |s|]))
    ensures PlainEnd(b, i) == i + |s|
    decreases |s|
  {
    if |s| > 0 {
      assert s == [s[0]] + s[1..];
      AtFirst(b, i, s[0], s[1..]);
      UnbrokenEnd(b, i + 1, s[1..]);
    }
  }

  lemma SpaceStops(b: seq<byte>, i: nat, s: seq<byte>)
    requires At(b, i, s) && Spaces(s) && (i + |s| == |b| || !Space(b[i + |s|]))
    ensures SpaceEnd(b, i) == i + |s|
  {
    SpaceSkipped(b, i, s);
  }

  lemma ScalarEnd(b: seq<byte>, i: nat, v: Value)
    requires At(b, i, Text(v)) && Ok(v) && Scalar(v)
    requires i + |Text(v)| == |b| || Delimits(b[i + |Text(v)|])
    ensures i < |b| && !Space(b[i]) && ValueEnd(b, i) == i + |Text(v)|
  {
    ScalarUnbroken(v);
    AtByte(b, i, Text(v), 0);
    assert Quiet(Text(v)[0]) && !Delimits(Text(v)[0]);
    UnbrokenEnd(b, i, Text(v));
  }

  /** The scanner stops exactly at the end of a value, whatever comes after it; a
      number, true, false or null must be delimited, as it is everywhere in JSON. */
  lemma ValueExactAt(b: seq<byte>, i: nat, v: Value)
    requires At(b, i, Text(v)) && Ok(v)
    requires Scalar(v) ==> i + |Text(v)| == |b| || Delimits(b[i + |Text(v)|])
    ensures i < |b| && !Space(b[i]) && ValueEnd(b, i) == i + |Text(v)|
  {
    match v
    case Str(units) =>
      AtFirst(b, i, Quote, UnitsText(units) + [Quote]);
      AtSplit(b, i + 1, UnitsText(units), [Quote]);
      StringExact(b, i + 1, units);
    case Num(_) => ScalarEnd(b, i, v);
    case Word(_) => ScalarEnd(b, i, v);
    case Obj(_, _) => ObjNested(b, i, v, 0);
    case Arr(_, _) => ArrNested(b, i, v, 0);
  }

  lemma AtMiddle(before: seq<byte>, s: seq<byte>, rest: seq<byte>)
    ensures At(before + s + rest, 0, before) && At(before + s + rest, |before|, s)
    ensures At(before + s + rest, |before| + |s|, rest)
  {
  }

  lemma ValueExact(before: seq<byte>, v: Value, rest: seq<byte>)
    requires Ok(v) && (Scalar(v) ==> rest == [] || Delimits(rest[0]))
    ensures ValueEnd(before + Text(v) + rest, |before|) == |before| + |Text(v)|
  {
    AtMiddle(before, Text(v), rest);
    ValueExactAt(before + Text(v) + rest, |before|, v);
  }

  function PairOf(m: Member): Pair {
    Pair(UnitsText(m.key), Text(m.value))
  }

  /** The keys and values of members, as they are written. */
  function Pairs(members: seq<Member>): (r: seq<Pair>)
    ensures |r| == |members| && forall i :: 0 <= i < |r| ==> r[i] == PairOf(members[i])
  {
    if |members| == 0 then [] else [PairOf(members[0])] + Pairs(members[1..])
  }

  lemma Slice(b: seq<byte>, i: nat, s: seq<byte>)
    requires At(b, i, s)
    ensures b[i..i + |s|] == s
  {
  }

  /** What follows a value in an object or array: the space, and the comma or bracket. */
  lemma ValueThen(b: seq<byte>, i: nat, v: Value, after: seq<byte>)
    requires At(b, i, Text(v)) && Ok(v) && At(b, i + |Text(v)|, after) && Spaces(after)
    requires var next := i + |Text(v)| + |after|; next < |b| && Delimits(b[next]) && !Space(b[next])
    ensures i < |b| && !Space(b[i]) && ValueEnd(b, i) == i + |Text(v)| && b[i..ValueEnd(b, i)] == Text(v)
    ensures SpaceEnd(b, i + |Text(v)|) == i + |Text(v)| + |after|
  {
    if after != [] {
      AtByte(b, i + |Text(v)|, after, 0);
    }
    ValueExactAt(b, i, v);
    SpaceStops(b, i + |Text(v)|, after);
    Slice(b, i, Text(v));
  }

  /** The scan of a member with its key at k: where its key, the space before the
      colon, that after it, its value, and the space after that end. */
  ghost predicate Spans(b: seq<byte>, k: nat, e: nat, c: nat, v: nat, w: nat, next: nat) {
    && k < |b| && b[k] == Quote && k < e <= |b| && StringEnd(b, k + 1) == e + 1 && SpaceEnd(b, e + 1) == c
    && c < |b| && b[c] == Colon && SpaceEnd(b, c + 1) == v
    && v < w <= |b| && ValueEnd(b, v) == w && SpaceEnd(b, w) == next
  }

  lemma SpansMember(b: seq<byte>, k: nat, e: nat, c: nat, v: nat, w: nat, next: nat, key: seq<byte>, value: seq<byte>)
    requires Spans(b, k, e, c, v, w, next) && At(b, k + 1, key) && e == k + 1 + |key| && At(b, v, value)
    requires w == v + |value|
    ensures MemberAt(b, k) == Some(Found(Pair(key, value), next))
  {
    hide StringEnd, SpaceEnd, ValueEnd;
    Slice(b, k + 1, key);
    Slice(b, v, value);
  }

  lemma ColonFound(b: seq<byte>, i: nat, mid: seq<byte>, c: nat, gap: seq<byte>, v: nat)
    requires At(b, i, mid) && Spaces(mid) && c == i + |mid| && c < |b| && b[c] == Colon
    requires At(b, c + 1, gap) && Spaces(gap) && v == c + 1 + |gap| && v < |b| && !Space(b[v])
    ensures SpaceEnd(b, i) == c && SpaceEnd(b, c + 1) == v
  {
    SpaceStops(b, i, mid);
    SpaceStops(b, c + 1, gap);
  }

  lemma MemberSpans(b: seq<byte>, k: nat, m: Member, e: nat, c: nat, v: nat, w: nat)
    requires MemberOk(m) && k < |b| && b[k] == Quote && At(b, k + 1, UnitsText(m.key))
    requires e == k + 1 + |UnitsText(m.key)| && At(b, e, [Quote]) && At(b, e + 1, m.mid)
    requires c == e + 1 + |m.mid| && c < |b| && b[c] == Colon && At(b, c + 1, m.gap)
    requires v == c + 1 + |m.gap| && At(b, v, Text(m.value))
    requires w == v + |Text(m.value)| && At(b, w, m.after)
    requires var next := w + |m.after|; next < |b| && (b[next] == Comma || b[next] == CloseBrace)
    ensures Spans(b, k, e, c, v, w, w + |m.after|)
  {
    hide At, StringEnd, SpaceEnd, ValueEnd, Text, UnitsText;
    ValueThen(b, v, m.value, m.after);
    ColonFound(b, e + 1, m.mid, c, m.gap, v);
    StringExact(b, k + 1, m.key);
  }

  lemma MemberExact(b: seq<byte>, i: nat, m: Member)
    requires At(b, i, MemberText(m)) && MemberOk(m)
    requires var next := i + |MemberText(m)|; next < |b| && (b[next] == Comma || b[next] == CloseBrace)
    ensures SpaceEnd(b, i) == KeyAt(i, m)
    ensures MemberAt(b, KeyAt(i, m)) == Some(Found(PairOf(m), i + |MemberText(m)|))
  {
    hide At, StringEnd, SpaceEnd, ValueEnd, MemberText, MemberAt, Text, UnitsText;
    MemberParts(b, i, m);
    SpaceStops(b, i, m.before);
    MemberSpans(b, KeyAt(i, m), m, KeyEnd(i, m), ColonAt(i, m), ValueAt(i, m), AfterAt(i, m));
    SpansMember(b, KeyAt(i, m), KeyEnd(i, m), ColonAt(i, m), ValueAt(i, m), AfterAt(i, m), i + |MemberText(m)|,
      UnitsText(m.key), Text(m.value));
  }

  lemma MembersSplit(members: seq<Member>)
    requires |members| > 0
    ensures |members| == 1 ==> MembersText(members) == MemberText(members[0]) + []
    ensures |members| > 1 ==>
      && MembersText(members) == MemberText(members[0]) + ([Comma] + MembersText(members[1..]))
      && |MembersText(members)| == |MemberText(members[0])| + 1 + |MembersText(members[1..])|
  {
  }

  lemma {:induction false} MembersExact(b: seq<byte>, i: nat, members: seq<Member>, n: nat)
    requires members != [] && At(b, i, MembersText(members)) && n == |MembersText(members)|
    requires MembersOk(members) && i + n < |b| && b[i + n] == CloseBrace
    ensures MembersFrom(b, SpaceEnd(b, i)) == (Pairs(members), i + n + 1)
    decreases |members|
  {
    hide At, SpaceEnd, MemberAt, MemberText, MembersText;
    MembersSplit(members);
    var first := MemberText(members[0]);
    var j := i + |first|;
    if |members| == 1 {
      AtSplit(b, i, first, []);
      MemberExact(b, i, members[0]);
      assert MembersRest(b, j) == ([], j + 1);
      assert Pairs(members) == [PairOf(members[0])] + [];
    } else {
      var rest := MembersText(members[1..]);
      AtSplit(b, i, first, [Comma] + rest);
      AtFirst(b, j, Comma, rest);
      MemberExact(b, i, members[0]);
      MembersExact(b, j + 1, members[1..], n - |first| - 1);
      assert MembersRest(b, j) == MembersFrom(b, SpaceEnd(b, j + 1));
    }
  }

  /** An object's members are found, whole and in order, and so is its end. */
  lemma ObjectExact(before: seq<byte>, v: Value, rest: seq<byte>)
    requires Spaces(before) && Ok(v) && v.Obj?
    ensures Object(before + Text(v) + rest) == (Pairs(v.members), |before| + |Text(v)|)
    ensures Whole(before + Text(v) + rest) <==> Spaces(rest)
  {
    hide *;
    AtMiddle(before, Text(v), rest);
    ObjectExactAt(before + Text(v) + rest, |before|, before, v, |Text(v)|);
    WholeBlank(before + Text(v) + rest, |before| + |Text(v)|, rest);
  }

  lemma WholeBlank(b: seq<byte>, end: nat, rest: seq<byte>)
    requires Object(b).1 == end && At(b, end, rest) && end + |rest| == |b|
    ensures Whole(b) <==> Spaces(rest)
  {
    RestBlank(b, end, rest);
  }

  lemma ObjectExactAt(b: seq<byte>, i: nat, before: seq<byte>, v: Value, n: nat)
    requires At(b, 0, before) && i == |before| && Spaces(before) && v.Obj? && Ok(v)
    requires At(b, i, Text(v)) && n == |Text(v)|
    ensures Object(b) == (Pairs(v.members), i + n)
  {
    hide At, SpaceEnd, MemberAt, MembersText, MemberText, MembersFrom;
    var inner := ObjInner(v.pad, v.members);
    AtFirst(b, i, OpenBrace, inner + [CloseBrace]);
    AtSplit(b, i + 1, inner, [CloseBrace]);
    AtByte(b, i + 1 + |inner|, [CloseBrace], 0);
    SpaceStops(b, 0, before);
    if v.members == [] {
      SpaceStops(b, i + 1, v.pad);
    } else {
      MembersExact(b, i + 1, v.members, n - 2);
      MemberStarts(b, i + 1, v.members);
    }
  }

  lemma MemberStarts(b: seq<byte>, i: nat, members: seq<Member>)
    requires members != [] && At(b, i, MembersText(members)) && MemberOk(members[0])
    ensures SpaceEnd(b, i) < |b| && b[SpaceEnd(b, i)] == Quote
  {
    var first := MemberText(members[0]);
    AtSplit(b, i, first, if |members| == 1 then [] else [Comma] + MembersText(members[1..]));
    MemberParts(b, i, members[0]);
    SpaceStops(b, i, members[0].before);
  }

  lemma {:induction false} RestBlank(b: seq<byte>, i: nat, rest: seq<byte>)
    requires At(b, i, rest) && i + |rest| == |b|
    ensures SpaceEnd(b, i) == |b| <==> Spaces(rest)
    decreases |rest|
  {
    if |rest| > 0 {
      assert rest == [rest[0]] + rest[1..];
      AtFirst(b, i, rest[0], rest[1..]);
      RestBlank(b, i + 1, rest[1..]);
      assert Spaces(rest) <==> Space(rest[0]) && Spaces(rest[1..]);
    }
  }

  function Texts(items: seq<Item>): (r: seq<seq<byte>>)
    ensures |r| == |items| && forall i :: 0 <= i < |r| ==> r[i] == Text(items[i].value)
  {
    if |items| == 0 then [] else [Text(items[0].value)] + Texts(items[1..])
  }

  lemma ItemExact(b: seq<byte>, i: nat, e: Item, next: nat)
    requires At(b, i, ItemText(e)) && ItemOk(e) && next == i + |ItemText(e)|
    requires next < |b| && (b[next] == Comma || b[next] == CloseBracket)
    ensures SpaceEnd(b, i) == i + |e.before| && i + |e.before| < |b| && !Closes(b[i + |e.before|])
    ensures ElementAt(b, i + |e.before|) == Some(Element(Text(e.value), next))
  {
    AtSplit(b, i, e.before, Text(e.value) + e.after);
    AtSplit(b, i + |e.before|, Text(e.value), e.after);
    ValueThen(b, i + |e.before|, e.value, e.after);
    SpaceStops(b, i, e.before);
  }

  lemma ItemsSplit(items: seq<Item>)
    requires |items| > 0
    ensures |items| == 1 ==> ItemsText(items) == ItemText(items[0]) + []
    ensures |items| > 1 ==>
      && ItemsText(items) == ItemText(items[0]) + ([Comma] + ItemsText(items[1..]))
      && |ItemsText(items)| == |ItemText(items[0])| + 1 + |ItemsText(items[1..])|
  {
  }

  /** The array's first element is found, and then what is left. */
  lemma ItemsStep(b: seq<byte>, i: nat, items: seq<Item>, n: nat)
    requires items != [] && At(b, i, ItemsText(items)) && n == |ItemsText(items)|
    requires ItemsOk(items) && i + n < |b| && b[i + n] == CloseBracket
    ensures SpaceEnd(b, i) < |b| && !Closes(b[SpaceEnd(b, i)])
    ensures ElementAt(b, SpaceEnd(b, i)) == Some(Element(Text(items[0].value), i + |ItemText(items[0])|))
  {
    hide At, SpaceEnd, ElementAt, ItemText;
    ItemsSplit(items);
    var first := ItemText(items[0]);
    var rest := if |items| == 1 then [] else [Comma] + ItemsText(items[1..]);
    AtSplit(b, i, first, rest);
    if |items| > 1 {
      AtFirst(b, i + |first|, Comma, ItemsText(items[1..]));
    }
    ItemExact(b, i, items[0], i + |first|);
  }

  lemma ItemsMore(b: seq<byte>, i: nat, items: seq<Item>, n: nat)
    requires |items| > 1 && At(b, i, ItemsText(items)) && n == |ItemsText(items)|
    ensures var j := i + |ItemText(items[0])|;
      j < |b| && b[j] == Comma && At(b, j + 1, ItemsText(items[1..])) && i + n == j + 1 + |ItemsText(items[1..])|
  {
    ItemsSplit(items);
    var first := ItemText(items[0]);
    AtSplit(b, i, first, [Comma] + ItemsText(items[1..]));
    AtFirst(b, i + |first|, Comma, ItemsText(items[1..]));
  }

  lemma {:induction false} ItemsExact(b: seq<byte>, i: nat, items: seq<Item>, n: nat)
    requires items != [] && At(b, i, ItemsText(items)) && n == |ItemsText(items)|
    requires ItemsOk(items) && i + n < |b| && b[i + n] == CloseBracket
    ensures ElementsFrom(b, SpaceEnd(b, i)) == (Texts(items), true)
    decreases |items|
  {
    hide At, SpaceEnd, ElementAt, ItemText, ItemsText, Text;
    ItemsStep(b, i, items, n);
    var j := i + |ItemText(items[0])|;
    if |items| == 1 {
      ItemsSplit(items);
      assert ElementsRest(b, j) == ([], true);
      assert Texts(items) == [Text(items[0].value)] + [];
    } else {
      ItemsMore(b, i, items, n);
      ItemsExact(b, j + 1, items[1..], i + n - j - 1);
      assert ElementsRest(b, j) == ElementsFrom(b, SpaceEnd(b, j + 1));
    }
  }

  /** An array's elements are found, whole and in order. */
  lemma ArrayExact(before: seq<byte>, v: Value, rest: seq<byte>)
    requires Spaces(before) && Ok(v) && v.Arr?
    ensures Array(before + Text(v) + rest) == (Texts(v.items), true)
  {
    hide *;
    AtMiddle(before, Text(v), rest);
    ArrayExactAt(before + Text(v) + rest, |before|, before, v);
  }

  lemma ArrayExactAt(b: seq<byte>, i: nat, before: seq<byte>, v: Value)
    requires At(b, 0, before) && i == |before| && Spaces(before) && At(b, i, Text(v)) && Ok(v) && v.Arr?
    ensures Array(b) == (Texts(v.items), true)
  {
    hide At, SpaceEnd, ElementAt, ItemText, ItemsText, ElementsFrom;
    var inner := ArrInner(v.pad, v.items);
    AtFirst(b, i, OpenBracket, inner + [CloseBracket]);
    AtSplit(b, i + 1, inner, [CloseBracket]);
    AtByte(b, i + 1 + |inner|, [CloseBracket], 0);
    SpaceStops(b, 0, before);
    if v.items == [] {
      SpaceStops(b, i + 1, v.pad);
    } else {
      ItemsExact(b, i + 1, v.items, |inner|);
      ItemsStep(b, i + 1, v.items, |inner|);
    }
  }

  /** Of the members with the key, the first; none when there is none. */
  lemma {:induction false} FirstFound(pairs: seq<Pair>, key: seq<byte>)
    ensures First(pairs, key).None? ==> forall i :: 0 <= i < |pairs| ==> pairs[i].key != key
    ensures First(pairs, key).Some? ==>
      exists i :: 0 <= i < |pairs| && pairs[i] == Pair(key, First(pairs, key).value) && NoneBefore(pairs, key, i)
  {
    if |pairs| > 0 && pairs[0].key == key {
      assert pairs[0] == Pair(key, pairs[0].value) && NoneBefore(pairs, key, 0);
    } else if |pairs| > 0 {
      FirstFound(pairs[1..], key);
      if First(pairs, key).None? {
        assert forall i :: 0 < i < |pairs| ==> pairs[i] == pairs[1..][i - 1];
      } else {
        var i :| 0 <= i < |pairs[1..]| && pairs[1..][i] == Pair(key, First(pairs, key).value)
          && NoneBefore(pairs[1..], key, i);
        assert forall j :: 0 < j <= i ==> pairs[j] == pairs[1..][j - 1];
        assert pairs[i + 1] == Pair(key, First(pairs, key).value) && NoneBefore(pairs, key, i + 1);
      }
    }
  }

  predicate NoneBefore(pairs: seq<Pair>, key: seq<byte>, i: int)
    requires i <= |pairs|
  {
    forall j :: 0 <= j < i ==> pairs[j].key != key
  }

  /** Field's answer for an object: the value of the first member whose key is written as key. */
  lemma FieldExact(before: seq<byte>, v: Value, rest: seq<byte>, key: seq<byte>)
    requires Spaces(before) && Ok(v) && v.Obj?
    ensures var found := First(Object(before + Text(v) + rest).0, key);
      if found.None? then forall i :: 0 <= i < |v.members| ==> UnitsText(v.members[i].key) != key
      else exists i ::
        0 <= i < |v.members| && PairOf(v.members[i]) == Pair(key, found.value) && NoneBefore(Pairs(v.members), key, i)
  {
    ObjectExact(before, v, rest);
    FirstFound(Pairs(v.members), key);
    assert forall i :: 0 <= i < |v.members| ==> Pairs(v.members)[i] == PairOf(v.members[i]);
  }
}
