/** The grammar of JSON, RFC 8259 sections 2 to 7, as trees with their layout:
    every text the grammar has is the text of one of these. The scanner, which
    knows none of it, agrees with it. */
module JsonGrammar {
  import opened Options
  import opened Conversation
  import opened JsonScan

  predicate Digit(c: byte) {
    0x30 <= c <= 0x39
  }

  predicate HexDigit(c: byte) {
    Digit(c) || 0x41 <= c <= 0x46 || 0x61 <= c <= 0x66
  }

  predicate Spaces(s: seq<byte>) {
    forall i :: 0 <= i < |s| ==> Space(s[i])
  }

  predicate Digits(s: seq<byte>) {
    forall i :: 0 <= i < |s| ==> Digit(s[i])
  }

  /** One part of a string between its quotes. */
  datatype Unit = Plain(c: byte) | Short(c: byte) | Hex(digits: seq<byte>)
  {
    predicate Ok() {
      match this
      case Plain(c) => c >= 0x20 && c != Quote && c != Backslash
      case Short(c) => c in [Quote, Backslash, 0x2F, 0x62, 0x66, 0x6E, 0x72, 0x74]
      case Hex(digits) => |digits| == 4 && forall i :: 0 <= i < 4 ==> HexDigit(digits[i])
    }

    function Text(): seq<byte> {
      match this
      case Plain(c) => [c]
      case Short(c) => [Backslash, c]
      case Hex(digits) => [Backslash, 0x75] + digits
    }
  }

  predicate UnitsOk(units: seq<Unit>) {
    forall i :: 0 <= i < |units| ==> units[i].Ok()
  }

  function UnitsText(units: seq<Unit>): seq<byte> {
    if |units| == 0 then [] else units[0].Text() + UnitsText(units[1..])
  }

  datatype Exponent = Exponent(mark: byte, sign: seq<byte>, digits: seq<byte>)

  datatype Number = Number(minus: bool, whole: seq<byte>, fraction: seq<byte>, exponent: Option<Exponent>)
  {
    predicate Ok() {
      && whole != [] && Digits(whole) && (|whole| > 1 ==> whole[0] != 0x30)
      && Digits(fraction)
      && (exponent.Some? ==>
            && exponent.value.mark in [0x45, 0x65] && exponent.value.sign in [[], [0x2B], [0x2D]]
            && exponent.value.digits != [] && Digits(exponent.value.digits))
    }

    function Text(): seq<byte> {
      (if minus then [0x2D] else []) + whole + (if fraction == [] then [] else [0x2E] + fraction)
      + if exponent.None? then [] else [exponent.value.mark] + exponent.value.sign + exponent.value.digits
    }
  }

  const TrueText: seq<byte> := [0x74, 0x72, 0x75, 0x65]
  const FalseText: seq<byte> := [0x66, 0x61, 0x6C, 0x73, 0x65]
  const NullText: seq<byte> := [0x6E, 0x75, 0x6C, 0x6C]

  datatype Value =
    | Str(units: seq<Unit>)
    | Num(number: Number)
    | Word(word: seq<byte>)
    | Obj(pad: seq<byte>, members: seq<Member>)
    | Arr(pad: seq<byte>, items: seq<Item>)

  /** The space before a member, its key, the space around the colon, its value, and the space after it. */
  datatype Member =
    Member(before: seq<byte>, key: seq<Unit>, mid: seq<byte>, gap: seq<byte>, value: Value, after: seq<byte>)

  datatype Item = Item(before: seq<byte>, value: Value, after: seq<byte>)

  predicate Ok(v: Value) {
    match v
    case Str(units) => UnitsOk(units)
    case Num(number) => number.Ok()
    case Word(word) => word in [TrueText, FalseText, NullText]
    case Obj(pad, members) => Spaces(pad) && MembersOk(members)
    case Arr(pad, items) => Spaces(pad) && ItemsOk(items)
  }

  predicate MembersOk(members: seq<Member>) {
    |members| == 0 || (MemberOk(members[0]) && MembersOk(members[1..]))
  }

  predicate ItemsOk(items: seq<Item>) {
    |items| == 0 || (ItemOk(items[0]) && ItemsOk(items[1..]))
  }

  predicate MemberOk(m: Member) {
    Spaces(m.before) && UnitsOk(m.key) && Spaces(m.mid) && Spaces(m.gap) && Ok(m.value) && Spaces(m.after)
  }

  predicate ItemOk(e: Item) {
    Spaces(e.before) && Ok(e.value) && Spaces(e.after)
  }

  function Text(v: Value): seq<byte> {
    match v
    case Str(units) => [Quote] + (UnitsText(units) + [Quote])
    case Num(number) => number.Text()
    case Word(word) => word
    case Obj(pad, members) => [OpenBrace] + (ObjInner(pad, members) + [CloseBrace])
    case Arr(pad, items) => [OpenBracket] + (ArrInner(pad, items) + [CloseBracket])
  }

  function MemberText(m: Member): seq<byte> {
    m.before + ([Quote] + (UnitsText(m.key) + ([Quote] + (m.mid + ([Colon] + (m.gap + (Text(m.value) + m.after)))))))
  }

  function MembersText(members: seq<Member>): seq<byte>
    requires members != []
    decreases members, 0
  {
    MemberText(members[0]) + if |members| == 1 then [] else [Comma] + MembersText(members[1..])
  }

  function ObjInner(pad: seq<byte>, members: seq<Member>): seq<byte>
    decreases members, 1
  {
    if members == [] then pad else MembersText(members)
  }

  function ArrInner(pad: seq<byte>, items: seq<Item>): seq<byte>
    decreases items, 1
  {
    if items == [] then pad else ItemsText(items)
  }

  function ItemText(e: Item): seq<byte> {
    e.before + (Text(e.value) + e.after)
  }

  function ItemsText(items: seq<Item>): seq<byte>
    requires items != []
    decreases items, 0
  {
    ItemText(items[0]) + if |items| == 1 then [] else [Comma] + ItemsText(items[1..])
  }

  // ---- A text at a position ----

  ghost predicate At(b: seq<byte>, i: nat, s: seq<byte>) {
    i + |s| <= |b| && forall k :: 0 <= k < |s| ==> s[k] == b[i + k]
  }

  lemma AtSplit(b: seq<byte>, i: nat, s: seq<byte>, t: seq<byte>)
    requires At(b, i, s + t)
    ensures At(b, i, s) && At(b, i + |s|, t)
  {
    var whole := s + t;
    assert forall k :: 0 <= k < |s| ==> s[k] == whole[k];
    assert forall k :: 0 <= k < |t| ==> t[k] == whole[|s| + k];
  }

  lemma AtFirst(b: seq<byte>, i: nat, c: byte, t: seq<byte>)
    requires At(b, i, [c] + t)
    ensures i < |b| && b[i] == c && At(b, i + 1, t)
  {
    AtSplit(b, i, [c], t);
    assert [c][0] == b[i + 0];
  }

  lemma AtByte(b: seq<byte>, i: nat, s: seq<byte>, k: nat)
    requires At(b, i, s) && k < |s|
    ensures b[i + k] == s[k]
  {
  }

  lemma {:induction false} SpaceSkipped(b: seq<byte>, i: nat, s: seq<byte>)
    requires At(b, i, s) && Spaces(s)
    ensures SpaceEnd(b, i) == SpaceEnd(b, i + |s|)
    decreases |s|
  {
    if |s| > 0 {
      assert s == [s[0]] + s[1..];
      AtFirst(b, i, s[0], s[1..]);
      SpaceSkipped(b, i + 1, s[1..]);
    }
  }

  lemma UnitsSplit(units: seq<Unit>)
    requires |units| > 0
    ensures UnitsText(units) == units[0].Text() + UnitsText(units[1..])
    ensures |UnitsText(units)| == |units[0].Text()| + |UnitsText(units[1..])|
  {
  }

  /** The forward scan of a string goes over it part by part. */
  lemma {:induction false} UnitsSkipped(b: seq<byte>, i: nat, units: seq<Unit>, n: nat)
    requires At(b, i, UnitsText(units)) && UnitsOk(units) && n == |UnitsText(units)|
    ensures StringEnd(b, i) == StringEnd(b, i + n)
    decreases |units|
  {
    if |units| > 0 {
      UnitsSplit(units);
      var u := units[0];
      AtSplit(b, i, u.Text(), UnitsText(units[1..]));
      UnitSkipped(b, i, u, |u.Text()|);
      UnitsSkipped(b, i + |u.Text()|, units[1..], n - |u.Text()|);
    }
  }

  lemma UnitSkipped(b: seq<byte>, i: nat, u: Unit, n: nat)
    requires At(b, i, u.Text()) && u.Ok() && n == |u.Text()|
    ensures StringEnd(b, i) == StringEnd(b, i + n)
  {
    AtByte(b, i, u.Text(), 0);
    match u
    case Plain(c) =>
    case Short(c) =>
    case Hex(digits) =>
      assert StringEnd(b, i) == StringEnd(b, i + 2);
      HexSkipped(b, i + 2, digits, u);
  }

  lemma HexSkipped(b: seq<byte>, i: nat, digits: seq<byte>, u: Unit)
    requires u == Hex(digits) && u.Ok() && i >= 2 && At(b, i - 2, u.Text())
    ensures StringEnd(b, i) == StringEnd(b, i + 4)
  {
    AtSplit(b, i - 2, [Backslash, 0x75], digits);
    AtByte(b, i, digits, 0);
    AtByte(b, i, digits, 1);
    AtByte(b, i, digits, 2);
    AtByte(b, i, digits, 3);
    assert StringEnd(b, i) == StringEnd(b, i + 1);
    assert StringEnd(b, i + 1) == StringEnd(b, i + 2);
    assert StringEnd(b, i + 2) == StringEnd(b, i + 3);
  }

  lemma QuoteAt(b: seq<byte>, j: nat)
    requires At(b, j, [Quote])
    ensures j < |b| && b[j] == Quote && StringEnd(b, j) == j + 1
  {
    AtByte(b, j, [Quote], 0);
  }

  /** A string ends at the quote after its parts. */
  lemma StringExact(b: seq<byte>, i: nat, units: seq<Unit>)
    requires At(b, i, UnitsText(units)) && At(b, i + |UnitsText(units)|, [Quote]) && UnitsOk(units)
    ensures StringEnd(b, i) == i + |UnitsText(units)| + 1
  {
    UnitsSkipped(b, i, units, |UnitsText(units)|);
    QuoteAt(b, i + |UnitsText(units)|);
  }
}
