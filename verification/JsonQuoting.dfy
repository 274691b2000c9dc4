/** Unquote gives back every string, however it was quoted. */
module JsonQuoting {
  import opened Options
  import opened Conversation
  import opened JsonScan
  import opened JsonGrammar
  import opened JsonTheorems
  import opened JsonText

  /** How a character is written: as it is, with a short escape, with one \u escape
      or with two; the digits are of either case. */
  datatype Form = Raw | Brief | Single(digits: seq<byte>) | Double(high: seq<byte>, low: seq<byte>)

  datatype Char = Char(r: scalar, form: Form)

  predicate FourDigits(digits: seq<byte>) {
    |digits| == 4 && forall i :: 0 <= i < 4 ==> HexDigit(digits[i])
  }

  /** The letter of the short escape for a character. */
  function BriefOf(r: scalar): Option<byte> {
    if r == 0x22 || r == 0x5C || r == 0x2F then Some(r)
    else if r == 0x08 then Some(0x62)
    else if r == 0x0C then Some(0x66)
    else if r == 0x0A then Some(0x6E)
    else if r == 0x0D then Some(0x72)
    else if r == 0x09 then Some(0x74)
    else None
  }

  /** RFC 8259 section 7 lets the character be written so. */
  predicate Legal(c: Char) {
    match c.form
    case Raw => c.r >= 0x20 && c.r != 0x22 && c.r != 0x5C
    case Brief => BriefOf(c.r).Some?
    case Single(digits) => FourDigits(digits) && HexNumber(digits) == c.r
    case Double(high, low) =>
      && c.r >= 0x1_0000 && FourDigits(high) && FourDigits(low)
      && HexNumber(high) == 0xD800 + (c.r - 0x1_0000) / 0x400
      && HexNumber(low) == 0xDC00 + (c.r - 0x1_0000) % 0x400
  }

  predicate AllLegal(chars: seq<Char>) {
    |chars| == 0 || (Legal(chars[0]) && AllLegal(chars[1..]))
  }

  function PlainUnits(s: seq<byte>): seq<Unit> {
    if |s| == 0 then [] else [Plain(s[0])] + PlainUnits(s[1..])
  }

  function UnitsOf(c: Char): seq<Unit>
    requires Legal(c)
  {
    match c.form
    case Raw => PlainUnits(Utf8(c.r))
    case Brief => [Short(BriefOf(c.r).value)]
    case Single(digits) => [Hex(digits)]
    case Double(high, low) => [Hex(high), Hex(low)]
  }

  /** The parts of the string that writes chars. */
  function Written(chars: seq<Char>): seq<Unit>
    requires AllLegal(chars)
  {
    if |chars| == 0 then [] else UnitsOf(chars[0]) + Written(chars[1..])
  }

  function TextOf(chars: seq<Char>): seq<scalar> {
    if |chars| == 0 then [] else [chars[0].r] + TextOf(chars[1..])
  }

  // ---- What is written is a string of the grammar ----

  lemma {:induction false} PlainText(s: seq<byte>)
    ensures UnitsText(PlainUnits(s)) == s
  {
    if |s| > 0 {
      PlainText(s[1..]);
      var units := PlainUnits(s);
      assert units[1..] == PlainUnits(s[1..]);
    }
  }

  lemma {:induction false} PlainOk(s: seq<byte>)
    requires forall i :: 0 <= i < |s| ==> Plain(s[i]).Ok()
    ensures UnitsOk(PlainUnits(s))
  {
    if |s| > 0 {
      PlainOk(s[1..]);
    }
  }

  lemma RawOk(r: scalar)
    requires r >= 0x20 && r != 0x22 && r != 0x5C
    ensures forall i :: 0 <= i < |Utf8(r)| ==> Plain(Utf8(r)[i]).Ok()
  {
  }

  lemma CharOk(c: Char)
    requires Legal(c)
    ensures UnitsOk(UnitsOf(c))
  {
    match c.form
    case Raw =>
      RawOk(c.r);
      PlainOk(Utf8(c.r));
    case Brief =>
    case Single(_) =>
    case Double(_, _) =>
  }

  lemma {:induction false} WrittenOk(chars: seq<Char>)
    requires AllLegal(chars)
    ensures UnitsOk(Written(chars))
  {
    if |chars| > 0 {
      CharOk(chars[0]);
      WrittenOk(chars[1..]);
    }
  }

  lemma {:induction false} UnitsTextMore(a: seq<Unit>, b: seq<Unit>)
    ensures UnitsText(a + b) == UnitsText(a) + UnitsText(b)
  {
    if |a| == 0 {
      assert a + b == b;
    } else {
      assert (a + b)[1..] == a[1..] + b;
      UnitsTextMore(a[1..], b);
    }
  }

  // ---- What the decoder makes of it ----

  lemma CharUnescaped(c: Char, rest: seq<byte>)
    requires Legal(c)
    ensures Unescaped(UnitsText(UnitsOf(c)) + rest) == After(Utf8(c.r), Unescaped(rest))
  {
    match c.form
    case Raw => RawUnescaped(c.r, rest);
    case Brief => BriefUnescaped(c.r, rest);
    case Single(digits) => SingleUnescaped(c.r, digits, rest);
    case Double(high, low) => DoubleUnescaped(c.r, high, low, rest);
  }

  lemma RawUnescaped(r: scalar, rest: seq<byte>)
    requires Legal(Char(r, Raw))
    ensures Unescaped(UnitsText(PlainUnits(Utf8(r))) + rest) == After(Utf8(r), Unescaped(rest))
  {
    PlainText(Utf8(r));
    RawOk(r);
    assert forall i :: 0 <= i < |Utf8(r)| ==> Plain(Utf8(r)[i]).Ok();
    assert Backslash !in Utf8(r);
    PlainUnescaped(Utf8(r), rest);
  }

  lemma BriefUnescaped(r: scalar, rest: seq<byte>)
    requires BriefOf(r).Some?
    ensures Unescaped(UnitsText([Short(BriefOf(r).value)]) + rest) == After(Utf8(r), Unescaped(rest))
  {
    var u := Short(BriefOf(r).value);
    assert UnitsText([u]) == [Backslash, BriefOf(r).value] + [];
    var s := UnitsText([u]) + rest;
    assert s[2..] == rest;
  }

  lemma HexText(digits: seq<byte>, rest: seq<byte>)
    requires FourDigits(digits)
    ensures var s := UnitsText([Hex(digits)]) + rest;
      && s == [Backslash, LowerU] + digits + rest
      && |s| >= 6 && s[0] == Backslash && s[1] == LowerU && s[2..6] == digits && s[6..] == rest
      && Hex4(s) == HexNumber(digits)
  {
    assert UnitsText([Hex(digits)]) == [Backslash, LowerU] + digits + [];
    var s := UnitsText([Hex(digits)]) + rest;
    assert s[2..6] == digits && s[6..] == rest;
  }

  lemma SingleUnescaped(r: scalar, digits: seq<byte>, rest: seq<byte>)
    requires FourDigits(digits) && HexNumber(digits) == r
    ensures Unescaped(UnitsText([Hex(digits)]) + rest) == After(Utf8(r), Unescaped(rest))
  {
    HexText(digits, rest);
    var s := UnitsText([Hex(digits)]) + rest;
    assert EscapedRune(s) == (r, 6);
    assert Escaped(s) == Some((Utf8(r), 6));
  }

  lemma PairValue(r: scalar)
    requires r >= 0x1_0000
    ensures var v := r - 0x1_0000; Surrogate(0xD800 + v / 0x400) && Paired(0xD800 + v / 0x400, 0xDC00 + v % 0x400) == r
  {
    var v := r - 0x1_0000;
    assert 0 <= v / 0x400 < 0x400 && v / 0x400 * 0x400 + v % 0x400 == v;
  }

  lemma DoubleUnescaped(r: scalar, high: seq<byte>, low: seq<byte>, rest: seq<byte>)
    requires Legal(Char(r, Double(high, low)))
    ensures Unescaped(UnitsText([Hex(high), Hex(low)]) + rest) == After(Utf8(r), Unescaped(rest))
  {
    assert [Hex(high), Hex(low)] == [Hex(high)] + [Hex(low)];
    UnitsTextMore([Hex(high)], [Hex(low)]);
    var t := UnitsText([Hex(low)]) + rest;
    var s := UnitsText([Hex(high), Hex(low)]) + rest;
    assert s == UnitsText([Hex(high)]) + t;
    HexText(high, t);
    HexText(low, rest);
    assert s[6..] == t && s[6] == t[0] && s[7] == t[1];
    assert s[12..] == t[6..] == rest;
    PairValue(r);
    assert EscapedRune(s) == (r, 12);
    assert Escaped(s) == Some((Utf8(r), 12));
  }

  lemma {:induction false} WrittenUnescaped(chars: seq<Char>)
    requires AllLegal(chars)
    ensures Unescaped(UnitsText(Written(chars))) == Some(Utf8All(TextOf(chars)))
  {
    if |chars| > 0 {
      var rest := Written(chars[1..]);
      UnitsTextMore(UnitsOf(chars[0]), rest);
      CharUnescaped(chars[0], UnitsText(rest));
      WrittenUnescaped(chars[1..]);
      assert TextOf(chars)[1..] == TextOf(chars[1..]);
    }
  }

  /** The quoted form of chars. */
  function Quoted(chars: seq<Char>): seq<byte>
    requires AllLegal(chars)
  {
    Text(Str(Written(chars)))
  }

  /** Unquote's fast path gives back every text, from every legal way to quote it. */
  lemma UnquoteInverts(chars: seq<Char>)
    requires AllLegal(chars)
    ensures UnquotedOf(Quoted(chars)) == Fast(Utf8All(TextOf(chars)))
  {
    var units := Written(chars);
    var value := Quoted(chars);
    WrittenOk(chars);
    assert [] + value + [] == value;
    ValueExact([], Str(units), []);
    assert value[1..|value| - 1] == UnitsText(units);
    WrittenUnescaped(chars);
    TextIsValid(TextOf(chars));
  }

  /** Whatever the fast path returns is the UTF-8 of some text. */
  lemma FastIsText(value: seq<byte>) returns (text: seq<scalar>)
    requires UnquotedOf(value).Fast?
    ensures UnquotedOf(value) == Fast(Utf8All(text))
  {
    text := ValidIsText(UnquotedOf(value).text);
  }
}
