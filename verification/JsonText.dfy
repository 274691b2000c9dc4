/** The decoder of JSON strings: what a string's value is, and that its fast path
    gives it for every way to write it (RFC 8259 section 7). */
module JsonText {
  import opened Options
  import opened Conversation
  import opened JsonScan
  import opened JsonGrammar
  import opened JsonTheorems

  // ---- UTF-8 (RFC 3629) ----

  predicate Surrogate(r: int) {
    0xD800 <= r < 0xE000
  }

  /** A Unicode scalar value. */
  predicate IsScalar(r: int) {
    0 <= r <= 0x10FFFF && !Surrogate(r)
  }

  const RuneError := 0xFFFD

  function Utf8(r: int): (s: seq<byte>)
    requires 0 <= r <= 0x10FFFF
    ensures 1 <= |s| <= 4
  {
    if r < 0x80 then [r]
    else if r < 0x800 then [0xC0 + r / 0x40, 0x80 + r % 0x40]
    else if r < 0x1_0000 then [0xE0 + r / 0x1000, 0x80 + r / 0x40 % 0x40, 0x80 + r % 0x40]
    else [0xF0 + r / 0x4_0000, 0x80 + r / 0x1000 % 0x40, 0x80 + r / 0x40 % 0x40, 0x80 + r % 0x40]
  }

  type scalar = r: int | 0 <= r <= 0x10FFFF && !(0xD800 <= r < 0xE000)

  function Utf8All(text: seq<scalar>): seq<byte> {
    if |text| == 0 then [] else Utf8(text[0]) + Utf8All(text[1..])
  }

  /** What utf8.AppendRune appends. */
  function RuneBytes(r: int): seq<byte> {
    Utf8(if IsScalar(r) then r else RuneError)
  }

  predicate Tail(s: seq<byte>, i: nat) {
    i < |s| && 0x80 <= s[i] <= 0xBF
  }

  /** The length of the well-formed character s starts with, or 0 (Unicode, table 3-7). */
  function RuneLength(s: seq<byte>): (n: nat)
    ensures n <= 4 && n <= |s|
  {
    if |s| == 0 then 0
    else if s[0] < 0x80 then 1
    else if |s| == 1 then 0
    else if 0xC2 <= s[0] <= 0xDF then if Tail(s, 1) then 2 else 0
    else if 0xE0 <= s[0] <= 0xEF then
      if Tail(s, 1) && Tail(s, 2) && (s[0] == 0xE0 ==> s[1] >= 0xA0) && (s[0] == 0xED ==> s[1] <= 0x9F) then 3 else 0
    else if 0xF0 <= s[0] <= 0xF4 then
      if Tail(s, 1) && Tail(s, 2) && Tail(s, 3) && (s[0] == 0xF0 ==> s[1] >= 0x90) && (s[0] == 0xF4 ==> s[1] <= 0x8F)
      then 4 else 0
    else 0
  }

  /** Models utf8.Valid. */
  predicate Utf8Valid(s: seq<byte>) {
    |s| == 0 || (RuneLength(s) > 0 && Utf8Valid(s[RuneLength(s)..]))
  }

  lemma RuneMeasured(r: scalar, rest: seq<byte>)
    ensures RuneLength(Utf8(r) + rest) == |Utf8(r)|
    ensures Utf8Valid(Utf8(r) + rest) == Utf8Valid(rest)
  {
    var s := Utf8(r) + rest;
    RuneMeasures(r, s);
    assert s[|Utf8(r)|..] == rest;
  }

  lemma RuneMeasures(r: scalar, s: seq<byte>)
    requires Utf8(r) <= s
    ensures RuneLength(s) == |Utf8(r)|
  {
    var code := Utf8(r);
    assert forall i :: 0 <= i < |code| ==> s[i] == code[i];
    if r < 0x80 {
      assert s[0] == r;
    } else if r < 0x800 {
      assert s[0] == 0xC0 + r / 0x40;
    } else if r < 0x1_0000 {
      assert s[0] == 0xE0 + r / 0x1000 && s[1] == 0x80 + r / 0x40 % 0x40;
    } else {
      assert s[0] == 0xF0 + r / 0x4_0000 && s[1] == 0x80 + r / 0x1000 % 0x40;
    }
  }

  /** The character whose n bytes s starts with. */
  function Combine(s: seq<byte>, n: nat): int
    requires 1 <= n <= 4 && n <= |s|
  {
    var a: int := s[0];
    if n == 1 then a
    else
      var b: int := s[1];
      if n == 2 then (a - 0xC0) * 0x40 + (b - 0x80)
      else
        var c: int := s[2];
        if n == 3 then (a - 0xE0) * 0x1000 + (b - 0x80) * 0x40 + (c - 0x80)
        else
          var d: int := s[3];
          (a - 0xF0) * 0x4_0000 + (b - 0x80) * 0x1000 + (c - 0x80) * 0x40 + (d - 0x80)
  }

  lemma Combined2(a: int, b: int)
    requires 2 <= a < 0x20 && 0 <= b < 0x40
    ensures var r := a * 0x40 + b; 0x80 <= r < 0x800 && r / 0x40 == a && r % 0x40 == b
  {
  }

  lemma Combined3(a: int, b: int, c: int)
    requires 0 <= a < 0x10 && 0 <= b < 0x40 && 0 <= c < 0x40
    ensures var r := a * 0x1000 + b * 0x40 + c; r / 0x1000 == a && r / 0x40 % 0x40 == b && r % 0x40 == c
  {
    var r := a * 0x1000 + b * 0x40 + c;
    assert r == (a * 0x40 + b) * 0x40 + c;
    assert r / 0x40 == a * 0x40 + b;
  }

  lemma Combined4(a: int, b: int, c: int, d: int)
    requires 0 <= a < 8 && 0 <= b < 0x40 && 0 <= c < 0x40 && 0 <= d < 0x40
    ensures var r := a * 0x4_0000 + b * 0x1000 + c * 0x40 + d;
      r / 0x4_0000 == a && r / 0x1000 % 0x40 == b && r / 0x40 % 0x40 == c && r % 0x40 == d
  {
    var r := a * 0x4_0000 + b * 0x1000 + c * 0x40 + d;
    var q := a * 0x1000 + b * 0x40 + c;
    assert r == q * 0x40 + d;
    Combined3(a, b, c);
    assert r / 0x40 == q && r % 0x40 == d;
    assert r / 0x1000 == q / 0x40;
  }

  lemma Combined(s: seq<byte>)
    requires RuneLength(s) > 0
    ensures var n := RuneLength(s); IsScalar(Combine(s, n)) && s[..n] == Utf8(Combine(s, n))
  {
    match RuneLength(s)
    case 1 =>
    case 2 => Combined2(s[0] as int - 0xC0, s[1] as int - 0x80);
    case 3 => ThreeBytes(s);
    case _ => FourBytes(s);
  }

  lemma ThreeBytes(s: seq<byte>)
    requires RuneLength(s) == 3
    ensures IsScalar(Combine(s, 3)) && s[..3] == Utf8(Combine(s, 3))
  {
    var a, b, c: int := s[0] as int - 0xE0, s[1] as int - 0x80, s[2] as int - 0x80;
    Combined3(a, b, c);
    assert Combine(s, 3) == a * 0x1000 + b * 0x40 + c;
    assert 0x800 <= Combine(s, 3) < 0x1_0000;
  }

  lemma FourBytes(s: seq<byte>)
    requires RuneLength(s) == 4
    ensures IsScalar(Combine(s, 4)) && s[..4] == Utf8(Combine(s, 4))
  {
    var a, b, c, d: int := s[0] as int - 0xF0, s[1] as int - 0x80, s[2] as int - 0x80, s[3] as int - 0x80;
    Combined4(a, b, c, d);
    assert Combine(s, 4) == a * 0x4_0000 + b * 0x1000 + c * 0x40 + d;
    assert 0x1_0000 <= Combine(s, 4) <= 0x10FFFF;
  }

  /** Valid UTF-8 is what encodes some text of Unicode scalar values. */
  lemma {:induction false} ValidIsText(s: seq<byte>) returns (text: seq<scalar>)
    requires Utf8Valid(s)
    ensures Utf8All(text) == s
    decreases |s|
  {
    if |s| == 0 {
      return [];
    }
    var n := RuneLength(s);
    var rest := ValidIsText(s[n..]);
    Combined(s);
    text := [Combine(s, n)] + rest;
    assert text[1..] == rest && s == s[..n] + s[n..];
  }

  lemma {:induction false} TextIsValid(text: seq<scalar>)
    ensures Utf8Valid(Utf8All(text))
  {
    if |text| > 0 {
      TextIsValid(text[1..]);
      RuneMeasured(text[0], Utf8All(text[1..]));
    }
  }

  // ---- Escapes ----

  const LowerU: byte := 0x75

  function DigitValue(c: byte): (v: int)
    ensures v == -1 || 0 <= v < 16
    ensures v >= 0 <==> HexDigit(c)
  {
    if Digit(c) then c as int - 0x30
    else if 0x61 <= c <= 0x66 then c as int - 0x57
    else if 0x41 <= c <= 0x46 then c as int - 0x37
    else -1
  }

  /** The number hex digits write, or -1. */
  function HexNumber(digits: seq<byte>): (r: int)
    ensures r >= -1
    ensures r >= 0 <==> forall i :: 0 <= i < |digits| ==> HexDigit(digits[i])
  {
    if |digits| == 0 then 0
    else
      var n := |digits| - 1;
      var high, low := HexNumber(digits[..n]), DigitValue(digits[n]);
      if high < 0 || low < 0 then -1 else high * 16 + low
  }

  /** What utf16.DecodeRune makes of two halves. */
  function Paired(high: int, low: int): (r: int)
    ensures r == RuneError || 0x1_0000 <= r <= 0x10FFFF
  {
    if 0xD800 <= high < 0xDC00 && 0xDC00 <= low < 0xE000 then (high - 0xD800) * 0x400 + (low - 0xDC00) + 0x1_0000
    else RuneError
  }

  function Hex4(s: seq<byte>): (r: int)
    ensures r >= -1
  {
    if |s| < 6 then -1 else HexNumber(s[2..6])
  }

  /** The character the \u escape s starts with writes, with the low half of a pair
      that follows it, and how many bytes it takes; 0 for a malformed one. */
  function EscapedRune(s: seq<byte>): (r: (int, nat))
    ensures r.1 <= |s|
  {
    var high := Hex4(s);
    if high < 0 then (0, 0)
    else if !Surrogate(high) then (high, 6)
    else if |s| >= 12 && s[6] == Backslash && s[7] == LowerU && Hex4(s[6..]) >= 0
            && Paired(high, Hex4(s[6..])) != RuneError then (Paired(high, Hex4(s[6..])), 12)
    else (RuneError, 6)
  }

  /** What the escape s starts with stands for, and how many bytes it takes. */
  function Escaped(s: seq<byte>): (r: Option<(seq<byte>, nat)>)
    ensures r.Some? ==> 0 < r.value.1 <= |s|
  {
    if |s| < 2 then None
    else if s[1] == Quote || s[1] == Backslash || s[1] == 0x2F then Some(([s[1]], 2))
    else if s[1] == 0x62 then Some(([0x08], 2))
    else if s[1] == 0x66 then Some(([0x0C], 2))
    else if s[1] == 0x6E then Some(([0x0A], 2))
    else if s[1] == 0x72 then Some(([0x0D], 2))
    else if s[1] == 0x74 then Some(([0x09], 2))
    else if s[1] == LowerU && EscapedRune(s).1 > 0 then Some((RuneBytes(EscapedRune(s).0), EscapedRune(s).1))
    else None
  }

  function After(b: seq<byte>, rest: Option<seq<byte>>): Option<seq<byte>> {
    if rest.None? then None else Some(b + rest.value)
  }

  /** The bytes between the quotes with the escapes resolved; none for an escape it can't resolve. */
  function Unescaped(s: seq<byte>): Option<seq<byte>>
    decreases |s|
  {
    if |s| == 0 then Some([])
    else if s[0] != Backslash then After([s[0]], Unescaped(s[1..]))
    else
      var e := Escaped(s);
      if e.None? then None else After(e.value.0, Unescaped(s[e.value.1..]))
  }

  /** What Unquote returns: Slow is what it leaves to the general decoder. */
  datatype Unquoted = NotString | Fast(text: seq<byte>) | Slow

  function UnquotedOf(value: seq<byte>): Unquoted {
    if |value| < 2 || value[0] != Quote || StringEnd(value, 1) != |value| then NotString
    else
      var text := Unescaped(value[1..|value| - 1]);
      if text.Some? && Utf8Valid(text.value) then Fast(text.value) else Slow
  }

  // ---- The methods ----

  method HexDigits4(s: seq<byte>) returns (r: int)
    ensures r == Hex4(s)
  {
    if |s| < 6 {
      return -1;
    }
    r := 0;
    for i := 2 to 6
      invariant 0 <= r == HexNumber(s[2..i])
    {
      assert s[2..i + 1][..i - 2] == s[2..i];
      var c := DigitValue(s[i]);
      if c < 0 {
        assert !HexDigit(s[2..6][i - 2]);
        return -1;
      }
      r := r * 16 + c;
    }
  }

  method UnquoteRune(s: seq<byte>) returns (r: int, n: nat)
    ensures (r, n) == EscapedRune(s)
  {
    r := HexDigits4(s);
    if r < 0 {
      return 0, 0;
    }
    if !Surrogate(r) {
      return r, 6;
    }
    if |s| >= 12 && s[6] == Backslash && s[7] == LowerU {
      var low := HexDigits4(s[6..]);
      if low >= 0 {
        var pair := Paired(r, low);
        if pair != RuneError {
          return pair, 12;
        }
      }
    }
    return RuneError, 6;
  }

  /** Resolves the escape s starts with, at the end of b. */
  method AppendEscape(b: seq<byte>, s: seq<byte>) returns (ok: bool, b': seq<byte>, s': seq<byte>)
    requires s != [] && s[0] == Backslash
    ensures ok == Escaped(s).Some?
    ensures ok ==> b' == b + Escaped(s).value.0 && s' == s[Escaped(s).value.1..]
  {
    ok, b', s' := true, b, s;
    if |s| < 2 {
      return false, b, s;
    }
    var c := s[1];
    if c == Quote || c == Backslash || c == 0x2F {
      b', s' := b + [c], s[2..];
    } else if c == 0x62 {
      b', s' := b + [0x08], s[2..];
    } else if c == 0x66 {
      b', s' := b + [0x0C], s[2..];
    } else if c == 0x6E {
      b', s' := b + [0x0A], s[2..];
    } else if c == 0x72 {
      b', s' := b + [0x0D], s[2..];
    } else if c == 0x74 {
      b', s' := b + [0x09], s[2..];
    } else if c == LowerU {
      var r, n := UnquoteRune(s);
      if n == 0 {
        return false, b, s;
      }
      b', s' := b + RuneBytes(r), s[n..];
    } else {
      return false, b, s;
    }
  }

  /** Bytes without a backslash stand for themselves. */
  lemma {:induction false} PlainUnescaped(s: seq<byte>, rest: seq<byte>)
    requires Backslash !in s
    ensures Unescaped(s + rest) == After(s, Unescaped(rest))
  {
    if |s| == 0 {
      assert s + rest == rest;
      assert Unescaped(rest).Some? ==> s + Unescaped(rest).value == Unescaped(rest).value;
    } else {
      assert (s + rest)[1..] == s[1..] + rest;
      PlainUnescaped(s[1..], rest);
      var tail := Unescaped(rest);
      if tail.Some? {
        assert [s[0]] + (s[1..] + tail.value) == s + tail.value;
      }
    }
  }

  lemma AfterAfter(b: seq<byte>, c: seq<byte>, rest: Option<seq<byte>>)
    ensures After(b, After(c, rest)) == After(b + c, rest)
  {
    if rest.Some? {
      assert b + (c + rest.value) == b + c + rest.value;
    }
  }

  /** The bytes before the next escape are copied as they are. */
  lemma Copied(b: seq<byte>, s: seq<byte>, i: nat)
    requires i <= |s| && Backslash !in s[..i]
    ensures After(b, Unescaped(s)) == After(b + s[..i], Unescaped(s[i..]))
  {
    assert s == s[..i] + s[i..];
    PlainUnescaped(s[..i], s[i..]);
    AfterAfter(b, s[..i], Unescaped(s[i..]));
  }

  /** Resolves the escapes of s, one after the other; ok is false for one it can't resolve. */
  method ResolveEscapes(s0: seq<byte>, first: nat) returns (ok: bool, b: seq<byte>)
    requires first < |s0| && s0[first] == Backslash && Backslash !in s0[..first]
    ensures (if ok then Some(b) else None) == Unescaped(s0)
  {
    var s := s0;
    var i: int := first;
    b := [];
    assert After(b, Unescaped(s)) == Unescaped(s0) by {
      if Unescaped(s).Some? {
        assert [] + Unescaped(s).value == Unescaped(s).value;
      }
    }
    while i >= 0
      invariant i == -1 ==> Backslash !in s
      invariant i != -1 ==> 0 <= i < |s| && s[i] == Backslash && Backslash !in s[..i]
      invariant After(b, Unescaped(s)) == Unescaped(s0)
      decreases |s|, i
    {
      Copied(b, s, i);
      b := b + s[..i];
      s := s[i..];
      ghost var e := Escaped(s);
      var c, t;
      ok, c, t := AppendEscape(b, s);
      if !ok {
        return;
      }
      AfterAfter(b, e.value.0, Unescaped(t));
      b, s := c, t;
      i := IndexByte(s, 0, Backslash);
      assert i >= 0 ==> s[0..i] == s[..i];
      assert s[0..] == s;
    }
    Copied(b, s, |s|);
    assert s[..|s|] == s && b + s + [] == b + s;
    b := b + s;
    ok := true;
  }

  /** Decodes a JSON string value. */
  method Unquote(value: seq<byte>) returns (r: Unquoted)
    ensures r == UnquotedOf(value)
  {
    if |value| < 2 || value[0] != Quote {
      return NotString;
    }
    var end := SkipString(value, 0);
    if end != |value| {
      return NotString;
    }
    var s := value[1..|value| - 1];
    var i := IndexByte(s, 0, Backslash);
    if i < 0 {
      assert s[0..] == s && s + [] == s;
      PlainUnescaped(s, []);
      return if Utf8Valid(s) then Fast(s) else Slow;
    }
    assert s[0..i] == s[..i];
    var ok, b := ResolveEscapes(s, i);
    if !ok || !Utf8Valid(b) {
      return Slow;
    }
    return Fast(b);
  }
}
