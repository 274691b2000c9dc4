/** A line cut off before the brace that closes its object is no whole object:
    the scan of a line only depends on the bytes it has gone over. */
module JsonPrefixes {
  import opened Options
  import opened Conversation
  import opened JsonScan
  import opened JsonGrammar
  import opened JsonTheorems

  lemma {:induction false} SpaceKept(p: seq<byte>, b: seq<byte>, i: nat)
    requires p <= b && i <= |p| && SpaceEnd(p, i) < |p|
    ensures SpaceEnd(b, i) == SpaceEnd(p, i)
    decreases |p| - i
  {
    if Space(p[i]) {
      SpaceKept(p, b, i + 1);
    }
  }

  lemma {:induction false} StringKept(p: seq<byte>, b: seq<byte>, j: nat)
    requires p <= b && StringEnd(p, j) >= 0
    ensures StringEnd(b, j) == StringEnd(p, j)
    decreases |p| - j
  {
    if p[j] == Backslash {
      StringKept(p, b, j + 2);
    } else if p[j] != Quote {
      StringKept(p, b, j + 1);
    }
  }

  lemma {:induction false} NestedKept(p: seq<byte>, b: seq<byte>, j: nat, depth: int)
    requires p <= b && NestedEnd(p, j, depth) >= 0
    ensures NestedEnd(b, j, depth) == NestedEnd(p, j, depth)
    decreases |p| - j
  {
    if p[j] == Quote {
      StringKept(p, b, j + 1);
      NestedKept(p, b, StringEnd(p, j + 1), depth);
    } else if Opens(p[j]) {
      NestedKept(p, b, j + 1, depth + 1);
    } else if !Closes(p[j]) {
      NestedKept(p, b, j + 1, depth);
    } else if depth != 1 {
      NestedKept(p, b, j + 1, depth - 1);
    }
  }

  lemma {:induction false} PlainKept(p: seq<byte>, b: seq<byte>, j: nat)
    requires p <= b && j <= |p| && PlainEnd(p, j) < |p|
    ensures PlainEnd(b, j) == PlainEnd(p, j)
    decreases |p| - j
  {
    if !Delimits(p[j]) {
      PlainKept(p, b, j + 1);
    }
  }

  lemma ValueKept(p: seq<byte>, b: seq<byte>, i: nat)
    requires p <= b && i <= |p| && 0 <= ValueEnd(p, i) < |p|
    ensures ValueEnd(b, i) == ValueEnd(p, i)
  {
    if p[i] == Quote {
      StringKept(p, b, i + 1);
    } else if Opens(p[i]) {
      NestedKept(p, b, i, 0);
    } else {
      PlainKept(p, b, i);
    }
  }

  lemma MemberKept(p: seq<byte>, b: seq<byte>, i: nat)
    requires p <= b && MemberAt(p, i).Some? && MemberAt(p, i).value.next < |p|
    ensures MemberAt(b, i) == MemberAt(p, i)
  {
    hide StringEnd, SpaceEnd, ValueEnd;
    var end := StringEnd(p, i + 1);
    var colon := SpaceEnd(p, end);
    var v := SpaceEnd(p, colon + 1);
    var vEnd := ValueEnd(p, v);
    StringKept(p, b, i + 1);
    SpaceKept(p, b, end);
    SpaceKept(p, b, colon + 1);
    ValueKept(p, b, v);
    SpaceKept(p, b, vEnd);
    assert p[i + 1..end - 1] == b[i + 1..end - 1] && p[v..vEnd] == b[v..vEnd];
  }

  lemma {:induction false} MembersKept(p: seq<byte>, b: seq<byte>, i: nat)
    requires p <= b && MembersFrom(p, i).1 >= 0
    ensures MembersFrom(b, i) == MembersFrom(p, i)
    decreases |p| - i
  {
    hide MemberAt, SpaceEnd;
    var next := MemberAt(p, i).value.next;
    assert next < |p|;
    MemberKept(p, b, i);
    if p[next] == Comma {
      var j := SpaceEnd(p, next + 1);
      assert MembersFrom(p, j).1 >= 0;
      EndIsPast(p, j);
      SpaceKept(p, b, next + 1);
      MembersKept(p, b, j);
    }
  }

  lemma EndIsPast(p: seq<byte>, j: nat)
    requires MembersFrom(p, j).1 >= 0
    ensures j < |p|
  {
  }

  /** An object that ends in a line ends there in every longer line, with the same members. */
  lemma ObjectKept(p: seq<byte>, b: seq<byte>)
    requires p <= b && Object(p).1 >= 0
    ensures Object(b) == Object(p)
  {
    hide MembersFrom, SpaceEnd;
    var i := SpaceEnd(p, 0);
    SpaceKept(p, b, 0);
    var j := SpaceEnd(p, i + 1);
    if j < |p| && p[j] == CloseBrace {
      SpaceKept(p, b, i + 1);
    } else {
      EndIsPast(p, j);
      SpaceKept(p, b, i + 1);
      MembersKept(p, b, j);
    }
  }

  /** A line that stops before its object does is not whole. */
  lemma CutShort(line: seq<byte>, n: nat)
    requires 0 <= n < Object(line).1
    ensures !Whole(line[..n])
  {
    if Whole(line[..n]) {
      ObjectKept(line[..n], line);
    }
  }

  /** Members reports false on every prefix of a line that lacks the closing brace of its object. */
  lemma PrefixIsNotWhole(before: seq<byte>, v: Value, rest: seq<byte>, n: nat)
    requires Spaces(before) && Ok(v) && v.Obj? && n < |before| + |Text(v)|
    ensures !Whole((before + Text(v) + rest)[..n])
  {
    ObjectExact(before, v, rest);
    CutShort(before + Text(v) + rest, n);
  }
}
