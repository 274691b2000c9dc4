/** Sorting by an order, and that it leaves no choice. */
module Sorting {
  ghost predicate TotalOrder<T(!new)>(le: (T, T) -> bool) {
    && (forall a, b :: le(a, b) || le(b, a))
    && (forall a, b :: le(a, b) && le(b, a) ==> a == b)
    && (forall a, b, c :: le(a, b) && le(b, c) ==> le(a, c))
  }

  ghost predicate Sorted<T>(s: seq<T>, le: (T, T) -> bool) {
    forall i, j :: 0 <= i < j < |s| ==> le(s[i], s[j])
  }

  function Insert<T>(s: seq<T>, x: T, le: (T, T) -> bool): (r: seq<T>)
    ensures multiset(r) == multiset(s) + multiset{x}
  {
    if |s| == 0 then [x]
    else
      var n := |s| - 1;
      assert s == s[..n] + [s[n]];
      if le(s[n], x) then s + [x] else Insert(s[..n], x, le) + [s[n]]
  }

  lemma {:induction false} InsertHas<T>(s: seq<T>, x: T, le: (T, T) -> bool, y: T)
    ensures y in Insert(s, x, le) <==> y in s || y == x
  {
    assert y in multiset(Insert(s, x, le)) <==> y in multiset(s) + multiset{x};
  }

  lemma Total<T(!new)>(le: (T, T) -> bool, a: T, b: T)
    requires TotalOrder(le)
    ensures le(a, b) || le(b, a)
    ensures le(a, b) && le(b, a) ==> a == b
  {
  }

  lemma Through<T(!new)>(le: (T, T) -> bool, a: T, b: T, c: T)
    requires TotalOrder(le)
    ensures le(a, b) && le(b, c) ==> le(a, c)
  {
  }

  lemma {:induction false} InsertSorts<T(!new)>(s: seq<T>, x: T, le: (T, T) -> bool)
    requires TotalOrder(le) && Sorted(s, le)
    ensures Sorted(Insert(s, x, le), le)
  {
    if |s| > 0 {
      hide TotalOrder;
      var n := |s| - 1;
      Total(le, s[n], x);
      if !le(s[n], x) {
        InsertSorts(s[..n], x, le);
        var front := Insert(s[..n], x, le);
        forall i | 0 <= i < |front| ensures le(front[i], s[n]) {
          InsertHas(s[..n], x, le, front[i]);
        }
      } else {
        forall i | 0 <= i < n ensures le(s[i], x) {
          Through(le, s[i], s[n], x);
        }
      }
    }
  }

  method SortFunc<T(!new)>(s: seq<T>, le: (T, T) -> bool) returns (r: seq<T>)
    requires TotalOrder(le)
    ensures Sorted(r, le) && multiset(r) == multiset(s)
  {
    r := [];
    for i := 0 to |s|
      invariant Sorted(r, le) && multiset(r) == multiset(s[..i])
    {
      InsertSorts(r, s[i], le);
      assert s[..i + 1] == s[..i] + [s[i]];
      r := Insert(r, s[i], le);
    }
    assert s[..|s|] == s;
  }

  lemma {:induction false} WithoutLast<T>(a: seq<T>, b: seq<T>)
    requires |a| == |b| > 0 && multiset(a) == multiset(b) && a[|a| - 1] == b[|b| - 1]
    ensures multiset(a[..|a| - 1]) == multiset(b[..|b| - 1])
    ensures a == a[..|a| - 1] + [a[|a| - 1]] && b == b[..|b| - 1] + [b[|b| - 1]]
  {
    var n := |a| - 1;
    assert a == a[..n] + [a[n]] && b == b[..n] + [b[n]];
    assert multiset(a[..n]) == multiset(a) - multiset{a[n]};
    assert multiset(b[..n]) == multiset(b) - multiset{b[n]};
  }

  /** What is sorted is determined by its elements. */
  lemma {:induction false} SortedUnique<T(!new)>(a: seq<T>, b: seq<T>, le: (T, T) -> bool)
    requires TotalOrder(le) && Sorted(a, le) && Sorted(b, le) && multiset(a) == multiset(b)
    ensures a == b
  {
    assert |a| == |multiset(a)| && |b| == |multiset(b)|;
    if |a| > 0 {
      hide TotalOrder;
      LastIsHighest(a, b, le);
      LastIsHighest(b, a, le);
      Total(le, a[|a| - 1], b[|b| - 1]);
      WithoutLast(a, b);
      SortedUnique(a[..|a| - 1], b[..|b| - 1], le);
    }
  }

  lemma {:induction false} LastIsHighest<T(!new)>(a: seq<T>, b: seq<T>, le: (T, T) -> bool)
    requires TotalOrder(le) && Sorted(a, le) && Sorted(b, le) && multiset(a) == multiset(b) && |a| == |b| > 0
    ensures le(a[|a| - 1], b[|b| - 1])
  {
    Total(le, a[|a| - 1], a[|a| - 1]);
    var last := a[|a| - 1];
    assert last in multiset(b);
    var i :| 0 <= i < |b| && b[i] == last;
    if i < |b| - 1 {
      assert le(b[i], b[|b| - 1]);
    }
  }

  lemma {:induction false} OnceEach<T>(s: seq<T>, x: T)
    requires forall i, j :: 0 <= i < j < |s| ==> s[i] != s[j]
    ensures multiset(s)[x] == if x in s then 1 else 0
  {
    if |s| > 0 {
      var n := |s| - 1;
      OnceEach(s[..n], x);
      assert s == s[..n] + [s[n]];
      assert x in s <==> x in s[..n] || x == s[n];
    }
  }

  lemma {:induction false} TwiceThere<T>(s: seq<T>, i: int, j: int)
    requires 0 <= i < j < |s| && s[i] == s[j]
    ensures multiset(s)[s[i]] >= 2
  {
    assert s == s[..j] + [s[j]] + s[j + 1..];
    assert s[..j][i] == s[j];
  }
}
