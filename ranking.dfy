/** Ordering helpers shared by the decision layer and retrieval: Python's stable
    `list.sort` over a total preorder, done in place on an array, and the slice `[:k]`. */
module Ranking {

  /** `le(a, b)`: `a` may be placed before `b`. Python's `sort(key=k, reverse=True)`
      is the stable sort for `le(a, b) == k(a) >= k(b)`. */
  ghost predicate TotalPreorder<T(!new)>(le: (T, T) -> bool) {
    && (forall a, b :: le(a, b) || le(b, a))
    && (forall a, b, c :: le(a, b) && le(b, c) ==> le(a, c))
  }

  predicate Sorted<T>(s: seq<T>, le: (T, T) -> bool) {
    forall i, j :: 0 <= i < j < |s| ==> le(s[i], s[j])
  }

  /** The elements of `s` that tie with `v`, in their order in `s`. */
  function Tied<T>(s: seq<T>, le: (T, T) -> bool, v: T): seq<T> {
    if s == [] then []
    else (if le(s[0], v) && le(v, s[0]) then [s[0]] else []) + Tied(s[1..], le, v)
  }

  /** Place `x` after every element of `t` that may precede it. */
  function Insert<T>(t: seq<T>, x: T, le: (T, T) -> bool): seq<T> {
    if t == [] then [x]
    else if le(t[0], x) then [t[0]] + Insert(t[1..], x, le)
    else [x] + t
  }

  /** Insertion sort, left to right: the reference definition of a stable sort. */
  function SortBy<T>(s: seq<T>, le: (T, T) -> bool): seq<T> {
    if s == [] then [] else Insert(SortBy(s[..|s| - 1], le), s[|s| - 1], le)
  }

  lemma {:induction false} TiedAppend<T>(a: seq<T>, b: seq<T>, le: (T, T) -> bool, v: T)
    ensures Tied(a + b, le, v) == Tied(a, le, v) + Tied(b, le, v)
  {
    if a == [] {
      assert a + b == b;
    } else {
      assert (a + b)[0] == a[0];
      assert (a + b)[1..] == a[1..] + b;
      TiedAppend(a[1..], b, le, v);
    }
  }

  lemma {:induction false} InsertCount<T>(t: seq<T>, x: T, le: (T, T) -> bool)
    ensures multiset(Insert(t, x, le)) == multiset(t) + multiset{x}
  {
    if t != [] && le(t[0], x) {
      InsertCount(t[1..], x, le);
      assert t == [t[0]] + t[1..];
    }
  }

  lemma {:induction false} InsertSorted<T(!new)>(t: seq<T>, x: T, le: (T, T) -> bool)
    requires TotalPreorder(le) && Sorted(t, le)
    ensures Sorted(Insert(t, x, le), le)
  {
    if t != [] && le(t[0], x) {
      InsertSorted(t[1..], x, le);
      InsertCount(t[1..], x, le);
      var r := Insert(t[1..], x, le);
      forall j | 0 <= j < |r| ensures le(t[0], r[j]) {
        assert r[j] in multiset(r);
        assert r[j] == x || r[j] in multiset(t[1..]);
      }
    }
  }

  /** In a sorted `t`, a tied element of `v` never lies after an element that `v` precedes strictly. */
  lemma {:induction false} InsertTied<T(!new)>(t: seq<T>, x: T, le: (T, T) -> bool, v: T)
    requires TotalPreorder(le) && Sorted(t, le)
    ensures Tied(Insert(t, x, le), le, v) == Tied(t, le, v) + (if le(x, v) && le(v, x) then [x] else [])
  {
    if t == [] {
    } else if le(t[0], x) {
      InsertTied(t[1..], x, le, v);
      assert Tied([t[0]] + Insert(t[1..], x, le), le, v)
          == (if le(t[0], v) && le(v, t[0]) then [t[0]] else []) + Tied(Insert(t[1..], x, le), le, v);
    } else if le(x, v) && le(v, x) {
      NoneTied(t, x, le, v);
      assert Tied([x] + t, le, v) == [x] + Tied(t, le, v);
    } else {
      assert Tied([x] + t, le, v) == Tied(t, le, v);
    }
  }

  lemma {:induction false} NoneTied<T(!new)>(t: seq<T>, x: T, le: (T, T) -> bool, v: T)
    requires TotalPreorder(le) && Sorted(t, le)
    requires t != [] && !le(t[0], x) && le(x, v) && le(v, x)
    ensures Tied(t, le, v) == []
  {
    if |t| > 1 {
      assert le(t[0], t[1]);
      assert !le(t[1], x);
      NoneTied(t[1..], x, le, v);
    }
  }

  /** The reference sort is a sorted, stable permutation of its input. */
  lemma SortByCorrect<T(!new)>(s: seq<T>, le: (T, T) -> bool)
    requires TotalPreorder(le)
    ensures Sorted(SortBy(s, le), le)
    ensures multiset(SortBy(s, le)) == multiset(s)
    ensures forall v :: Tied(SortBy(s, le), le, v) == Tied(s, le, v)
  {
    SortBySorted(s, le);
    SortByPermutes(s, le);
    SortByStable(s, le);
  }

  lemma {:induction false} SortBySorted<T(!new)>(s: seq<T>, le: (T, T) -> bool)
    requires TotalPreorder(le)
    ensures Sorted(SortBy(s, le), le)
  {
    if s != [] {
      SortBySorted(s[..|s| - 1], le);
      InsertSorted(SortBy(s[..|s| - 1], le), s[|s| - 1], le);
    }
  }

  lemma {:induction false} SortByPermutes<T>(s: seq<T>, le: (T, T) -> bool)
    ensures multiset(SortBy(s, le)) == multiset(s)
  {
    if s != [] {
      var init, last := s[..|s| - 1], s[|s| - 1];
      SortByPermutes(init, le);
      InsertCount(SortBy(init, le), last, le);
      assert s == init + [last];
    }
  }

  /** Elements that tie keep their relative order. */
  lemma {:induction false} SortByStable<T(!new)>(s: seq<T>, le: (T, T) -> bool)
    requires TotalPreorder(le)
    ensures forall v :: Tied(SortBy(s, le), le, v) == Tied(s, le, v)
  {
    if s != [] {
      var init, last := s[..|s| - 1], s[|s| - 1];
      SortByStable(init, le);
      SortBySorted(init, le);
      assert s == init + [last];
      forall v ensures Tied(SortBy(s, le), le, v) == Tied(s, le, v) {
        InsertTied(SortBy(init, le), last, le, v);
        TiedAppend(init, [last], le, v);
      }
    }
  }

  /** Where `Insert` puts `x`: after the prefix whose elements may precede it. */
  lemma {:induction false} InsertAt<T>(t: seq<T>, x: T, le: (T, T) -> bool, p: nat)
    requires p <= |t|
    requires forall k :: 0 <= k < p ==> le(t[k], x)
    requires p < |t| ==> !le(t[p], x)
    ensures Insert(t, x, le) == t[..p] + [x] + t[p..]
  {
    if p > 0 {
      InsertAt(t[1..], x, le, p - 1);
      assert t[..p] == [t[0]] + t[1..][..p - 1];
    }
  }

  /** Python's `a.sort(...)`: stable insertion sort in place, equal to `SortBy`. */
  method SortInPlace<T(!new)>(a: array<T>, le: (T, T) -> bool)
    requires TotalPreorder(le)
    modifies a
    ensures a[..] == SortBy(old(a[..]), le)
  {
    ghost var s := a[..];
    var i := 0;
    while i < a.Length
      invariant 0 <= i <= a.Length
      invariant a[..i] == SortBy(s[..i], le)
      invariant a[i..] == s[i..]
    {
      SortByCorrect(s[..i], le);
      assert a[i] == a[i..][0] == s[i..][0] == s[i];
      ghost var rest := a[i + 1..];
      assert rest == a[i..][1..] == s[i..][1..] == s[i + 1..];
      InsertNext(a, i, le);
      assert s[..i + 1][..i] == s[..i] && s[..i + 1][i] == s[i];
      assert a[..i + 1] == SortBy(s[..i + 1], le);
      i := i + 1;
    }
    assert s[..a.Length] == s;
  }

  /** One step of the insertion sort: moves `a[i]` left into the sorted prefix `a[..i]`. */
  method InsertNext<T(!new)>(a: array<T>, i: nat, le: (T, T) -> bool)
    requires TotalPreorder(le)
    requires i < a.Length && Sorted(a[..i], le)
    modifies a
    ensures a[..i + 1] == Insert(old(a[..i]), old(a[i]), le)
    ensures a[i + 1..] == old(a[i + 1..])
  {
    ghost var sorted := a[..i];
    var x := a[i];
    var j := i;
    while j > 0 && !le(a[j - 1], x)
      invariant 0 <= j <= i
      invariant a[..j] == sorted[..j]
      invariant a[j + 1..i + 1] == sorted[j..i]
      invariant forall k :: j <= k < i ==> !le(sorted[k], x)
      invariant a[i + 1..] == old(a[i + 1..])
    {
      a[j] := a[j - 1];
      j := j - 1;
    }
    a[j] := x;
    InsertAfter(sorted, x, le, j);
    assert a[..i + 1] == a[..j] + [a[j]] + a[j + 1..i + 1];
  }

  /** In a sorted `t`, `x` goes right after the last element that may precede it. */
  lemma InsertAfter<T(!new)>(t: seq<T>, x: T, le: (T, T) -> bool, p: nat)
    requires TotalPreorder(le) && Sorted(t, le) && p <= |t|
    requires p > 0 ==> le(t[p - 1], x)
    requires forall k :: p <= k < |t| ==> !le(t[k], x)
    ensures Insert(t, x, le) == t[..p] + [x] + t[p..]
  {
    forall k | 0 <= k < p ensures le(t[k], x) {
      assert le(t[k], t[p - 1]);
    }
    InsertAt(t, x, le, p);
  }

  /** Python's `s[:k]` for any integer `k`; a negative `k` counts from the end. */
  function PyTake<T>(s: seq<T>, k: int): (r: seq<T>)
    ensures |r| == if k >= 0 then (if k <= |s| then k else |s|) else (if |s| + k >= 0 then |s| + k else 0)
    ensures r == s[..|r|]
  {
    if k >= 0 then (if k <= |s| then s[..k] else s)
    else if |s| + k >= 0 then s[..|s| + k] else []
  }

  /** `sorted(s)[:k]` for the stable sort by `le`. */
  function TopK<T>(s: seq<T>, le: (T, T) -> bool, k: int): seq<T> {
    PyTake(SortBy(s, le), k)
  }

  /** The first `k` of a stable sort: at most `k` elements of `s`, in order, ties in
      their original order, none of the left-out elements ahead of a kept one. */
  lemma {:induction false} TopKProperties<T(!new)>(s: seq<T>, le: (T, T) -> bool, k: int)
    requires TotalPreorder(le)
    ensures var r := TopK(s, le, k);
      && (k >= 0 ==> |r| <= k)
      && multiset(r) <= multiset(s)
      && Sorted(r, le)
      && (forall v :: Tied(r, le, v) <= Tied(s, le, v))
      && (forall c, x :: c in multiset(s) - multiset(r) && x in r ==> le(x, c))
      && (r == [] <==> s == [] || k == 0 || k <= -|s|)
  {
    SortByCorrect(s, le);
    var full := SortBy(s, le);
    var r := TopK(s, le, k);
    assert |full| == |s| by {
      assert |multiset(full)| == |multiset(s)|;
    }
    assert full == r + full[|r|..];
    assert multiset(full) == multiset(r) + multiset(full[|r|..]);
    forall v ensures Tied(r, le, v) <= Tied(s, le, v) {
      TiedAppend(r, full[|r|..], le, v);
    }
    forall c, x | c in multiset(s) - multiset(r) && x in r
      ensures le(x, c)
    {
      assert c in multiset(full[|r|..]);
      var j :| |r| <= j < |full| && full[j] == c;
      var i :| 0 <= i < |r| && full[i] == x;
    }
  }
}
