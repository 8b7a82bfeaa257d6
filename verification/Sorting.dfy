/** Stable sorting by a comparison, as the schedulers' `sort_by` calls use it. */
module Sorting {
  import opened Common

  ghost predicate TotalPreorder<T(!new)>(le: (T, T) -> bool) {
    && (forall x, y :: le(x, y) || le(y, x))
    && (forall x, y, z :: le(x, y) && le(y, z) ==> le(x, z))
  }

  ghost predicate Sorted<T>(s: seq<T>, le: (T, T) -> bool) {
    forall i, j | 0 <= i < j < |s| :: le(s[i], s[j])
  }

  /** No two different elements of `s` tie under `le`. */
  ghost predicate TieFree<T>(s: seq<T>, le: (T, T) -> bool) {
    forall x, y | x in s && y in s && le(x, y) && le(y, x) :: x == y
  }

  /** Places `x` before the first element it does not exceed. */
  function Insert<T>(x: T, s: seq<T>, le: (T, T) -> bool): seq<T> {
    if s == [] || le(x, s[0]) then [x] + s else [s[0]] + Insert(x, s[1..], le)
  }

  /** The stable sort of `s`. */
  function Sort<T>(s: seq<T>, le: (T, T) -> bool): seq<T> {
    if s == [] then [] else Insert(s[0], Sort(s[1..], le), le)
  }

  lemma {:induction false} InsertSorts<T(!new)>(x: T, s: seq<T>, le: (T, T) -> bool)
    requires TotalPreorder(le) && Sorted(s, le)
    ensures Sorted(Insert(x, s, le), le)
    ensures multiset(Insert(x, s, le)) == multiset(s) + multiset{x}
  {
    if s == [] || le(x, s[0]) {
    } else {
      InsertSorts(x, s[1..], le);
      HeadTailMultiset(s);
      PrependSorted(s[0], x, s[1..], Insert(x, s[1..], le), le);
    }
  }

  lemma PrependSorted<T(!new)>(head: T, x: T, tail: seq<T>, r: seq<T>, le: (T, T) -> bool)
    requires Sorted(r, le) && le(head, x) && forall y | y in tail :: le(head, y)
    requires multiset(r) == multiset(tail) + multiset{x}
    ensures Sorted([head] + r, le)
  {
    forall k | 0 <= k < |r| ensures le(head, r[k]) {
      InMultiset(r, r[k]);
      InMultiset(tail, r[k]);
    }
  }

  lemma {:induction false} SortSorts<T(!new)>(s: seq<T>, le: (T, T) -> bool)
    requires TotalPreorder(le)
    ensures Sorted(Sort(s, le), le)
    ensures multiset(Sort(s, le)) == multiset(s)
  {
    if s != [] {
      SortSorts(s[1..], le);
      InsertSorts(s[0], Sort(s[1..], le), le);
      HeadTailMultiset(s);
    }
  }

  lemma LeastFirst<T>(s: seq<T>, t: seq<T>, le: (T, T) -> bool)
    requires Sorted(s, le) && Sorted(t, le)
    requires multiset(s) == multiset(t) && |s| == |t| > 0
    requires TieFree(s, le)
    ensures s[0] == t[0]
  {
    var x, y := s[0], t[0];
    InMultiset(s, x);
    InMultiset(t, x);
    InMultiset(s, y);
    InMultiset(t, y);
    var i :| 0 <= i < |t| && t[i] == x;
    var j :| 0 <= j < |s| && s[j] == y;
    assert i == 0 || le(y, x);
    assert j == 0 || le(x, y);
  }

  lemma TailTieFree<T>(s: seq<T>, le: (T, T) -> bool)
    requires s != [] && TieFree(s, le)
    ensures TieFree(s[1..], le)
  {
    assert forall a | a in s[1..] :: a in s;
  }

  /** Without ties a sorted sequence is determined by its elements. */
  lemma {:induction false} SortedUnique<T>(s: seq<T>, t: seq<T>, le: (T, T) -> bool)
    requires Sorted(s, le) && Sorted(t, le)
    requires multiset(s) == multiset(t)
    requires TieFree(s, le)
    ensures s == t
  {
    assert |s| == |multiset(s)| == |multiset(t)| == |t|;
    if s != [] {
      var x, y := s[0], t[0];
      assert x == y by { LeastFirst(s, t, le); }
      HeadTailMultiset(s);
      HeadTailMultiset(t);
      TailTieFree(s, le);
      SortedUnique(s[1..], t[1..], le);
      assert s == [x] + s[1..] && t == [x] + t[1..];
    }
  }
}
