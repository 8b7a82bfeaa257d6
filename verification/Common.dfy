/** Small shared vocabulary. */
module Common {
  datatype Option<+T> = None | Some(value: T)

  function MaxReal(a: real, b: real): real { if a >= b then a else b }

  function MinReal(a: real, b: real): real { if a <= b then a else b }

  function Ceiling(x: real): int { -((-x).Floor) }

  function MinNat(a: nat, b: nat): nat { if a <= b then a else b }

  /** Subtraction that stops at zero. */
  function SatSub(a: nat, b: nat): nat { if a >= b then a - b else 0 }

  /** A per-token latency that may be unbounded. */
  datatype Tolerance = Ms(ms: real) | Unlimited {
    predicate AtMost(t: Tolerance) { t.Unlimited? || (Ms? && ms <= t.ms) }
  }

  function RemoveAt<T>(s: seq<T>, i: nat): (r: seq<T>)
    requires i < |s|
    ensures |r| == |s| - 1
  {
    s[..i] + s[i + 1..]
  }

  lemma RemoveAtMultiset<T>(s: seq<T>, i: nat)
    requires i < |s|
    ensures multiset(RemoveAt(s, i)) == multiset(s) - multiset{s[i]}
  {
    assert s == s[..i] + [s[i]] + s[i + 1..];
  }

  lemma HeadTailMultiset<T>(s: seq<T>)
    requires s != []
    ensures multiset(s) == multiset{s[0]} + multiset(s[1..])
    ensures multiset(s[1..]) == multiset(s) - multiset{s[0]}
  {
    assert s == [s[0]] + s[1..];
  }

  lemma FrontLastMultiset<T>(s: seq<T>)
    requires s != []
    ensures multiset(s) == multiset(s[..|s| - 1]) + multiset{s[|s| - 1]}
  {
    assert s == s[..|s| - 1] + [s[|s| - 1]];
  }

  lemma InMultiset<T>(s: seq<T>, x: T)
    ensures x in s <==> x in multiset(s)
  {
  }

  ghost predicate Distinct<T>(s: seq<T>) {
    forall i, j | 0 <= i < j < |s| :: s[i] != s[j]
  }

  lemma PermutationDistinct<T>(s: seq<T>, t: seq<T>)
    requires multiset(s) == multiset(t) && Distinct(s)
    ensures Distinct(t)
  {
    DistinctCounts(s);
    forall i, j | 0 <= i < j < |t| ensures t[i] != t[j] {
      RepeatCounts(t, i, j);
      InMultiset(t, t[i]);
      InMultiset(s, t[i]);
    }
  }

  lemma RepeatCounts<T>(t: seq<T>, i: nat, j: nat)
    requires i < j < |t|
    ensures t[i] == t[j] ==> multiset(t)[t[i]] >= 2
  {
    assert t == t[..i] + [t[i]] + t[i + 1..j] + [t[j]] + t[j + 1..];
  }

  lemma {:induction false} DistinctCounts<T>(s: seq<T>)
    requires Distinct(s)
    ensures forall x | x in s :: multiset(s)[x] == 1
  {
    if s != [] {
      HeadTailMultiset(s);
      DistinctCounts(s[1..]);
      forall x | x in s ensures multiset(s)[x] == 1 {
        InMultiset(s[1..], x);
      }
    }
  }
}
