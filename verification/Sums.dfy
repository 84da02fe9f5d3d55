/** Sums over the threads, slots or jobs of a state.

    An invariant of many threads often says that a counter equals a sum over the threads; a
    step changes one thread, so what the proofs need is how one update changes a sum. */
module Sums {

  datatype Option<+T> = None | Some(value: T)

  function SumOf<T>(s: seq<T>, f: T -> int): int {
    if s == [] then 0 else f(s[0]) + SumOf(s[1..], f)
  }

  function Same(n: int): int { n }

  lemma {:induction false} SumOfUpdate<T>(s: seq<T>, i: nat, x: T, f: T -> int)
    requires i < |s|
    ensures SumOf(s[i := x], f) == SumOf(s, f) - f(s[i]) + f(x)
  {
    if i == 0 {
      assert s[0 := x][1..] == s[1..];
    } else {
      assert s[i := x][1..] == s[1..][i - 1 := x];
      SumOfUpdate(s[1..], i - 1, x, f);
    }
  }

  /** A pointwise bound bounds the sums, and one strict place makes the bound strict. */
  lemma {:induction false} SumOfLe<T, U>(s: seq<T>, f: T -> int, t: seq<U>, g: U -> int)
    requires |s| == |t|
    requires forall i :: 0 <= i < |s| ==> f(s[i]) <= g(t[i])
    ensures SumOf(s, f) <= SumOf(t, g)
    ensures (exists i :: 0 <= i < |s| && f(s[i]) < g(t[i])) ==> SumOf(s, f) < SumOf(t, g)
  {
    if s != [] {
      assert forall i :: 0 <= i < |s[1..]| ==> s[1..][i] == s[i + 1] && t[1..][i] == t[i + 1];
      SumOfLe(s[1..], f, t[1..], g);
      if i :| 0 <= i < |s| && f(s[i]) < g(t[i]) {
        if i > 0 {
          assert f(s[1..][i - 1]) < g(t[1..][i - 1]);
        }
      }
    }
  }

  lemma {:induction false} SumOfConst<T>(s: seq<T>, f: T -> int, c: int)
    requires forall i :: 0 <= i < |s| ==> f(s[i]) == c
    ensures SumOf(s, f) == c * |s|
  {
    if s != [] {
      SumOfConst(s[1..], f, c);
    }
  }

  /** Terms that are never negative: the sum is at least each of them. */
  lemma {:induction false} SumOfAtLeast<T>(s: seq<T>, f: T -> int, i: nat)
    requires i < |s|
    requires forall k :: 0 <= k < |s| ==> f(s[k]) >= 0
    ensures SumOf(s, f) >= f(s[i]) >= 0
  {
    SumOfNonNegative(s[1..], f);
    if i > 0 {
      SumOfAtLeast(s[1..], f, i - 1);
    }
  }

  lemma {:induction false} SumOfNonNegative<T>(s: seq<T>, f: T -> int)
    requires forall k :: 0 <= k < |s| ==> f(s[k]) >= 0
    ensures SumOf(s, f) >= 0
  {
    if s != [] {
      SumOfNonNegative(s[1..], f);
    }
  }

  /** A sum of non-negative terms is zero only when every term is. */
  lemma {:induction false} SumOfZero<T>(s: seq<T>, f: T -> int)
    requires forall k :: 0 <= k < |s| ==> f(s[k]) >= 0
    ensures SumOf(s, f) == 0 <==> forall k :: 0 <= k < |s| ==> f(s[k]) == 0
  {
    if forall k :: 0 <= k < |s| ==> f(s[k]) == 0 {
      SumOfConst(s, f, 0);
    } else {
      var k :| 0 <= k < |s| && f(s[k]) != 0;
      SumOfAtLeast(s, f, k);
    }
  }

  lemma {:induction false} SumOfAppend<T>(s: seq<T>, t: seq<T>, f: T -> int)
    ensures SumOf(s + t, f) == SumOf(s, f) + SumOf(t, f)
  {
    if s == [] {
      assert s + t == t;
    } else {
      assert (s + t)[1..] == s[1..] + t;
      SumOfAppend(s[1..], t, f);
    }
  }

  /** Terms that are 0 or 1: the sum is the length exactly when all of them are 1. */
  lemma {:induction false} SumOfFlags<T>(s: seq<T>, f: T -> int)
    requires forall k :: 0 <= k < |s| ==> 0 <= f(s[k]) <= 1
    ensures 0 <= SumOf(s, f) <= |s|
    ensures SumOf(s, f) == |s| <==> forall k :: 0 <= k < |s| ==> f(s[k]) == 1
  {
    if s != [] {
      SumOfFlags(s[1..], f);
      assert forall k :: 0 < k < |s| ==> s[k] == s[1..][k - 1];
    }
  }

  /** At most one term is not zero. */
  lemma {:induction false} SumOfOnly<T>(s: seq<T>, f: T -> int, i: nat)
    requires i < |s|
    requires forall k :: 0 <= k < |s| && k != i ==> f(s[k]) == 0
    ensures SumOf(s, f) == f(s[i])
  {
    if i == 0 {
      SumOfConst(s[1..], f, 0);
    } else {
      SumOfOnly(s[1..], f, i - 1);
    }
  }
}
