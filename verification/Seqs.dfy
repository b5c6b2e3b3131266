/** Sequences of distinct elements: removal by identity and filtering. */
module Seqs {

  ghost predicate NoDup<T>(s: seq<T>) {
    forall i, j | 0 <= i < j < |s| :: s[i] != s[j]
  }

  /** `s` with the first occurrence of `x` taken out. */
  function Without<T(==)>(s: seq<T>, x: T): seq<T> {
    if s == [] then []
    else if s[0] == x then s[1..]
    else [s[0]] + Without(s[1..], x)
  }

  /** Taking out `s[k]` shifts what follows it down by one. */
  lemma {:induction false} WithoutAt<T>(s: seq<T>, k: nat)
    requires NoDup(s) && k < |s|
    ensures |Without(s, s[k])| == |s| - 1
    ensures forall i | 0 <= i < k :: Without(s, s[k])[i] == s[i]
    ensures forall i | k <= i < |s| - 1 :: Without(s, s[k])[i] == s[i+1]
  {
    if k > 0 {
      WithoutAt(s[1..], k - 1);
      var w := Without(s[1..], s[k]);
      assert Without(s, s[k]) == [s[0]] + w;
    }
  }

  lemma {:induction false} WithoutAbsent<T>(s: seq<T>, x: T)
    requires x !in s
    ensures Without(s, x) == s
  {
    if s != [] {
      WithoutAbsent(s[1..], x);
    }
  }

  lemma NoDupCons<T>(x: T, s: seq<T>)
    requires NoDup(s) && x !in s
    ensures NoDup([x] + s)
  {
  }

  lemma {:induction false} WithoutMembers<T>(s: seq<T>, x: T)
    requires NoDup(s)
    ensures NoDup(Without(s, x))
    ensures forall y | y in Without(s, x) :: y in s && y != x
    ensures forall y | y in s && y != x :: y in Without(s, x)
    ensures |Without(s, x)| == if x in s then |s| - 1 else |s|
  {
    if s != [] {
      assert s == [s[0]] + s[1..];
      if s[0] != x {
        WithoutMembers(s[1..], x);
        NoDupCons(s[0], Without(s[1..], x));
      }
    }
  }

  lemma WithoutAppended<T>(s: seq<T>, x: T)
    requires x !in s
    ensures Without(s + [x], x) == s
  {
    if s != [] {
      WithoutAppended(s[1..], x);
      assert (s + [x])[1..] == s[1..] + [x];
    }
  }
}
