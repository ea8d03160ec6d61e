/** Facts about sequences that several components share. */
module Sequences {

  /** The last `n` elements of `s`, or all of it when `s` is shorter. */
  function TakeLast<T>(s: seq<T>, n: nat): (t: seq<T>) {
    if |s| <= n then s else s[|s| - n..]
  }

  ghost predicate EndsWith<T>(s: seq<T>, suffix: seq<T>) {
    |suffix| <= |s| && s[|s| - |suffix|..] == suffix
  }

  function Flatten<T>(parts: seq<seq<T>>): seq<T> {
    if parts == [] then [] else parts[0] + Flatten(parts[1..])
  }

  ghost predicate NoDuplicates<T>(s: seq<T>) {
    forall i, j :: 0 <= i < j < |s| ==> s[i] != s[j]
  }

  function Repeat<T>(x: T, n: nat): (s: seq<T>)
    ensures |s| == n
    ensures forall i :: 0 <= i < n ==> s[i] == x
  {
    seq(n, _ => x)
  }

  /** The elements of `s` other than `x`, in order (Rust's `retain(|y| y != x)`). */
  function Without<T(==,!new)>(s: seq<T>, x: T): (r: seq<T>)
    ensures forall y :: y in r <==> y in s && y != x
    ensures |r| <= |s|
  {
    if s == [] then []
    else if s[0] == x then Without(s[1..], x)
    else [s[0]] + Without(s[1..], x)
  }

  lemma {:induction false} FlattenAppend<T>(a: seq<seq<T>>, b: seq<seq<T>>)
    ensures Flatten(a + b) == Flatten(a) + Flatten(b)
  {
    if a == [] {
      assert a + b == b;
    } else {
      assert (a + b)[1..] == a[1..] + b;
      FlattenAppend(a[1..], b);
    }
  }

  lemma FlattenSnoc<T>(a: seq<seq<T>>, x: seq<T>)
    ensures Flatten(a + [x]) == Flatten(a) + x
  {
    FlattenAppend(a, [x]);
    assert Flatten([x]) == x;
  }

  /** Keeping a window of a window is keeping the window of the whole. */
  lemma TakeLastTwice<T>(a: seq<T>, b: seq<T>, n: nat)
    ensures TakeLast(TakeLast(a, n) + b, n) == TakeLast(a + b, n)
  {
    if |a| > n {
      assert TakeLast(a, n) + b == (a + b)[|a| - n..];
    }
  }

  lemma EndsWithWindow<T>(sent: seq<T>, held: seq<T>, b: seq<T>, n: nat)
    requires EndsWith(sent, held)
    ensures EndsWith(sent + b, TakeLast(held + b, n))
  {
    var whole := sent + b;
    var kept := TakeLast(held + b, n);
    assert held + b == whole[|whole| - |held + b|..];
    assert whole[|whole| - |kept|..] == kept;
  }

  lemma EndsWithSuffix<T>(prefix: seq<T>, s: seq<T>)
    ensures EndsWith(prefix + s, s)
  {
  }

  lemma DistinctSnoc<T>(s: seq<T>, x: T)
    requires NoDuplicates(s) && x !in s
    ensures NoDuplicates(s + [x])
  {
  }

  lemma {:induction false} CountDistinct<T>(s: seq<T>, x: T)
    requires NoDuplicates(s)
    ensures multiset(s)[x] == if x in s then 1 else 0
  {
    if s != [] {
      var rest := s[1..];
      assert s == [s[0]] + rest;
      CountDistinct(rest, x);
      assert s[0] !in rest;
    }
  }

  lemma {:induction false} WithoutKeepsDistinct<T(!new)>(s: seq<T>, x: T)
    requires NoDuplicates(s)
    ensures NoDuplicates(Without(s, x))
  {
    if s != [] {
      var rest := s[1..];
      assert NoDuplicates(rest);
      WithoutKeepsDistinct(rest, x);
      assert s[0] !in rest;
    }
  }

  lemma {:induction false} WithoutAbsent<T(!new)>(s: seq<T>, x: T)
    requires x !in s
    ensures Without(s, x) == s
  {
    if s != [] {
      WithoutAbsent(s[1..], x);
    }
  }
}
