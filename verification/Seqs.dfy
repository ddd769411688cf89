/** Sequences without repetition, and an optional value. */
module Seqs {

  datatype Option<+T> = None | Some(value: T)

  /** No element twice. */
  ghost predicate NoDup<T>(xs: seq<T>) {
    xs == [] || (xs[0] !in xs[1..] && NoDup(xs[1..]))
  }

  /** The sequence without the first occurrence of x. */
  function Without<T(==)>(xs: seq<T>, x: T): (r: seq<T>)
    ensures x !in xs ==> r == xs
    ensures forall y :: y in r ==> y in xs
    ensures forall y :: y in xs && y != x ==> y in r
    ensures |r| == |xs| - (if x in xs then 1 else 0)
  {
    if xs == [] then []
    else if xs[0] == x then xs[1..]
    else [xs[0]] + Without(xs[1..], x)
  }

  lemma {:induction false} NoDupAppend<T>(xs: seq<T>, x: T)
    requires NoDup(xs) && x !in xs
    ensures NoDup(xs + [x])
  {
    if xs != [] {
      NoDupAppend(xs[1..], x);
      assert (xs + [x])[1..] == xs[1..] + [x];
    }
  }

  lemma {:induction false} NoDupPrefix<T>(xs: seq<T>, x: T)
    requires NoDup(xs + [x])
    ensures NoDup(xs) && x !in xs
  {
    if xs != [] {
      assert (xs + [x])[1..] == xs[1..] + [x];
      NoDupPrefix(xs[1..], x);
    }
  }

  lemma {:induction false} NoDupConcat<T>(xs: seq<T>, ys: seq<T>)
    requires NoDup(xs) && NoDup(ys) && forall x :: x in xs ==> x !in ys
    ensures NoDup(xs + ys)
  {
    if xs == [] {
      assert xs + ys == ys;
    } else {
      NoDupConcat(xs[1..], ys);
      assert (xs + ys)[1..] == xs[1..] + ys;
    }
  }

  lemma {:induction false} NoDupWithout<T>(xs: seq<T>, x: T)
    requires NoDup(xs)
    ensures NoDup(Without(xs, x)) && x !in Without(xs, x)
  {
    if xs != [] && xs[0] != x {
      NoDupWithout(xs[1..], x);
      assert Without(xs, x)[1..] == Without(xs[1..], x);
    }
  }

  /** Without at the position of the element. */
  lemma {:induction false} WithoutIs<T>(xs: seq<T>, k: nat)
    requires k < |xs| && forall i :: 0 <= i < k ==> xs[i] != xs[k]
    ensures Without(xs, xs[k]) == xs[..k] + xs[k + 1..]
  {
    if k > 0 {
      WithoutIs(xs[1..], k - 1);
      assert xs[..k] + xs[k + 1..] == [xs[0]] + (xs[1..][..k - 1] + xs[1..][k..]);
    }
  }

  lemma {:induction false} NoDupDistinct<T>(xs: seq<T>, i: nat, j: nat)
    requires NoDup(xs) && i < j < |xs|
    ensures xs[i] != xs[j]
  {
    if i == 0 {
      assert xs[j] == xs[1..][j - 1];
    } else {
      NoDupDistinct(xs[1..], i - 1, j - 1);
    }
  }

  lemma WithoutMiddle<T>(xs: seq<T>, x: T, ys: seq<T>)
    requires NoDup(xs + [x] + ys)
    ensures Without(xs + [x] + ys, x) == xs + ys
    ensures x !in xs && x !in ys
  {
    var q, k := xs + [x] + ys, |xs|;
    forall i | 0 <= i < |q| && i != k
      ensures q[i] != x
    {
      if i < k {
        NoDupDistinct(q, i, k);
      } else {
        NoDupDistinct(q, k, i);
      }
    }
    forall i | 0 <= i < |xs|
      ensures xs[i] != x
    {
      assert q[i] == xs[i];
    }
    forall i | 0 <= i < |ys|
      ensures ys[i] != x
    {
      assert q[k + 1 + i] == ys[i];
    }
    WithoutIs(q, k);
    assert q[..k] == xs && q[k + 1..] == ys;
  }
}
