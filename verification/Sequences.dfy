/** Keeping, counting and concatenating elements of sequences. */
module Sequences {

  function Concat<T>(xss: seq<seq<T>>): seq<T> {
    if xss == [] then [] else Concat(xss[..|xss| - 1]) + xss[|xss| - 1]
  }

  lemma ConcatSnoc<T>(xss: seq<seq<T>>, xs: seq<T>)
    ensures Concat(xss + [xs]) == Concat(xss) + xs
  {
    assert (xss + [xs])[..|xss|] == xss;
  }

  lemma ConcatPrefix<T>(xss: seq<seq<T>>, n: nat)
    requires n < |xss|
    ensures Concat(xss[..n + 1]) == Concat(xss[..n]) + xss[n]
  {
    assert xss[..n + 1][..n] == xss[..n];
  }

  /** The elements of `xs` that satisfy `p`, in order. */
  function Keep<T>(p: T -> bool, xs: seq<T>): seq<T> {
    if xs == [] then []
    else
      var rest, x := Keep(p, xs[..|xs| - 1]), xs[|xs| - 1];
      if p(x) then rest + [x] else rest
  }

  lemma {:induction false} KeepAll<T>(p: T -> bool, xs: seq<T>)
    requires forall i :: 0 <= i < |xs| ==> p(xs[i])
    ensures Keep(p, xs) == xs
  {
    if xs == [] {
    } else {
      KeepAll(p, xs[..|xs| - 1]);
    }
  }

  lemma {:induction false} KeepSame<T>(p: T -> bool, q: T -> bool, xs: seq<T>)
    requires forall i :: 0 <= i < |xs| ==> p(xs[i]) == q(xs[i])
    ensures Keep(p, xs) == Keep(q, xs)
  {
    if xs == [] {
    } else {
      KeepSame(p, q, xs[..|xs| - 1]);
    }
  }

  lemma {:induction false} KeepAppend<T>(p: T -> bool, xs: seq<T>, ys: seq<T>)
    ensures Keep(p, xs + ys) == Keep(p, xs) + Keep(p, ys)
  {
    if ys == [] {
      assert xs + ys == xs;
    } else {
      KeepAppend(p, xs, ys[..|ys| - 1]);
      assert (xs + ys)[..|xs + ys| - 1] == xs + ys[..|ys| - 1];
    }
  }

  lemma {:induction false} KeptAreAll<T>(p: T -> bool, xs: seq<T>)
    ensures forall x :: x in Keep(p, xs) <==> x in xs && p(x)
  {
    if xs == [] {
    } else {
      KeptAreAll(p, xs[..|xs| - 1]);
      assert xs == xs[..|xs| - 1] + [xs[|xs| - 1]];
    }
  }

  function CountWhere<T>(p: T -> bool, xs: seq<T>): nat {
    if xs == [] then 0 else CountWhere(p, xs[..|xs| - 1]) + if p(xs[|xs| - 1]) then 1 else 0
  }

  lemma {:induction false} CountWhereAppend<T>(p: T -> bool, xs: seq<T>, ys: seq<T>)
    ensures CountWhere(p, xs + ys) == CountWhere(p, xs) + CountWhere(p, ys)
  {
    if ys == [] {
      assert xs + ys == xs;
    } else {
      CountWhereAppend(p, xs, ys[..|ys| - 1]);
      assert (xs + ys)[..|xs + ys| - 1] == xs + ys[..|ys| - 1];
    }
  }

  lemma NoneCounted<T>(p: T -> bool)
    ensures CountWhere(p, []) == 0
  {
  }

  lemma CountSingle<T>(p: T -> bool, x: T)
    ensures CountWhere(p, [x]) == if p(x) then 1 else 0
  {
    var one := [x];
    assert one[..|one| - 1] == [];
    assert CountWhere(p, one[..|one| - 1]) == 0;
  }

  lemma {:induction false} MatchCounts<T>(p: T -> bool, xs: seq<T>, i: nat)
    requires i < |xs| && p(xs[i])
    ensures CountWhere(p, xs) >= 1
  {
    if i == |xs| - 1 {
    } else {
      MatchCounts(p, xs[..|xs| - 1], i);
    }
  }

  lemma TwoMatchesCount<T>(p: T -> bool, xs: seq<T>, i: nat, j: nat)
    requires i < j < |xs| && p(xs[i]) && p(xs[j])
    ensures CountWhere(p, xs) >= 2
  {
    MatchCounts(p, xs[..j], i);
    MatchCounts(p, xs[j..], 0);
    CountWhereAppend(p, xs[..j], xs[j..]);
    assert xs[..j] + xs[j..] == xs;
  }
}
