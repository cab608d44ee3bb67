/** Sums of a weight over a sequence, how they change when one element does, and rearrangements. */
module Sums {

  function Sum<T>(s: seq<T>, w: T -> int): int {
    if s == [] then 0 else w(s[0]) + Sum(s[1..], w)
  }

  lemma {:induction false} SumAppend<T>(a: seq<T>, b: seq<T>, w: T -> int)
    ensures Sum(a + b, w) == Sum(a, w) + Sum(b, w)
  {
    if a == [] {
      assert a + b == b;
    } else {
      assert (a + b)[1..] == a[1..] + b;
      SumAppend(a[1..], b, w);
    }
  }

  lemma SumOne<T>(x: T, w: T -> int)
    ensures Sum([x], w) == w(x)
  {
    assert [x][1..] == [];
  }

  lemma SumSplit<T>(s: seq<T>, i: nat, w: T -> int)
    requires i < |s|
    ensures Sum(s, w) == Sum(s[..i], w) + w(s[i]) + Sum(s[i + 1..], w)
  {
    hide Sum;
    assert s == s[..i] + ([s[i]] + s[i + 1..]);
    SumAppend(s[..i], [s[i]] + s[i + 1..], w);
    SumAppend([s[i]], s[i + 1..], w);
    SumOne(s[i], w);
  }

  lemma SumUpdate<T>(s: seq<T>, i: nat, x: T, w: T -> int)
    requires i < |s|
    ensures Sum(s[i := x], w) == Sum(s, w) - w(s[i]) + w(x)
  {
    hide Sum;
    SumSplit(s, i, w);
    SumSplit(s[i := x], i, w);
    assert s[i := x][..i] == s[..i] && s[i := x][i + 1..] == s[i + 1..];
  }

  lemma SumRemove<T>(s: seq<T>, i: nat, w: T -> int)
    requires i < |s|
    ensures Sum(s[..i] + s[i + 1..], w) == Sum(s, w) - w(s[i])
  {
    hide Sum;
    SumSplit(s, i, w);
    SumAppend(s[..i], s[i + 1..], w);
  }

  lemma {:induction false} SumNonNegative<T>(s: seq<T>, w: T -> int)
    requires forall x <- s :: w(x) >= 0
    ensures Sum(s, w) >= 0
  {
    if s != [] {
      SumNonNegative(s[1..], w);
    }
  }

  lemma MultisetWithout<T>(s: seq<T>, i: nat)
    requires i < |s|
    ensures multiset(s[..i] + s[i + 1..]) == multiset(s) - multiset{s[i]}
  {
    assert s == s[..i] + ([s[i]] + s[i + 1..]);
    assert multiset(s) == multiset(s[..i]) + (multiset{s[i]} + multiset(s[i + 1..]));
  }

  lemma MultisetTail<T>(s: seq<T>)
    requires s != []
    ensures multiset(s[1..]) == multiset(s) - multiset{s[0]}
  {
    assert s == [s[0]] + s[1..];
  }

  lemma Occurs<T>(x: T, s: seq<T>) returns (i: nat)
    requires x in multiset(s)
    ensures i < |s| && s[i] == x
  {
    i :| 0 <= i < |s| && s[i] == x;
  }

  /** Where the first element of `a` is in its rearrangement `b`. */
  lemma Locate<T>(a: seq<T>, b: seq<T>) returns (i: nat)
    requires a != [] && multiset(a) == multiset(b)
    ensures i < |b| && b[i] == a[0]
    ensures multiset(a[1..]) == multiset(b[..i] + b[i + 1..])
  {
    assert a[0] in multiset(a);
    i := Occurs(a[0], b);
    MultisetTail(a);
    MultisetWithout(b, i);
  }
}
