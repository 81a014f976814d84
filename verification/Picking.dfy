/** Subsequences chosen by a test, used to read one order's or one slot's share of a shared stream. */
module Picking {

  function Pick<T>(s: seq<T>, p: T -> bool): (r: seq<T>)
    ensures forall x | x in r :: x in s && p(x)
  {
    if s == [] then [] else (if p(s[0]) then [s[0]] else []) + Pick(s[1..], p)
  }

  lemma {:induction false} PickAppend<T>(a: seq<T>, b: seq<T>, p: T -> bool)
    ensures Pick(a + b, p) == Pick(a, p) + Pick(b, p)
  {
    if a == [] {
      assert a + b == b;
    } else {
      assert (a + b)[1..] == a[1..] + b;
      PickAppend(a[1..], b, p);
    }
  }

  lemma PickOne<T>(x: T, p: T -> bool)
    ensures Pick([x], p) == if p(x) then [x] else []
  {
    assert [x][1..] == [];
  }

  /** Two tests that agree on every element choose the same subsequence. */
  lemma {:induction false} PickAgree<T>(s: seq<T>, p: T -> bool, q: T -> bool)
    requires forall x | x in s :: p(x) == q(x)
    ensures Pick(s, p) == Pick(s, q)
  {
    if s != [] {
      assert s[0] in s && forall x | x in s[1..] :: x in s;
      PickAgree(s[1..], p, q);
    }
  }

  lemma {:induction false} PickNone<T>(s: seq<T>, p: T -> bool)
    requires forall x | x in s :: !p(x)
    ensures Pick(s, p) == []
  {
    if s != [] {
      assert s[0] in s && forall x | x in s[1..] :: x in s;
      PickNone(s[1..], p);
    }
  }

  lemma {:induction false} PickAll<T>(s: seq<T>, p: T -> bool)
    requires forall x | x in s :: p(x)
    ensures Pick(s, p) == s
  {
    if s != [] {
      assert s[0] in s && forall x | x in s[1..] :: x in s;
      PickAll(s[1..], p);
    }
  }

  lemma {:induction false} PickFinds<T>(s: seq<T>, p: T -> bool, x: T)
    requires x in s && p(x)
    ensures x in Pick(s, p)
  {
    if s[0] != x { PickFinds(s[1..], p, x); }
  }

  lemma PickCons<T>(x: T, rest: seq<T>, p: T -> bool)
    ensures Pick([x] + rest, p) == (if p(x) then [x] else []) + Pick(rest, p)
  {
    assert ([x] + rest)[1..] == rest;
  }

  lemma {:induction false} PickTwice<T>(s: seq<T>, p: T -> bool, q: T -> bool, both: T -> bool)
    requires forall x | x in s :: both(x) == (p(x) && q(x))
    ensures Pick(Pick(s, p), q) == Pick(s, both)
  {
    if s != [] {
      var x, tail := s[0], s[1..];
      var rest := Pick(tail, p);
      assert x in s && forall y | y in tail :: y in s;
      PickTwice(tail, p, q, both);
      assert Pick(Pick(s, p), q) == (if p(x) && q(x) then [x] else []) + Pick(rest, q) by {
        if p(x) { PickCons(x, rest, q); } else { assert [] + rest == rest; }
      }
    }
  }
}
