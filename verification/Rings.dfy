/**
 Circular doubly linked rings, as used for the orders of a price level and for
 the price levels of a side (exchange/matcher/me_order.h). A pointer is the
 address of a pool block and each link field is a map from addresses, so that
 `p->next = q` is `next[p := q]`.
 */
module Rings {

  type Ptr = nat

  function Succ(i: int, n: int): int { if i + 1 >= n then 0 else i + 1 }
  function Pred(i: int, n: int): int { if i == 0 then n - 1 else i - 1 }

  function Drop<T>(s: seq<T>, k: int): seq<T>
    requires 0 <= k < |s|
  {
    s[..k] + s[k + 1..]
  }

  function Put<T>(s: seq<T>, k: int, x: T): seq<T>
    requires 0 <= k <= |s|
  {
    s[..k] + [x] + s[k..]
  }

  /** The position a newcomer at `k` is linked in front of. */
  function Landing(k: int, n: int): int { if k == n then 0 else k }

  ghost predicate Distinct<T(!new)>(s: seq<T>) {
    forall i, j | 0 <= i < j < |s| :: s[i] != s[j]
  }

  datatype Links = Links(next: map<Ptr, Ptr>, prev: map<Ptr, Ptr>)

  /** `s` read from its first element is exactly the ring, in both directions. */
  ghost predicate Ring(m: Links, s: seq<Ptr>) {
    && (forall i | 0 <= i < |s| :: s[i] in m.next && s[i] in m.prev)
    && (forall i {:trigger m.next[s[i]]} | 0 <= i < |s| :: m.next[s[i]] == s[Succ(i, |s|)])
    && (forall i {:trigger m.prev[s[i]]} | 0 <= i < |s| :: m.prev[s[i]] == s[Pred(i, |s|)])
  }

  lemma RingFrame(m: Links, m': Links, s: seq<Ptr>)
    requires Ring(m, s)
    requires forall x | x in s :: x in m'.next && x in m'.prev && m'.next[x] == m.next[x] && m'.prev[x] == m.prev[x]
    ensures Ring(m', s)
  {}

  /** Four writes link `x` in front of `s[Landing(k)]`. */
  function LinkBefore(m: Links, x: Ptr, at: Ptr): Links
    requires at in m.prev
  {
    var p := m.prev[at];
    Links(m.next[x := at][p := x], m.prev[x := p][at := x])
  }

  function Unlink(m: Links, x: Ptr): Links
    requires x in m.next && x in m.prev
  {
    var p, n := m.prev[x], m.next[x];
    Links(m.next[p := n], m.prev[n := p])
  }

  function SelfLink(m: Links, x: Ptr): Links {
    Links(m.next[x := x], m.prev[x := x])
  }

  lemma PutNeighbours(s: seq<Ptr>, k: int, x: Ptr, i: int)
    requires 0 <= k <= |s| && 0 <= i <= |s| && |s| > 0
    ensures var s', n := Put(s, k, x), |s|;
      if i == k then
        s'[i] == x && s'[Succ(i, n + 1)] == s[Landing(k, n)] && s'[Pred(i, n + 1)] == s[Pred(k, n)]
      else
        var j := if i < k then i else i - 1;
        && s'[i] == s[j]
        && s'[Succ(i, n + 1)] == (if j == Pred(k, n) then x else s[Succ(j, n)])
        && s'[Pred(i, n + 1)] == (if j == Landing(k, n) then x else s[Pred(j, n)])
  {}

  lemma DropNeighbours(s: seq<Ptr>, k: int, i: int)
    requires 0 <= k < |s| && 0 <= i < |s| - 1
    ensures var j := if i < k then i else i + 1;
      && Drop(s, k)[i] == s[j]
      && Drop(s, k)[Succ(i, |s| - 1)] == (if j == Pred(k, |s|) then s[Succ(k, |s|)] else s[Succ(j, |s|)])
      && Drop(s, k)[Pred(i, |s| - 1)] == (if j == Succ(k, |s|) then s[Pred(k, |s|)] else s[Pred(j, |s|)])
  {}

  /** `x` is linked in front of position `k`, and nothing else of `s` has moved. */
  ghost predicate Spliced(m: Links, s: seq<Ptr>, k: nat, x: Ptr)
    requires k <= |s| && |s| > 0
  {
    && x in m.next && x in m.prev && m.next[x] == s[Landing(k, |s|)] && m.prev[x] == s[Pred(k, |s|)]
    && (forall j | 0 <= j < |s| :: s[j] in m.next && s[j] in m.prev)
    && (forall j {:trigger m.next[s[j]]} | 0 <= j < |s| :: m.next[s[j]] == if j == Pred(k, |s|) then x
        else s[Succ(j, |s|)])
    && (forall j {:trigger m.prev[s[j]]} | 0 <= j < |s| :: m.prev[s[j]] == if j == Landing(k, |s|) then x
        else s[Pred(j, |s|)])
  }

  lemma PutFromLinks(m: Links, s: seq<Ptr>, k: nat, x: Ptr)
    requires k <= |s| && |s| > 0 && Spliced(m, s, k, x)
    ensures Ring(m, Put(s, k, x))
  {
    var s' := Put(s, k, x);
    forall i | 0 <= i < |s'| ensures s'[i] in m.next && s'[i] in m.prev { PutNeighbours(s, k, x, i); }
    forall i | 0 <= i < |s'| ensures m.next[s'[i]] == s'[Succ(i, |s'|)] { PutNeighbours(s, k, x, i); }
    forall i | 0 <= i < |s'| ensures m.prev[s'[i]] == s'[Pred(i, |s'|)] { PutNeighbours(s, k, x, i); }
  }

  lemma DropFromLinks(m: Links, s: seq<Ptr>, k: nat)
    requires k < |s| && |s| > 1
    requires forall j | 0 <= j < |s| :: s[j] in m.next && s[j] in m.prev
    requires forall j {:trigger m.next[s[j]]} | 0 <= j < |s| ::
               m.next[s[j]] == if j == Pred(k, |s|) then s[Succ(k, |s|)] else s[Succ(j, |s|)]
    requires forall j {:trigger m.prev[s[j]]} | 0 <= j < |s| ::
               m.prev[s[j]] == if j == Succ(k, |s|) then s[Pred(k, |s|)] else s[Pred(j, |s|)]
    ensures Ring(m, Drop(s, k))
  {
    var s' := Drop(s, k);
    forall i | 0 <= i < |s'| ensures s'[i] in m.next && s'[i] in m.prev { DropNeighbours(s, k, i); }
    forall i | 0 <= i < |s'| ensures m.next[s'[i]] == s'[Succ(i, |s'|)] { DropNeighbours(s, k, i); }
    forall i | 0 <= i < |s'| ensures m.prev[s'[i]] == s'[Pred(i, |s'|)] { DropNeighbours(s, k, i); }
  }

  /** Linking in front of position `k` spells `s` with `x` put there. */
  lemma RingPut(m: Links, s: seq<Ptr>, k: nat, x: Ptr)
    requires Ring(m, s) && Distinct(s) && k <= |s| && |s| > 0 && x !in s
    ensures Ring(LinkBefore(m, x, s[Landing(k, |s|)]), Put(s, k, x))
  {
    LinkSplices(m, s, k, x);
    PutFromLinks(LinkBefore(m, x, s[Landing(k, |s|)]), s, k, x);
  }

  lemma Apart(s: seq<Ptr>, i: nat, j: nat)
    requires Distinct(s) && i < |s| && j < |s|
    ensures s[i] == s[j] <==> i == j
  {}

  lemma LinkSpliceAt(m: Links, at: Ptr, p: Ptr, x: Ptr, y: Ptr)
    requires at in m.prev && m.prev[at] == p && y in m.next && y in m.prev && y != x
    ensures var m' := LinkBefore(m, x, at);
      && y in m'.next && y in m'.prev
      && m'.next[y] == (if y == p then x else m.next[y]) && m'.prev[y] == (if y == at then x else m.prev[y])
  {}

  lemma RingAt(m: Links, s: seq<Ptr>, j: nat)
    requires Ring(m, s) && j < |s|
    ensures s[j] in m.next && s[j] in m.prev && m.next[s[j]] == s[Succ(j, |s|)] && m.prev[s[j]] == s[Pred(j, |s|)]
  {}

  lemma SpliceAt(m: Links, s: seq<Ptr>, k: nat, x: Ptr, j: nat)
    requires Ring(m, s) && Distinct(s) && k <= |s| && j < |s| && x !in s
    requires s[Landing(k, |s|)] in m.prev && m.prev[s[Landing(k, |s|)]] == s[Pred(k, |s|)]
    ensures var m' := LinkBefore(m, x, s[Landing(k, |s|)]);
      && s[j] in m'.next && s[j] in m'.prev
      && m'.next[s[j]] == (if j == Pred(k, |s|) then x else s[Succ(j, |s|)])
      && m'.prev[s[j]] == (if j == Landing(k, |s|) then x else s[Pred(j, |s|)])
  {
    Apart(s, j, Pred(k, |s|));
    Apart(s, j, Landing(k, |s|));
    RingAt(m, s, j);
    LinkSpliceAt(m, s[Landing(k, |s|)], s[Pred(k, |s|)], x, s[j]);
  }

  lemma LinkSplices(m: Links, s: seq<Ptr>, k: nat, x: Ptr)
    requires Ring(m, s) && Distinct(s) && k <= |s| && |s| > 0 && x !in s
    ensures Spliced(LinkBefore(m, x, s[Landing(k, |s|)]), s, k, x)
  {
    RingAt(m, s, Landing(k, |s|));
    forall j | 0 <= j < |s|
      ensures var m' := LinkBefore(m, x, s[Landing(k, |s|)]);
        && s[j] in m'.next && s[j] in m'.prev
        && m'.next[s[j]] == (if j == Pred(k, |s|) then x else s[Succ(j, |s|)])
        && m'.prev[s[j]] == (if j == Landing(k, |s|) then x else s[Pred(j, |s|)])
    {
      SpliceAt(m, s, k, x, j);
    }
    assert s[Pred(k, |s|)] in s && s[Landing(k, |s|)] in s;
  }

  /** Unlinking position `k` spells `s` without it. */
  lemma RingDrop(m: Links, s: seq<Ptr>, k: nat)
    requires Ring(m, s) && Distinct(s) && k < |s| && |s| > 1
    ensures Ring(Unlink(m, s[k]), Drop(s, k))
  {
    assert m.prev[s[k]] == s[Pred(k, |s|)] && m.next[s[k]] == s[Succ(k, |s|)];
    DropFromLinks(Unlink(m, s[k]), s, k);
  }

  /** The writes of `LinkBefore` and `Unlink` stay inside the ring they change. */
  lemma LinkBeforeElsewhere(m: Links, s: seq<Ptr>, k: nat, x: Ptr, other: seq<Ptr>)
    requires Ring(m, s) && k <= |s| && |s| > 0 && Ring(m, other)
    requires forall y | y in other :: y !in s && y != x
    ensures Ring(LinkBefore(m, x, s[Landing(k, |s|)]), other)
  {
    var at := s[Landing(k, |s|)];
    assert m.prev[at] == s[Pred(Landing(k, |s|), |s|)];
    assert at in s && m.prev[at] in s;
    RingFrame(m, LinkBefore(m, x, at), other);
  }

  lemma UnlinkElsewhere(m: Links, s: seq<Ptr>, k: nat, other: seq<Ptr>)
    requires Ring(m, s) && k < |s| && Ring(m, other)
    requires forall y | y in other :: y !in s
    ensures Ring(Unlink(m, s[k]), other)
  {
    assert m.prev[s[k]] == s[Pred(k, |s|)] && m.next[s[k]] == s[Succ(k, |s|)];
    assert m.prev[s[k]] in s && m.next[s[k]] in s;
    RingFrame(m, Unlink(m, s[k]), other);
  }
}
