/**
 A side of the book as levels of queues, and how each change of a level reads on
 the flat price-time sequence.
 */
module Ladder {
  import opened Types
  import opened PriceTime

  function Flat(lad: seq<seq<Resting>>): seq<Resting> {
    if lad == [] then [] else lad[0] + Flat(lad[1..])
  }

  /** Non-empty queues of one price each, best price first. */
  ghost predicate Sorted(lad: seq<seq<Resting>>, side: Side) {
    && (forall i | 0 <= i < |lad| :: lad[i] != [] && forall j | 0 <= j < |lad[i]| :: lad[i][j].price == lad[i][0].price)
    && (forall i, j | 0 <= i < j < |lad| :: Better(side, lad[i][0].price, lad[j][0].price))
  }

  lemma {:induction false} FlatAppend(a: seq<seq<Resting>>, b: seq<seq<Resting>>)
    ensures Flat(a + b) == Flat(a) + Flat(b)
  {
    if a == [] {
      assert a + b == b;
    } else {
      FlatAppend(a[1..], b);
      assert (a + b)[0] == a[0] && (a + b)[1..] == a[1..] + b;
      assert a[0] + (Flat(a[1..]) + Flat(b)) == (a[0] + Flat(a[1..])) + Flat(b);
    }
  }

  lemma FlatSplit(lad: seq<seq<Resting>>, k: nat)
    requires k < |lad|
    ensures Flat(lad) == Flat(lad[..k]) + lad[k] + Flat(lad[k + 1..])
  {
    assert lad == lad[..k] + lad[k..];
    FlatAppend(lad[..k], lad[k..]);
    assert lad[k..][1..] == lad[k + 1..];
  }

  lemma {:induction false} FlatMember(lad: seq<seq<Resting>>, x: Resting) returns (i: nat)
    requires x in Flat(lad)
    ensures i < |lad| && x in lad[i]
  {
    if x in lad[0] {
      i := 0;
    } else {
      i := FlatMember(lad[1..], x);
      i := i + 1;
    }
  }

  lemma FlatPut(a: seq<seq<Resting>>, q: seq<Resting>, b: seq<seq<Resting>>)
    ensures Flat(a + [q] + b) == Flat(a) + q + Flat(b)
  {
    FlatAppend(a + [q], b);
    FlatAppend(a, [q]);
    assert Flat([q]) == q;
  }

  lemma {:induction false} InsertBetween(a: seq<Resting>, b: seq<Resting>, r: Resting)
    requires forall x | x in a :: !Better(r.side, r.price, x.price)
    requires b == [] || Better(r.side, r.price, b[0].price)
    ensures Insert(a + b, r) == a + [r] + b
  {
    if a == [] {
      assert a + b == b;
    } else {
      assert a[0] in a;
      InsertBetween(a[1..], b, r);
      assert (a + b)[1..] == a[1..] + b;
    }
  }

  /** The levels before `k` hold nothing worse than `price`. */
  lemma PrefixNotWorse(lad: seq<seq<Resting>>, side: Side, k: nat, price: nat)
    requires Sorted(lad, side) && k <= |lad|
    requires forall i | 0 <= i < k :: !Better(side, price, lad[i][0].price)
    ensures forall x | x in Flat(lad[..k]) :: !Better(side, price, x.price)
  {
    forall x | x in Flat(lad[..k]) ensures !Better(side, price, x.price) {
      var i := FlatMember(lad[..k], x);
      assert x in lad[i];
    }
  }

  lemma FlatHead(lad: seq<seq<Resting>>)
    requires lad != [] && lad[0] != []
    ensures Flat(lad) != [] && Flat(lad)[0] == lad[0][0]
  {}

  /** A new level at its sorted place inserts the order at its price-time place. */
  lemma InsertLevelFlat(lad: seq<seq<Resting>>, k: nat, r: Resting)
    requires Sorted(lad, r.side) && k <= |lad|
    requires forall i | 0 <= i < k :: !Better(r.side, r.price, lad[i][0].price)
    requires k < |lad| ==> Better(r.side, r.price, lad[k][0].price)
    ensures Flat(lad[..k] + [[r]] + lad[k..]) == Insert(Flat(lad), r)
  {
    PrefixNotWorse(lad, r.side, k, r.price);
    if k < |lad| { FlatHead(lad[k..]); }
    InsertBetween(Flat(lad[..k]), Flat(lad[k..]), r);
    assert Flat(lad) == Flat(lad[..k]) + Flat(lad[k..]) by {
      assert lad == lad[..k] + lad[k..];
      FlatAppend(lad[..k], lad[k..]);
    }
    FlatPut(lad[..k], [r], lad[k..]);
  }

  /** Joining the back of the level at its price inserts the order at its price-time place. */
  lemma AppendFlat(lad: seq<seq<Resting>>, k: nat, r: Resting)
    requires Sorted(lad, r.side) && k < |lad| && lad[k][0].price == r.price
    ensures Flat(lad[k := lad[k] + [r]]) == Insert(Flat(lad), r)
  {
    var lad' := lad[k := lad[k] + [r]];
    var behind := Flat(lad[k + 1..]);
    assert Flat(lad) == Flat(lad[..k + 1]) + behind by {
      assert lad == lad[..k + 1] + lad[k + 1..];
      FlatAppend(lad[..k + 1], lad[k + 1..]);
    }
    assert Flat(lad') == Flat(lad[..k + 1]) + [r] + behind by {
      FlatSplit(lad', k);
      assert lad'[..k] == lad[..k] && lad'[k + 1..] == lad[k + 1..];
      assert lad[..k + 1] == lad[..k] + [lad[k]];
      FlatAppend(lad[..k], [lad[k]]);
      assert Flat([lad[k]]) == lad[k];
    }
    PrefixNotWorse(lad, r.side, k + 1, r.price);
    if k + 1 < |lad| { FlatHead(lad[k + 1..]); }
    InsertBetween(Flat(lad[..k + 1]), behind, r);
  }

  lemma {:induction false} NextPrioritySkips(a: seq<Resting>, b: seq<Resting>, price: nat)
    requires forall x | x in b :: x.price != price
    ensures NextPriority(a + b, price) == NextPriority(a, price)
  {
    if b == [] {
      assert a + b == a;
    } else {
      var c := b[..|b| - 1];
      assert (a + b)[|a + b| - 1] == b[|b| - 1] && b[|b| - 1] in b;
      assert (a + b)[..|a + b| - 1] == a + c;
      NextPrioritySkips(a, c, price);
    }
  }

  /** The last order of the level at `price` decides the next priority. */
  lemma NextPriorityFlat(lad: seq<seq<Resting>>, side: Side, k: nat, price: nat)
    requires Sorted(lad, side) && k < |lad| && lad[k][0].price == price
    ensures NextPriority(Flat(lad), price) == lad[k][|lad[k]| - 1].priority + 1
  {
    var behind := Flat(lad[k + 1..]);
    forall x | x in behind ensures x.price != price {
      var i := FlatMember(lad[k + 1..], x);
      assert x in lad[k + 1 + i];
    }
    FlatSplit(lad, k);
    var ahead := Flat(lad[..k]) + lad[k];
    NextPrioritySkips(ahead, behind, price);
    assert ahead[|ahead| - 1] == lad[k][|lad[k]| - 1];
  }

  lemma NextPriorityNone(lad: seq<seq<Resting>>, price: nat)
    requires forall i, j | 0 <= i < |lad| && 0 <= j < |lad[i]| :: lad[i][j].price != price
    ensures NextPriority(Flat(lad), price) == 1
  {
    forall x | x in Flat(lad) ensures x.price != price {
      var i := FlatMember(lad, x);
    }
    assert [] + Flat(lad) == Flat(lad);
    NextPrioritySkips([], Flat(lad), price);
  }

  /** The ladder without the `j`-th order of level `k`; an emptied level disappears. */
  function Remove(lad: seq<seq<Resting>>, k: nat, j: nat): seq<seq<Resting>>
    requires k < |lad| && j < |lad[k]|
  {
    if |lad[k]| == 1 then lad[..k] + lad[k + 1..]
    else lad[k := lad[k][..j] + lad[k][j + 1..]]
  }

  /** Where the `j`-th order of level `k` stands in the flat sequence. */
  lemma FlatAt(lad: seq<seq<Resting>>, k: nat, j: nat)
    requires k < |lad| && j < |lad[k]|
    ensures var p := |Flat(lad[..k])| + j; p < |Flat(lad)| && Flat(lad)[p] == lad[k][j]
  {
    FlatSplit(lad, k);
  }

  lemma CutMiddle(a: seq<Resting>, q: seq<Resting>, b: seq<Resting>, j: nat)
    requires j < |q|
    ensures var s, p := a + q + b, |a| + j; a + (q[..j] + q[j + 1..]) + b == s[..p] + s[p + 1..]
  {}

  lemma RemoveFlat(lad: seq<seq<Resting>>, k: nat, j: nat)
    requires k < |lad| && j < |lad[k]|
    ensures var p := |Flat(lad[..k])| + j;
      && p < |Flat(lad)| && Flat(lad)[p] == lad[k][j]
      && Flat(Remove(lad, k, j)) == Flat(lad)[..p] + Flat(lad)[p + 1..]
  {
    FlatAt(lad, k, j);
    FlatSplit(lad, k);
    CutMiddle(Flat(lad[..k]), lad[k], Flat(lad[k + 1..]), j);
    var lad' := Remove(lad, k, j);
    if |lad[k]| == 1 {
      FlatAppend(lad[..k], lad[k + 1..]);
      assert lad[k][..j] + lad[k][j + 1..] == [];
      assert Flat(lad[..k]) + [] + Flat(lad[k + 1..]) == Flat(lad');
    } else {
      FlatSplit(lad', k);
      assert lad'[..k] == lad[..k] && lad'[k + 1..] == lad[k + 1..];
    }
  }

  /** Changing the order at the very front. */
  lemma UpdateFrontFlat(lad: seq<seq<Resting>>, r: Resting)
    requires lad != [] && lad[0] != []
    ensures Flat(lad[0 := lad[0][0 := r]]) == [r] + Flat(lad)[1..]
  {
    var lad' := lad[0 := lad[0][0 := r]];
    assert lad'[1..] == lad[1..];
  }
}
