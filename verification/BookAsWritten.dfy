/**
 What the order book's text does where it departs from the order it states
 (exchange/matcher/me_order_book.h:41-44): the reversed walk of
 me_order_book.cpp:39-66 and the heads that :33 and :131-138 assign to a local
 copy. A side is the sequence of its prices read from the head.
 */
module BookAsWritten {
  import opened Types

  ghost predicate Sorted(side: Side, ls: seq<nat>) {
    forall i, j | 0 <= i < j < |ls| :: Better(side, ls[i], ls[j])
  }

  // ---- the walk ------------------------------------------------------------------------------

  /** The walk moves on while the new price is better than the level it stands on, and stops on the last level. */
  function Walk(side: Side, ls: seq<nat>, price: nat, k: nat): (stop: nat)
    requires k < |ls|
    ensures k <= stop < |ls|
    decreases |ls| - k
  {
    if Better(side, price, ls[k]) && k + 1 < |ls| then Walk(side, ls, price, k + 1) else k
  }

  /** The ring read from the head after the new level is linked in front of where the walk stopped. */
  function Linked(side: Side, ls: seq<nat>, price: nat): seq<nat>
    requires ls != []
  {
    var k := Walk(side, ls, price, 0);
    if Better(side, price, ls[0]) then [price] + ls[k..] + ls[..k]
    else if k == 0 then ls + [price]
    else ls[..k] + [price] + ls[k..]
  }

  lemma {:induction false} WalkGoesToTheEnd(side: Side, ls: seq<nat>, price: nat, k: nat)
    requires k < |ls| && forall i | 0 <= i < |ls| :: Better(side, price, ls[i])
    ensures Walk(side, ls, price, k) == |ls| - 1
    decreases |ls| - k
  {
    if k + 1 < |ls| { WalkGoesToTheEnd(side, ls, price, k + 1); }
  }

  /** As written the side stays sorted exactly when it had one level, or the new price is worse than every level. */
  lemma WalkKeepsOrderIff(side: Side, ls: seq<nat>, price: nat)
    requires side.Valid() && ls != [] && Sorted(side, ls) && price !in ls
    ensures Sorted(side, Linked(side, ls, price)) <==> |ls| == 1 || Better(side, ls[|ls| - 1], price)
  {
    var n, s := |ls|, Linked(side, ls, price);
    if Better(side, price, ls[0]) {
      forall i | 0 <= i < n ensures Better(side, price, ls[i]) { assert i > 0 ==> Better(side, ls[0], ls[i]); }
      WalkGoesToTheEnd(side, ls, price, 0);
      assert s == [price, ls[n - 1]] + ls[..n - 1];
      if n > 1 {
        assert s[1] == ls[n - 1] && s[2] == ls[0] && Better(side, ls[0], ls[n - 1]);
      }
    } else {
      assert s == ls + [price] && s[n] == price && s[n - 1] == ls[n - 1];
      assert ls[0] != price && ls[n - 1] != price;
      forall i | 0 <= i < n - 1 ensures Better(side, ls[i], ls[n - 1]) {}
    }
  }

  /** Bids at 100, 101 and 102 in turn: the third is linked in front of the worst. */
  lemma ThreeBidsOutOfOrder()
    ensures Linked(Buy, [100], 101) == [101, 100]
    ensures Linked(Buy, [101, 100], 102) == [102, 100, 101] && !Sorted(Buy, [102, 100, 101])
  {
    assert Walk(Buy, [101, 100], 102, 0) == 1;
    var s := [102, 100, 101];
    assert !Better(Buy, s[1], s[2]);
  }

  // ---- the heads --------------------------------------------------------------------------------

  datatype Heads = Heads(bid: Option<nat>, ask: Option<nat>) {
    function Of(side: Side): Option<nat> { if side.Buy? then bid else ask }
  }

  /** A level is opened, closed, or the side is asked for its best price. */
  datatype Change = Opened(side: Side, price: nat) | Closed(side: Side, price: nat)

  /** Opening writes a head only when there is one already; closing never does. */
  function AfterChange(h: Heads, c: Change): Heads {
    match c
    case Opened(side, price) =>
      if h.Of(side).Some? && Better(side, price, h.Of(side).value)
      then if side.Buy? then h.(bid := Some(price)) else h.(ask := Some(price))
      else h
    case Closed(_, _) => h
  }

  function AfterChanges(h: Heads, cs: seq<Change>): Heads
    decreases |cs|
  {
    if cs == [] then h else AfterChanges(AfterChange(h, cs[0]), cs[1..])
  }

  /** The test of the matching loops (me_order_book.cpp:235 and :246). */
  predicate MayMatch(h: Heads, side: Side, left: nat) { left > 0 && h.Of(side).Some? }

  /** As written, whatever levels come and go after start-up, the matching loop is never entered. */
  lemma {:induction false} NothingMatches(cs: seq<Change>, side: Side, left: nat)
    ensures !MayMatch(AfterChanges(Heads(None, None), cs), side, left)
    decreases |cs|
  {
    if cs != [] { NothingMatches(cs[1..], side, left); }
  }
}
