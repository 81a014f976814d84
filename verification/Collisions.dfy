/**
 The direct-address price table has one entry for all prices that are equal modulo
 256, and nothing tests the price found there. An order that rests keeps the book
 sound exactly when no live level of another price has its entry.
 */
module Collisions {
  import opened Types
  import opened PriceTime
  import opened Rings
  import opened BookMemory
  import opened BookChanges
  import opened BookState
  import opened BookSteps
  import L = Ladder

  /** No live price other than `price` shares its entry of the price table. */
  ghost predicate PricesApart(b: Book, price: nat) {
    forall r | r in b.bids + b.asks :: PriceToIndex(r.price) == PriceToIndex(price) ==> r.price == price
  }

  /** If anything of the order is left to rest, it rests at a price that has its table entry to itself. */
  ghost predicate RestsApart(b: Book, ticker: nat, t: Taker, qty: nat)
    requires t.side.Valid()
  {
    var sweep := SweepSide(ticker, b.Of(t.side.Opposite()), t, qty);
    sweep.left > 0 ==> PricesApart(b.With(t.side.Opposite(), sweep.rest), t.price)
  }

  /** Every level has an order at its price in the book. */
  lemma LevelHasOrder(s: State, sh: Shape, side: Side, l: Ptr) returns (r: Resting)
    requires Good(s, sh, side) && l in sh.Of(side)
    ensures l in s.lv.info && r in SideOf(s, sh, side) && r.price == s.lv.info[l].price
  {
    var k :| 0 <= k < |sh.Of(side)| && sh.Of(side)[k] == l;
    assert Rung(s.os, s.lv, sh.queue, sh.Of(side)[k], side);
    var p := PositionOf(s, sh, side, k, 0);
    r := s.os.data[sh.queue[l][0]];
  }

  /** Every order has its level in the price table. */
  lemma OrderHasLevel(s: State, sh: Shape, side: Side, r: Resting)
    requires Good(s, sh, side) && r in SideOf(s, sh, side)
    ensures var t := s.table[PriceToIndex(r.price)];
      t.Some? && t.value in s.lv.info && s.lv.info[t.value].price == r.price
  {
    var own := sh.Of(side);
    var k := L.FlatMember(Rungs(s.os, sh.queue, own), r);
    assert Rung(s.os, s.lv, sh.queue, own[k], side);
    var q := sh.queue[own[k]];
    var j :| 0 <= j < |q| && Values(s.os, q)[j] == r;
    assert own[k] in own;
  }

  lemma EntryHasOrder(s: State, sh: Shape, b: Book, price: nat) returns (r: Resting)
    requires Refines(s, sh, Buy, b.bids, b.asks)
    requires |s.table| == ME_MAX_PRICE_LEVELS && s.table[PriceToIndex(price)].Some?
    ensures var l := s.table[PriceToIndex(price)].value;
      l in s.lv.info && PriceToIndex(s.lv.info[l].price) == PriceToIndex(price) && r in b.bids + b.asks
          && r.price == s.lv.info[l].price
  {
    RefinesElim(s, sh, Buy, b.bids, b.asks);
    GoodOpposite(s, sh, Buy);
    var l := s.table[PriceToIndex(price)].value;
    if l in sh.Of(Buy) {
      r := LevelHasOrder(s, sh, Buy, l);
    } else {
      r := LevelHasOrder(s, sh, Sell, l);
    }
  }

  /** The table entry of a price is free or its own exactly when no other live price shares it. */
  lemma NoCollisionIff(s: State, sh: Shape, b: Book, price: nat)
    requires Refines(s, sh, Buy, b.bids, b.asks)
    ensures NoCollision(s, price) <==> PricesApart(b, price)
  {
    RefinesElim(s, sh, Buy, b.bids, b.asks);
    GoodOpposite(s, sh, Buy);
    if PricesApart(b, price) && s.table[PriceToIndex(price)].Some? {
      var r := EntryHasOrder(s, sh, b, price);
    }
    if NoCollision(s, price) {
      forall r | r in b.bids + b.asks && PriceToIndex(r.price) == PriceToIndex(price) ensures r.price == price {
        if r in b.bids { OrderHasLevel(s, sh, Buy, r); } else { OrderHasLevel(s, sh, Sell, r); }
      }
    }
  }

  // ---- what `addOrder` writes ------------------------------------------------------

  /** Everything `addOrder` dereferences is there. */
  ghost predicate Addable(s: State, price: nat) {
    && |s.table| == ME_MAX_PRICE_LEVELS
    && (s.table[PriceToIndex(price)].Some? ==>
          var l := s.table[PriceToIndex(price)].value;
          l in s.lv.first && s.lv.first[l] in s.os.links.prev)
  }

  /** Where a new level `l` would go on the ring `ls` of its side. */
  ghost predicate Fits(s: State, ls: seq<Ptr>, side: Side, price: nat, k: nat, l: Ptr) {
    && l !in s.lv.info && (forall x | x in ls :: x in s.lv.links.prev)
    && (forall i | 0 <= i < |ls| :: ls[i] in s.lv.info) && Place(s.lv.info, ls, side, price, k)
  }

  /**
   The fields after the writes of `addOrder` (me_order_book.cpp:80-100): a free entry gets a new level `l`, and any
   level found in the entry takes the order at its back.
   */
  ghost function Added(s: State, ls: seq<Ptr>, k: nat, l: Ptr, o: Ptr, r: Resting): State
    requires Addable(s, r.price) && (s.table[PriceToIndex(r.price)].None? ==> Fits(s, ls, r.side, r.price, k, l))
  {
    match s.table[PriceToIndex(r.price)]
    case None => OpenState(s, r.side, ls, k, l, o, r)
    case Some(found) => AppendState(s, o, r, s.lv.first[found])
  }

  lemma LevelDerefs(s: State, sh: Shape, side: Side, l: Ptr)
    requires Good(s, sh, side) && l in sh.Of(side)
    ensures l in s.lv.first && s.lv.first[l] in s.os.links.prev
  {
    var k :| 0 <= k < |sh.Of(side)| && sh.Of(side)[k] == l;
    assert Rung(s.os, s.lv, sh.queue, sh.Of(side)[k], side);
    var q := sh.queue[l];
    assert s.os.links.prev[q[0]] == q[Pred(0, |q|)];
  }

  lemma AlwaysAddable(s: State, sh: Shape, side: Side, price: nat)
    requires Good(s, sh, side)
    ensures Addable(s, price)
  {
    GoodOpposite(s, sh, side);
    if s.table[PriceToIndex(price)].Some? {
      var l := s.table[PriceToIndex(price)].value;
      if l in sh.Of(side) { LevelDerefs(s, sh, side, l); } else { LevelDerefs(s, sh, side.Opposite(), l); }
    }
  }

  /** The level an order hangs from has the order's price, and its entry. */
  lemma HomeOf(s: State, sh: Shape, side: Side, key: (nat, nat))
    requires Good(s, sh, side) && key in s.clients
    ensures var o := s.clients[key];
      && o in s.os.data
      && exists l :: l in s.lv.info && s.lv.info[l].price == s.os.data[o].price
          && s.table[PriceToIndex(s.os.data[o].price)] == Some(l)
  {
    var own, opp := sh.Of(side), sh.Of(side.Opposite());
    var o := s.clients[key];
    var l :| (l in own || l in opp) && l in sh.queue && o in sh.queue[l];
    if l in own {
      var k :| 0 <= k < |own| && own[k] == l;
      assert Rung(s.os, s.lv, sh.queue, own[k], side);
    } else {
      var k :| 0 <= k < |opp| && opp[k] == l;
      assert Rung(s.os, s.lv, sh.queue, opp[k], side.Opposite());
    }
  }

  /** Queued at a level of another price, the order breaks the book, whatever rings one reads the fields as. */
  lemma WrongLevelBreaks(s: State, l: Ptr, o: Ptr, r: Resting, sh': Shape)
    requires Addable(s, r.price) && s.table[PriceToIndex(r.price)] == Some(l)
    requires l in s.lv.info && s.lv.info[l].price != r.price
    ensures !Good(AppendState(s, o, r, s.lv.first[l]), sh', r.side)
  {
    var s' := AppendState(s, o, r, s.lv.first[l]);
    if Good(s', sh', r.side) { HomeOf(s', sh', r.side, Key(r)); }
  }

  /** A free entry, or the order's own level: the writes keep the book sound. */
  lemma RightLevelKeeps(s: State, sh: Shape, own: seq<Resting>, opp: seq<Resting>, k: nat, l: Ptr, o: Ptr, r: Resting)
    returns (sh': Shape)
    requires Refines(s, sh, r.side, own, opp) && OwnLevel(s, r.side, r.price) && r.side.Valid() && Addable(s, r.price)
    requires o !in s.os.data && r.qty > 0 && r.priority == NextPriority(own, r.price) && Key(r) !in s.clients
    requires s.table[PriceToIndex(r.price)].None? ==> Fits(s, sh.Of(r.side), r.side, r.price, k, l)
    ensures Refines(Added(s, sh.Of(r.side), k, l, o, r), sh', r.side, Insert(own, r), opp)
  {
    var ls := sh.Of(r.side);
    match s.table[PriceToIndex(r.price)] {
      case None =>
        RefineOpen(s, sh, r.side, own, opp, k, l, o, r);
        sh' := sh.(queue := sh.queue[l := [o]]).With(r.side, Put(ls, k, l));
      case Some(found) =>
        RefineAppend(s, sh, own, opp, o, r);
        sh' := sh.(queue := sh.queue[found := sh.queue[found] + [o]]);
    }
  }

  /**
   An order that rests after the sweep keeps the rings and tables sound if and only if no live price other than its
   own shares its table entry. Otherwise it hangs from a level of another price.
   */
  lemma AddOrderKeepsIff(s: State, sh: Shape, b: Book, k: nat, l: Ptr, o: Ptr, r: Resting)
    requires Refines(s, sh, Buy, b.bids, b.asks) && r.side.Valid()
    requires forall i | 0 <= i < |b.Of(r.side.Opposite())| ::
        !Crosses(r.side, r.price, b.Of(r.side.Opposite())[i].price)
    requires o !in s.os.data && r.qty > 0 && Key(r) !in s.clients
    requires PricesApart(b, r.price) ==> r.priority == NextPriority(b.Of(r.side), r.price)
    requires |s.table| == ME_MAX_PRICE_LEVELS
    requires s.table[PriceToIndex(r.price)].None? ==> Fits(s, sh.Of(r.side), r.side, r.price, k, l)
    ensures Addable(s, r.price)
    ensures (exists sh' :: Good(Added(s, sh.Of(r.side), k, l, o, r), sh', r.side)) <==> PricesApart(b, r.price)
  {
    var own, opp := b.Of(r.side), b.Of(r.side.Opposite());
    if r.side.Sell? { RefineOpposite(s, sh, Buy, b.bids, b.asks); }
    RefinesElim(s, sh, r.side, own, opp);
    AlwaysAddable(s, sh, r.side, r.price);
    NoCollisionIff(s, sh, b, r.price);
    if PricesApart(b, r.price) {
      RefineOwnLevel(s, sh, r.side, own, opp, r.price);
      var sh' := RightLevelKeeps(s, sh, own, opp, k, l, o, r);
      RefinesElim(Added(s, sh.Of(r.side), k, l, o, r), sh', r.side, Insert(own, r), opp);
    } else {
      var found := s.table[PriceToIndex(r.price)].value;
      GoodOpposite(s, sh, r.side);
      forall sh' ensures !Good(Added(s, sh.Of(r.side), k, l, o, r), sh', r.side) {
        WrongLevelBreaks(s, found, o, r, sh');
      }
    }
  }

  /** Two orders are enough: behind a bid at 100, a bid at 356 would hang from the level of 100. */
  lemma TwoPricesCollide(b: Book)
    requires b == Process(EmptyBook, New(0, 1, 0, Buy, 100, 1)).book
    ensures Admissible(b, New(0, 2, 0, Buy, 356, 1)) && !RestsApart(b, 0, Taker(0, 2, b.nextId, Buy, 356), 1)
  {
    assert b.bids + b.asks == [Resting(0, 1, 1, Buy, 100, 1, 1)];
    assert b.bids[0] in b.bids + b.asks;
  }
}
