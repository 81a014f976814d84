/**
 The changes of the order book as whole steps: what each finds, what the fields
 are afterwards, and how the price-time view moves.
 */
module BookSteps {
  import opened Types
  import opened PriceTime
  import opened Rings
  import opened BookMemory
  import opened BookChanges
  import opened BookState
  import L = Ladder

  // ---- what the invariant says about one lookup --------------------------------

  /** A level found in the table at this price and side is on the ring of its side. */
  lemma LevelFound(s: State, sh: Shape, side: Side, l: Ptr) returns (k: nat)
    requires Good(s, sh, side) && l in s.lv.info && s.lv.info[l].side == side
    requires s.table[PriceToIndex(s.lv.info[l].price)] == Some(l)
    ensures k < |sh.Of(side)| && sh.Of(side)[k] == l && Rung(s.os, s.lv, sh.queue, l, side)
  {
    var own, opp := sh.Of(side), sh.Of(side.Opposite());
    forall i | 0 <= i < |opp| ensures opp[i] != l {
      assert Rung(s.os, s.lv, sh.queue, opp[i], side.Opposite());
    }
    k :| 0 <= k < |own| && own[k] == l;
    assert Rung(s.os, s.lv, sh.queue, own[k], side);
  }

  /** The part of the invariant that linking a level needs. */
  lemma SideLinked(s: State, sh: Shape, side: Side, price: nat)
    requires Good(s, sh, side) && s.table[PriceToIndex(price)].None?
    ensures Ring(s.lv.links, sh.Of(side)) && Descending(s.lv.info, sh.Of(side), side)
    ensures forall i | 0 <= i < |sh.Of(side)| :: s.lv.info[sh.Of(side)[i]].price != price
  {
    forall i | 0 <= i < |sh.Of(side)| ensures s.lv.info[sh.Of(side)[i]].price != price {
      assert sh.Of(side)[i] in sh.Of(side);
    }
  }

  /** The table entry at this price, if any, is a level of this side and price. */
  ghost predicate OwnLevel(s: State, side: Side, price: nat) {
    && |s.table| == ME_MAX_PRICE_LEVELS
    && (s.table[PriceToIndex(price)].Some? ==>
          s.table[PriceToIndex(price)].value in s.lv.info
              && s.lv.info[s.table[PriceToIndex(price)].value] == LevelInfo(side, price))
  }

  lemma PriorityWithoutLevel(s: State, sh: Shape, side: Side, price: nat)
    requires Good(s, sh, side) && |s.table| == ME_MAX_PRICE_LEVELS && s.table[PriceToIndex(price)].None?
    ensures NextPriority(SideOf(s, sh, side), price) == 1
  {
    var lad: seq<seq<Resting>> := Rungs(s.os, sh.queue, sh.Of(side));
    SideLinked(s, sh, side, price);
    SideIsSorted(s.os, s.lv, sh.queue, sh.Of(side), side);
    forall i, j | 0 <= i < |lad| && 0 <= j < |lad[i]| ensures lad[i][j].price != price {
      assert lad[i][j].price == lad[i][0].price;
    }
    L.NextPriorityNone(lad, price);
  }

  /** `first->prev->priority + 1` is the next priority of the price-time side. */
  lemma PriorityWithLevel(s: State, sh: Shape, side: Side, l: Ptr)
    requires Good(s, sh, side) && l in s.lv.info && s.lv.info[l].side == side
    requires s.table[PriceToIndex(s.lv.info[l].price)] == Some(l)
    ensures l in s.lv.first && s.lv.first[l] in s.os.links.prev && s.os.links.prev[s.lv.first[l]] in s.os.data
    ensures NextPriority(SideOf(s, sh, side), s.lv.info[l].price)
        == s.os.data[s.os.links.prev[s.lv.first[l]]].priority + 1
  {
    var k := LevelFound(s, sh, side, l);
    var q := sh.queue[l];
    assert s.os.links.prev[q[0]] == q[Pred(0, |q|)];
    LastOfLevel(s.os, s.lv, sh.queue, sh.Of(side), side, k);
  }

  lemma LastOfLevel(os: Orders, lv: Levels, queue: Queues, own: seq<Ptr>, side: Side, k: nat)
    requires SideRing(os, lv, queue, own, side) && k < |own| && Rung(os, lv, queue, own[k], side)
    ensures var q := queue[own[k]];
      NextPriority(L.Flat(Rungs(os, queue, own)), lv.info[own[k]].price) == os.data[q[|q| - 1]].priority + 1
  {
    SideIsSorted(os, lv, queue, own, side);
    L.NextPriorityFlat(Rungs(os, queue, own), side, k, lv.info[own[k]].price);
  }

  // ---- an order leaves the book --------------------------------------------------

  /** There is an order at position `j` of level `k`. */
  ghost predicate Hangs(s: State, sh: Shape, side: Side, k: nat, j: nat) {
    && Good(s, sh, side) && k < |sh.Of(side)| && Rung(s.os, s.lv, sh.queue, sh.Of(side)[k], side)
    && j < |sh.queue[sh.Of(side)[k]]|
  }

  /** That order, and nothing else, has left. */
  ghost predicate Left(s: State, sh: Shape, s': State, sh': Shape, side: Side, k: nat, j: nat)
    requires side.Valid()
  {
    && Good(s', sh', side)
    && k < |sh.Of(side)| && j < |Rungs(s.os, sh.queue, sh.Of(side))[k]|
    && SideOf(s', sh', side) == L.Flat(L.Remove(Rungs(s.os, sh.queue, sh.Of(side)), k, j))
    && SideOf(s', sh', side.Opposite()) == SideOf(s, sh, side.Opposite())
  }

  /** What `removeOrder` finds when it is handed that order. */
  lemma OrderFound(s: State, sh: Shape, side: Side, k: nat, j: nat)
    requires Hangs(s, sh, side, k, j)
    ensures var l, q := sh.Of(side)[k], sh.queue[sh.Of(side)[k]];
      var o := q[j];
      && o in s.os.data && s.os.data[o].side == side && s.table[PriceToIndex(s.os.data[o].price)] == Some(l)
      && s.os.data[o].price == s.lv.info[l].price
      && o in s.os.links.next && o in s.os.links.prev && (s.os.links.prev[o] == o <==> |q| == 1)
      && l in s.lv.links.next && l in s.lv.links.prev
  {
    var l, q := sh.Of(side)[k], sh.queue[sh.Of(side)[k]];
    assert l in sh.Of(side);
    assert s.os.links.prev[q[j]] == q[Pred(j, |q|)];
    ContentDrop(s.os.data, s.lv.info[l], q, j);
  }

  lemma FirstAfter(os: Orders, info: LevelInfo, q: seq<Ptr>, j: nat)
    requires LevelOk(os, info, q) && j < |q| && |q| > 1
    ensures Drop(q, j)[0] == if q[0] == q[j] then os.links.next[q[j]] else q[0]
  {
    assert os.links.next[q[j]] == q[Succ(j, |q|)];
    ContentDrop(os.data, info, q, j);
  }

  /** The level leaves the ring, and the head moves on exactly if it was the head. */
  lemma HeadDropped(links: Links, own: seq<Ptr>, k: nat)
    requires Ring(links, own) && Distinct(own) && k < |own|
    ensures HeadOf(Drop(own, k)) ==
      if links.next[own[k]] == own[k] then None
      else if own[0] == own[k] then Some(links.next[own[k]]) else Some(own[0])
  {
    assert links.next[own[k]] == own[Succ(k, |own|)];
  }

  /** Everything `removeOrder` dereferences is there. */
  ghost predicate Removable(s: State, o: Ptr) {
    && o in s.os.data && o in s.os.links.next && o in s.os.links.prev && |s.table| == ME_MAX_PRICE_LEVELS
    && var p := PriceToIndex(s.os.data[o].price);
    && s.table[p].Some?
    && var l := s.table[p].value;
    && l in s.lv.links.next && l in s.lv.links.prev && l in s.lv.first && l in s.lv.info
        && PriceToIndex(s.lv.info[l].price) == p
  }

  /** The fields after the writes of `removeOrder`. */
  ghost function Unhooked(s: State, o: Ptr): State
    requires Removable(s, o)
  {
    var r := s.os.data[o];
    var l := s.table[PriceToIndex(r.price)].value;
    if s.os.links.prev[o] == o then
      CloseState(s, r.side, l, o,
                 if s.lv.links.next[l] == l then None
                 else if s.Head(r.side) == Some(l) then Some(s.lv.links.next[l]) else s.Head(r.side))
    else
      UnlinkState(s, l, o, if s.lv.first[l] == o then s.os.links.next[o] else s.lv.first[l])
  }

  /** Nothing new is in the client table. */
  ghost predicate Shrunk(s: State, s': State) {
    forall c | c in s'.clients :: c in s.clients
  }

  lemma ShrunkSame(s: State, s': State)
    requires s'.clients == s.clients
    ensures Shrunk(s, s')
  {}

  lemma ShrunkTrans(s: State, s': State, s'': State)
    requires Shrunk(s, s') && Shrunk(s', s'')
    ensures Shrunk(s, s'')
  {}

  lemma UnhookShrinks(s: State, o: Ptr)
    requires Removable(s, o)
    ensures Shrunk(s, Unhooked(s, o))
  {}

  /** The rings after the order at position `j` of level `k` has left. */
  ghost function ShapeWithout(sh: Shape, side: Side, k: nat, j: nat): Shape {
    if k < |sh.Of(side)| && sh.Of(side)[k] in sh.queue && j < |sh.queue[sh.Of(side)[k]]| then
      var l, q := sh.Of(side)[k], sh.queue[sh.Of(side)[k]];
      if |q| == 1 then sh.With(side, Drop(sh.Of(side), k)) else sh.(queue := sh.queue[l := Drop(q, j)])
    else sh
  }

  lemma CloseLeaves(s: State, sh: Shape, side: Side, k: nat)
    requires Hangs(s, sh, side, k, 0) && |sh.queue[sh.Of(side)[k]]| == 1
    ensures var o := sh.queue[sh.Of(side)[k]][0];
      Removable(s, o) && Left(s, sh, Unhooked(s, o), ShapeWithout(sh, side, k, 0), side, k, 0)
  {
    OrderFound(s, sh, side, k, 0);
    assert Distinct(sh.Of(side)) by { SideIsSorted(s.os, s.lv, sh.queue, sh.Of(side), side); }
    HeadDropped(s.lv.links, sh.Of(side), k);
    CloseStep(s, sh, side, k);
  }

  lemma UnlinkLeaves(s: State, sh: Shape, side: Side, k: nat, j: nat)
    requires Hangs(s, sh, side, k, j) && |sh.queue[sh.Of(side)[k]]| > 1
    ensures var o := sh.queue[sh.Of(side)[k]][j];
      Removable(s, o) && Left(s, sh, Unhooked(s, o), ShapeWithout(sh, side, k, j), side, k, j)
  {
    var own := sh.Of(side);
    OrderFound(s, sh, side, k, j);
    FirstAfter(s.os, s.lv.info[own[k]], sh.queue[own[k]], j);
    UnlinkStep(s, sh, side, k, j);
    UnlinkFlat(s.os, s.lv, sh.queue, own, sh.Of(side.Opposite()), side, k, j);
  }

  lemma LeaveStep(s: State, sh: Shape, side: Side, k: nat, j: nat)
    requires Hangs(s, sh, side, k, j)
    ensures var o := sh.queue[sh.Of(side)[k]][j];
      && Removable(s, o) && Shrunk(s, Unhooked(s, o))
      && Left(s, sh, Unhooked(s, o), ShapeWithout(sh, side, k, j), side, k, j)
  {
    if |sh.queue[sh.Of(side)[k]]| == 1 {
      CloseLeaves(s, sh, side, k);
    } else {
      UnlinkLeaves(s, sh, side, k, j);
    }
    UnhookShrinks(s, sh.queue[sh.Of(side)[k]][j]);
  }

  // ---- the best order of a side --------------------------------------------------

  /** The head of a side is null exactly when the side is empty, and leads to its first order. */
  lemma BestFound(s: State, sh: Shape, side: Side)
    requires Good(s, sh, side)
    ensures s.Head(side).None? <==> SideOf(s, sh, side) == []
    ensures s.Head(side).Some? ==>
      var l := s.Head(side).value;
      && sh.Of(side) != [] && sh.Of(side)[0] == l && Hangs(s, sh, side, 0, 0)
      && l in s.lv.first && s.lv.first[l] == sh.queue[l][0] && s.lv.first[l] in s.os.data
      && SideOf(s, sh, side)[0] == s.os.data[s.lv.first[l]]
  {
    var own := sh.Of(side);
    if own != [] {
      assert Rung(s.os, s.lv, sh.queue, own[0], side);
      L.FlatHead(Rungs(s.os, sh.queue, own));
    }
  }

  /** The level found for `r` can take it at its back. */
  lemma MayQueue(s: State, sh: Shape, o: Ptr, r: Resting) returns (k: nat)
    requires Good(s, sh, r.side) && OwnLevel(s, r.side, r.price) && s.table[PriceToIndex(r.price)].Some?
    requires o !in s.os.data && r.qty > 0 && r.priority == NextPriority(SideOf(s, sh, r.side), r.price)
    ensures MayAppend(s.os, s.lv, sh.queue, sh.Of(r.side), r.side, k, o, r)
    ensures var l := s.table[PriceToIndex(r.price)].value;
      && sh.Of(r.side)[k] == l && l in s.lv.first && s.lv.first[l] == sh.queue[l][0]
      && s.lv.first[l] in s.os.links.prev && s.os.links.prev[s.lv.first[l]] != o && s.lv.first[l] != o
  {
    var l := s.table[PriceToIndex(r.price)].value;
    PriorityWithLevel(s, sh, r.side, l);
    k := LevelFound(s, sh, r.side, l);
    var q := sh.queue[l];
    assert s.os.links.prev[q[0]] == q[Pred(0, |q|)];
  }

  // ---- the refinement relation ---------------------------------------------------

  /** The fields are well linked and stand for the price-time sides `own` and `opp`. */
  ghost predicate RefinesDef(s: State, sh: Shape, side: Side, own: seq<Resting>, opp: seq<Resting>, u: bool) {
    side.Valid() && Good(s, sh, side) && own == SideOf(s, sh, side) && opp == SideOf(s, sh, side.Opposite())
  }

  /** `o` is the order at position `j` of level `k`, and at position `p` of the side. */
  ghost predicate LocatedDef(s: State, sh: Shape, side: Side, k: nat, j: nat, p: nat, o: Ptr, u: bool) {
    Hangs(s, sh, side, k, j) && sh.queue[sh.Of(side)[k]][j] == o
        && p == |L.Flat(Rungs(s.os, sh.queue, sh.Of(side))[..k])| + j
  }

  // `Refines` and `Located` are folded (see `Types`).

  ghost predicate Refines(s: State, sh: Shape, side: Side, own: seq<Resting>, opp: seq<Resting>) {
    forall u: bool :: RefinesDef(s, sh, side, own, opp, u)
  }

  ghost predicate Located(s: State, sh: Shape, side: Side, own: seq<Resting>, k: nat, j: nat, p: nat, o: Ptr) {
    && o in s.os.data && p < |own| && own[p] == s.os.data[o]
    && forall u: bool :: LocatedDef(s, sh, side, k, j, p, o, u)
  }

  lemma RefinesIntro(s: State, sh: Shape, side: Side, own: seq<Resting>, opp: seq<Resting>)
    requires Good(s, sh, side) && own == SideOf(s, sh, side) && opp == SideOf(s, sh, side.Opposite())
    ensures Refines(s, sh, side, own, opp)
  {
    forall u: bool ensures RefinesDef(s, sh, side, own, opp, u) {}
  }

  lemma RefinesElim(s: State, sh: Shape, side: Side, own: seq<Resting>, opp: seq<Resting>)
    requires Refines(s, sh, side, own, opp)
    ensures Good(s, sh, side) && own == SideOf(s, sh, side) && opp == SideOf(s, sh, side.Opposite())
  {
    assert RefinesDef(s, sh, side, own, opp, true);
  }

  lemma PositionOf(s: State, sh: Shape, side: Side, k: nat, j: nat) returns (p: nat)
    requires Hangs(s, sh, side, k, j)
    ensures p == |L.Flat(Rungs(s.os, sh.queue, sh.Of(side))[..k])| + j
    ensures var o := sh.queue[sh.Of(side)[k]][j];
      o in s.os.data && p < |SideOf(s, sh, side)| && SideOf(s, sh, side)[p] == s.os.data[o]
  {
    p := RungAt(s.os, s.lv, sh.queue, sh.Of(side), side, k, j);
  }

  lemma RungAt(os: Orders, lv: Levels, queue: Queues, own: seq<Ptr>, side: Side, k: nat, j: nat) returns (p: nat)
    requires k < |own| && Rung(os, lv, queue, own[k], side) && j < |queue[own[k]]|
    ensures p == |L.Flat(Rungs(os, queue, own)[..k])| + j
    ensures var lad, o := Rungs(os, queue, own), queue[own[k]][j];
      o in os.data && p < |L.Flat(lad)| && L.Flat(lad)[p] == os.data[o]
  {
    var lad := Rungs(os, queue, own);
    p := |L.Flat(lad[..k])| + j;
    assert lad[k] == Values(os, queue[own[k]]);
    L.FlatAt(lad, k, j);
  }

  lemma LocatedIntro(s: State, sh: Shape, side: Side, k: nat, j: nat, p: nat, o: Ptr)
    requires Hangs(s, sh, side, k, j) && sh.queue[sh.Of(side)[k]][j] == o
        && p == |L.Flat(Rungs(s.os, sh.queue, sh.Of(side))[..k])| + j
    ensures forall u: bool :: LocatedDef(s, sh, side, k, j, p, o, u)
  {
    forall u: bool ensures LocatedDef(s, sh, side, k, j, p, o, u) {}
  }

  lemma LocatedElim(s: State, sh: Shape, side: Side, own: seq<Resting>, k: nat, j: nat, p: nat, o: Ptr)
    requires Located(s, sh, side, own, k, j, p, o)
    ensures Hangs(s, sh, side, k, j) && sh.queue[sh.Of(side)[k]][j] == o
        && p == |L.Flat(Rungs(s.os, sh.queue, sh.Of(side))[..k])| + j
  {
    assert LocatedDef(s, sh, side, k, j, p, o, true);
  }

  lemma RefineOpposite(s: State, sh: Shape, side: Side, own: seq<Resting>, opp: seq<Resting>)
    requires Refines(s, sh, side, own, opp) && side.Valid()
    ensures Refines(s, sh, side.Opposite(), opp, own)
  {
    RefinesElim(s, sh, side, own, opp);
    GoodOpposite(s, sh, side);
    RefinesIntro(s, sh, side.Opposite(), opp, own);
  }

  /** What linking a new level finds. */
  lemma RefineLink(s: State, sh: Shape, side: Side, own: seq<Resting>, opp: seq<Resting>, price: nat)
    requires Refines(s, sh, side, own, opp)
    ensures |s.table| == ME_MAX_PRICE_LEVELS
    ensures s.table[PriceToIndex(price)].None? ==>
      && Ring(s.lv.links, sh.Of(side)) && Descending(s.lv.info, sh.Of(side), side)
          && s.Head(side) == HeadOf(sh.Of(side))
      && forall i | 0 <= i < |sh.Of(side)| :: s.lv.info[sh.Of(side)[i]].price != price
  {
    RefinesElim(s, sh, side, own, opp);
    if s.table[PriceToIndex(price)].None? { SideLinked(s, sh, side, price); }
  }

  lemma RefineOpen(s: State, sh: Shape, side: Side, own: seq<Resting>, opp: seq<Resting>, k: nat, l: Ptr, o: Ptr,
      r: Resting)
    requires Refines(s, sh, side, own, opp) && |s.table| == ME_MAX_PRICE_LEVELS && s.table[PriceToIndex(r.price)].None?
    requires (forall i | 0 <= i < |sh.Of(side)| :: sh.Of(side)[i] in s.lv.info)
        && Place(s.lv.info, sh.Of(side), side, r.price, k)
    requires forall x | x in sh.Of(side) :: x in s.lv.links.prev
    requires o !in s.os.data && l !in s.lv.info && r.side == side && r.qty > 0 && Key(r) !in s.clients
    ensures Refines(OpenState(s, side, sh.Of(side), k, l, o, r),
                    sh.(queue := sh.queue[l := [o]]).With(side, Put(sh.Of(side), k, l)), side, Insert(own, r), opp)
  {
    RefinesElim(s, sh, side, own, opp);
    OpenStep(s, sh, side, k, l, o, r);
    RefinesIntro(OpenState(s, side, sh.Of(side), k, l, o, r),
                 sh.(queue := sh.queue[l := [o]]).With(side, Put(sh.Of(side), k, l)), side, Insert(own, r), opp);
  }

  /** A level found for `r` takes it at its back. */
  lemma RefineAppend(s: State, sh: Shape, own: seq<Resting>, opp: seq<Resting>, o: Ptr, r: Resting)
    requires Refines(s, sh, r.side, own, opp) && OwnLevel(s, r.side, r.price) && s.table[PriceToIndex(r.price)].Some?
    requires o !in s.os.data && r.qty > 0 && r.priority == NextPriority(own, r.price) && Key(r) !in s.clients
    ensures var l := s.table[PriceToIndex(r.price)].value;
      && l in s.lv.first && l in sh.queue
      && s.lv.first[l] in s.os.links.prev && s.os.links.prev[s.lv.first[l]] != o && s.lv.first[l] != o
      && Refines(AppendState(s, o, r, s.lv.first[l]), sh.(queue := sh.queue[l := sh.queue[l] + [o]]), r.side,
          Insert(own, r), opp)
  {
    RefinesElim(s, sh, r.side, own, opp);
    var k := MayQueue(s, sh, o, r);
    AppendStep(s, sh, r.side, k, o, r);
    var l := s.table[PriceToIndex(r.price)].value;
    RefinesIntro(AppendState(s, o, r, s.lv.first[l]), sh.(queue := sh.queue[l := sh.queue[l] + [o]]), r.side,
        Insert(own, r), opp);
  }

  /** `getNextPriority` reads the next priority of the side. */
  lemma RefinePriority(s: State, sh: Shape, side: Side, own: seq<Resting>, opp: seq<Resting>, price: nat)
    requires Refines(s, sh, side, own, opp) && OwnLevel(s, side, price)
    ensures match s.table[PriceToIndex(price)]
      case None => NextPriority(own, price) == 1
      case Some(l) =>
        && l in s.lv.first && s.lv.first[l] in s.os.links.prev && s.os.links.prev[s.lv.first[l]] in s.os.data
        && NextPriority(own, price) == s.os.data[s.os.links.prev[s.lv.first[l]]].priority + 1
  {
    RefinesElim(s, sh, side, own, opp);
    match s.table[PriceToIndex(price)] {
      case None => PriorityWithoutLevel(s, sh, side, price);
      case Some(l) => PriorityWithLevel(s, sh, side, l);
    }
  }

  /** The head of a side is null exactly when the side is empty, and leads to its first order. */
  lemma RefineBest(s: State, sh: Shape, side: Side, own: seq<Resting>, opp: seq<Resting>)
    requires Refines(s, sh, side, own, opp)
    ensures s.Head(side).None? <==> own == []
    ensures s.Head(side).Some? ==>
      var l := s.Head(side).value;
      l in s.lv.first && s.lv.first[l] in s.os.data && own[0] == s.os.data[s.lv.first[l]]
          && Located(s, sh, side, own, 0, 0, 0, s.lv.first[l])
  {
    RefinesElim(s, sh, side, own, opp);
    BestFound(s, sh, side);
    if s.Head(side).Some? {
      var p := PositionOf(s, sh, side, 0, 0);
      LocatedIntro(s, sh, side, 0, 0, 0, s.lv.first[s.Head(side).value]);
    }
  }

  lemma RefineReduce(s: State, sh: Shape, side: Side, own: seq<Resting>, opp: seq<Resting>, qty: nat)
    requires Refines(s, sh, side, own, opp) && s.Head(side).Some? && qty > 0
    requires s.Head(side).value in s.lv.first && s.lv.first[s.Head(side).value] in s.os.data
    ensures var o := s.lv.first[s.Head(side).value];
      && own != []
      && Refines(s.(os := s.os.(data := s.os.data[o := s.os.data[o].(qty := qty)])), sh, side, [own[0].(qty := qty)]
          + own[1..], opp)
  {
    RefinesElim(s, sh, side, own, opp);
    BestFound(s, sh, side);
    ReduceStep(s, sh, side, qty);
    var o := s.lv.first[s.Head(side).value];
    RefinesIntro(s.(os := s.os.(data := s.os.data[o := s.os.data[o].(qty := qty)])), sh, side, [own[0].(qty := qty)]
        + own[1..], opp);
  }

  lemma RefineLeave(s: State, sh: Shape, side: Side, own: seq<Resting>, opp: seq<Resting>, k: nat, j: nat, p: nat,
      o: Ptr)
    requires Refines(s, sh, side, own, opp) && Located(s, sh, side, own, k, j, p, o)
    ensures Removable(s, o) && Shrunk(s, Unhooked(s, o))
    ensures Refines(Unhooked(s, o), ShapeWithout(sh, side, k, j), side, Drop(own, p), opp)
  {
    RefinesElim(s, sh, side, own, opp);
    LocatedElim(s, sh, side, own, k, j, p, o);
    LeaveStep(s, sh, side, k, j);
    DropsOne(Rungs(s.os, sh.queue, sh.Of(side)), k, j, p);
    RefinesIntro(Unhooked(s, o), ShapeWithout(sh, side, k, j), side, Drop(own, p), opp);
  }

  lemma DropsOne(lad: seq<seq<Resting>>, k: nat, j: nat, p: nat)
    requires k < |lad| && j < |lad[k]| && p == |L.Flat(lad[..k])| + j
    ensures p < |L.Flat(lad)| && L.Flat(L.Remove(lad, k, j)) == Drop(L.Flat(lad), p)
  {
    L.RemoveFlat(lad, k, j);
  }

  // ---- requests meet the tables ----------------------------------------------------

  /** The order found under a client's id, and its place. */
  lemma RefineClients(s: State, sh: Shape, side: Side, own: seq<Resting>, opp: seq<Resting>, key: (nat, nat))
    requires Refines(s, sh, side, own, opp) && side.Valid() && key in s.clients
    ensures var o := s.clients[key];
      o in s.os.data && Key(s.os.data[o]) == key && s.os.data[o].side.Valid()
  {
    RefinesElim(s, sh, side, own, opp);
    MemberSide(s.os, s.lv, sh.queue, sh.Of(side), sh.Of(side.Opposite()), side, s.clients[key]);
  }

  lemma MemberSide(os: Orders, lv: Levels, queue: Queues, own: seq<Ptr>, opp: seq<Ptr>, side: Side, o: Ptr)
    requires Sides(os, lv, queue, own, opp, side) && Member(queue, own, opp, o)
    ensures o in os.data && os.data[o].side.Valid()
  {
    var l :| (l in own || l in opp) && l in queue && o in queue[l];
    if l in own {
      var k :| 0 <= k < |own| && own[k] == l;
      assert Rung(os, lv, queue, own[k], side);
    } else {
      var k :| 0 <= k < |opp| && opp[k] == l;
      assert Rung(os, lv, queue, opp[k], side.Opposite());
    }
  }

  lemma HangsOnSide(s: State, sh: Shape, side: Side, o: Ptr) returns (k: nat, j: nat)
    requires Good(s, sh, side) && Member(sh.queue, sh.Of(side), sh.Of(side.Opposite()), o)
    requires o in s.os.data && s.os.data[o].side == side
    ensures Hangs(s, sh, side, k, j) && sh.queue[sh.Of(side)[k]][j] == o
  {
    var own, opp := sh.Of(side), sh.Of(side.Opposite());
    var l :| (l in own || l in opp) && l in sh.queue && o in sh.queue[l];
    forall i | 0 <= i < |opp| ensures opp[i] in sh.queue && o !in sh.queue[opp[i]] {
      assert Rung(s.os, s.lv, sh.queue, opp[i], side.Opposite());
    }
    k :| 0 <= k < |own| && own[k] == l;
    assert Rung(s.os, s.lv, sh.queue, own[k], side);
    j :| 0 <= j < |sh.queue[l]| && sh.queue[l][j] == o;
  }

  lemma RefineLocate(s: State, sh: Shape, side: Side, own: seq<Resting>, opp: seq<Resting>, key: (nat, nat))
      returns (k: nat, j: nat, p: nat)
    requires Refines(s, sh, side, own, opp) && side.Valid() && key in s.clients
    requires s.clients[key] in s.os.data && s.os.data[s.clients[key]].side == side
    ensures Located(s, sh, side, own, k, j, p, s.clients[key])
  {
    RefinesElim(s, sh, side, own, opp);
    k, j, p := LocateOnSide(s, sh, side, s.clients[key]);
  }

  lemma LocateOnSide(s: State, sh: Shape, side: Side, o: Ptr) returns (k: nat, j: nat, p: nat)
    requires Good(s, sh, side) && Member(sh.queue, sh.Of(side), sh.Of(side.Opposite()), o)
    requires o in s.os.data && s.os.data[o].side == side
    ensures p < |SideOf(s, sh, side)| && SideOf(s, sh, side)[p] == s.os.data[o]
    ensures forall u: bool :: LocatedDef(s, sh, side, k, j, p, o, u)
  {
    k, j := HangsOnSide(s, sh, side, o);
    p := HangsAt(s, sh, side, k, j, o);
  }

  lemma HangsAt(s: State, sh: Shape, side: Side, k: nat, j: nat, o: Ptr) returns (p: nat)
    requires Hangs(s, sh, side, k, j) && sh.queue[sh.Of(side)[k]][j] == o
    ensures o in s.os.data && p < |SideOf(s, sh, side)| && SideOf(s, sh, side)[p] == s.os.data[o]
    ensures forall u: bool :: LocatedDef(s, sh, side, k, j, p, o, u)
  {
    p := PositionOf(s, sh, side, k, j);
    LocatedIntro(s, sh, side, k, j, p, o);
  }

  lemma KeysOfSide(s: State, sh: Shape, side: Side, x: Resting)
    requires Good(s, sh, side) && x in SideOf(s, sh, side)
    ensures Key(x) in s.clients
  {
    var own := sh.Of(side);
    var i := L.FlatMember(Rungs(s.os, sh.queue, own), x);
    assert Rung(s.os, s.lv, sh.queue, own[i], side);
    var q := sh.queue[own[i]];
    var j :| 0 <= j < |q| && Values(s.os, q)[j] == x;
    assert own[i] in own && q[j] in q;
    assert Member(sh.queue, own, sh.Of(side.Opposite()), q[j]);
  }

  /** Every resting order is in the client table. */
  lemma RefineKeys(s: State, sh: Shape, side: Side, own: seq<Resting>, opp: seq<Resting>)
    requires Refines(s, sh, side, own, opp) && side.Valid()
    ensures forall x | x in own || x in opp :: Key(x) in s.clients
  {
    RefinesElim(s, sh, side, own, opp);
    GoodOpposite(s, sh, side);
    forall x | x in own || x in opp ensures Key(x) in s.clients {
      if x in own { KeysOfSide(s, sh, side, x); } else { KeysOfSide(s, sh, side.Opposite(), x); }
    }
  }

  /** No live level at another price shares the table entry of `price`. */
  ghost predicate NoCollision(s: State, price: nat) {
    && |s.table| == ME_MAX_PRICE_LEVELS
    && (s.table[PriceToIndex(price)].Some? ==>
          s.table[PriceToIndex(price)].value in s.lv.info
              && s.lv.info[s.table[PriceToIndex(price)].value].price == price)
  }

  lemma LevelNotCrossed(s: State, sh: Shape, side: Side, k: nat, taker: Side, price: nat)
    requires Good(s, sh, side) && k < |sh.Of(side)|
    requires forall i | 0 <= i < |SideOf(s, sh, side)| :: !Crosses(taker, price, SideOf(s, sh, side)[i].price)
    ensures sh.Of(side)[k] in s.lv.info && s.lv.info[sh.Of(side)[k]].price != price
  {
    assert Rung(s.os, s.lv, sh.queue, sh.Of(side)[k], side);
    var p := PositionOf(s, sh, side, k, 0);
  }

  /** With the opposite side swept, the table entry at the order's price is free or its own level's. */
  lemma RefineOwnLevel(s: State, sh: Shape, side: Side, own: seq<Resting>, opp: seq<Resting>, price: nat)
    requires Refines(s, sh, side, own, opp) && side.Valid() && NoCollision(s, price)
    requires forall i | 0 <= i < |opp| :: !Crosses(side, price, opp[i].price)
    ensures OwnLevel(s, side, price)
  {
    RefinesElim(s, sh, side, own, opp);
    if s.table[PriceToIndex(price)].Some? {
      var l := s.table[PriceToIndex(price)].value;
      var ls, lo := sh.Of(side), sh.Of(side.Opposite());
      GoodOpposite(s, sh, side);
      forall k | 0 <= k < |lo| ensures lo[k] != l {
        LevelNotCrossed(s, sh, side.Opposite(), k, side, price);
      }
      var k :| 0 <= k < |ls| && ls[k] == l;
      assert Rung(s.os, s.lv, sh.queue, ls[k], side);
    }
  }

  lemma {:induction false} FindUnique(s: seq<Resting>, r: Resting)
    requires r in s && DistinctIds(s)
    ensures Find(s, r.client, r.oid) == Some(r)
  {
    var x := Find(s, r.client, r.oid);
    assert x.Some?;
    var i :| 0 <= i < |s| && s[i] == r;
    var j :| 0 <= j < |s| && s[j] == x.value;
    assert i == j;
  }

  lemma WithoutIsDrop(s: seq<Resting>, p: nat)
    requires p < |s| && forall i, j | 0 <= i < j < |s| :: s[i].mid != s[j].mid
    ensures Without(s, s[p].mid) == Drop(s, p)
  {
    var k := WithoutAt(s, s[p].mid);
    assert k == p;
  }

  /** A leftover order does not cross what the sweep left on the other side. */
  lemma LeftoverMayRest(b: Book, ticker: nat, t: Taker, qty: nat)
    requires PriceTime.Ok(b) && t.side.Valid() && FreshKey(b, t.client, t.oid)
    ensures var r := SweepSide(ticker, b.Of(t.side.Opposite()), t, qty);
      r.left > 0 ==> forall i | 0 <= i < |r.rest| :: !Crosses(t.side, t.price, r.rest[i].price)
  {
    OkFromEitherSide(b, t.side);
    assert forall x: Resting | x in b.Of(t.side) + b.Of(t.side.Opposite()) :: x in b.bids + b.asks;
    SweepKeeps(b.Of(t.side), b.Of(t.side.Opposite()), b.nextId, ticker, t, qty);
  }

  lemma RefineFresh(s: State, sh: Shape, b: Book, client: nat, oid: nat)
    requires Refines(s, sh, Buy, b.bids, b.asks) && (client, oid) !in s.clients
    ensures FreshKey(b, client, oid)
  {
    RefineKeys(s, sh, Buy, b.bids, b.asks);
    forall r | r in b.bids + b.asks ensures !(r.client == client && r.oid == oid) {
      assert r in b.bids || r in b.asks;
    }
  }
}
