/**
 The whole state of the order book at one moment, the structural invariant on it,
 and the effect of each change on the invariant and on the price-time view.
 */
module BookState {
  import opened Types
  import opened PriceTime
  import opened Rings
  import opened BookMemory
  import opened BookChanges
  import L = Ladder

  /** The fields of the book. */
  datatype State = State(
    os: Orders, lv: Levels, bidHead: Option<Ptr>, askHead: Option<Ptr>,
    table: seq<Option<Ptr>>, clients: map<(nat, nat), Ptr>)
  {
    function Head(side: Side): Option<Ptr> {
      if side.Buy? then bidHead else askHead
    }

    function WithHead(side: Side, h: Option<Ptr>): State {
      if side.Buy? then this.(bidHead := h) else this.(askHead := h)
    }
  }

  /** The rings that the fields spell out: the levels of each side and the orders of each level. */
  datatype Shape = Shape(bids: seq<Ptr>, asks: seq<Ptr>, queue: Queues) {
    function Of(side: Side): seq<Ptr> {
      if side.Buy? then bids else asks
    }

    function With(side: Side, ls: seq<Ptr>): Shape {
      if side.Buy? then this.(bids := ls) else this.(asks := ls)
    }
  }

  function HeadOf(ls: seq<Ptr>): Option<Ptr> {
    if ls == [] then None else Some(ls[0])
  }

  /**
   Both level rings are closed, doubly linked and strictly sorted from the head; each level has a ring of
   its orders in time order; the price table and the client table list exactly the ring contents.
   */
  ghost predicate Good(s: State, sh: Shape, side: Side) {
    && side.Valid()
    && Sides(s.os, s.lv, sh.queue, sh.Of(side), sh.Of(side.Opposite()), side)
    && s.Head(side) == HeadOf(sh.Of(side)) && s.Head(side.Opposite()) == HeadOf(sh.Of(side.Opposite()))
    && Table(s.table, s.lv.info, sh.Of(side), sh.Of(side.Opposite()))
    && Clients(s.clients, s.os.data, sh.queue, sh.Of(side), sh.Of(side.Opposite()))
  }

  lemma GoodOpposite(s: State, sh: Shape, side: Side)
    requires Good(s, sh, side)
    ensures Good(s, sh, side.Opposite())
  {
    TableSwap(s.table, s.lv.info, sh.Of(side), sh.Of(side.Opposite()));
    ClientsSwap(s.clients, s.os.data, sh.queue, sh.Of(side), sh.Of(side.Opposite()));
  }

  /** The price-time sequence of one side. */
  ghost function SideOf(s: State, sh: Shape, side: Side): seq<Resting> {
    L.Flat(Rungs(s.os, sh.queue, sh.Of(side)))
  }

  // ---- an order joins its level ---------------------------------------------

  function AppendState(s: State, o: Ptr, r: Resting, first: Ptr): State
    requires first in s.os.links.prev
  {
    s.(os := Appended(s.os, o, r, first), clients := s.clients[Key(r) := o])
  }

  lemma AppendStep(s: State, sh: Shape, side: Side, k: nat, o: Ptr, r: Resting)
    requires Good(s, sh, side) && MayAppend(s.os, s.lv, sh.queue, sh.Of(side), side, k, o, r) && Key(r) !in s.clients
    ensures var l := sh.Of(side)[k];
      var s', sh' := AppendState(s, o, r, sh.queue[l][0]), sh.(queue := sh.queue[l := sh.queue[l] + [o]]);
      && Good(s', sh', side)
      && SideOf(s', sh', side) == Insert(SideOf(s, sh, side), r)
      && SideOf(s', sh', side.Opposite()) == SideOf(s, sh, side.Opposite())
  {
    var own, opp := sh.Of(side), sh.Of(side.Opposite());
    var l := own[k];
    AppendKeeps(s.os, s.lv, sh.queue, own, opp, side, k, o, r);
    AppendMembers(sh.queue, own, opp, k, o);
    ClientsAdd(s.clients, s.os.data, sh.queue, own, opp, sh.queue[l := sh.queue[l] + [o]], own, o, r);
    SideIsSorted(s.os, s.lv, sh.queue, own, side);
    L.AppendFlat(Rungs(s.os, sh.queue, own), k, r);
  }

  // ---- an order opens its level ---------------------------------------------

  function OpenState(s: State, side: Side, own: seq<Ptr>, k: nat, l: Ptr, o: Ptr, r: Resting): State
    requires k <= |own| && (forall x | x in own :: x in s.lv.links.prev) && |s.table| == ME_MAX_PRICE_LEVELS
  {
    s.(os := Opened(s.os, o, r), lv := LevelOpened(s.lv, l, LevelInfo(side, r.price), o, own, k),
       table := s.table[PriceToIndex(r.price) := Some(l)], clients := s.clients[Key(r) := o])
     .WithHead(side, HeadOf(Put(own, k, l)))
  }

  lemma OpenFlat(os: Orders, lv: Levels, queue: Queues, own: seq<Ptr>, side: Side, k: nat, r: Resting)
    requires SideRing(os, lv, queue, own, side) && Place(lv.info, own, side, r.price, k) && r.side == side
    ensures L.Flat(Put(Rungs(os, queue, own), k, [r])) == Insert(L.Flat(Rungs(os, queue, own)), r)
  {
    SideIsSorted(os, lv, queue, own, side);
    L.InsertLevelFlat(Rungs(os, queue, own), k, r);
  }

  lemma OpenStep(s: State, sh: Shape, side: Side, k: nat, l: Ptr, o: Ptr, r: Resting)
    requires Good(s, sh, side) && Place(s.lv.info, sh.Of(side), side, r.price, k)
    requires o !in s.os.data && l !in s.lv.info && r.side == side && r.qty > 0
    requires Key(r) !in s.clients && s.table[PriceToIndex(r.price)].None?
    ensures var s', sh' := OpenState(s, side, sh.Of(side), k, l, o, r),
                           sh.(queue := sh.queue[l := [o]]).With(side, Put(sh.Of(side), k, l));
      && Good(s', sh', side)
      && SideOf(s', sh', side) == Insert(SideOf(s, sh, side), r)
      && SideOf(s', sh', side.Opposite()) == SideOf(s, sh, side.Opposite())
  {
    var own, opp := sh.Of(side), sh.Of(side.Opposite());
    OpenKeeps(s.os, s.lv, sh.queue, own, opp, side, k, l, o, r);
    OpenMembers(sh.queue, own, opp, k, l, o);
    ClientsAdd(s.clients, s.os.data, sh.queue, own, opp, sh.queue[l := [o]], Put(own, k, l), o, r);
    TablePut(s.table, s.lv.info, own, opp, l, LevelInfo(side, r.price), k);
    OpenFlat(s.os, s.lv, sh.queue, own, side, k, r);
  }

  // ---- an order leaves ------------------------------------------------------

  /** The order at position `j` of level `k` leaves a level that keeps others. */
  function UnlinkState(s: State, l: Ptr, o: Ptr, first: Ptr): State
    requires o in s.os.links.next && o in s.os.links.prev && o in s.os.data
  {
    s.(os := Removed(s.os, o), lv := s.lv.(first := s.lv.first[l := first]), clients := s.clients - {Key(s.os.data[o])})
  }

  lemma LeaveClients(s: State, sh: Shape, side: Side, k: nat, j: nat)
    requires Good(s, sh, side) && k < |sh.Of(side)| && Rung(s.os, s.lv, sh.queue, sh.Of(side)[k], side)
    requires j < |sh.queue[sh.Of(side)[k]]|
    ensures var q := sh.queue[sh.Of(side)[k]];
      Clients(s.clients - {Key(s.os.data[q[j]])}, s.os.data - {q[j]}, sh.queue[sh.Of(side)[k] := Drop(q, j)],
          sh.Of(side), sh.Of(side.Opposite()))
  {
    var own, opp := sh.Of(side), sh.Of(side.Opposite());
    var q := sh.queue[own[k]];
    OneHome(s.os, s.lv, sh.queue, own, opp, side, k, j);
    RemoveMembers(sh.queue, own, opp, k, j);
    assert Member(sh.queue, own, opp, q[j]) by { assert own[k] in own && q[j] in q; }
    ClientsRemove(s.clients, s.os.data, sh.queue, own, opp, sh.queue[own[k] := Drop(q, j)], own, q[j]);
  }

  lemma UnlinkStep(s: State, sh: Shape, side: Side, k: nat, j: nat)
    requires Good(s, sh, side) && k < |sh.Of(side)| && Rung(s.os, s.lv, sh.queue, sh.Of(side)[k], side)
    requires var q := sh.queue[sh.Of(side)[k]]; j < |q| && |q| > 1
    ensures var l := sh.Of(side)[k];
      var q := sh.queue[l];
      Good(UnlinkState(s, l, q[j], Drop(q, j)[0]), sh.(queue := sh.queue[l := Drop(q, j)]), side)
  {
    var own, opp := sh.Of(side), sh.Of(side.Opposite());
    UnlinkKeeps(s.os, s.lv, sh.queue, own, opp, side, k, j, s.lv.first[own[k] := Drop(sh.queue[own[k]], j)[0]]);
    LeaveClients(s, sh, side, k, j);
  }

  lemma UnlinkFlat(os: Orders, lv: Levels, queue: Queues, own: seq<Ptr>, opp: seq<Ptr>, side: Side, k: nat, j: nat)
    requires Sides(os, lv, queue, own, opp, side) && k < |own| && Rung(os, lv, queue, own[k], side)
    requires j < |queue[own[k]]| && |queue[own[k]]| > 1
    ensures var q := queue[own[k]];
      var os', queue' := Removed(os, q[j]), queue[own[k] := Drop(q, j)];
      && j < |Rungs(os, queue, own)[k]|
      && Rungs(os', queue', own) == L.Remove(Rungs(os, queue, own), k, j)
      && Rungs(os', queue', opp) == Rungs(os, queue, opp)
  {
    UnlinkKeeps(os, lv, queue, own, opp, side, k, j, lv.first[own[k] := Drop(queue[own[k]], j)[0]]);
  }

  /** The only order of level `l` leaves, and the level goes with it. */
  function CloseState(s: State, side: Side, l: Ptr, o: Ptr, head: Option<Ptr>): State
    requires o in s.os.data && l in s.lv.links.next && l in s.lv.links.prev && l in s.lv.info
        && |s.table| == ME_MAX_PRICE_LEVELS
  {
    s.(os := s.os.(data := s.os.data - {o}), lv := LevelUnlinked(s.lv, l),
       table := s.table[PriceToIndex(s.lv.info[l].price) := None], clients := s.clients - {Key(s.os.data[o])})
     .WithHead(side, head)
  }

  lemma CloseStep(s: State, sh: Shape, side: Side, k: nat)
    requires Good(s, sh, side) && k < |sh.Of(side)| && sh.Of(side)[k] in sh.queue && |sh.queue[sh.Of(side)[k]]| == 1
    ensures var own := sh.Of(side);
      var s', sh' := CloseState(s, side, own[k], sh.queue[own[k]][0], HeadOf(Drop(own, k))),
          sh.With(side, Drop(own, k));
      && Good(s', sh', side)
      && |Rungs(s.os, sh.queue, own)[k]| == 1
      && SideOf(s', sh', side) == L.Flat(L.Remove(Rungs(s.os, sh.queue, own), k, 0))
      && SideOf(s', sh', side.Opposite()) == SideOf(s, sh, side.Opposite())
  {
    var own, opp := sh.Of(side), sh.Of(side.Opposite());
    var o := sh.queue[own[k]][0];
    CloseKeeps(s.os, s.lv, sh.queue, own, opp, side, k);
    OneHome(s.os, s.lv, sh.queue, own, opp, side, k, 0);
    CloseMembers(sh.queue, own, opp, k);
    assert Member(sh.queue, own, opp, o) by { assert own[k] in own && o in sh.queue[own[k]]; }
    ClientsRemove(s.clients, s.os.data, sh.queue, own, opp, sh.queue, Drop(own, k), o);
    TableDrop(s.table, s.lv.info, own, opp, k);
  }

  // ---- the best order trades in part ------------------------------------------

  lemma ReduceStep(s: State, sh: Shape, side: Side, qty: nat)
    requires Good(s, sh, side) && sh.Of(side) != [] && Rung(s.os, s.lv, sh.queue, sh.Of(side)[0], side) && qty > 0
    ensures var o := sh.queue[sh.Of(side)[0]][0];
      var s' := s.(os := s.os.(data := s.os.data[o := s.os.data[o].(qty := qty)]));
      && Good(s', sh, side)
      && SideOf(s, sh, side) != []
      && SideOf(s', sh, side) == [SideOf(s, sh, side)[0].(qty := qty)] + SideOf(s, sh, side)[1..]
      && SideOf(s', sh, side.Opposite()) == SideOf(s, sh, side.Opposite())
  {
    var own, opp := sh.Of(side), sh.Of(side.Opposite());
    var o := sh.queue[own[0]][0];
    var r := s.os.data[o].(qty := qty);
    ReduceKeeps(s.os, s.lv, sh.queue, own, opp, side, r);
    ClientsReduce(s.clients, s.os.data, sh.queue, own, opp, o, r);
    L.UpdateFrontFlat(Rungs(s.os, sh.queue, own), r);
    L.FlatHead(Rungs(s.os, sh.queue, own));
  }
}
