/**
 The five changes the order book makes to its linked memory, each proved to keep
 both sides well linked and to change exactly one rung of one side.
 */
module BookChanges {
  import opened Types
  import opened PriceTime
  import opened Rings
  import opened BookMemory

  type Queues = map<Ptr, seq<Ptr>>

  /** Both sides, seen from the one that changes. */
  ghost predicate Sides(os: Orders, lv: Levels, queue: Queues, own: seq<Ptr>, opp: seq<Ptr>, side: Side) {
    && SideRing(os, lv, queue, own, side) && SideRing(os, lv, queue, opp, side.Opposite())
  }

  // ---- an order joins the back of a level ---------------------------------

  function Appended(os: Orders, o: Ptr, r: Resting, first: Ptr): Orders
    requires first in os.links.prev
  {
    Orders(os.data[o := r], LinkBefore(os.links, o, first))
  }

  lemma ContentAppend(data: map<Ptr, Resting>, info: LevelInfo, q: seq<Ptr>, o: Ptr, r: Resting)
    requires Content(data, info, q) && q != [] && o !in data
    requires r.price == info.price && r.side == info.side && r.qty > 0 && r.priority > data[q[|q| - 1]].priority
    ensures Content(data[o := r], info, q + [o])
  {
    var q', data' := q + [o], data[o := r];
    assert forall i | 0 <= i < |q| :: q'[i] == q[i] && q[i] != o;
    forall i | 0 <= i < |q| ensures data[q[i]].priority < r.priority {
      assert i < |q| - 1 ==> data[q[i]].priority < data[q[|q| - 1]].priority;
    }
  }

  lemma AppendLevel(os: Orders, info: LevelInfo, q: seq<Ptr>, o: Ptr, r: Resting)
    requires LevelOk(os, info, q) && o !in os.data
    requires r.price == info.price && r.side == info.side && r.qty > 0 && r.priority > os.data[q[|q| - 1]].priority
    ensures LevelOk(Appended(os, o, r, q[0]), info, q + [o])
    ensures Values(Appended(os, o, r, q[0]), q + [o]) == Values(os, q) + [r]
  {
    assert Ring(LinkBefore(os.links, o, q[0]), q + [o]) by {
      RingPut(os.links, q, |q|, o);
      assert Put(q, |q|, o) == q + [o];
    }
    ContentAppend(os.data, info, q, o, r);
  }

  lemma AppendElsewhere(os: Orders, q: seq<Ptr>, o: Ptr, r: Resting, other: seq<Ptr>)
    requires Ring(os.links, q) && q != [] && o !in os.data
    requires forall x | x in other :: x in os.data && x !in q
    ensures SameOrders(os, Appended(os, o, r, q[0]), other)
  {
    if Ring(os.links, other) { LinkBeforeElsewhere(os.links, q, |q|, o, other); }
  }

  /** `r` may queue behind level `k`. */
  ghost predicate MayAppend(os: Orders, lv: Levels, queue: Queues, own: seq<Ptr>, side: Side, k: nat, o: Ptr,
      r: Resting)
  {
    && k < |own| && o !in os.data && Rung(os, lv, queue, own[k], side)
    && r.price == lv.info[own[k]].price && r.side == side && r.qty > 0
    && r.priority > os.data[queue[own[k]][|queue[own[k]]| - 1]].priority
  }

  lemma AppendOwn(os: Orders, lv: Levels, queue: Queues, own: seq<Ptr>, opp: seq<Ptr>, side: Side, k: nat, o: Ptr,
      r: Resting)
    requires Sides(os, lv, queue, own, opp, side) && MayAppend(os, lv, queue, own, side, k, o, r)
    ensures var q := queue[own[k]];
      OnlyLevel(os, Appended(os, o, r, q[0]), lv, lv.first, queue, own, k, q + [o])
  {
    var q := queue[own[k]];
    SidesApart(os, lv, queue, own, opp, side);
    AppendLevel(os, lv.info[own[k]], q, o, r);
    forall i | 0 <= i < |own| && i != k
        ensures own[i] in lv.first && SameOrders(os, Appended(os, o, r, q[0]), queue[own[i]])
    {
      assert Rung(os, lv, queue, own[i], side);
      AppendElsewhere(os, q, o, r, queue[own[i]]);
    }
  }

  lemma AppendOpp(os: Orders, lv: Levels, queue: Queues, own: seq<Ptr>, opp: seq<Ptr>, side: Side, k: nat, o: Ptr,
      r: Resting)
    requires Sides(os, lv, queue, own, opp, side) && MayAppend(os, lv, queue, own, side, k, o, r)
    ensures var q := queue[own[k]];
      var os', queue' := Appended(os, o, r, q[0]), queue[own[k] := q + [o]];
      SideRing(os', lv, queue', opp, side.Opposite()) && Rungs(os', queue', opp) == Rungs(os, queue, opp)
  {
    var q := queue[own[k]];
    var os', queue' := Appended(os, o, r, q[0]), queue[own[k] := q + [o]];
    SidesApart(os, lv, queue, own, opp, side);
    forall i | 0 <= i < |opp| ensures SameOrders(os, os', queue[opp[i]]) && opp[i] != own[k] {
      assert own[k] in own && Rung(os, lv, queue, opp[i], side.Opposite());
      AppendElsewhere(os, q, o, r, queue[opp[i]]);
    }
    SideFrame(os, os', lv, lv, queue, queue', opp, side.Opposite());
  }

  lemma AppendKeeps(os: Orders, lv: Levels, queue: Queues, own: seq<Ptr>, opp: seq<Ptr>, side: Side, k: nat, o: Ptr,
      r: Resting)
    requires Sides(os, lv, queue, own, opp, side) && MayAppend(os, lv, queue, own, side, k, o, r)
    ensures var q := queue[own[k]];
      var os', queue' := Appended(os, o, r, q[0]), queue[own[k] := q + [o]];
      && Sides(os', lv, queue', own, opp, side)
      && Rungs(os', queue', own) == Rungs(os, queue, own)[k := Rungs(os, queue, own)[k] + [r]]
      && Rungs(os', queue', opp) == Rungs(os, queue, opp)
  {
    var q := queue[own[k]];
    AppendOwn(os, lv, queue, own, opp, side, k, o, r);
    AppendOpp(os, lv, queue, own, opp, side, k, o, r);
    LevelChanges(os, Appended(os, o, r, q[0]), lv, lv.first, queue, own, side, k, q + [o]);
    LevelValues(os, Appended(os, o, r, q[0]), lv, lv.first, queue, own, side, k, q + [o]);
    AppendLevel(os, lv.info[own[k]], q, o, r);
    assert lv.(first := lv.first) == lv;
  }

  // ---- an order opens a new level -----------------------------------------

  function Opened(os: Orders, o: Ptr, r: Resting): Orders {
    Orders(os.data[o := r], SelfLink(os.links, o))
  }

  function LevelLinked(links: Links, l: Ptr, own: seq<Ptr>, k: nat): Links
    requires k <= |own| && forall x | x in own :: x in links.prev
  {
    if own == [] then SelfLink(links, l) else LinkBefore(links, l, own[Landing(k, |own|)])
  }

  function LevelOpened(lv: Levels, l: Ptr, info: LevelInfo, o: Ptr, own: seq<Ptr>, k: nat): Levels
    requires k <= |own| && forall x | x in own :: x in lv.links.prev
  {
    Levels(lv.info[l := info], lv.first[l := o], LevelLinked(lv.links, l, own, k))
  }

  /** Where a level at `price` belongs: every earlier level is better and every later one is worse. */
  ghost predicate Place(info: map<Ptr, LevelInfo>, ls: seq<Ptr>, side: Side, price: nat, k: nat)
    requires forall i | 0 <= i < |ls| :: ls[i] in info
  {
    && k <= |ls|
    && (forall j | 0 <= j < k :: Better(side, info[ls[j]].price, price))
    && (forall j | k <= j < |ls| :: Better(side, price, info[ls[j]].price))
  }

  lemma OpenElsewhere(os: Orders, o: Ptr, r: Resting, other: seq<Ptr>)
    requires o !in os.data && forall x | x in other :: x in os.data
    ensures SameOrders(os, Opened(os, o, r), other)
  {
    if Ring(os.links, other) { RingFrame(os.links, SelfLink(os.links, o), other); }
  }

  lemma LevelLinkedRings(links: Links, l: Ptr, own: seq<Ptr>, opp: seq<Ptr>, k: nat)
    requires Ring(links, own) && Ring(links, opp) && Distinct(own) && k <= |own|
    requires l !in own && l !in opp && forall x | x in own :: x !in opp
    ensures Ring(LevelLinked(links, l, own, k), Put(own, k, l))
    ensures Ring(LevelLinked(links, l, own, k), opp)
  {
    if own == [] {
      assert Put(own, k, l) == [l];
      RingFrame(links, SelfLink(links, l), opp);
    } else {
      RingPut(links, own, k, l);
      LinkBeforeElsewhere(links, own, k, l, opp);
    }
  }

  lemma DescendingPut(info: map<Ptr, LevelInfo>, own: seq<Ptr>, side: Side, k: nat, l: Ptr, price: nat)
    requires Descending(info, own, side) && Place(info, own, side, price, k) && l !in info
    ensures Descending(info[l := LevelInfo(side, price)], Put(own, k, l), side)
  {
    var ls, info' := Put(own, k, l), info[l := LevelInfo(side, price)];
    forall i | 0 <= i < |ls| ensures ls[i] in info' {}
    forall i, j | 0 <= i < j < |ls| ensures Better(side, info'[ls[i]].price, info'[ls[j]].price) {
      var i', j' := if i < k then i else i - 1, if j < k then j else j - 1;
      if i != k { assert ls[i] == own[i']; }
      if j != k { assert ls[j] == own[j']; }
    }
  }

  lemma RungsPut(os: Orders, os': Orders, queue: Queues, queue': Queues, own: seq<Ptr>, k: nat, l: Ptr)
    requires k <= |own|
    requires forall i | 0 <= i < |own| :: Values(os', Hanging(queue', own[i])) == Values(os, Hanging(queue, own[i]))
    ensures Rungs(os', queue', Put(own, k, l)) == Put(Rungs(os, queue, own), k, Values(os', Hanging(queue', l)))
  {
    var ls := Put(own, k, l);
    var a, b := Rungs(os', queue', ls), Put(Rungs(os, queue, own), k, Values(os', Hanging(queue', l)));
    forall i | 0 <= i < |ls| ensures a[i] == b[i] {
      assert ls[i] == if i == k then l else own[if i < k then i else i - 1];
    }
  }

  lemma RungsDrop(os: Orders, os': Orders, queue: Queues, own: seq<Ptr>, k: nat)
    requires k < |own|
    requires forall i | 0 <= i < |own| && i != k ::
        Values(os', Hanging(queue, own[i])) == Values(os, Hanging(queue, own[i]))
    ensures Rungs(os', queue, Drop(own, k)) == Drop(Rungs(os, queue, own), k)
  {
    var ls := Drop(own, k);
    var a, b := Rungs(os', queue, ls), Drop(Rungs(os, queue, own), k);
    forall i | 0 <= i < |ls| ensures a[i] == b[i] {
      assert ls[i] == own[if i < k then i else i + 1];
    }
  }

  lemma OpenOldRung(os: Orders, lv: Levels, lv': Levels, queue: Queues, queue': Queues, l': Ptr, side: Side, l: Ptr,
      o: Ptr, r: Resting)
    requires Rung(os, lv, queue, l', side) && l != l' && o !in os.data
    requires lv'.info == lv.info[l := LevelInfo(side, r.price)] && lv'.first == lv.first[l := o]
        && queue' == queue[l := [o]]
    ensures Rung(Opened(os, o, r), lv', queue', l', side)
    ensures Values(Opened(os, o, r), queue'[l']) == Values(os, queue[l'])
  {
    OpenElsewhere(os, o, r, queue[l']);
    LevelFrame(os, Opened(os, o, r), lv.info[l'], queue[l']);
  }

  lemma OpenNewRung(os: Orders, lv: Levels, queue: Queues, l: Ptr, side: Side, o: Ptr, r: Resting)
    requires o in os.data && os.data[o] == r && r.side == side && r.qty > 0 && Ring(os.links, [o])
    requires l in lv.info && lv.info[l] == LevelInfo(side, r.price) && l in lv.first && lv.first[l] == o
    requires l in queue && queue[l] == [o]
    ensures Rung(os, lv, queue, l, side) && Values(os, queue[l]) == [r]
  {
    assert Content(os.data, lv.info[l], [o]);
  }

  /** The new level is a rung of its own, and the old ones are as before. */
  lemma OpenRungs(os: Orders, os': Orders, lv: Levels, lv': Levels, queue: Queues, queue': Queues, own: seq<Ptr>,
      side: Side, k: nat, l: Ptr, o: Ptr, r: Resting)
    requires (forall i | 0 <= i < |own| :: Rung(os, lv, queue, own[i], side)) && k <= |own| && l !in own
    requires o !in os.data && r.side == side && r.qty > 0
    requires os' == Opened(os, o, r) && queue' == queue[l := [o]]
    requires lv'.info == lv.info[l := LevelInfo(side, r.price)] && lv'.first == lv.first[l := o]
    ensures forall i | 0 <= i <= |own| :: Rung(os', lv', queue', Put(own, k, l)[i], side)
  {
    forall i | 0 <= i <= |own| ensures Rung(os', lv', queue', Put(own, k, l)[i], side) {
      if i == k {
        OpenNewRung(os', lv', queue', l, side, o, r);
      } else {
        var j := if i < k then i else i - 1;
        assert Put(own, k, l)[i] == own[j] && own[j] in own;
        OpenOldRung(os, lv, lv', queue, queue', own[j], side, l, o, r);
      }
    }
  }

  lemma OpenValues(os: Orders, os': Orders, lv: Levels, lv': Levels, queue: Queues, queue': Queues, own: seq<Ptr>,
      side: Side, k: nat, l: Ptr, o: Ptr, r: Resting)
    requires (forall i | 0 <= i < |own| :: Rung(os, lv, queue, own[i], side)) && k <= |own| && l !in own
    requires o !in os.data && r.side == side && r.qty > 0
    requires os' == Opened(os, o, r) && queue' == queue[l := [o]]
    requires lv'.info == lv.info[l := LevelInfo(side, r.price)] && lv'.first == lv.first[l := o]
    ensures Rungs(os', queue', Put(own, k, l)) == Put(Rungs(os, queue, own), k, [r])
  {
    forall i | 0 <= i < |own| ensures Values(os', Hanging(queue', own[i])) == Values(os, Hanging(queue, own[i])) {
      assert own[i] in own;
      OpenOldRung(os, lv, lv', queue, queue', own[i], side, l, o, r);
    }
    OpenNewRung(os', lv', queue', l, side, o, r);
    RungsPut(os, os', queue, queue', own, k, l);
  }

  lemma OpenKeeps(os: Orders, lv: Levels, queue: Queues, own: seq<Ptr>, opp: seq<Ptr>, side: Side, k: nat, l: Ptr,
      o: Ptr, r: Resting)
    requires Sides(os, lv, queue, own, opp, side) && Place(lv.info, own, side, r.price, k)
    requires o !in os.data && l !in lv.info && r.side == side && r.qty > 0
    ensures var os', lv', queue' := Opened(os, o, r), LevelOpened(lv, l, LevelInfo(side, r.price), o, own, k),
        queue[l := [o]];
      && Sides(os', lv', queue', Put(own, k, l), opp, side)
      && Rungs(os', queue', Put(own, k, l)) == Put(Rungs(os, queue, own), k, [r])
      && Rungs(os', queue', opp) == Rungs(os, queue, opp)
  {
    var os', lv', queue' := Opened(os, o, r), LevelOpened(lv, l, LevelInfo(side, r.price), o, own, k), queue[l := [o]];
    assert Ring(lv'.links, Put(own, k, l)) && Ring(lv'.links, opp) by {
      SidesApart(os, lv, queue, own, opp, side);
      SideIsSorted(os, lv, queue, own, side);
      LevelLinkedRings(lv.links, l, own, opp, k);
    }
    forall i | 0 <= i < |opp| ensures SameOrders(os, os', queue[opp[i]]) && opp[i] != l {
      assert Rung(os, lv, queue, opp[i], side.Opposite());
      OpenElsewhere(os, o, r, queue[opp[i]]);
    }
    SideFrame(os, os', lv, lv', queue, queue', opp, side.Opposite());
    DescendingPut(lv.info, own, side, k, l, r.price);
    OpenRungs(os, os', lv, lv', queue, queue', own, side, k, l, o, r);
    OpenValues(os, os', lv, lv', queue, queue', own, side, k, l, o, r);
  }

  // ---- an order leaves a level that keeps others ---------------------------

  function Removed(os: Orders, o: Ptr): Orders
    requires o in os.links.next && o in os.links.prev
  {
    Orders(os.data - {o}, Unlink(os.links, o))
  }

  lemma ContentDrop(data: map<Ptr, Resting>, info: LevelInfo, q: seq<Ptr>, j: nat)
    requires Content(data, info, q) && j < |q|
    ensures Distinct(q) && Content(data - {q[j]}, info, Drop(q, j))
  {
    var q' := Drop(q, j);
    assert forall i | 0 <= i < |q'| :: q'[i] == q[if i < j then i else i + 1];
    assert Distinct(q);
    assert forall i | 0 <= i < |q'| :: q'[i] != q[j];
  }

  lemma RemoveLevelOrder(os: Orders, info: LevelInfo, q: seq<Ptr>, j: nat)
    requires LevelOk(os, info, q) && j < |q| && |q| > 1
    ensures LevelOk(Removed(os, q[j]), info, Drop(q, j))
    ensures Values(Removed(os, q[j]), Drop(q, j)) == Drop(Values(os, q), j)
  {
    ContentDrop(os.data, info, q, j);
    RingDrop(os.links, q, j);
    ValuesDrop(os, Removed(os, q[j]), q, j);
  }

  lemma ValuesDrop(os: Orders, os': Orders, q: seq<Ptr>, j: nat)
    requires Distinct(q) && j < |q| && os'.data == os.data - {q[j]}
    requires forall i | 0 <= i < |q| :: q[i] in os.data
    ensures forall i | 0 <= i < |q| - 1 :: Drop(q, j)[i] in os'.data
    ensures Values(os', Drop(q, j)) == Drop(Values(os, q), j)
  {
    var q' := Drop(q, j);
    forall i | 0 <= i < |q'| ensures q'[i] in os'.data && os'.data[q'[i]] == Drop(Values(os, q), j)[i] {
      assert q'[i] == q[if i < j then i else i + 1];
    }
  }

  lemma RemoveElsewhere(os: Orders, q: seq<Ptr>, j: nat, other: seq<Ptr>)
    requires Ring(os.links, q) && j < |q| && forall x | x in other :: x !in q
    ensures SameOrders(os, Removed(os, q[j]), other)
  {
    if Ring(os.links, other) { UnlinkElsewhere(os.links, q, j, other); }
  }

  lemma UnlinkKeeps(os: Orders, lv: Levels, queue: Queues, own: seq<Ptr>, opp: seq<Ptr>, side: Side, k: nat, j: nat,
      first': map<Ptr, Ptr>)
    requires Sides(os, lv, queue, own, opp, side) && k < |own| && own[k] in queue && j < |queue[own[k]]|
        && |queue[own[k]]| > 1
    requires first' == lv.first[own[k] := Drop(queue[own[k]], j)[0]]
    ensures var q := queue[own[k]];
      var os', lv', queue' := Removed(os, q[j]), lv.(first := first'), queue[own[k] := Drop(q, j)];
      && Sides(os', lv', queue', own, opp, side)
      && Rungs(os', queue', own) == Rungs(os, queue, own)[k := Drop(Rungs(os, queue, own)[k], j)]
      && Rungs(os', queue', opp) == Rungs(os, queue, opp)
  {
    var q := queue[own[k]];
    var os', lv', queue' := Removed(os, q[j]), lv.(first := first'), queue[own[k] := Drop(q, j)];
    SidesApart(os, lv, queue, own, opp, side);
    SideIsSorted(os, lv, queue, own, side);
    RemoveLevelOrder(os, lv.info[own[k]], q, j);
    forall i | 0 <= i < |own| && i != k ensures SameOrders(os, os', queue[own[i]]) {
      assert Rung(os, lv, queue, own[i], side);
      RemoveElsewhere(os, q, j, queue[own[i]]);
    }
    forall i | 0 <= i < |opp| ensures SameOrders(os, os', queue[opp[i]]) && opp[i] != own[k] {
      assert own[k] in own && Rung(os, lv, queue, opp[i], side.Opposite());
      RemoveElsewhere(os, q, j, queue[opp[i]]);
    }
    LevelChanges(os, os', lv, first', queue, own, side, k, Drop(q, j));
    LevelValues(os, os', lv, first', queue, own, side, k, Drop(q, j));
    SideFrame(os, os', lv, lv', queue, queue', opp, side.Opposite());
  }

  // ---- the last order of a level leaves, and the level with it -------------

  function LevelUnlinked(lv: Levels, l: Ptr): Levels
    requires l in lv.links.next && l in lv.links.prev
  {
    Levels(lv.info - {l}, lv.first, if lv.links.next[l] == l then lv.links else Unlink(lv.links, l))
  }

  lemma CloseElsewhere(os: Orders, o: Ptr, other: seq<Ptr>)
    requires o !in other
    ensures SameOrders(os, os.(data := os.data - {o}), other)
  {}

  lemma LevelUnlinkedRings(lv: Levels, own: seq<Ptr>, opp: seq<Ptr>, k: nat)
    requires Ring(lv.links, own) && Ring(lv.links, opp) && Distinct(own) && k < |own|
    requires forall x | x in own :: x !in opp
    ensures lv.links.next[own[k]] == own[k] <==> |own| == 1
    ensures Ring(LevelUnlinked(lv, own[k]).links, Drop(own, k))
    ensures Ring(LevelUnlinked(lv, own[k]).links, opp)
  {
    assert lv.links.next[own[k]] == own[Succ(k, |own|)];
    assert own[k] in own;
    if |own| > 1 {
      RingDrop(lv.links, own, k);
      UnlinkElsewhere(lv.links, own, k, opp);
    }
  }

  lemma CloseOldRung(os: Orders, lv: Levels, lv': Levels, queue: Queues, l': Ptr, side: Side, l: Ptr, o: Ptr)
    requires Rung(os, lv, queue, l', side) && l != l' && o !in queue[l']
    requires lv'.info == lv.info - {l} && lv'.first == lv.first
    ensures Rung(os.(data := os.data - {o}), lv', queue, l', side)
    ensures Values(os.(data := os.data - {o}), queue[l']) == Values(os, queue[l'])
  {
    CloseElsewhere(os, o, queue[l']);
    LevelFrame(os, os.(data := os.data - {o}), lv.info[l'], queue[l']);
  }

  lemma DropAt(own: seq<Ptr>, k: nat, i: nat)
    requires k < |own| && i < |own| - 1
    ensures Drop(own, k)[i] == own[if i < k then i else i + 1]
  {}

  lemma CloseRungs(os: Orders, os': Orders, lv: Levels, lv': Levels, queue: Queues, own: seq<Ptr>, side: Side, k: nat,
      o: Ptr)
    requires (forall i | 0 <= i < |own| :: Rung(os, lv, queue, own[i], side)) && Distinct(own) && k < |own|
    requires forall i | 0 <= i < |own| && i != k :: own[i] in queue && o !in queue[own[i]]
    requires os' == os.(data := os.data - {o}) && lv'.info == lv.info - {own[k]} && lv'.first == lv.first
    ensures forall i | 0 <= i < |own| - 1 :: Rung(os', lv', queue, Drop(own, k)[i], side)
  {
    forall i | 0 <= i < |own| - 1 ensures Rung(os', lv', queue, Drop(own, k)[i], side) {
      var j := if i < k then i else i + 1;
      DropAt(own, k, i);
      Apart(own, j, k);
      CloseOldRung(os, lv, lv', queue, own[j], side, own[k], o);
    }
  }

  lemma CloseValues(os: Orders, os': Orders, lv: Levels, queue: Queues, own: seq<Ptr>, side: Side, k: nat, o: Ptr)
    requires (forall i | 0 <= i < |own| :: Rung(os, lv, queue, own[i], side)) && k < |own|
    requires forall i | 0 <= i < |own| && i != k :: own[i] in queue && o !in queue[own[i]]
    requires os' == os.(data := os.data - {o})
    ensures Rungs(os', queue, Drop(own, k)) == Drop(Rungs(os, queue, own), k)
  {
    forall j | 0 <= j < |own| && j != k
        ensures Values(os', Hanging(queue, own[j])) == Values(os, Hanging(queue, own[j]))
    {
      assert Rung(os, lv, queue, own[j], side);
      assert forall i | 0 <= i < |queue[own[j]]| :: queue[own[j]][i] in queue[own[j]];
    }
    RungsDrop(os, os', queue, own, k);
  }

  lemma DescendingDrop(info: map<Ptr, LevelInfo>, own: seq<Ptr>, side: Side, k: nat)
    requires Descending(info, own, side) && k < |own| && Distinct(own)
    ensures Descending(info - {own[k]}, Drop(own, k), side)
  {
    forall i | 0 <= i < |own| - 1 ensures Drop(own, k)[i] == own[if i < k then i else i + 1] {}
  }

  lemma CloseKeeps(os: Orders, lv: Levels, queue: Queues, own: seq<Ptr>, opp: seq<Ptr>, side: Side, k: nat)
    requires Sides(os, lv, queue, own, opp, side) && k < |own| && own[k] in queue && |queue[own[k]]| == 1
    ensures var os', lv' := os.(data := os.data - {queue[own[k]][0]}), LevelUnlinked(lv, own[k]);
      && Sides(os', lv', queue, Drop(own, k), opp, side)
      && Rungs(os', queue, Drop(own, k)) == Drop(Rungs(os, queue, own), k)
      && Rungs(os', queue, opp) == Rungs(os, queue, opp)
  {
    var o := queue[own[k]][0];
    var os', lv' := os.(data := os.data - {o}), LevelUnlinked(lv, own[k]);
    SidesApart(os, lv, queue, own, opp, side);
    assert Distinct(own) by { SideIsSorted(os, lv, queue, own, side); }
    LevelUnlinkedRings(lv, own, opp, k);
    assert o in queue[own[k]] && own[k] in own;
    CloseRungs(os, os', lv, lv', queue, own, side, k, o);
    CloseValues(os, os', lv, queue, own, side, k, o);
    DescendingDrop(lv.info, own, side, k);
    forall i | 0 <= i < |opp| ensures SameOrders(os, os', queue[opp[i]]) && opp[i] != own[k]
        && Rung(os, lv, queue, opp[i], side.Opposite())
    {
      CloseElsewhere(os, o, queue[opp[i]]);
    }
    SideFrame(os, os', lv, lv', queue, queue, opp, side.Opposite());
  }

  // ---- the first order of the best level trades in part ---------------------

  lemma ReduceKeeps(os: Orders, lv: Levels, queue: Queues, own: seq<Ptr>, opp: seq<Ptr>, side: Side, r: Resting)
    requires Sides(os, lv, queue, own, opp, side) && own != [] && Rung(os, lv, queue, own[0], side)
    requires var o := queue[own[0]][0]; r == os.data[o].(qty := r.qty) && r.qty > 0
    ensures var o := queue[own[0]][0];
      var os' := os.(data := os.data[o := r]);
      && Sides(os', lv, queue, own, opp, side)
      && Rungs(os', queue, own) == Rungs(os, queue, own)[0 := Rungs(os, queue, own)[0][0 := r]]
      && Rungs(os', queue, opp) == Rungs(os, queue, opp)
  {
    var q := queue[own[0]];
    var o := q[0];
    var os' := os.(data := os.data[o := r]);
    assert o in q && own[0] in own;
    ReduceLevel(os, lv.info[own[0]], q, r);
    assert OnlyLevel(os, os', lv, lv.first, queue, own, 0, q) by {
      SidesApart(os, lv, queue, own, opp, side);
      forall i | 0 < i < |own| ensures own[i] in lv.first && SameOrders(os, os', queue[own[i]]) {
        assert Rung(os, lv, queue, own[i], side);
      }
    }
    LevelChanges(os, os', lv, lv.first, queue, own, side, 0, q);
    LevelValues(os, os', lv, lv.first, queue, own, side, 0, q);
    assert queue[own[0] := q] == queue && lv.(first := lv.first) == lv;
    assert SideRing(os', lv, queue, opp, side.Opposite()) && Rungs(os', queue, opp) == Rungs(os, queue, opp) by {
      SidesApart(os, lv, queue, own, opp, side);
      forall i | 0 <= i < |opp|
        ensures SameOrders(os, os', queue[opp[i]])
      {
        assert Rung(os, lv, queue, opp[i], side.Opposite());
      }
      SideFrame(os, os', lv, lv, queue, queue, opp, side.Opposite());
    }
  }

  lemma ReduceLevel(os: Orders, info: LevelInfo, q: seq<Ptr>, r: Resting)
    requires LevelOk(os, info, q) && r == os.data[q[0]].(qty := r.qty) && r.qty > 0
    ensures LevelOk(os.(data := os.data[q[0] := r]), info, q)
    ensures Values(os.(data := os.data[q[0] := r]), q) == Values(os, q)[0 := r]
  {
    forall i | 0 < i < |q| ensures q[i] != q[0] { assert os.data[q[0]].priority < os.data[q[i]].priority; }
  }

  // ---- who hangs from the book after each change ----------------------------

  lemma AppendMembers(queue: Queues, own: seq<Ptr>, opp: seq<Ptr>, k: nat, o: Ptr)
    requires k < |own| && own[k] in queue
    ensures forall x ::
              Member(queue[own[k] := queue[own[k]] + [o]], own, opp, x)
              <==> x == o || Member(queue, own, opp, x)
  {
    var l, queue' := own[k], queue[own[k] := queue[own[k]] + [o]];
    assert l in own && o in queue'[l];
    forall x | Member(queue, own, opp, x) ensures Member(queue', own, opp, x) {
      var m :| (m in own || m in opp) && m in queue && x in queue[m];
      assert x in queue'[m];
    }
  }

  lemma OpenMembers(queue: Queues, own: seq<Ptr>, opp: seq<Ptr>, k: nat, l: Ptr, o: Ptr)
    requires k <= |own| && l !in own && l !in opp
    ensures forall x :: Member(queue[l := [o]], Put(own, k, l), opp, x) <==> x == o || Member(queue, own, opp, x)
  {
    PutMembers(own, k, l);
    var queue', own' := queue[l := [o]], Put(own, k, l);
    assert l in own' && o in queue'[l];
    forall x | Member(queue, own, opp, x) ensures Member(queue', own', opp, x) {
      var m :| (m in own || m in opp) && m in queue && x in queue[m];
      assert x in queue'[m];
    }
  }

  /** `q` is the one queue that holds its `j`-th order. */
  lemma RemoveMembers(queue: Queues, own: seq<Ptr>, opp: seq<Ptr>, k: nat, j: nat)
    requires k < |own| && own[k] in queue && j < |queue[own[k]]| && Distinct(queue[own[k]])
    requires forall m | (m in own || m in opp) && m in queue && m != own[k] :: queue[own[k]][j] !in queue[m]
    ensures forall x ::
              Member(queue[own[k] := Drop(queue[own[k]], j)], own, opp, x)
              <==> x != queue[own[k]][j] && Member(queue, own, opp, x)
  {
    var l, q := own[k], queue[own[k]];
    var queue' := queue[l := Drop(q, j)];
    DropMembers(q, j);
    assert l in own;
    forall x | x != q[j] && Member(queue, own, opp, x) ensures Member(queue', own, opp, x) {
      var m :| (m in own || m in opp) && m in queue && x in queue[m];
      assert x in queue'[m];
    }
    forall x | Member(queue', own, opp, x) ensures x != q[j] && Member(queue, own, opp, x) {
      var m :| (m in own || m in opp) && m in queue' && x in queue'[m];
      assert x in queue[m];
    }
  }

  lemma CloseMembers(queue: Queues, own: seq<Ptr>, opp: seq<Ptr>, k: nat)
    requires k < |own| && Distinct(own) && own[k] in queue && |queue[own[k]]| == 1 && own[k] !in opp
    requires forall m | (m in own || m in opp) && m in queue && m != own[k] :: queue[own[k]][0] !in queue[m]
    ensures forall x :: Member(queue, Drop(own, k), opp, x) <==> x != queue[own[k]][0] && Member(queue, own, opp, x)
  {
    var o, own' := queue[own[k]][0], Drop(own, k);
    DropMembers(own, k);
    forall x | x != o && Member(queue, own, opp, x) ensures Member(queue, own', opp, x) {
      var m :| (m in own || m in opp) && m in queue && x in queue[m];
      assert m != own[k];
      assert m in own' || m in opp;
    }
    forall x | Member(queue, own', opp, x) ensures x != o && Member(queue, own, opp, x) {
      var m :| (m in own' || m in opp) && m in queue && x in queue[m];
      assert m in own || m in opp;
    }
  }

  /** An order of one level hangs from no other. */
  lemma OneHome(os: Orders, lv: Levels, queue: Queues, own: seq<Ptr>, opp: seq<Ptr>, side: Side, k: nat, j: nat)
    requires Sides(os, lv, queue, own, opp, side) && k < |own| && own[k] in queue && j < |queue[own[k]]|
    ensures Distinct(own) && Distinct(queue[own[k]]) && own[k] !in opp
    ensures forall m | (m in own || m in opp) && m in queue && m != own[k] :: queue[own[k]][j] !in queue[m]
  {
    SidesApart(os, lv, queue, own, opp, side);
    SideIsSorted(os, lv, queue, own, side);
    assert own[k] in own && queue[own[k]][j] in queue[own[k]];
    assert Rung(os, lv, queue, own[k], side);
    ContentDrop(os.data, lv.info[own[k]], queue[own[k]], j);
    forall m | (m in own || m in opp) && m in queue && m != own[k] ensures queue[own[k]][j] !in queue[m] {
      if m in own {
        var i :| 0 <= i < |own| && own[i] == m;
      } else {
        var i :| 0 <= i < |opp| && opp[i] == m;
      }
    }
  }
}
