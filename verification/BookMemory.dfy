/**
 What the pools of the order book hold and when that is a well-linked side of
 the book, with one lemma for each change the book makes. `queue` names, for
 each price level, the ring of orders that hangs from it.
 */
module BookMemory {
  import opened Types
  import opened PriceTime
  import opened Rings
  import L = Ladder

  datatype LevelInfo = LevelInfo(side: Side, price: nat)

  /** The blocks of `order_pool_`: the data fields and the two link fields. */
  datatype Orders = Orders(data: map<Ptr, Resting>, links: Links)

  /** The blocks of `price_levels_pool_`. */
  datatype Levels = Levels(info: map<Ptr, LevelInfo>, first: map<Ptr, Ptr>, links: Links)

  /** Strict time order, all at the level's price and side, and with something left to trade. */
  ghost predicate Content(data: map<Ptr, Resting>, info: LevelInfo, q: seq<Ptr>) {
    && (forall i | 0 <= i < |q| ::
          q[i] in data && data[q[i]].price == info.price && data[q[i]].side == info.side && data[q[i]].qty > 0)
    && (forall i, j | 0 <= i < j < |q| :: data[q[i]].priority < data[q[j]].priority)
  }

  /** One level: a non-empty ring of orders. */
  ghost predicate LevelOk(os: Orders, info: LevelInfo, q: seq<Ptr>) {
    q != [] && Ring(os.links, q) && Content(os.data, info, q)
  }

  ghost predicate Rung(os: Orders, lv: Levels, queue: map<Ptr, seq<Ptr>>, l: Ptr, side: Side) {
    && l in lv.info && l in lv.first && l in queue && lv.info[l].side == side
    && LevelOk(os, lv.info[l], queue[l]) && lv.first[l] == queue[l][0]
  }

  ghost predicate Descending(info: map<Ptr, LevelInfo>, ls: seq<Ptr>, side: Side) {
    && (forall i | 0 <= i < |ls| :: ls[i] in info)
    && (forall i, j | 0 <= i < j < |ls| :: Better(side, info[ls[i]].price, info[ls[j]].price))
  }

  /** One side: a ring of levels, strictly sorted from the head, each with its ring of orders. */
  ghost predicate SideRing(os: Orders, lv: Levels, queue: map<Ptr, seq<Ptr>>, ls: seq<Ptr>, side: Side) {
    && side.Valid() && Ring(lv.links, ls) && Descending(lv.info, ls, side)
    && (forall i | 0 <= i < |ls| :: Rung(os, lv, queue, ls[i], side))
  }

  const Nothing := Resting(0, 0, 0, InvalidSide, 0, 0, 0)

  ghost function Values(os: Orders, q: seq<Ptr>): (v: seq<Resting>)
    ensures |v| == |q| && forall i | 0 <= i < |q| && q[i] in os.data :: v[i] == os.data[q[i]]
  {
    seq(|q|, i requires 0 <= i < |q| => if q[i] in os.data then os.data[q[i]] else Nothing)
  }

  ghost function Hanging(queue: map<Ptr, seq<Ptr>>, l: Ptr): seq<Ptr> {
    if l in queue then queue[l] else []
  }

  /** The values on a side, level by level. */
  ghost function Rungs(os: Orders, queue: map<Ptr, seq<Ptr>>, ls: seq<Ptr>): (lad: seq<seq<Resting>>)
    ensures |lad| == |ls| && forall i | 0 <= i < |ls| :: lad[i] == Values(os, Hanging(queue, ls[i]))
  {
    seq(|ls|, i requires 0 <= i < |ls| => Values(os, Hanging(queue, ls[i])))
  }

  lemma SideIsSorted(os: Orders, lv: Levels, queue: map<Ptr, seq<Ptr>>, ls: seq<Ptr>, side: Side)
    requires SideRing(os, lv, queue, ls, side)
    ensures Distinct(ls) && (forall i | 0 <= i < |ls| :: Rung(os, lv, queue, ls[i], side))
    ensures L.Sorted(Rungs(os, queue, ls), side)
    ensures forall i | 0 <= i < |ls| ::
        Rungs(os, queue, ls)[i] != [] && Rungs(os, queue, ls)[i][0].price == lv.info[ls[i]].price
  {
    forall i | 0 <= i < |ls|
      ensures ls[i] in queue && queue[ls[i]] != [] && forall j | 0 <= j < |queue[ls[i]]| ::
                queue[ls[i]][j] in os.data && os.data[queue[ls[i]][j]].price == lv.info[ls[i]].price
    {
      assert Rung(os, lv, queue, ls[i], side);
    }
  }

  /** No order hangs from two levels, and no level is on both sides. */
  lemma SidesApart(os: Orders, lv: Levels, queue: map<Ptr, seq<Ptr>>, own: seq<Ptr>, opp: seq<Ptr>, side: Side)
    requires SideRing(os, lv, queue, own, side) && SideRing(os, lv, queue, opp, side.Opposite())
    ensures forall i | 0 <= i < |own| :: own[i] in queue
    ensures forall i | 0 <= i < |opp| :: opp[i] in queue
    ensures forall l | l in own :: l !in opp
    ensures forall i, j, x | 0 <= i < |own| && 0 <= j < |opp| && x in queue[own[i]] :: x !in queue[opp[j]]
    ensures forall i, j, x | 0 <= i < |own| && 0 <= j < |own| && i != j && x in queue[own[i]] :: x !in queue[own[j]]
  {
    forall i | 0 <= i < |own| ensures own[i] in queue && forall x | x in queue[own[i]] ::
      x in os.data && os.data[x].side == side && os.data[x].price == lv.info[own[i]].price
    {
      assert Rung(os, lv, queue, own[i], side);
    }
    forall i | 0 <= i < |opp| ensures opp[i] in queue && lv.info[opp[i]].side != side &&
      forall x | x in queue[opp[i]] :: x in os.data && os.data[x].side != side
    {
      assert Rung(os, lv, queue, opp[i], side.Opposite());
    }
    forall i, j | 0 <= i < |own| && 0 <= j < |own| && i != j ensures lv.info[own[i]].price != lv.info[own[j]].price {
      if i < j { assert Better(side, lv.info[own[i]].price, lv.info[own[j]].price); }
      else { assert Better(side, lv.info[own[j]].price, lv.info[own[i]].price); }
    }
    forall l | l in own ensures l !in opp {
      var i :| 0 <= i < |own| && own[i] == l;
      assert Rung(os, lv, queue, own[i], side);
    }
  }

  ghost predicate SameOrders(os: Orders, os': Orders, q: seq<Ptr>) {
    && (forall x | x in q && x in os.data :: x in os'.data && os'.data[x] == os.data[x])
    && (Ring(os.links, q) ==> Ring(os'.links, q))
  }

  lemma LevelFrame(os: Orders, os': Orders, info: LevelInfo, q: seq<Ptr>)
    requires LevelOk(os, info, q) && SameOrders(os, os', q)
    ensures LevelOk(os', info, q) && Values(os', q) == Values(os, q)
  {
    forall i | 0 <= i < |q| ensures q[i] in os'.data && os'.data[q[i]] == os.data[q[i]] {
      assert q[i] in q;
    }
  }

  /** A change that leaves a side's levels, links and orders alone leaves the side alone. */
  lemma SideFrame(os: Orders, os': Orders, lv: Levels, lv': Levels,
                  queue: map<Ptr, seq<Ptr>>, queue': map<Ptr, seq<Ptr>>, ls: seq<Ptr>, side: Side)
    requires SideRing(os, lv, queue, ls, side)
    requires forall i | 0 <= i < |ls| ::
               && ls[i] in lv'.info && ls[i] in lv'.first && ls[i] in queue'
               && lv'.info[ls[i]] == lv.info[ls[i]] && lv'.first[ls[i]] == lv.first[ls[i]]
               && queue'[ls[i]] == queue[ls[i]] && SameOrders(os, os', queue[ls[i]])
    requires Ring(lv'.links, ls)
    ensures SideRing(os', lv', queue', ls, side)
    ensures Rungs(os', queue', ls) == Rungs(os, queue, ls)
  {
    forall i | 0 <= i < |ls|
      ensures Rung(os', lv', queue', ls[i], side) && Values(os', queue'[ls[i]]) == Values(os, queue[ls[i]])
    {
      assert Rung(os, lv, queue, ls[i], side);
      LevelFrame(os, os', lv.info[ls[i]], queue[ls[i]]);
    }
  }

  /** Only level `k` of the side changes, to the orders `q`. */
  ghost predicate OnlyLevel(os: Orders, os': Orders, lv: Levels, first': map<Ptr, Ptr>,
                            queue: map<Ptr, seq<Ptr>>, ls: seq<Ptr>, k: nat, q: seq<Ptr>) {
    && k < |ls| && ls[k] in lv.info && LevelOk(os', lv.info[ls[k]], q) && ls[k] in first' && first'[ls[k]] == q[0]
    && (forall i | 0 <= i < |ls| && i != k ::
          && ls[i] in lv.first && ls[i] in first' && first'[ls[i]] == lv.first[ls[i]]
          && ls[i] in queue && SameOrders(os, os', queue[ls[i]]))
  }

  lemma LevelChanges(os: Orders, os': Orders, lv: Levels, first': map<Ptr, Ptr>,
                     queue: map<Ptr, seq<Ptr>>, ls: seq<Ptr>, side: Side, k: nat, q: seq<Ptr>)
    requires SideRing(os, lv, queue, ls, side) && OnlyLevel(os, os', lv, first', queue, ls, k, q)
    ensures SideRing(os', lv.(first := first'), queue[ls[k] := q], ls, side)
  {
    var lv', queue' := lv.(first := first'), queue[ls[k] := q];
    assert Rung(os, lv, queue, ls[k], side);
    forall i | 0 <= i < |ls| ensures Rung(os', lv', queue', ls[i], side) {
      assert Rung(os, lv, queue, ls[i], side);
      if i != k {
        assert ls[i] != ls[k] by { SideIsSorted(os, lv, queue, ls, side); }
        LevelFrame(os, os', lv.info[ls[i]], queue[ls[i]]);
      }
    }
  }

  lemma LevelValues(os: Orders, os': Orders, lv: Levels, first': map<Ptr, Ptr>,
                    queue: map<Ptr, seq<Ptr>>, ls: seq<Ptr>, side: Side, k: nat, q: seq<Ptr>)
    requires SideRing(os, lv, queue, ls, side) && OnlyLevel(os, os', lv, first', queue, ls, k, q)
    ensures Rungs(os', queue[ls[k] := q], ls) == Rungs(os, queue, ls)[k := Values(os', q)]
  {
    var queue' := queue[ls[k] := q];
    var a, b := Rungs(os', queue', ls), Rungs(os, queue, ls)[k := Values(os', q)];
    forall i | 0 <= i < |ls| ensures a[i] == b[i] {
      if i != k {
        assert Rung(os, lv, queue, ls[i], side);
        assert ls[i] != ls[k] by { SideIsSorted(os, lv, queue, ls, side); }
        LevelFrame(os, os', lv.info[ls[i]], queue[ls[i]]);
      }
    }
  }

  // ---- the price table and the client table -------------------------------

  function PriceToIndex(price: nat): (i: nat)
    ensures i < ME_MAX_PRICE_LEVELS
  {
    price % ME_MAX_PRICE_LEVELS
  }

  /** The price table lists exactly the levels of both rings. */
  ghost predicate Table(t: seq<Option<Ptr>>, info: map<Ptr, LevelInfo>, own: seq<Ptr>, opp: seq<Ptr>) {
    && |t| == ME_MAX_PRICE_LEVELS
    && (forall l | l in own || l in opp :: l in info && t[PriceToIndex(info[l].price)] == Some(l))
    && (forall p | 0 <= p < |t| && t[p].Some? ::
          (t[p].value in own || t[p].value in opp) && t[p].value in info && PriceToIndex(info[t[p].value].price) == p)
  }

  lemma TableSwap(t: seq<Option<Ptr>>, info: map<Ptr, LevelInfo>, own: seq<Ptr>, opp: seq<Ptr>)
    requires Table(t, info, own, opp)
    ensures Table(t, info, opp, own)
  {}

  function Key(r: Resting): (nat, nat) { (r.client, r.oid) }

  /** `x` hangs from a level of either side. */
  ghost predicate Member(queue: map<Ptr, seq<Ptr>>, own: seq<Ptr>, opp: seq<Ptr>, x: Ptr) {
    exists l :: (l in own || l in opp) && l in queue && x in queue[l]
  }

  /** The client table lists exactly the orders of both rings. */
  ghost predicate Clients(c: map<(nat, nat), Ptr>, data: map<Ptr, Resting>, queue: map<Ptr, seq<Ptr>>, own: seq<Ptr>,
      opp: seq<Ptr>)
  {
    && (forall x | Member(queue, own, opp, x) :: x in data && Key(data[x]) in c && c[Key(data[x])] == x)
    && (forall k | k in c :: Member(queue, own, opp, c[k]) && c[k] in data && Key(data[c[k]]) == k)
  }

  lemma ClientsSwap(c: map<(nat, nat), Ptr>, data: map<Ptr, Resting>, queue: map<Ptr, seq<Ptr>>, own: seq<Ptr>,
      opp: seq<Ptr>)
    requires Clients(c, data, queue, own, opp)
    ensures Clients(c, data, queue, opp, own)
  {
    assert forall x :: Member(queue, own, opp, x) <==> Member(queue, opp, own, x);
  }

  lemma ClientsAdd(c: map<(nat, nat), Ptr>, data: map<Ptr, Resting>, queue: map<Ptr, seq<Ptr>>, own: seq<Ptr>,
      opp: seq<Ptr>,
                   queue': map<Ptr, seq<Ptr>>, own': seq<Ptr>, o: Ptr, r: Resting)
    requires Clients(c, data, queue, own, opp) && o !in data && Key(r) !in c
    requires forall x :: Member(queue', own', opp, x) <==> x == o || Member(queue, own, opp, x)
    ensures Clients(c[Key(r) := o], data[o := r], queue', own', opp)
  {}

  lemma ClientsRemove(c: map<(nat, nat), Ptr>, data: map<Ptr, Resting>, queue: map<Ptr, seq<Ptr>>, own: seq<Ptr>,
      opp: seq<Ptr>,
                      queue': map<Ptr, seq<Ptr>>, own': seq<Ptr>, o: Ptr)
    requires Clients(c, data, queue, own, opp) && Member(queue, own, opp, o)
    requires forall x :: Member(queue', own', opp, x) <==> x != o && Member(queue, own, opp, x)
    ensures Clients(c - {Key(data[o])}, data - {o}, queue', own', opp)
  {}

  lemma ClientsReduce(c: map<(nat, nat), Ptr>, data: map<Ptr, Resting>, queue: map<Ptr, seq<Ptr>>, own: seq<Ptr>,
      opp: seq<Ptr>, o: Ptr, r: Resting)
    requires Clients(c, data, queue, own, opp) && o in data && Key(r) == Key(data[o])
    ensures Clients(c, data[o := r], queue, own, opp)
  {}

  lemma PutMembers(s: seq<Ptr>, k: nat, x: Ptr)
    requires k <= |s|
    ensures forall y :: y in Put(s, k, x) <==> y == x || y in s
  {
    forall y | y in s ensures y in Put(s, k, x) {
      var i :| 0 <= i < |s| && s[i] == y;
      assert Put(s, k, x)[if i < k then i else i + 1] == y;
    }
    assert Put(s, k, x)[k] == x;
  }

  lemma DropMembers(s: seq<Ptr>, k: nat)
    requires k < |s| && Distinct(s)
    ensures forall y :: y in Drop(s, k) <==> y != s[k] && y in s
  {
    forall y | y in s && y != s[k] ensures y in Drop(s, k) {
      var i :| 0 <= i < |s| && s[i] == y;
      assert Drop(s, k)[if i < k then i else i - 1] == y;
    }
    forall y | y in Drop(s, k) ensures y != s[k] && y in s {
      var i :| 0 <= i < |s| - 1 && Drop(s, k)[i] == y;
      assert s[if i < k then i else i + 1] == y;
    }
  }

  lemma TablePut(t: seq<Option<Ptr>>, info: map<Ptr, LevelInfo>, own: seq<Ptr>, opp: seq<Ptr>, l: Ptr, li: LevelInfo,
      k: nat)
    requires Table(t, info, own, opp) && k <= |own| && l !in info && t[PriceToIndex(li.price)].None?
    ensures Table(t[PriceToIndex(li.price) := Some(l)], info[l := li], Put(own, k, l), opp)
    ensures forall x | x in own :: x in info && info[x].price != li.price
  {
    PutMembers(own, k, l);
  }

  lemma TableDrop(t: seq<Option<Ptr>>, info: map<Ptr, LevelInfo>, own: seq<Ptr>, opp: seq<Ptr>, k: nat)
    requires Table(t, info, own, opp) && k < |own| && Distinct(own) && own[k] !in opp
    ensures Table(t[PriceToIndex(info[own[k]].price) := None], info - {own[k]}, Drop(own, k), opp)
  {
    DropMembers(own, k);
    var i0 := PriceToIndex(info[own[k]].price);
    assert t[i0] == Some(own[k]);
  }
}
