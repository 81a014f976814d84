/**
 The matching order book (exchange/matcher/me_order_book.h and .cpp): two rings
 of price levels, a ring of orders in each, a direct-address price table and a
 client table, all updated in place. `view` is the price-time book it stands for,
 and every request is proved to act on that view exactly as `PriceTime` says.
 */
module OrderBook {
  import opened Types
  import opened PriceTime
  import opened Rings
  import opened BookMemory
  import opened BookChanges
  import opened BookState
  import opened BookSteps
  import opened Collisions

  /** An address that no block in use has, as the pool allocator hands out. */
  method NewBlock(used: set<Ptr>) returns (p: Ptr)
    ensures p !in used
  {
    p := 0;
    var rest := used;
    while rest != {}
      invariant forall x | x in used :: x in rest || x < p
    {
      var x :| x in rest;
      rest := rest - {x};
      p := if x < p then p else x + 1;
    }
  }

  // ---- walking and linking the ring of levels --------------------------------

  /**
   Walks the ring to the first level that is not better (me_order_book.cpp:39-57). Repairs: the walk
   moves on while the level it stands on is better (:42 and :55 compare the other way round), and it
   may pass the last level (they stop there).
   */
  method FindPlace(info: map<Ptr, LevelInfo>, links: Links, head: Ptr, side: Side, price: nat, ghost ls: seq<Ptr>)
    returns (current: Ptr, ghost k: nat)
    requires side.Valid() && Ring(links, ls) && Descending(info, ls, side) && ls != [] && head == ls[0]
    requires forall i | 0 <= i < |ls| :: info[ls[i]].price != price
    ensures Place(info, ls, side, price, k) && current == ls[Landing(k, |ls|)]
    ensures current in ls && (Better(side, price, info[current].price)
        || (current == head && forall i | 0 <= i < |ls| :: Better(side, info[ls[i]].price, price)))
  {
    current := head;
    k := 0;
    while Better(side, info[current].price, price)
      invariant k < |ls| && current == ls[k]
      invariant forall j | 0 <= j < k :: Better(side, info[ls[j]].price, price)
      decreases |ls| - k
    {
      assert links.next[ls[k]] == ls[Succ(k, |ls|)];
      current := links.next[current];
      k := k + 1;
      if current == head {
        assert k < |ls| ==> Better(side, info[ls[0]].price, info[ls[k]].price);
        break;
      }
    }
    PlaceFound(info, ls, side, price, k);
  }

  lemma PlaceFound(info: map<Ptr, LevelInfo>, ls: seq<Ptr>, side: Side, price: nat, k: nat)
    requires side.Valid() && Descending(info, ls, side) && k <= |ls|
    requires forall j | 0 <= j < k :: Better(side, info[ls[j]].price, price)
    requires k < |ls| ==> Better(side, price, info[ls[k]].price)
    ensures Place(info, ls, side, price, k)
  {}

  lemma HeadAfter(info: map<Ptr, LevelInfo>, ls: seq<Ptr>, side: Side, price: nat, k: nat, l: Ptr)
    requires side.Valid() && ls != [] && (forall i | 0 <= i < |ls| :: ls[i] in info) && Place(info, ls, side, price, k)
    ensures HeadOf(Put(ls, k, l)) == if Better(side, price, info[ls[0]].price) then Some(l) else Some(ls[0])
  {
    assert k > 0 ==> Better(side, info[ls[0]].price, price);
    assert k == 0 ==> Better(side, price, info[ls[0]].price);
  }

  /** Links level `l` in front of where its price belongs (me_order_book.cpp:39-66). */
  method LinkIntoRing(info: map<Ptr, LevelInfo>, links: Links, head: Ptr, side: Side, price: nat, l: Ptr,
      ghost ls: seq<Ptr>)
    returns (m: Links, newHead: Ptr, ghost k: nat)
    requires side.Valid() && Ring(links, ls) && Descending(info, ls, side) && ls != [] && head == ls[0]
    requires forall i | 0 <= i < |ls| :: info[ls[i]].price != price
    ensures Place(info, ls, side, price, k) && HeadOf(Put(ls, k, l)) == Some(newHead)
    ensures m == LinkBefore(links, l, ls[Landing(k, |ls|)])
  {
    var c;
    c, k := FindPlace(info, links, head, side, price, ls);
    RingKeys(links, ls);
    var p := links.prev[c];
    m := Links(links.next[l := c][p := l], links.prev[l := p][c := l]);
    assert m == LinkBefore(links, l, c);
    HeadAfter(info, ls, side, price, k, l);
    newHead := if Better(side, price, info[head].price) then l else head;
  }

  lemma RingKeys(links: Links, ls: seq<Ptr>)
    requires Ring(links, ls)
    ensures forall x | x in ls :: x in links.prev
  {}

  /** Repair: a first level becomes the head of its side (me_order_book.cpp:33 assigns a local copy of the head). */
  method LinkLevel(info: map<Ptr, LevelInfo>, links: Links, head: Option<Ptr>, side: Side, price: nat, l: Ptr,
      ghost ls: seq<Ptr>)
    returns (m: Links, newHead: Option<Ptr>, ghost k: nat)
    requires side.Valid() && Ring(links, ls) && Descending(info, ls, side) && head == HeadOf(ls)
    requires forall i | 0 <= i < |ls| :: info[ls[i]].price != price
    ensures Place(info, ls, side, price, k)
    ensures forall x | x in ls :: x in links.prev
    ensures m == LevelLinked(links, l, ls, k) && newHead == HeadOf(Put(ls, k, l))
  {
    RingKeys(links, ls);
    if head.None? {
      k := 0;
      m := Links(links.next[l := l], links.prev[l := l]);
      newHead := Some(l);
    } else {
      var h;
      m, h, k := LinkIntoRing(info, links, head.value, side, price, l, ls);
      newHead := Some(h);
    }
  }

  class MEOrderBook {
    const ticker: nat
    var orders: Orders
    var levels: Levels
    var bidHead: Option<Ptr>
    var askHead: Option<Ptr>
    var priceLevels: seq<Option<Ptr>>
    var clientOrders: map<(nat, nat), Ptr>
    var nextMarketId: nat
    /** What has been handed to the engine's outgoing queues. */
    var responses: seq<Response>
    var updates: seq<Update>
    /** The rings the fields spell out, and the price-time book they stand for. */
    ghost var shape: Shape
    ghost var view: Book

    ghost function Snap(): State
      reads this
    {
      State(orders, levels, bidHead, askHead, priceLevels, clientOrders)
    }

    /** Seen from either side, the fields refine the view. */
    ghost predicate Sound(side: Side)
      reads this
    {
      && side.Valid() && Refines(Snap(), shape, side, view.Of(side), view.Of(side.Opposite()))
      && view.nextId == nextMarketId
    }

    ghost predicate Valid()
      reads this
    {
      Sound(Buy) && PriceTime.Ok(view)
    }

    constructor (ticker: nat)
      ensures Valid() && view == EmptyBook && responses == [] && updates == [] && this.ticker == ticker
    {
      this.ticker := ticker;
      orders := Orders(map[], Links(map[], map[]));
      levels := Levels(map[], map[], Links(map[], map[]));
      bidHead, askHead := None, None;
      priceLevels := seq(ME_MAX_PRICE_LEVELS, _ => None);
      clientOrders, nextMarketId := map[], 1;
      responses, updates := [], [];
      shape, view := Shape([], [], map[]), EmptyBook;
      new;
      RefinesIntro(Snap(), shape, Buy, [], []);
    }

    lemma SoundOpposite(side: Side)
      requires Sound(side)
      ensures Sound(side.Opposite())
    {
      RefineOpposite(Snap(), shape, side, view.Of(side), view.Of(side.Opposite()));
    }

    function Head(side: Side): Option<Ptr>
      reads `bidHead, `askHead
    {
      if side.Buy? then bidHead else askHead
    }

    method SetHead(side: Side, h: Option<Ptr>)
      modifies `bidHead, `askHead
      ensures Snap() == old(Snap()).WithHead(side, h)
    {
      if side.Buy? { bidHead := h; } else { askHead := h; }
    }

    // ---- adding ------------------------------------------------------------

    /** me_order_book.cpp:25-68: a level for `o` is linked in at its price. */
    method AddOrdersAtPrice(side: Side, price: nat, o: Ptr) returns (l: Ptr, ghost k: nat)
      requires side.Valid() && |priceLevels| == ME_MAX_PRICE_LEVELS
      requires Ring(levels.links, shape.Of(side)) && Descending(levels.info, shape.Of(side), side)
      requires Head(side) == HeadOf(shape.Of(side))
      requires forall i | 0 <= i < |shape.Of(side)| :: levels.info[shape.Of(side)[i]].price != price
      modifies `levels, `priceLevels, `bidHead, `askHead
      ensures l !in old(levels.info) && Place(old(levels.info), shape.Of(side), side, price, k)
      ensures forall x | x in shape.Of(side) :: x in old(levels.links.prev)
      ensures Snap() == old(Snap()).(lv := LevelOpened(old(levels), l, LevelInfo(side, price), o, shape.Of(side), k),
                                     table := old(priceLevels)[PriceToIndex(price) := Some(l)])
                                   .WithHead(side, HeadOf(Put(shape.Of(side), k, l)))
    {
      l := NewBlock(levels.info.Keys);
      var m, head;
      m, head, k := LinkLevel(levels.info, levels.links, Head(side), side, price, l, shape.Of(side));
      priceLevels := priceLevels[PriceToIndex(price) := Some(l)];
      ghost var lv := LevelOpened(levels, l, LevelInfo(side, price), o, shape.Of(side), k);
      levels := Levels(levels.info[l := LevelInfo(side, price)], levels.first[l := o], m);
      assert levels == lv;
      SetHead(side, head);
    }

    /** me_order_book.cpp:84-87: `o` points to itself and hangs from a new level. */
    method OpenLevel(o: Ptr, r: Resting) returns (l: Ptr, ghost k: nat)
      requires r.side.Valid() && |priceLevels| == ME_MAX_PRICE_LEVELS
      requires Ring(levels.links, shape.Of(r.side)) && Descending(levels.info, shape.Of(r.side), r.side)
      requires Head(r.side) == HeadOf(shape.Of(r.side))
      requires forall i | 0 <= i < |shape.Of(r.side)| :: levels.info[shape.Of(r.side)[i]].price != r.price
      modifies `orders, `levels, `priceLevels, `bidHead, `askHead, `clientOrders, `shape
      ensures l !in old(levels.info) && Place(old(levels.info), old(shape).Of(r.side), r.side, r.price, k)
      ensures forall x | x in old(shape).Of(r.side) :: x in old(levels.links.prev)
      ensures Snap() == OpenState(old(Snap()), r.side, old(shape).Of(r.side), k, l, o, r)
      ensures shape == old(shape).(queue := old(shape).queue[l := [o]]).With(r.side, Put(old(shape).Of(r.side), k, l))
    {
      l, k := AddOrdersAtPrice(r.side, r.price, o);
      orders := Orders(orders.data[o := r], Links(orders.links.next[o := o], orders.links.prev[o := o]));
      clientOrders := clientOrders[(r.client, r.oid) := o];
      shape := shape.(queue := shape.queue[l := [o]]).With(r.side, Put(shape.Of(r.side), k, l));
    }

    /** me_order_book.cpp:90-95: four writes link `o` in behind the last order of level `l`. */
    method AppendOrder(o: Ptr, r: Resting, l: Ptr)
      requires l in levels.first && l in shape.queue && levels.first[l] in orders.links.prev
      requires orders.links.prev[levels.first[l]] != o && levels.first[l] != o
      modifies `orders, `levels, `priceLevels, `bidHead, `askHead, `clientOrders, `shape
      ensures Snap() == AppendState(old(Snap()), o, r, old(levels.first[l]))
      ensures shape == old(shape).(queue := old(shape).queue[l := old(shape).queue[l] + [o]])
    {
      var first := levels.first[l];
      var m := orders.links;
      m := m.(next := m.next[m.prev[first] := o]);
      m := m.(prev := m.prev[o := m.prev[first]]);
      m := m.(next := m.next[o := first]);
      m := m.(prev := m.prev[first := o]);
      assert m == LinkBefore(orders.links, o, first);
      orders := Orders(orders.data[o := r], m);
      clientOrders := clientOrders[(r.client, r.oid) := o];
      shape := shape.(queue := shape.queue[l := shape.queue[l] + [o]]);
    }

    method OpenLevelFor(o: Ptr, r: Resting)
      requires Sound(r.side) && |priceLevels| == ME_MAX_PRICE_LEVELS && priceLevels[PriceToIndex(r.price)].None?
      requires o !in orders.data && r.qty > 0 && (r.client, r.oid) !in clientOrders
      modifies `orders, `levels, `priceLevels, `bidHead, `askHead, `clientOrders, `shape, `view
      ensures Sound(r.side) && view == old(view).With(r.side, Insert(old(view).Of(r.side), r))
    {
      ghost var s, sh, own, opp := Snap(), shape, view.Of(r.side), view.Of(r.side.Opposite());
      RefineLink(s, sh, r.side, own, opp, r.price);
      var l; ghost var k;
      l, k := OpenLevel(o, r);
      RefineOpen(s, sh, r.side, own, opp, k, l, o, r);
      view := view.With(r.side, Insert(own, r));
    }

    /** me_order_book.cpp:80-100. */
    method AddOrder(o: Ptr, r: Resting)
      requires Sound(r.side) && OwnLevel(Snap(), r.side, r.price)
      requires o !in orders.data && r.qty > 0 && (r.client, r.oid) !in clientOrders
      requires r.priority == NextPriority(view.Of(r.side), r.price)
      modifies `orders, `levels, `priceLevels, `bidHead, `askHead, `clientOrders, `shape, `view
      ensures Sound(r.side) && view == old(view).With(r.side, Insert(old(view).Of(r.side), r))
    {
      var level := priceLevels[PriceToIndex(r.price)];
      if level.None? {
        OpenLevelFor(o, r);
      } else {
        RefineAppend(Snap(), shape, view.Of(r.side), view.Of(r.side.Opposite()), o, r);
        AppendOrder(o, r, level.value);
        view := view.With(r.side, Insert(view.Of(r.side), r));
      }
    }

    /** me_order_book.cpp:70-78. */
    method GetNextPriority(price: nat, ghost side: Side) returns (p: nat)
      requires Sound(side) && OwnLevel(Snap(), side, price)
      ensures p == NextPriority(view.Of(side), price)
    {
      RefinePriority(Snap(), shape, side, view.Of(side), view.Of(side.Opposite()), price);
      var level := priceLevels[PriceToIndex(price)];
      if level.None? {
        p := 1;
      } else {
        p := orders.data[orders.links.prev[levels.first[level.value]]].priority + 1;
      }
    }

    // ---- removing ----------------------------------------------------------

    /** me_order_book.cpp:124-144. Repair: the new head is written back to the book (:131-138 assign a local copy). */
    method RemovePriceLevel(side: Side, price: nat)
      requires |priceLevels| == ME_MAX_PRICE_LEVELS && priceLevels[PriceToIndex(price)].Some?
      requires var l := priceLevels[PriceToIndex(price)].value; l in levels.links.next && l in levels.links.prev
      modifies `levels, `priceLevels, `bidHead, `askHead
      ensures var l := old(priceLevels)[PriceToIndex(price)].value;
        Snap() == old(Snap()).(lv := LevelUnlinked(old(levels), l), table :=
            old(priceLevels)[PriceToIndex(price) := None])
                             .WithHead(side, if old(levels).links.next[l] == l then None
                                             else if old(Head(side)) == Some(l) then Some(old(levels).links.next[l])
                                             else old(Head(side)))
    {
      var l := priceLevels[PriceToIndex(price)].value;
      var head, m := Head(side), levels.links;
      if m.next[l] == l {
        head := None;
      } else {
        if head == Some(l) { head := Some(m.next[l]); }
        m := Links(m.next[m.prev[l] := m.next[l]], m.prev[m.next[l] := m.prev[l]]);
      }
      priceLevels := priceLevels[PriceToIndex(price) := None];
      levels := Levels(levels.info - {l}, levels.first, m);
      SetHead(side, head);
    }

    /** me_order_book.cpp:149-151 and :164-165: the only order of its level leaves. */
    method CloseLevel(o: Ptr)
      requires o in orders.data && |priceLevels| == ME_MAX_PRICE_LEVELS
      requires var p := PriceToIndex(orders.data[o].price);
        && priceLevels[p].Some? && priceLevels[p].value in levels.links.next
            && priceLevels[p].value in levels.links.prev
        && priceLevels[p].value in levels.info && PriceToIndex(levels.info[priceLevels[p].value].price) == p
      modifies `orders, `levels, `priceLevels, `bidHead, `askHead, `clientOrders
      ensures var r := old(orders.data[o]);
        var l := old(priceLevels)[PriceToIndex(r.price)].value;
        Snap() == CloseState(old(Snap()), r.side, l, o,
                             if old(levels).links.next[l] == l then None
                             else if old(Head(r.side)) == Some(l) then Some(old(levels).links.next[l])
                             else old(Head(r.side)))
    {
      var r := orders.data[o];
      RemovePriceLevel(r.side, r.price);
      clientOrders := clientOrders - {(r.client, r.oid)};
      orders := orders.(data := orders.data - {o});
    }

    /** me_order_book.cpp:152-165: an order leaves a level that keeps others. */
    method UnlinkOrder(o: Ptr)
      requires o in orders.data && o in orders.links.next && o in orders.links.prev
          && |priceLevels| == ME_MAX_PRICE_LEVELS
      requires var p := PriceToIndex(orders.data[o].price); priceLevels[p].Some? && priceLevels[p].value in levels.first
      modifies `orders, `levels, `clientOrders
      ensures var l := priceLevels[PriceToIndex(old(orders).data[o].price)].value;
        var first := old(levels).first[l];
        Snap() == UnlinkState(old(Snap()), l, o, if first == o then old(orders).links.next[o] else first)
    {
      var r := orders.data[o];
      var l := priceLevels[PriceToIndex(r.price)].value;
      var m := orders.links;
      var prev, next := m.prev[o], m.next[o];
      m := m.(next := m.next[prev := next]);
      m := m.(prev := m.prev[next := prev]);
      if levels.first[l] == o {
        levels := levels.(first := levels.first[l := next]);
      } else {
        assert levels.first == levels.first[l := levels.first[l]];
      }
      clientOrders := clientOrders - {(r.client, r.oid)};
      orders := Orders(orders.data - {o}, m);
    }

    /** me_order_book.cpp:146-166, on the fields alone. */
    method Unhook(o: Ptr)
      requires Removable(Snap(), o)
      modifies `orders, `levels, `priceLevels, `bidHead, `askHead, `clientOrders
      ensures Snap() == Unhooked(old(Snap()), o)
    {
      if orders.links.prev[o] == o {
        CloseLevel(o);
      } else {
        UnlinkOrder(o);
      }
    }

    method RemoveOrder(o: Ptr, ghost side: Side, ghost k: nat, ghost j: nat, ghost p: nat)
      requires Sound(side) && Located(Snap(), shape, side, view.Of(side), k, j, p, o)
      modifies `orders, `levels, `priceLevels, `bidHead, `askHead, `clientOrders, `shape, `view
      ensures Sound(side) && view == old(view).With(side, Drop(old(view).Of(side), p))
      ensures Shrunk(old(Snap()), Snap())
    {
      RefineLeave(Snap(), shape, side, view.Of(side), view.Of(side.Opposite()), k, j, p, o);
      Unhook(o);
      shape, view := ShapeWithout(shape, side, k, j), view.With(side, Drop(view.Of(side), p));
    }

    // ---- matching ----------------------------------------------------------

    /**
     The quantity part of `match` (me_order_book.cpp:196-201 and :218-224): the first order of the best
     level trades, and leaves the book if nothing of it is left.
     */
    method FillBest(side: Side, o: Ptr, fill: nat)
      requires Sound(side) && Head(side).Some? && view.Of(side) != [] && fill <= view.Of(side)[0].qty
      requires Head(side).value in levels.first && levels.first[Head(side).value] == o
      modifies `orders, `levels, `priceLevels, `bidHead, `askHead, `clientOrders, `shape, `view
      ensures Sound(side) && Shrunk(old(Snap()), Snap())
      ensures view == old(view).With(side, AfterFill(old(view).Of(side), fill))
    {
      ghost var own, opp := view.Of(side), view.Of(side.Opposite());
      RefineBest(Snap(), shape, side, own, opp);
      var r := orders.data[o];
      if fill == r.qty {
        assert Drop(own, 0) == own[1..];
        RemoveOrder(o, side, 0, 0, 0);
      } else {
        RefineReduce(Snap(), shape, side, own, opp, r.qty - fill);
        orders := orders.(data := orders.data[o := r.(qty := r.qty - fill)]);
        view := view.With(side, AfterFill(own, fill));
        ShrunkSame(old(Snap()), Snap());
      }
    }

    /** me_order_book.cpp:195-229. */
    method Match(t: Taker, left: nat) returns (left': nat)
      requires t.side.Valid() && Sound(t.side.Opposite()) && CanTrade(view.Of(t.side.Opposite()), t, left)
      modifies this
      ensures Sound(t.side.Opposite()) && Shrunk(old(Snap()), Snap())
      ensures var opp := old(view).Of(t.side.Opposite());
        var maker, fill := opp[0], Min(left, opp[0].qty);
        && left' == left - fill
        && view == old(view).With(t.side.Opposite(), AfterFill(opp, fill))
        && responses == old(responses)
            + [Response(Filled, t.client, ticker, t.oid, t.mid, t.side, maker.price, fill, left'),
               Response(Filled, maker.client, ticker, maker.oid, maker.mid, maker.side, maker.price, fill,
                        maker.qty - fill)]
        && updates == old(updates)
            + [Update(Trade, ORDER_ID_INVALID, ticker, t.side, maker.price, fill, PRIORITY_INVALID),
               if fill == maker.qty
               then Update(CancelOrder, maker.mid, ticker, maker.side, maker.price, maker.qty, PRIORITY_INVALID)
               else Update(ModifyOrder, maker.mid, ticker, maker.side, maker.price, maker.qty - fill, maker.priority)]
    {
      var side := t.side.Opposite();
      RefineBest(Snap(), shape, side, view.Of(side), view.Of(side.Opposite()));
      var o := levels.first[Head(side).value];
      var maker := orders.data[o];
      var fill := Min(left, maker.qty);
      left' := left - fill;
      responses := responses + [TakerFill(ticker, t, maker.price, fill, left'),
          MakerFill(ticker, maker.(qty := maker.qty - fill), fill)];
      updates := updates + [TradeMsg(ticker, t, maker.price, fill), MakerUpdate(ticker, maker, maker.qty - fill)];
      FillBest(side, o, fill);
    }

    /** One pass of the matching loop (me_order_book.cpp:236-241 and :247-252). */
    method MatchBest(t: Taker, left: nat, ghost done: Sweeping)
        returns (left': nat, crossed: bool, ghost rs: seq<Response>, ghost us: seq<Update>)
      requires t.side.Valid() && Sound(t.side.Opposite()) && Head(t.side.Opposite()).Some? && left > 0
      requires Swept(ticker, t, view.Of(t.side.Opposite()), left, done)
      modifies this
      ensures Sound(t.side.Opposite()) && Shrunk(old(Snap()), Snap())
      ensures view == old(view).With(t.side.Opposite(), view.Of(t.side.Opposite()))
      ensures Swept(ticker, t, view.Of(t.side.Opposite()), left', done.(rs := done.rs + rs, us := done.us + us))
      ensures responses == old(responses) + rs && updates == old(updates) + us
      ensures if crossed then |view.Of(t.side.Opposite())| + left' < |old(view).Of(t.side.Opposite())| + left
              else !CanTrade(view.Of(t.side.Opposite()), t, left')
    {
      var side := t.side.Opposite();
      ghost var rest := view.Of(side);
      RefineBest(Snap(), shape, side, rest, view.Of(t.side));
      var best := orders.data[levels.first[Head(side).value]];
      crossed := Crosses(t.side, t.price, best.price);
      if crossed {
        left' := Match(t, left);
        ghost var fill := Min(left, rest[0].qty);
        rs, us := PassTold(ticker, t, rest[0], left, fill), PassReported(ticker, t, rest[0], fill);
        PassSays(ticker, t, rest[0], left, fill);
        SweptOnce(ticker, t, rest, left, fill, done, rs, us);
      } else {
        left', rs, us := left, [], [];
        ShrunkSame(Snap(), Snap());
        assert done.(rs := done.rs + rs, us := done.us + us) == done;
      }
    }

    /**
     me_order_book.cpp:231-257; its two loops differ only in the side they read. Each step zeroes the
     leftover or removes one resting order.
     */
    method CheckForMatch(t: Taker, qty: nat) returns (left: nat)
      requires t.side.Valid() && Sound(t.side.Opposite())
      modifies this
      ensures Sound(t.side.Opposite()) && Shrunk(old(Snap()), Snap())
      ensures var sweep := SweepSide(ticker, old(view).Of(t.side.Opposite()), t, qty);
        && left == sweep.left && view == old(view).With(t.side.Opposite(), sweep.rest)
        && responses == old(responses) + sweep.responses && updates == old(updates) + sweep.updates
    {
      var side := t.side.Opposite();
      left := qty;
      ShrunkSame(Snap(), Snap());
      ghost var done := Sweeping(view.Of(side), qty, [], []);
      SweptStart(ticker, t, view.Of(side), qty);
      while left > 0 && Head(side).Some?
        invariant Sound(side) && Shrunk(old(Snap()), Snap()) && view == old(view).With(side, view.Of(side))
        invariant responses == old(responses) + done.rs && updates == old(updates) + done.us
        invariant Swept(ticker, t, view.Of(side), left, done) && done.opp == old(view).Of(side) && done.qty == qty
        decreases |view.Of(side)| + left
      {
        ghost var before := Snap();
        var crossed;
        ghost var rs, us;
        left, crossed, rs, us := MatchBest(t, left, done);
        Regroup(old(responses), done.rs, rs);
        Regroup(old(updates), done.us, us);
        done := done.(rs := done.rs + rs, us := done.us + us);
        ShrunkTrans(old(Snap()), before, Snap());
        if !crossed { break; }
      }
      RefineBest(Snap(), shape, side, view.Of(side), view.Of(t.side));
      SweptDone(ticker, t, view.Of(side), left, done);
    }

    // ---- the two requests ----------------------------------------------------

    /** me_order_book.cpp:114-121: what is left of the order rests. */
    method Rest(t: Taker, left: nat)
      requires t.side.Valid() && Sound(t.side) && OwnLevel(Snap(), t.side, t.price) && left > 0
      requires (t.client, t.oid) !in clientOrders
      modifies this
      ensures var r := Resting(t.client, t.oid, t.mid, t.side, t.price, left,
          NextPriority(old(view).Of(t.side), t.price));
        && Sound(t.side) && view == old(view).With(t.side, Insert(old(view).Of(t.side), r))
        && updates == old(updates) + [AddMsg(ticker, r)] && responses == old(responses)
    {
      var priority := GetNextPriority(t.price, t.side);
      var o := NewBlock(orders.data.Keys);
      var r := Resting(t.client, t.oid, t.mid, t.side, t.price, left, priority);
      AddOrder(o, r);
      updates := updates + [AddMsg(ticker, r)];
    }

    /** me_order_book.cpp:111-121: what the sweep leaves of the order rests. */
    method RestLeftover(t: Taker, left: nat, ghost s: State)
      requires t.side.Valid() && Sound(t.side.Opposite()) && Shrunk(s, Snap())
      requires (t.client, t.oid) !in s.clients && (left > 0 ==> PricesApart(view, t.price))
      requires left > 0 ==> forall i | 0 <= i < |view.Of(t.side.Opposite())| ::
          !Crosses(t.side, t.price, view.Of(t.side.Opposite())[i].price)
      modifies this
      ensures var r := Resting(t.client, t.oid, t.mid, t.side, t.price, left,
          NextPriority(old(view).Of(t.side), t.price));
        && Sound(t.side) && responses == old(responses)
        && view == (if left == 0 then old(view) else old(view).With(t.side, Insert(old(view).Of(t.side), r)))
        && updates == old(updates) + if left == 0 then [] else [AddMsg(ticker, r)]
    {
      SoundOpposite(t.side.Opposite());
      if left > 0 {
        NoCollisionIff(Snap(), shape, view, t.price);
        RefineOwnLevel(Snap(), shape, t.side, view.Of(t.side), view.Of(t.side.Opposite()), t.price);
        Rest(t, left);
      }
    }

    /** The fields' part of `add`. */
    method AddLinked(t: Taker, qty: nat)
      requires t.side.Valid() && Sound(t.side.Opposite()) && t.mid == nextMarketId
      requires (t.client, t.oid) !in clientOrders && RestsApart(view, ticker, t, qty)
      requires var r := SweepSide(ticker, view.Of(t.side.Opposite()), t, qty);
        r.left > 0 ==> forall i | 0 <= i < |r.rest| :: !Crosses(t.side, t.price, r.rest[i].price)
      modifies this
      ensures Sound(t.side)
      ensures var o := PriceTime.Add(old(view), ticker, t.client, t.oid, t.side, t.price, qty);
        view == o.book && responses == old(responses) + o.responses && updates == old(updates) + o.updates
    {
      ghost var s, b, rs, us := Snap(), view, responses, updates;
      ghost var sweep := SweepSide(ticker, b.Of(t.side.Opposite()), t, qty);
      nextMarketId, view := nextMarketId + 1, view.(nextId := nextMarketId + 1);
      responses := responses + [AcceptedMsg(ticker, t, qty)];
      var left := CheckForMatch(t, qty);
      RestLeftover(t, left, s);
      AddIs(b, ticker, t, qty, sweep, view, rs, responses, us, updates);
    }

    /** me_order_book.cpp:102-122. */
    method Add(client: nat, oid: nat, side: Side, price: nat, qty: nat)
      requires Valid() && side.Valid()
      requires client < ME_MAX_NUM_CLIENTS && oid < ME_MAX_ORDER_IDS && (client, oid) !in clientOrders
      requires RestsApart(view, ticker, Taker(client, oid, view.nextId, side, price), qty)
      modifies this
      ensures Valid()
      ensures var o := PriceTime.Add(old(view), ticker, client, oid, side, price, qty);
        view == o.book && responses == old(responses) + o.responses && updates == old(updates) + o.updates
    {
      var t := Taker(client, oid, nextMarketId, side, price);
      RefineFresh(Snap(), shape, view, client, oid);
      LeftoverMayRest(view, ticker, t, qty);
      AddKeepsOk(view, ticker, client, oid, side, price, qty);
      if side.Buy? { SoundOpposite(Buy); }
      AddLinked(t, qty);
      if side.Sell? { SoundOpposite(Sell); }
    }

    /** me_order_book.cpp:168-193. Repair: CANCEL carries the market order id (:185 writes the client's). */
    method Cancel(client: nat, oid: nat)
      requires Valid() && oid < ME_MAX_ORDER_IDS
      modifies this
      ensures Valid()
      ensures var o := CancelById(old(view), ticker, client, oid);
        view == o.book && responses == old(responses) + o.responses && updates == old(updates) + o.updates
    {
      CancelKeepsOk(view, ticker, client, oid);
      if client >= ME_MAX_NUM_CLIENTS { return; }
      if (client, oid) !in clientOrders {
        RefineFresh(Snap(), shape, view, client, oid);
        responses := responses + [RejectedMsg(ticker, client, oid)];
      } else {
        RefineClients(Snap(), shape, Buy, view.bids, view.asks, (client, oid));
        var r := orders.data[clientOrders[(client, oid)]];
        if r.side.Sell? { SoundOpposite(Buy); }
        CancelLinked(r.side, client, oid);
        if r.side.Sell? { SoundOpposite(Sell); }
      }
    }

    /** The fields' part of `cancel`, for an order that is there. */
    method CancelLinked(side: Side, client: nat, oid: nat)
      requires Sound(side) && PriceTime.Ok(view) && client < ME_MAX_NUM_CLIENTS
      requires (client, oid) in clientOrders && clientOrders[(client, oid)] in orders.data
      requires var r := orders.data[clientOrders[(client, oid)]]; r.side == side && Key(r) == (client, oid)
      modifies this
      ensures Sound(side)
      ensures var o := CancelById(old(view), ticker, client, oid);
        view == o.book && responses == old(responses) + o.responses && updates == old(updates) + o.updates
    {
      var o := clientOrders[(client, oid)];
      var r := orders.data[o];
      ghost var k, j, p := RefineLocate(Snap(), shape, side, view.Of(side), view.Of(side.Opposite()), (client, oid));
      CancelFinds(view, side, p, client, oid);
      updates := updates + [CancelMsg(ticker, r)];
      RemoveOrder(o, side, k, j, p);
      responses := responses + [CanceledMsg(ticker, r)];
    }
  }

  /** The acceptance, the sweep and the leftover make up `PriceTime.Add`. */
  lemma AddIs(b: Book, ticker: nat, t: Taker, qty: nat, sweep: SweepResult, b': Book,
              rs: seq<Response>, rs': seq<Response>, us: seq<Update>, us': seq<Update>)
    requires t.side.Valid() && t.mid == b.nextId && sweep == SweepSide(ticker, b.Of(t.side.Opposite()), t, qty)
    requires rs' == rs + [AcceptedMsg(ticker, t, qty)] + sweep.responses
    requires var r := Resting(t.client, t.oid, t.mid, t.side, t.price, sweep.left, NextPriority(b.Of(t.side), t.price));
      var swept := b.(nextId := b.nextId + 1).With(t.side.Opposite(), sweep.rest);
      && b' == (if sweep.left == 0 then swept else swept.With(t.side, Insert(b.Of(t.side), r)))
      && us' == us + sweep.updates + if sweep.left == 0 then [] else [AddMsg(ticker, r)]
    ensures var o := PriceTime.Add(b, ticker, t.client, t.oid, t.side, t.price, qty);
      b' == o.book && rs' == rs + o.responses && us' == us + o.updates
  {
    var r := Resting(t.client, t.oid, t.mid, t.side, t.price, sweep.left, NextPriority(b.Of(t.side), t.price));
    Regroup(rs, [AcceptedMsg(ticker, t, qty)], sweep.responses);
    Regroup(us, sweep.updates, if sweep.left == 0 then [] else [AddMsg(ticker, r)]);
    assert sweep.updates + [] == sweep.updates;
    SweptBook(b, t.side, sweep.rest);
  }

  lemma SweptBook(b: Book, side: Side, rest: seq<Resting>)
    requires side.Valid()
    ensures b.(nextId := b.nextId + 1).With(side.Opposite(), rest)
            == b.With(side.Opposite(), rest).(nextId := b.nextId + 1)
  {}

  /** The order at position `p` of its side is the one a cancel by its key finds and removes. */
  lemma CancelFinds(b: Book, side: Side, p: nat, client: nat, oid: nat)
    requires PriceTime.Ok(b) && side.Valid() && p < |b.Of(side)|
    requires b.Of(side)[p].client == client && b.Of(side)[p].oid == oid
    ensures var r := b.Of(side)[p];
      Find(b.bids + b.asks, client, oid) == Some(r) && r.side == side
          && Without(b.Of(side), r.mid) == Drop(b.Of(side), p)
  {
    var r := b.Of(side)[p];
    assert r in b.bids + b.asks;
    FindUnique(b.bids + b.asks, r);
    OkFromEitherSide(b, side);
    MidsDistinct(b.Of(side), b.Of(side.Opposite()));
    WithoutIsDrop(b.Of(side), p);
  }

  /** A sweep under way: where it started and what is out already. */
  datatype Sweeping = Sweeping(opp: seq<Resting>, qty: nat, rs: seq<Response>, us: seq<Update>)

  /** What is out, and the sweep of what remains, make up the whole sweep. */
  ghost predicate SweptDef(ticker: nat, t: Taker, rest: seq<Resting>, left: nat, d: Sweeping, u: bool) {
    var tail := SweepSide(ticker, rest, t, left);
    SweepSide(ticker, d.opp, t, d.qty) == SweepResult(tail.rest, tail.left, d.rs + tail.responses, d.us + tail.updates)
  }

  /** Folded (see `Types`). */
  ghost predicate Swept(ticker: nat, t: Taker, rest: seq<Resting>, left: nat, d: Sweeping) {
    forall u: bool :: SweptDef(ticker, t, rest, left, d, u)
  }

  lemma SweptIntro(ticker: nat, t: Taker, rest: seq<Resting>, left: nat, d: Sweeping)
    requires SweptDef(ticker, t, rest, left, d, true)
    ensures Swept(ticker, t, rest, left, d)
  {
    forall u: bool ensures SweptDef(ticker, t, rest, left, d, u) {}
  }

  lemma SweptStart(ticker: nat, t: Taker, opp: seq<Resting>, qty: nat)
    ensures Swept(ticker, t, opp, qty, Sweeping(opp, qty, [], []))
  {
    SweptIntro(ticker, t, opp, qty, Sweeping(opp, qty, [], []));
  }

  lemma Regroup<T>(a: seq<T>, b: seq<T>, c: seq<T>)
    ensures a + b + c == a + (b + c)
  {}

  /** What one pass of the loop puts out. */
  function PassTold(ticker: nat, t: Taker, maker: Resting, left: nat, fill: nat): seq<Response>
    requires fill <= left && fill <= maker.qty
  {
    [TakerFill(ticker, t, maker.price, fill, left - fill), MakerFill(ticker, maker.(qty := maker.qty - fill), fill)]
  }

  function PassReported(ticker: nat, t: Taker, maker: Resting, fill: nat): seq<Update>
    requires fill <= maker.qty
  {
    [TradeMsg(ticker, t, maker.price, fill), MakerUpdate(ticker, maker, maker.qty - fill)]
  }

  lemma PassSays(ticker: nat, t: Taker, maker: Resting, left: nat, fill: nat)
    requires fill <= left && fill <= maker.qty
    ensures PassTold(ticker, t, maker, left, fill)
            == [Response(Filled, t.client, ticker, t.oid, t.mid, t.side, maker.price, fill, left - fill),
                Response(Filled, maker.client, ticker, maker.oid, maker.mid, maker.side, maker.price, fill,
                         maker.qty - fill)]
    ensures PassReported(ticker, t, maker, fill)
            == [Update(Trade, ORDER_ID_INVALID, ticker, t.side, maker.price, fill, PRIORITY_INVALID),
                if fill == maker.qty
                then Update(CancelOrder, maker.mid, ticker, maker.side, maker.price, maker.qty, PRIORITY_INVALID)
                else Update(ModifyOrder, maker.mid, ticker, maker.side, maker.price, maker.qty - fill, maker.priority)]
  {}

  lemma SweepUnfolds(ticker: nat, t: Taker, rest: seq<Resting>, left: nat, fill: nat)
    requires CanTrade(rest, t, left) && fill == Min(left, rest[0].qty)
    ensures var tail := SweepSide(ticker, AfterFill(rest, fill), t, left - fill);
      SweepSide(ticker, rest, t, left)
      == SweepResult(tail.rest, tail.left, PassTold(ticker, t, rest[0], left, fill) + tail.responses,
                     PassReported(ticker, t, rest[0], fill) + tail.updates)
  {}

  lemma SweptOnce(ticker: nat, t: Taker, rest: seq<Resting>, left: nat, fill: nat, d: Sweeping,
                  rs: seq<Response>, us: seq<Update>)
    requires Swept(ticker, t, rest, left, d) && CanTrade(rest, t, left) && fill == Min(left, rest[0].qty)
    requires rs == PassTold(ticker, t, rest[0], left, fill) && us == PassReported(ticker, t, rest[0], fill)
    ensures Swept(ticker, t, AfterFill(rest, fill), left - fill, d.(rs := d.rs + rs, us := d.us + us))
  {
    assert SweptDef(ticker, t, rest, left, d, true);
    var tail := SweepSide(ticker, AfterFill(rest, fill), t, left - fill);
    SweepUnfolds(ticker, t, rest, left, fill);
    Regroup(d.rs, rs, tail.responses);
    Regroup(d.us, us, tail.updates);
    SweptIntro(ticker, t, AfterFill(rest, fill), left - fill, d.(rs := d.rs + rs, us := d.us + us));
  }

  lemma SweptDone(ticker: nat, t: Taker, rest: seq<Resting>, left: nat, d: Sweeping)
    requires Swept(ticker, t, rest, left, d) && !CanTrade(rest, t, left)
    ensures SweepSide(ticker, d.opp, t, d.qty) == SweepResult(rest, left, d.rs, d.us)
  {
    assert SweptDef(ticker, t, rest, left, d, true);
  }
}
