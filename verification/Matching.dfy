/**
 What the matcher does, said without its loop: a closed form for every fill,
 strict price-time priority, and conservation of quantity over whole runs.
 */
module Matching {
  import opened Types
  import opened PriceTime

  function SumQty(s: seq<Resting>): nat {
    if s == [] then 0 else s[0].qty + SumQty(s[1..])
  }

  lemma {:induction false} SumQtyAppend(a: seq<Resting>, b: seq<Resting>)
    ensures SumQty(a + b) == SumQty(a) + SumQty(b)
  {
    if a == [] {
      assert a + b == b;
    } else {
      SumQtyAppend(a[1..], b);
      assert (a + b)[1..] == a[1..] + b;
    }
  }

  // ---- closed form of a sweep --------------------------------------------

  function Less(a: nat, b: nat): nat { if a < b then 0 else a - b }

  /**
   The fill of the `j`-th best resting order, computed from the quantities ahead of it alone:
   whatever of the incoming quantity the better orders could not absorb, up to its own size, at a price the
   incoming order accepts.
   */
  function Waterfall(opp: seq<Resting>, t: Taker, qty: nat, j: nat): nat
    requires j < |opp|
  {
    var ahead := SumQty(opp[..j]);
    var accepts := if t.side.Buy? then opp[j].price <= t.price else opp[j].price >= t.price;
    if accepts && ahead < qty then Min(opp[j].qty, qty - ahead) else 0
  }

  /** What the two owners are told of the `j`-th fill: the incoming order's first, both at the resting order's price. */
  function FillPair(ticker: nat, opp: seq<Resting>, t: Taker, qty: nat, j: nat): seq<Response>
    requires j < |opp|
  {
    var fill, maker := Waterfall(opp, t, qty, j), opp[j];
    [Response(Filled, t.client, ticker, t.oid, t.mid, t.side, maker.price, fill,
              Less(Less(qty, SumQty(opp[..j])), fill)),
     Response(Filled, maker.client, ticker, maker.oid, maker.mid, maker.side, maker.price, fill, Less(maker.qty, fill))]
  }

  /** What the market is told of it: the trade, and the resting order's end or what is left of it. */
  function ReportPair(ticker: nat, opp: seq<Resting>, t: Taker, qty: nat, j: nat): seq<Update>
    requires j < |opp|
  {
    var fill, maker := Waterfall(opp, t, qty, j), opp[j];
    [Update(Trade, ORDER_ID_INVALID, ticker, t.side, maker.price, fill, PRIORITY_INVALID),
     if fill >= maker.qty
     then Update(CancelOrder, maker.mid, ticker, maker.side, maker.price, maker.qty, PRIORITY_INVALID)
     else Update(ModifyOrder, maker.mid, ticker, maker.side, maker.price, maker.qty - fill, maker.priority)]
  }

  /** The responses of fills `0..n`, best order first. */
  function Fills(ticker: nat, opp: seq<Resting>, t: Taker, qty: nat, n: nat): seq<Response>
    requires n <= |opp|
  {
    if n == 0 then [] else Fills(ticker, opp, t, qty, n - 1) + FillPair(ticker, opp, t, qty, n - 1)
  }

  /** The updates of fills `0..n`. */
  function Reports(ticker: nat, opp: seq<Resting>, t: Taker, qty: nat, n: nat): seq<Update>
    requires n <= |opp|
  {
    if n == 0 then [] else Reports(ticker, opp, t, qty, n - 1) + ReportPair(ticker, opp, t, qty, n - 1)
  }

  lemma WaterfallShift(opp: seq<Resting>, t: Taker, qty: nat, j: nat)
    requires 0 < j < |opp| && opp[0].qty <= qty
    ensures SumQty(opp[..j]) == opp[0].qty + SumQty(opp[1..][..j - 1])
    ensures Waterfall(opp, t, qty, j) == Waterfall(opp[1..], t, qty - opp[0].qty, j - 1)
  {
    assert opp[..j][1..] == opp[1..][..j - 1];
  }

  lemma PairShift(ticker: nat, opp: seq<Resting>, t: Taker, qty: nat, j: nat)
    requires 0 < j < |opp| && opp[0].qty <= qty
    ensures FillPair(ticker, opp, t, qty, j) == FillPair(ticker, opp[1..], t, qty - opp[0].qty, j - 1)
    ensures ReportPair(ticker, opp, t, qty, j) == ReportPair(ticker, opp[1..], t, qty - opp[0].qty, j - 1)
  {
    WaterfallShift(opp, t, qty, j);
  }

  lemma Regroup<T>(a: seq<T>, b: seq<T>, c: seq<T>)
    ensures a + b + c == a + (b + c)
  {}

  lemma {:induction false} FillsShift(ticker: nat, opp: seq<Resting>, t: Taker, qty: nat, n: nat)
    requires opp != [] && opp[0].qty <= qty && n < |opp|
    ensures Fills(ticker, opp, t, qty, n + 1)
            == FillPair(ticker, opp, t, qty, 0) + Fills(ticker, opp[1..], t, qty - opp[0].qty, n)
    ensures Reports(ticker, opp, t, qty, n + 1)
            == ReportPair(ticker, opp, t, qty, 0) + Reports(ticker, opp[1..], t, qty - opp[0].qty, n)
  {
    if n == 0 {
      assert Fills(ticker, opp, t, qty, 0) == [] && Reports(ticker, opp, t, qty, 0) == [];
    } else {
      FillsShift(ticker, opp, t, qty, n - 1);
      PairShift(ticker, opp, t, qty, n);
      var less := qty - opp[0].qty;
      Regroup(FillPair(ticker, opp, t, qty, 0), Fills(ticker, opp[1..], t, less, n - 1),
              FillPair(ticker, opp, t, qty, n));
      Regroup(ReportPair(ticker, opp, t, qty, 0), Reports(ticker, opp[1..], t, less, n - 1),
              ReportPair(ticker, opp, t, qty, n));
    }
  }

  /** Fill `j` takes places `2 j` and `2 j + 1` of both streams. */
  lemma {:induction false} FillsAt(ticker: nat, opp: seq<Resting>, t: Taker, qty: nat, n: nat, j: nat)
    requires j < n <= |opp|
    ensures |Fills(ticker, opp, t, qty, n)| == 2 * n == |Reports(ticker, opp, t, qty, n)|
    ensures Fills(ticker, opp, t, qty, n)[2 * j] == FillPair(ticker, opp, t, qty, j)[0]
    ensures Fills(ticker, opp, t, qty, n)[2 * j + 1] == FillPair(ticker, opp, t, qty, j)[1]
    ensures Reports(ticker, opp, t, qty, n)[2 * j] == ReportPair(ticker, opp, t, qty, j)[0]
    ensures Reports(ticker, opp, t, qty, n)[2 * j + 1] == ReportPair(ticker, opp, t, qty, j)[1]
  {
    FillsLength(ticker, opp, t, qty, n - 1);
    if j < n - 1 { FillsAt(ticker, opp, t, qty, n - 1, j); }
  }

  lemma {:induction false} FillsLength(ticker: nat, opp: seq<Resting>, t: Taker, qty: nat, n: nat)
    requires n <= |opp|
    ensures |Fills(ticker, opp, t, qty, n)| == 2 * n == |Reports(ticker, opp, t, qty, n)|
  {
    if n > 0 { FillsLength(ticker, opp, t, qty, n - 1); }
  }

  /** `n` orders trade, exactly those with a positive share, in order; the last may survive with its remainder. */
  ghost predicate ClosedForm(ticker: nat, opp: seq<Resting>, t: Taker, qty: nat, n: nat, r: SweepResult) {
    && n <= |opp|
    && (forall j | 0 <= j < |opp| :: Waterfall(opp, t, qty, j) > 0 <==> j < n)
    && r.responses == Fills(ticker, opp, t, qty, n)
    && r.updates == Reports(ticker, opp, t, qty, n)
    && r.left == Less(qty, SumQty(opp[..n]))
    && r.rest == (if n > 0 && Waterfall(opp, t, qty, n - 1) < opp[n - 1].qty
                  then [opp[n - 1].(qty := opp[n - 1].qty - Waterfall(opp, t, qty, n - 1))] + opp[n..]
                  else opp[n..])
  }

  lemma ClosedFormStep(ticker: nat, opp: seq<Resting>, t: Taker, qty: nat, n: nat, tail: SweepResult, r: SweepResult)
    requires CanTrade(opp, t, qty) && 0 < opp[0].qty <= qty
    requires ClosedForm(ticker, opp[1..], t, qty - opp[0].qty, n, tail)
    requires r.rest == tail.rest && r.left == tail.left
    requires r.responses == FillPair(ticker, opp, t, qty, 0) + tail.responses
    requires r.updates == ReportPair(ticker, opp, t, qty, 0) + tail.updates
    ensures ClosedForm(ticker, opp, t, qty, n + 1, r)
  {
    forall j | 0 < j < |opp| ensures Waterfall(opp, t, qty, j) == Waterfall(opp[1..], t, qty - opp[0].qty, j - 1) {
      WaterfallShift(opp, t, qty, j);
    }
    FillsShift(ticker, opp, t, qty, n);
    assert opp[..n + 1][1..] == opp[1..][..n];
    assert opp[n + 1..] == opp[1..][n..];
  }

  lemma ClosedFormPartial(ticker: nat, opp: seq<Resting>, t: Taker, qty: nat, r: SweepResult)
    requires CanTrade(opp, t, qty) && qty < opp[0].qty
    requires r.left == 0 && r.rest == [opp[0].(qty := opp[0].qty - qty)] + opp[1..]
    requires r.responses == FillPair(ticker, opp, t, qty, 0) && r.updates == ReportPair(ticker, opp, t, qty, 0)
    ensures ClosedForm(ticker, opp, t, qty, 1, r)
  {
    forall j | 0 < j < |opp| ensures SumQty(opp[..j]) > qty {
      assert opp[..j][0] == opp[0];
    }
    assert Fills(ticker, opp, t, qty, 0) == [] && Reports(ticker, opp, t, qty, 0) == [];
    assert SumQty(opp[..1]) == opp[0].qty by { assert opp[..1][1..] == []; }
  }

  /** The first step of the loop says what the closed form says of fill 0. */
  lemma FirstPair(ticker: nat, opp: seq<Resting>, t: Taker, qty: nat)
    requires CanTrade(opp, t, qty) && 0 < opp[0].qty
    ensures var fill := Min(qty, opp[0].qty);
      && FillPair(ticker, opp, t, qty, 0)
         == [TakerFill(ticker, t, opp[0].price, fill, qty - fill),
             MakerFill(ticker, opp[0].(qty := opp[0].qty - fill), fill)]
      && ReportPair(ticker, opp, t, qty, 0)
         == [TradeMsg(ticker, t, opp[0].price, fill), MakerUpdate(ticker, opp[0], opp[0].qty - fill)]
  {
    assert opp[..0] == [];
  }

  /** The whole sweep in closed form. */
  lemma {:induction false} SweepClosedForm(ticker: nat, opp: seq<Resting>, t: Taker, qty: nat, nextId: nat)
      returns (n: nat)
    requires t.side.Valid() && SideOk(opp, t.side.Opposite(), nextId)
    ensures ClosedForm(ticker, opp, t, qty, n, SweepSide(ticker, opp, t, qty))
    decreases |opp|
  {
    if !CanTrade(opp, t, qty) {
      n := 0;
      if qty > 0 { HeadDecidesCrossing(opp, t.side, nextId, t.price); }
    } else if opp[0].qty <= qty {
      n := SweepClosedForm(ticker, opp[1..], t, qty - opp[0].qty, nextId);
      FirstPair(ticker, opp, t, qty);
      ClosedFormStep(ticker, opp, t, qty, n, SweepSide(ticker, opp[1..], t, qty - opp[0].qty),
          SweepSide(ticker, opp, t, qty));
      n := n + 1;
    } else {
      n := 1;
      FirstPair(ticker, opp, t, qty);
      var cut := AfterFill(opp, qty);
      assert SweepSide(ticker, cut, t, 0) == SweepResult(cut, 0, [], []);
      ClosedFormPartial(ticker, opp, t, qty, SweepSide(ticker, opp, t, qty));
    }
  }

  /** Fill `j` of a sweep, message by message and field by field. */
  lemma FillInFull(ticker: nat, opp: seq<Resting>, t: Taker, qty: nat, nextId: nat, j: nat)
    requires t.side.Valid() && SideOk(opp, t.side.Opposite(), nextId) && j < |opp| && Waterfall(opp, t, qty, j) > 0
    ensures var r := SweepSide(ticker, opp, t, qty);
      var fill, maker, ahead := Waterfall(opp, t, qty, j), opp[j], SumQty(opp[..j]);
      && 2 * j + 1 < |r.responses| && 2 * j + 1 < |r.updates| && ahead + fill <= qty && fill <= maker.qty
      && var x, y, trade, u := r.responses[2 * j], r.responses[2 * j + 1], r.updates[2 * j], r.updates[2 * j + 1];
      && x.kind.Filled? && x.client == t.client && x.ticker == ticker && x.oid == t.oid && x.mid == t.mid
      && x.side == t.side && x.price == maker.price && x.exec == fill && x.left == qty - ahead - fill
      && y.kind.Filled? && y.client == maker.client && y.ticker == ticker && y.oid == maker.oid && y.mid == maker.mid
      && y.side == maker.side && y.price == maker.price && y.exec == fill && y.left == maker.qty - fill
      && trade.kind.Trade? && trade.ticker == ticker && trade.side == t.side && trade.price == maker.price
      && trade.qty == fill
      && u.oid == maker.mid && u.ticker == ticker && u.side == maker.side && u.price == maker.price
      && (if fill == maker.qty then u.kind.CancelOrder?
          else u.kind.ModifyOrder? && u.qty == maker.qty - fill && u.priority == maker.priority)
  {
    var n := SweepClosedForm(ticker, opp, t, qty, nextId);
    FillsAt(ticker, opp, t, qty, n, j);
  }

  // ---- a whole request in full -------------------------------------------

  /** `price` is at least as good as `other` for the side that quotes them. */
  predicate AsGood(side: Side, price: nat, other: nat) {
    if side.Buy? then price >= other else price <= other
  }

  /** The queue position, price level by price level, of an order that rests at `price`. */
  ghost predicate Queues(s: seq<Resting>, side: Side, price: nat, k: nat, priority: nat) {
    && k <= |s|
    && (forall j | 0 <= j < k :: AsGood(side, s[j].price, price))
    && (forall j | k <= j < |s| :: !AsGood(side, s[j].price, price))
    && priority == (if k > 0 && s[k - 1].price == price then s[k - 1].priority + 1 else 1)
  }

  lemma InsertQueues(s: seq<Resting>, r: Resting, nextId: nat) returns (k: nat)
    requires r.side.Valid() && SideOk(s, r.side, nextId) && r.priority == NextPriority(s, r.price)
    ensures Queues(s, r.side, r.price, k, r.priority) && Insert(s, r) == s[..k] + [r] + s[k..]
  {
    k := InsertAt(s, r);
    forall j | k <= j < |s| ensures !AsGood(r.side, s[j].price, r.price) {
      assert j > k ==> Before(s[k], s[j]);
    }
    if k > 0 && s[k - 1].price == r.price {
      NextPriorityBehind(s, r.price, k - 1);
    } else {
      forall j | 0 <= j < |s| ensures s[j].price != r.price { assert j < k - 1 ==> Before(s[j], s[k - 1]); }
      NextPriorityAlone(s, r.price);
    }
  }

  /**
   An add in full: one acceptance, the fills best order first, and what is left of the order announced and queued
   behind every order that is at its price or better.
   */
  lemma AddInFull(b: Book, ticker: nat, client: nat, oid: nat, side: Side, price: nat, qty: nat)
      returns (n: nat, k: nat, priority: nat)
    requires Ok(b) && side.Valid()
    ensures var own, opp, t := b.Of(side), b.Of(side.Opposite()), Taker(client, oid, b.nextId, side, price);
      var o := Process(b, New(client, oid, ticker, side, price, qty));
      && n <= |opp| && (forall j | 0 <= j < |opp| :: Waterfall(opp, t, qty, j) > 0 <==> j < n)
      && var left := Less(qty, SumQty(opp[..n]));
      && o.responses == [Response(Accepted, client, ticker, oid, b.nextId, side, price, 0, qty)]
                        + Fills(ticker, opp, t, qty, n)
      && o.updates == Reports(ticker, opp, t, qty, n)
                      + (if left == 0 then [] else [Update(AddOrder, b.nextId, ticker, side, price, left, priority)])
      && o.book.nextId == b.nextId + 1
      && o.book.Of(side.Opposite())
         == (if n > 0 && Waterfall(opp, t, qty, n - 1) < opp[n - 1].qty
             then [opp[n - 1].(qty := opp[n - 1].qty - Waterfall(opp, t, qty, n - 1))] + opp[n..] else opp[n..])
      && Queues(own, side, price, k, priority)
      && o.book.Of(side)
         == (if left == 0 then own
             else own[..k] + [Resting(client, oid, b.nextId, side, price, left, priority)] + own[k..])
  {
    var own, opp, t := b.Of(side), b.Of(side.Opposite()), Taker(client, oid, b.nextId, side, price);
    OkFromEitherSide(b, side);
    n := SweepClosedForm(ticker, opp, t, qty, b.nextId);
    priority := NextPriority(own, price);
    var left := SweepSide(ticker, opp, t, qty).left;
    k := InsertQueues(own, Resting(client, oid, b.nextId, side, price, left, priority), b.nextId);
    assert Reports(ticker, opp, t, qty, n) + [] == Reports(ticker, opp, t, qty, n);
  }

  /** The order at position `p` of its side is the one a cancel by its key finds. */
  lemma FoundByKey(own: seq<Resting>, opp: seq<Resting>, all: seq<Resting>, p: nat)
    requires DistinctIds(own + opp) && p < |own| && (all == own + opp || all == opp + own)
    ensures Find(all, own[p].client, own[p].oid) == Some(own[p])
    ensures Without(own, own[p].mid) == own[..p] + own[p + 1..]
  {
    var r := own[p];
    MidsDistinct(own, opp);
    var k := WithoutAt(own, r.mid);
    assert k == p;
    assert (own + opp)[p] == r && r in all;
    var x := Find(all, r.client, r.oid);
    assert x.Some? && (x.value in own || x.value in opp);
    assert x.value in own + opp;
    var j :| 0 <= j < |own + opp| && (own + opp)[j] == x.value;
    assert j == p;
  }

  /** A cancel of a resting order in full: that order and no other leaves, and both messages name it as it was. */
  lemma CancelInFull(b: Book, ticker: nat, side: Side, p: nat)
    requires Ok(b) && side.Valid() && p < |b.Of(side)| && b.Of(side)[p].client < ME_MAX_NUM_CLIENTS
    ensures var own := b.Of(side);
      var r := own[p];
      Process(b, Cancel(r.client, r.oid, ticker))
      == Outcome(b.With(side, own[..p] + own[p + 1..]),
                 [Response(Canceled, r.client, ticker, r.oid, r.mid, side, r.price, QTY_INVALID, r.qty)],
                 [Update(CancelOrder, r.mid, ticker, side, r.price, r.qty, r.priority)])
  {
    OkFromEitherSide(b, side);
    FoundByKey(b.Of(side), b.Of(side.Opposite()), b.bids + b.asks, p);
  }

  /** A cancel of an order that does not rest is rejected; one for an impossible client is ignored. */
  lemma CancelOfNothing(b: Book, ticker: nat, client: nat, oid: nat)
    requires client < ME_MAX_NUM_CLIENTS ==> FreshKey(b, client, oid)
    ensures Process(b, Cancel(client, oid, ticker))
            == Outcome(b,
                       if client >= ME_MAX_NUM_CLIENTS then []
                       else [Response(CancelRejected, client, ticker, oid, ORDER_ID_INVALID, InvalidSide, PRICE_INVALID,
                                      QTY_INVALID, QTY_INVALID)],
                       [])
  {
    if client < ME_MAX_NUM_CLIENTS { assert Find(b.bids + b.asks, client, oid).None?; }
  }

  /** An order trades only when every better one is fully consumed, and never outside the limit. */
  lemma PriceTimePriority(opp: seq<Resting>, t: Taker, qty: nat, nextId: nat, i: nat, j: nat)
    requires t.side.Valid() && SideOk(opp, t.side.Opposite(), nextId)
    requires i < j < |opp|
    requires Waterfall(opp, t, qty, j) > 0
    ensures Waterfall(opp, t, qty, i) == opp[i].qty
    ensures !Better(t.side.Opposite(), opp[j].price, opp[i].price)
    ensures Crosses(t.side, t.price, opp[j].price)
  {
    assert Before(opp[i], opp[j]);
    assert opp[..j] == opp[..i] + opp[i..j];
    SumQtyAppend(opp[..i], opp[i..j]);
    assert opp[i..j][0] == opp[i];
  }

  // ---- conservation ------------------------------------------------------

  function AcceptedQty(rs: seq<Response>): nat {
    if rs == [] then 0 else (if rs[0].kind.Accepted? then rs[0].left else 0) + AcceptedQty(rs[1..])
  }

  function CanceledQty(rs: seq<Response>): nat {
    if rs == [] then 0 else (if rs[0].kind.Canceled? then rs[0].left else 0) + CanceledQty(rs[1..])
  }

  /** What was executed for the side that arrived (`taker`) or for the side that rested. */
  function FilledQty(rs: seq<Response>, side: Side): nat {
    if rs == [] then 0
    else (if rs[0].kind.Filled? && rs[0].side == side then rs[0].exec else 0) + FilledQty(rs[1..], side)
  }

  function TradedQty(us: seq<Update>): nat {
    if us == [] then 0 else (if us[0].kind.Trade? then us[0].qty else 0) + TradedQty(us[1..])
  }

  function RestingQty(b: Book): nat { SumQty(b.bids) + SumQty(b.asks) }

  lemma {:induction false} ResponseSumsAppend(a: seq<Response>, b: seq<Response>)
    ensures AcceptedQty(a + b) == AcceptedQty(a) + AcceptedQty(b)
    ensures CanceledQty(a + b) == CanceledQty(a) + CanceledQty(b)
    ensures forall side :: FilledQty(a + b, side) == FilledQty(a, side) + FilledQty(b, side)
  {
    if a == [] {
      assert a + b == b;
    } else {
      ResponseSumsAppend(a[1..], b);
      assert (a + b)[1..] == a[1..] + b;
    }
  }

  lemma {:induction false} TradedAppend(a: seq<Update>, b: seq<Update>)
    ensures TradedQty(a + b) == TradedQty(a) + TradedQty(b)
  {
    if a == [] {
      assert a + b == b;
    } else {
      TradedAppend(a[1..], b);
      assert (a + b)[1..] == a[1..] + b;
    }
  }

  lemma FillResponses(x: Response, y: Response, rest: seq<Response>)
    requires x.kind.Filled? && y.kind.Filled? && x.side != y.side
    ensures var rs := [x, y] + rest;
      && AcceptedQty(rs) == AcceptedQty(rest) && CanceledQty(rs) == CanceledQty(rest)
      && FilledQty(rs, x.side) == x.exec + FilledQty(rest, x.side)
          && FilledQty(rs, y.side) == y.exec + FilledQty(rest, y.side)
  {
    ResponseSumsAppend([x, y], rest);
    assert [x, y][1..] == [y] && [y][1..] == [];
  }

  lemma FillUpdates(trade: Update, update: Update, rest: seq<Update>)
    requires trade.kind.Trade? && !update.kind.Trade?
    ensures TradedQty([trade, update] + rest) == trade.qty + TradedQty(rest)
  {
    TradedAppend([trade, update], rest);
    assert [trade, update][1..] == [update] && [update][1..] == [];
  }

  lemma FillSum(opp: seq<Resting>, fill: nat)
    requires opp != [] && fill <= opp[0].qty
    ensures SumQty(opp) == fill + SumQty(AfterFill(opp, fill))
  {
    if fill != opp[0].qty { assert AfterFill(opp, fill)[1..] == opp[1..]; }
  }

  /** Taker fills, maker fills and trades of one sweep agree, and account for all that left the book. */
  lemma {:induction false} SweepConserves(ticker: nat, opp: seq<Resting>, t: Taker, left: nat)
    requires t.side.Valid()
    requires forall i | 0 <= i < |opp| :: opp[i].side == t.side.Opposite()
    ensures var r := SweepSide(ticker, opp, t, left);
      && AcceptedQty(r.responses) == 0 && CanceledQty(r.responses) == 0
      && FilledQty(r.responses, t.side) == FilledQty(r.responses, t.side.Opposite()) == TradedQty(r.updates)
      && TradedQty(r.updates) + r.left == left
      && SumQty(opp) == SumQty(r.rest) + TradedQty(r.updates)
    decreases |opp| + left
  {
    if CanTrade(opp, t, left) {
      var maker := opp[0];
      var fill := Min(left, maker.qty);
      var tail := SweepSide(ticker, AfterFill(opp, fill), t, left - fill);
      SweepConserves(ticker, AfterFill(opp, fill), t, left - fill);
      FillSum(opp, fill);
      FillConserves(ticker, maker, t, left, fill, tail);
    }
  }

  /** What one fill adds to the sums of the rest of the sweep. */
  lemma FillConserves(ticker: nat, maker: Resting, t: Taker, left: nat, fill: nat, tail: SweepResult)
    requires t.side.Valid() && maker.side == t.side.Opposite() && fill <= left && fill <= maker.qty
    ensures var rs := [TakerFill(ticker, t, maker.price, fill, left - fill),
        MakerFill(ticker, maker.(qty := maker.qty - fill), fill)] + tail.responses;
      && AcceptedQty(rs) == AcceptedQty(tail.responses) && CanceledQty(rs) == CanceledQty(tail.responses)
      && FilledQty(rs, t.side) == fill + FilledQty(tail.responses, t.side)
      && FilledQty(rs, t.side.Opposite()) == fill + FilledQty(tail.responses, t.side.Opposite())
    ensures TradedQty([TradeMsg(ticker, t, maker.price, fill), MakerUpdate(ticker, maker, maker.qty - fill)]
        + tail.updates) == fill + TradedQty(tail.updates)
  {
    FillResponses(TakerFill(ticker, t, maker.price, fill, left - fill),
        MakerFill(ticker, maker.(qty := maker.qty - fill), fill), tail.responses);
    FillUpdates(TradeMsg(ticker, t, maker.price, fill), MakerUpdate(ticker, maker, maker.qty - fill), tail.updates);
  }

  lemma {:induction false} WithoutSum(s: seq<Resting>, r: Resting)
    requires r in s && forall i, j | 0 <= i < j < |s| :: s[i].mid != s[j].mid
    ensures SumQty(s) == SumQty(Without(s, r.mid)) + r.qty
  {
    if s[0].mid == r.mid {
      WithoutAbsent(s[1..], r.mid);
    } else {
      WithoutSum(s[1..], r);
    }
  }

  lemma InsertSum(s: seq<Resting>, r: Resting)
    ensures SumQty(Insert(s, r)) == SumQty(s) + r.qty
  {
    var k := InsertAt(s, r);
    assert s == s[..k] + s[k..];
    SumQtyAppend(s[..k], s[k..]);
    SumQtyAppend(s[..k] + [r], s[k..]);
    SumQtyAppend(s[..k], [r]);
  }

  /** The books balance: what came in plus what rested is what rests, was cancelled, or traded (once per side). */
  ghost predicate Balanced(before: Book, o: Outcome) {
    RestingQty(before) + AcceptedQty(o.responses) ==
    RestingQty(o.book) + CanceledQty(o.responses) + 2 * TradedQty(o.updates)
  }

  lemma AddConserves(b: Book, ticker: nat, client: nat, oid: nat, side: Side, price: nat, qty: nat)
    requires Ok(b) && side.Valid()
    ensures Balanced(b, Add(b, ticker, client, oid, side, price, qty))
  {
    var t := Taker(client, oid, b.nextId, side, price);
    var sweep := SweepSide(ticker, b.Of(side.Opposite()), t, qty);
    SweepConserves(ticker, b.Of(side.Opposite()), t, qty);
    ResponseSumsAppend([AcceptedMsg(ticker, t, qty)], sweep.responses);
    if sweep.left > 0 {
      var r := Resting(client, oid, b.nextId, side, price, sweep.left, NextPriority(b.Of(side), price));
      InsertSum(b.Of(side), r);
      TradedAppend(sweep.updates, [AddMsg(ticker, r)]);
    }
  }

  lemma CancelConserves(b: Book, ticker: nat, client: nat, oid: nat)
    requires Ok(b)
    ensures Balanced(b, CancelById(b, ticker, client, oid))
  {
    if client < ME_MAX_NUM_CLIENTS && Find(b.bids + b.asks, client, oid).Some? {
      var r := Find(b.bids + b.asks, client, oid).value;
      assert r in b.bids || r in b.asks;
      OkFromEitherSide(b, r.side);
      MidsDistinct(b.Of(r.side), b.Of(r.side.Opposite()));
      WithoutSum(b.Of(r.side), r);
    }
  }

  /** Over any run: accepted == resting + cancelled + 2 * traded. */
  lemma {:induction false} RunConserves(b: Book, reqs: seq<Request>)
    requires Ok(b) && AdmissibleRun(b, reqs)
    ensures Balanced(b, Run(b, reqs))
    decreases |reqs|
  {
    if reqs != [] {
      var first := Process(b, reqs[0]);
      match reqs[0] {
        case New(client, oid, ticker, side, price, qty) => AddConserves(b, ticker, client, oid, side, price, qty);
        case Cancel(client, oid, ticker) => CancelConserves(b, ticker, client, oid);
      }
      ProcessKeepsOk(b, reqs[0]);
      RunConserves(first.book, reqs[1..]);
      var rest := Run(first.book, reqs[1..]);
      ResponseSumsAppend(first.responses, rest.responses);
      TradedAppend(first.updates, rest.updates);
    }
  }
}
