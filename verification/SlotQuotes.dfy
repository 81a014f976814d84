/**
 Prices in the slot protocol: whatever the client has resting on a side of a ticker
 rests at the price its slot remembers. So the quotes a strategy asks for are the
 quotes in the book, and a move that finds nothing to do has nothing to do.
 */
module SlotQuotes {
  import opened Types
  import opened PriceTime
  import opened Picking
  import opened ClientLog
  import opened Risk
  import opened OrderManager
  import opened Slots
  import opened SlotRuns

  /** All of the client's orders in `s` are at `price`. */
  ghost predicate AllAt(s: seq<Resting>, me: nat, price: nat) {
    forall i | 0 <= i < |s| && s[i].client == me :: s[i].price == price
  }

  ghost predicate PriceOk(me: nat, s: Sys, t: nat, side: Side)
    requires Shaped(s) && t < ME_MAX_TICKERS
  {
    AllAt(s.books[t].Of(side), me, Slot(s, t, side).price)
  }

  ghost predicate PricesOk(me: nat, s: Sys)
    requires Shaped(s)
  {
    forall t: nat, side: Side | t < ME_MAX_TICKERS && side.Valid() :: PriceOk(me, s, t, side)
  }

  lemma SweepAt(ticker: nat, opp: seq<Resting>, t: Taker, left: nat, me: nat, price: nat)
    requires AllAt(opp, me, price) && forall i | 0 <= i < |opp| :: opp[i].qty > 0
    ensures AllAt(SweepSide(ticker, opp, t, left).rest, me, price)
  {
    var k := SweepShape(ticker, opp, t, left);
    var rest := SweepSide(ticker, opp, t, left).rest;
    forall i | 0 <= i < |rest| ensures rest[i].client == opp[k + i].client && rest[i].price == opp[k + i].price {}
  }

  lemma InsertAllAt(s: seq<Resting>, r: Resting, me: nat, price: nat)
    requires AllAt(s, me, price) && (r.client == me ==> r.price == price)
    ensures AllAt(Insert(s, r), me, price)
  {
    var k := InsertAt(s, r);
    var s' := s[..k] + [r] + s[k..];
    forall i | 0 <= i < |s'| && s'[i].client == me ensures s'[i].price == price {
      if i != k { assert s'[i] == s[if i < k then i else i - 1]; }
    }
  }

  lemma {:induction false} WithoutAllAt(s: seq<Resting>, mid: nat, me: nat, price: nat)
    requires AllAt(s, me, price)
    ensures AllAt(Without(s, mid), me, price)
  {
    if s != [] { WithoutAllAt(s[1..], mid, me, price); }
  }

  lemma AddAt(b: Book, ticker: nat, t: Taker, qty: nat, me: nat, side: Side, price: nat)
    requires Ok(b) && t.side.Valid() && side.Valid() && t.mid == b.nextId && AllAt(b.Of(side), me, price)
    requires t.client == me && t.side == side ==> t.price == price
    ensures AllAt(Add(b, ticker, t.client, t.oid, t.side, t.price, qty).book.Of(side), me, price)
  {
    var own, opp := b.Of(t.side), b.Of(t.side.Opposite());
    OkFromEitherSide(b, t.side);
    if side == t.side {
      var left := SweepSide(ticker, opp, t, qty).left;
      InsertAllAt(own, Resting(t.client, t.oid, t.mid, t.side, t.price, left, NextPriority(own, t.price)), me, price);
    } else {
      SweepAt(ticker, opp, t, qty, me, price);
    }
  }

  lemma ProcessAt(b: Book, req: Request, me: nat, side: Side, price: nat)
    requires Ok(b) && Admissible(b, req) && side.Valid() && AllAt(b.Of(side), me, price)
    requires req.New? && req.client == me && req.side == side ==> req.price == price
    ensures AllAt(Process(b, req).book.Of(side), me, price)
  {
    match req
    case New(client, oid, ticker, s, p, qty) => AddAt(b, ticker, Taker(client, oid, b.nextId, s, p), qty, me, side,
        price);
    case Cancel(client, oid, ticker) =>
      var found := Find(b.bids + b.asks, client, oid);
      if client < ME_MAX_NUM_CLIENTS && found.Some? && found.value.side == side {
        WithoutAllAt(b.Of(found.value.side), found.value.mid, me, price);
      }
  }

  /** The client's own NEW asks for the price its slot remembers. */
  lemma OwnAsksSlotPrice(me: nat, s: Sys)
    requires Inv(me, s) && s.reqs != [] && s.reqs[0].New?
    ensures var q := s.reqs[0];
      q.ticker < ME_MAX_TICKERS && q.side.Valid() && q.price == Slot(s, q.ticker, q.side).price
  {
    var q := s.reqs[0];
    OwnIsAdmissible(me, s);
    assert SlotOk(me, s, q.ticker, q.side);
    assert Pick(s.reqs, NewFor(q.ticker, q.side))[0] == q;
  }

  lemma ServePrices(me: nat, s: Sys, req: Request, own: bool)
    requires Inv(me, s) && Servable(me, s, req, own) && PricesOk(me, s)
    ensures PricesOk(me, Serve(me, Taken(s, own), req))
  {
    var s' := Serve(me, Taken(s, own), req);
    if own && req.New? { OwnAsksSlotPrice(me, s); }
    forall t: nat, side: Side | t < ME_MAX_TICKERS && side.Valid() ensures PriceOk(me, s', t, side) {
      assert PriceOk(me, s, t, side) && TickerOk(me, s, t);
      if t == req.ticker {
        if own { OwnIsAdmissible(me, s); }
        ProcessAt(s.books[t], req, me, side, Slot(s, t, side).price);
      }
    }
  }

  lemma MovePrices(me: nat, s: Sys, s': Sys, t: nat, side: Side, o': OMOrder, sent: seq<Request>)
    requires Inv(me, s) && PricesOk(me, s) && t < ME_MAX_TICKERS && side.Valid() && Moves(s, s', t, side, o', sent)
    requires o'.price == Slot(s, t, side).price || Slot(s, t, side).state.Invalid? || Slot(s, t, side).state.Dead?
    ensures PricesOk(me, s')
  {
    forall t': nat, side': Side | t' < ME_MAX_TICKERS && side'.Valid() ensures PriceOk(me, s', t', side') {
      assert PriceOk(me, s, t', side');
      if t' == t && side' == side && o'.price != Slot(s, t, side).price { NothingRests(me, s, t, side); }
    }
  }

  lemma NothingRests(me: nat, s: Sys, t: nat, side: Side)
    requires Inv(me, s) && t < ME_MAX_TICKERS && side.Valid()
    requires Slot(s, t, side).state.Invalid? || Slot(s, t, side).state.Dead?
    ensures forall i | 0 <= i < |s.books[t].Of(side)| :: s.books[t].Of(side)[i].client != me
  {
    FreeSideIsEmpty(me, s, t, side);
    assert TickerOk(me, s, t);
    forall i | 0 <= i < |s.books[t].Of(side)| ensures s.books[t].Of(side)[i].client != me {
      assert s.books[t].Of(side)[i] in s.books[t].bids + s.books[t].asks;
    }
  }

  lemma NextPrices(cfg: Config, s: Sys, step: Step)
    requires cfg.me < ME_MAX_NUM_CLIENTS && Inv(cfg.me, s) && Enabled(cfg, s, step) && PricesOk(cfg.me, s)
    ensures PricesOk(cfg.me, Next(cfg, s, step))
  {
    match step
    case MoveSlot(t, side, price, qty, pnl) =>
      MoveCases(cfg, s, step);
      var s' := Next(cfg, s, step);
      if Cancels(cfg.me, s, s', t, side) {
        var o := Slot(s, t, side);
        MovePrices(cfg.me, s, s', t, side, o.(state := PendingCancel), [Cancel(cfg.me, o.oid, o.ticker)]);
      } else if Opens(cfg.me, s, s', t, side, price, qty) {
        var id := s.om.nextId;
        MovePrices(cfg.me, s, s', t, side, OMOrder(t, id, side, price, qty, PendingNew),
            [New(cfg.me, id, t, side, price, qty)]);
      }
    case ServeOwn =>
      OwnIsAdmissible(cfg.me, s);
      ServePrices(cfg.me, s, s.reqs[0], true);
    case ServeOther(req) => ServePrices(cfg.me, s, req, false);
    case Deliver => DeliverPrices(cfg.me, s);
  }

  lemma DeliverPrices(me: nat, s: Sys)
    requires Inv(me, s) && PricesOk(me, s) && s.resps != [] && s.resps[0].ticker < ME_MAX_TICKERS
    ensures PricesOk(me, Delivered(s.(resps := s.resps[1..]), s.resps[0]))
  {
    var s' := Delivered(s.(resps := s.resps[1..]), s.resps[0]);
    forall t: nat, side: Side | t < ME_MAX_TICKERS && side.Valid() ensures PriceOk(me, s', t, side) {
      assert PriceOk(me, s, t, side) && Slot(s', t, side).price == Slot(s, t, side).price;
    }
  }

  lemma {:induction false} RunPrices(cfg: Config, s: Sys, steps: seq<Step>)
    requires cfg.me < ME_MAX_NUM_CLIENTS && Inv(cfg.me, s) && PricesOk(cfg.me, s) && CanRun(cfg, s, steps)
    ensures Inv(cfg.me, After(cfg, s, steps)) && PricesOk(cfg.me, After(cfg, s, steps))
    decreases |steps|
  {
    if steps != [] {
      NextKeeps(cfg, s, steps[0]);
      NextPrices(cfg, s, steps[0]);
      RunPrices(cfg, Next(cfg, s, steps[0]), steps[1..]);
    }
  }

  // ---- the quotes in the book --------------------------------------------------------------

  /** Exactly this order of the client's rests on this side, at this price and for this quantity. */
  ghost predicate Quoted(b: Book, me: nat, side: Side, oid: nat, price: nat, qty: nat) {
    && (exists x :: x in b.Of(side) && x.client == me && x.oid == oid && x.price == price && x.qty == qty)
    && (forall x, y | x in b.Of(side) && y in b.Of(side) && x.client == me == y.client :: x == y)
  }

  lemma LiveIsQuoted(me: nat, s: Sys, t: nat, side: Side)
    requires Inv(me, s) && PricesOk(me, s) && t < ME_MAX_TICKERS && side.Valid()
    requires Open(s.books[t], me, Slot(s, t, side).oid) == Slot(s, t, side).qty > 0
    ensures var o := Slot(s, t, side); Quoted(s.books[t], me, side, o.oid, o.price, o.qty)
  {
    var b, o := s.books[t], Slot(s, t, side);
    assert TickerOk(me, s, t) && PriceOk(me, s, t, side);
    var x := RestsSomewhere(b, me, o.oid);
    assert Belongs(me, Ids(s, t), x.client, x.oid, x.side) by { assert x in b.bids || x in b.asks; }
    SlotIsItsSide(me, s, t, side);
    FindOpen(b, x, me, o.oid);
    assert x.side == side && x in b.Of(side);
    forall x, y | x in b.Of(side) && y in b.Of(side) && x.client == me == y.client ensures x == y {
      assert x in b.bids + b.asks && y in b.bids + b.asks && x.side == side == y.side;
      OneLive(me, s, t, x, y);
    }
  }

  lemma RestsSomewhere(b: Book, c: nat, o: nat) returns (x: Resting)
    requires Open(b, c, o) > 0
    ensures x in b.bids + b.asks && x.client == c && x.oid == o
  {
    if y :| y in b.bids + b.asks && y.client == c && y.oid == o {
      x := y;
    } else {
      assert forall y | y in b.bids || y in b.asks :: y in b.bids + b.asks;
      OpenAbsent(b.bids, c, o);
      OpenAbsent(b.asks, c, o);
      assert false;
    }
  }

  /** With both channels drained, the book shows a LIVE slot's order at the slot's price and quantity, and no other. */
  lemma QuotesStand(cfg: Config, steps: seq<Step>, t: nat, side: Side)
    requires cfg.me < ME_MAX_NUM_CLIENTS && CanRun(cfg, Start(), steps) && t < ME_MAX_TICKERS && side.Valid()
    requires After(cfg, Start(), steps).reqs == [] && After(cfg, Start(), steps).resps == []
    requires Slot(After(cfg, Start(), steps), t, side).state.Live?
    ensures var s := After(cfg, Start(), steps);
      var o := Slot(s, t, side);
      Quoted(s.books[t], cfg.me, side, o.oid, o.price, o.qty)
  {
    Quiescent(cfg, steps, t, side);
    StartInv(cfg.me);
    RunPrices(cfg, Start(), steps);
    LiveIsQuoted(cfg.me, After(cfg, Start(), steps), t, side);
  }

  /**
   A move of a LIVE slot, with both channels drained: it sends nothing exactly when the book already shows the asked
   quote, and otherwise cancels the one it shows.
   */
  lemma MoveOfLiveSlot(cfg: Config, steps: seq<Step>, step: Step)
    requires cfg.me < ME_MAX_NUM_CLIENTS && CanRun(cfg, Start(), steps) && step.MoveSlot?
    requires Enabled(cfg, After(cfg, Start(), steps), step)
    requires After(cfg, Start(), steps).reqs == [] && After(cfg, Start(), steps).resps == []
    requires Slot(After(cfg, Start(), steps), step.ticker, step.side).state.Live?
    ensures var s, t, side := After(cfg, Start(), steps), step.ticker, step.side;
      var o, s' := Slot(s, t, side), Next(cfg, s, step);
      && (s'.reqs == [] <==> Quoted(s.books[t], cfg.me, side, o.oid, step.price, step.qty))
      && (s'.reqs != [] ==> s'.reqs == [Cancel(cfg.me, o.oid, t)] && Slot(s', t, side).state.PendingCancel?)
  {
    var s, t, side := After(cfg, Start(), steps), step.ticker, step.side;
    var o := Slot(s, t, side);
    QuotesStand(cfg, steps, t, side);
    StartInv(cfg.me);
    RunPrices(cfg, Start(), steps);
    assert SlotOk(cfg.me, s, t, side);
    if Quoted(s.books[t], cfg.me, side, o.oid, step.price, step.qty) {
      assert o.price == step.price && o.qty == step.qty;
    }
  }
}
