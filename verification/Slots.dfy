/**
 The slot protocol. The order manager, a FIFO request channel, the exchange
 with any other clients, and a FIFO response channel are composed, and every
 run of the composition is considered. `onOrderUpdate` looks at a response's
 ticker and side and never at its order id; the theorems say why that is safe,
 and that the pre-trade gate bounds the position over the whole run.
 */
module Slots {
  import opened Types
  import opened PriceTime
  import opened Picking
  import opened ClientLog
  import opened Risk
  import opened OrderManager

  datatype Sys = Sys(om: OM, reqs: seq<Request>, books: seq<Book>, resps: seq<Response>, position: seq<int>)

  function Start(): Sys {
    Sys(OM(StartTable(), 1), [], seq(ME_MAX_TICKERS, _ => EmptyBook), [], seq(ME_MAX_TICKERS, _ => 0))
  }

  ghost predicate Shaped(s: Sys) {
    TableShape(s.om.orders) && |s.books| == ME_MAX_TICKERS == |s.position|
  }

  /** The gate's limits per ticker, and the client the slots belong to. */
  datatype Config = Config(me: nat, risk: nat -> RiskCfg)

  datatype Step =
    | MoveSlot(ticker: nat, side: Side, price: nat, qty: nat, pnl: real)
    | ServeOwn
    | ServeOther(req: Request)
    | Deliver

  function RiskAt(cfg: Config, s: Sys, ticker: nat, pnl: real): RiskInfo
    requires ticker < |s.position|
  {
    RiskInfo(cfg.risk(ticker), s.position[ticker], pnl)
  }

  /** The environment's side of the bargain; that the client's own requests are admissible is proved, not required. */
  ghost predicate Enabled(cfg: Config, s: Sys, step: Step)
    requires Shaped(s)
  {
    match step
    case MoveSlot(ticker, side, price, qty, pnl) =>
      ticker < ME_MAX_TICKERS && side.Valid() && qty > 0 && s.om.nextId < ME_MAX_ORDER_IDS
    case ServeOwn => s.reqs != [] && s.reqs[0].ticker < ME_MAX_TICKERS && (s.reqs[0].New? ==> s.reqs[0].side.Valid())
    case ServeOther(req) => req.client != cfg.me && req.ticker < ME_MAX_TICKERS && Admissible(s.books[req.ticker], req)
    case Deliver => s.resps != [] && s.resps[0].ticker < ME_MAX_TICKERS
  }

  function ForClient(me: nat): Response -> bool { (r: Response) => r.client == me }

  /** The exchange serves `req`; the client's share of the answers joins its response channel. */
  function Serve(me: nat, s: Sys, req: Request): Sys
    requires req.ticker < |s.books| && (req.New? ==> req.side.Valid())
  {
    var o := Process(s.books[req.ticker], req);
    s.(books := s.books[req.ticker := o.book], resps := s.resps + Pick(o.responses, ForClient(me)))
  }

  /** The position moves by what was executed, and the slot by `onOrderUpdate`. */
  function Delivered(s: Sys, r: Response): Sys
    requires r.ticker < |s.position| && r.ticker < ME_MAX_TICKERS && TableShape(s.om.orders)
  {
    var exec := if r.kind.Filled? then r.exec else 0;
    s.(om := s.om.Updated(r), position := s.position[r.ticker := s.position[r.ticker] + SideValue(r.side) * exec])
  }

  function Next(cfg: Config, s: Sys, step: Step): (s': Sys)
    requires Shaped(s) && Enabled(cfg, s, step)
    ensures Shaped(s')
  {
    match step
    case MoveSlot(ticker, side, price, qty, pnl) =>
      var risk := RiskAt(cfg, s, ticker, pnl);
      s.(om := s.om.MoveSlot(cfg.me, ticker, side, price, qty, risk),
         reqs := s.reqs + s.om.Sends(cfg.me, ticker, side, price, qty, risk))
    case ServeOwn => Serve(cfg.me, s.(reqs := s.reqs[1..]), s.reqs[0])
    case ServeOther(req) => Serve(cfg.me, s, req)
    case Deliver => Delivered(s.(resps := s.resps[1..]), s.resps[0])
  }

  // ---- one slot and its share of both channels -----------------------------------------

  function ToSlot(t: nat, side: Side): Response -> bool { (r: Response) => r.ticker == t && r.side == side }

  function NewFor(t: nat, side: Side): Request -> bool { (q: Request) => q.New? && q.ticker == t && q.side == side }

  /**
   A slot in step with the exchange. `news` are the unserved NEW requests for it, `canceling` whether a
   cancel of its order is unserved, `rs` the responses on their way to it, `open` what its order holds in the book.
   */
  ghost predicate InStep(o: OMOrder, news: seq<Request>, canceling: bool, rs: seq<Response>, open: nat) {
    match o.state
    case Invalid | Dead => news == [] && rs == [] && open == 0
    case PendingNew =>
      || (&& rs == [] && open == 0 && |news| == 1
          && news[0].New? && news[0].oid == o.oid && news[0].price == o.price && news[0].qty == o.qty)
      || (news == [] && rs != [] && rs[0].kind.Accepted? && Track(o.qty, rs[1..], open))
    case Live => news == [] && Track(o.qty, rs, open)
    case PendingCancel => news == [] && Track(o.qty, rs, open) && (open > 0 ==> canceling)
  }

  function Remaining(o: OMOrder): nat {
    if o.state.Invalid? || o.state.Dead? then 0 else o.qty
  }

  /** What a slot remembers about its own order. */
  ghost predicate Named(o: OMOrder, t: nat, side: Side, nextId: nat) {
    if o.state.Invalid? then o.oid == ORDER_ID_INVALID
    else o.ticker == t && o.side == side && o.oid < nextId && (o.state.Dead? || o.qty > 0)
  }

  function Slot(s: Sys, t: nat, side: Side): OMOrder
    requires TableShape(s.om.orders) && t < ME_MAX_TICKERS
  {
    SlotOf(s.om.orders, t, side)
  }

  function InFlight(s: Sys, t: nat, side: Side): seq<Response> { Pick(s.resps, ToSlot(t, side)) }

  ghost predicate SlotOk(me: nat, s: Sys, t: nat, side: Side)
    requires Shaped(s) && t < ME_MAX_TICKERS
  {
    var o := Slot(s, t, side);
    && Named(o, t, side, s.om.nextId)
    && InStep(o, Pick(s.reqs, NewFor(t, side)), Cancel(me, o.oid, t) in s.reqs, InFlight(s, t, side),
        Open(s.books[t], me, o.oid))
  }

  /** The order ids the client uses in one ticker, by side. */
  ghost function Ids(s: Sys, t: nat): map<Side, nat>
    requires Shaped(s) && t < ME_MAX_TICKERS
  {
    map side: Side | side.Valid() && !Slot(s, t, side).state.Invalid? :: Slot(s, t, side).oid
  }

  /** If it is the client's at all, it is the order of its side's slot. */
  ghost predicate Belongs(me: nat, ids: map<Side, nat>, client: nat, oid: nat, side: Side) {
    client == me ==> side in ids && ids[side] == oid
  }

  ghost predicate BookBelongs(me: nat, ids: map<Side, nat>, s: seq<Resting>) {
    forall i | 0 <= i < |s| :: Belongs(me, ids, s[i].client, s[i].oid, s[i].side)
  }

  /** The two slots of a ticker never share an order id, and every order the client rests is its side's slot order. */
  ghost predicate TickerOk(me: nat, s: Sys, t: nat)
    requires Shaped(s) && t < ME_MAX_TICKERS
  {
    var ids := Ids(s, t);
    && Ok(s.books[t])
    && (Buy in ids && Sell in ids ==> ids[Buy] != ids[Sell])
    && BookBelongs(me, ids, s.books[t].bids) && BookBelongs(me, ids, s.books[t].asks)
  }

  ghost predicate RequestOk(me: nat, q: Request) {
    q.client == me && q.ticker < ME_MAX_TICKERS && (q.New? ==> q.side.Valid())
  }

  /** A response names its slot's current order, or is a rejected cancel on its way to the spare slot. */
  ghost predicate ResponseOk(s: Sys, r: Response)
    requires Shaped(s)
  {
    && r.ticker < ME_MAX_TICKERS
    && (if r.kind.CancelRejected? then r.side.InvalidSide?
        else r.side.Valid() && r.oid == Slot(s, r.ticker, r.side).oid)
  }

  ghost predicate Inv(me: nat, s: Sys) {
    && Shaped(s) && s.om.nextId <= ME_MAX_ORDER_IDS
    && (forall t: nat, side: Side | t < ME_MAX_TICKERS && side.Valid() :: SlotOk(me, s, t, side))
    && (forall t: nat | t < ME_MAX_TICKERS :: TickerOk(me, s, t))
    && (forall q | q in s.reqs :: RequestOk(me, q))
    && (forall r | r in s.resps :: ResponseOk(s, r))
  }

  lemma StartInv(me: nat)
    ensures Inv(me, Start())
  {}

  // ---- what the exchange says belongs to the slots --------------------------------------

  ghost predicate AnswerBelongs(me: nat, ids: map<Side, nat>, ticker: nat, r: Response) {
    && r.ticker == ticker
    && (if r.kind.CancelRejected? then r.side.InvalidSide? else Belongs(me, ids, r.client, r.oid, r.side))
  }

  lemma {:induction false} SweepBelongs(ticker: nat, opp: seq<Resting>, t: Taker, left: nat, me: nat, ids: map<Side,
      nat>)
    requires BookBelongs(me, ids, opp) && Belongs(me, ids, t.client, t.oid, t.side)
    ensures var r := SweepSide(ticker, opp, t, left);
      && BookBelongs(me, ids, r.rest)
      && forall i | 0 <= i < |r.responses| :: AnswerBelongs(me, ids, ticker, r.responses[i])
    decreases |opp| + left
  {
    if CanTrade(opp, t, left) {
      var fill := Min(left, opp[0].qty);
      SweepBelongs(ticker, AfterFill(opp, fill), t, left - fill, me, ids);
    }
  }

  lemma AddBelongs(b: Book, ticker: nat, t: Taker, qty: nat, me: nat, ids: map<Side, nat>)
    requires t.side.Valid() && t.mid == b.nextId && BookBelongs(me, ids, b.bids) && BookBelongs(me, ids, b.asks)
    requires Belongs(me, ids, t.client, t.oid, t.side)
    ensures var r := Add(b, ticker, t.client, t.oid, t.side, t.price, qty);
      && BookBelongs(me, ids, r.book.bids) && BookBelongs(me, ids, r.book.asks)
      && forall i | 0 <= i < |r.responses| :: AnswerBelongs(me, ids, ticker, r.responses[i])
  {
    var own, opp := b.Of(t.side), b.Of(t.side.Opposite());
    var sweep := SweepSide(ticker, opp, t, qty);
    SweepBelongs(ticker, opp, t, qty, me, ids);
    InsertBelongs(own, Resting(t.client, t.oid, t.mid, t.side, t.price, sweep.left, NextPriority(own, t.price)), me,
        ids);
    var rs := [AcceptedMsg(ticker, t, qty)] + sweep.responses;
    forall i | 0 <= i < |rs| ensures AnswerBelongs(me, ids, ticker, rs[i]) {
      if i > 0 { assert rs[i] == sweep.responses[i - 1]; }
    }
  }

  lemma InsertBelongs(s: seq<Resting>, r: Resting, me: nat, ids: map<Side, nat>)
    requires BookBelongs(me, ids, s) && Belongs(me, ids, r.client, r.oid, r.side)
    ensures BookBelongs(me, ids, Insert(s, r))
  {
    var k := InsertAt(s, r);
    var s' := s[..k] + [r] + s[k..];
    forall i | 0 <= i < |s'| ensures Belongs(me, ids, s'[i].client, s'[i].oid, s'[i].side) {
      if i != k { assert s'[i] == s[if i < k then i else i - 1]; }
    }
  }

  lemma {:induction false} WithoutBelongs(s: seq<Resting>, mid: nat, me: nat, ids: map<Side, nat>)
    requires BookBelongs(me, ids, s)
    ensures BookBelongs(me, ids, Without(s, mid))
  {
    if s != [] { WithoutBelongs(s[1..], mid, me, ids); }
  }

  lemma CancelBelongs(b: Book, ticker: nat, client: nat, oid: nat, me: nat, ids: map<Side, nat>)
    requires BookBelongs(me, ids, b.bids) && BookBelongs(me, ids, b.asks)
    ensures var r := CancelById(b, ticker, client, oid);
      && BookBelongs(me, ids, r.book.bids) && BookBelongs(me, ids, r.book.asks)
      && forall i | 0 <= i < |r.responses| :: AnswerBelongs(me, ids, ticker, r.responses[i])
  {
    var found := Find(b.bids + b.asks, client, oid);
    if client < ME_MAX_NUM_CLIENTS && found.Some? {
      var x := found.value;
      assert x in b.bids || x in b.asks;
      WithoutBelongs(b.Of(x.side), x.mid, me, ids);
    }
  }

  lemma ProcessBelongs(b: Book, req: Request, me: nat, ids: map<Side, nat>)
    requires BookBelongs(me, ids, b.bids) && BookBelongs(me, ids, b.asks)
    requires req.New? ==> req.side.Valid() && Belongs(me, ids, req.client, req.oid, req.side)
    ensures var r := Process(b, req);
      && BookBelongs(me, ids, r.book.bids) && BookBelongs(me, ids, r.book.asks)
      && forall i | 0 <= i < |r.responses| :: AnswerBelongs(me, ids, req.ticker, r.responses[i])
  {
    match req
    case New(client, oid, ticker, side, price, qty) => AddBelongs(b, ticker, Taker(client, oid, b.nextId, side, price),
        qty, me, ids);
    case Cancel(client, oid, ticker) => CancelBelongs(b, ticker, client, oid, me, ids);
  }

  /** Choosing by (ticker, side), as the slots do, chooses the same answers as choosing by order id would. */
  lemma SideFindsOrder(rs: seq<Response>, me: nat, ids: map<Side, nat>, ticker: nat, side: Side, oid: nat)
    requires side.Valid() && forall i | 0 <= i < |rs| :: AnswerBelongs(me, ids, ticker, rs[i])
    requires forall k | k in ids :: k == side <==> ids[k] == oid
    ensures Pick(Pick(rs, ForClient(me)), ToSlot(ticker, side)) == About(rs, me, oid)
  {
    PickTwice(rs, ForClient(me), ToSlot(ticker, side), Names(me, oid));
  }

  // ---- one slot through one service -----------------------------------------------------

  /** The slot keeps step when the exchange tells it how its order's open quantity moved. */
  lemma ToldKeepsStep(o: OMOrder, news: seq<Request>, canceling: bool, rs: seq<Response>, open: nat,
                      log: seq<Response>, open': nat, canceling': bool)
    requires InStep(o, news, canceling, rs, open) && Track(open, log, open')
    requires open' > 0 && canceling ==> canceling'
    ensures InStep(o, news, canceling', rs + log, open')
  {
    match o.state
    case Invalid | Dead =>
    case PendingNew =>
      if rs != [] {
        assert (rs + log)[1..] == rs[1..] + log;
        TrackJoin(o.qty, rs[1..], open, log, open');
      }
    case Live | PendingCancel => TrackJoin(o.qty, rs, open, log, open');
  }

  lemma SlotIsItsSide(me: nat, s: Sys, t: nat, side: Side)
    requires Inv(me, s) && t < ME_MAX_TICKERS && side.Valid()
    ensures forall k | k in Ids(s, t) :: k == side <==> Ids(s, t)[k] == Slot(s, t, side).oid
  {
    assert SlotOk(me, s, t, side) && TickerOk(me, s, t);
    forall k | k in Ids(s, t) ensures k == side <==> Ids(s, t)[k] == Slot(s, t, side).oid {
      assert SlotOk(me, s, t, k);
      assert k == Buy || k == Sell;
    }
  }

  /** The client's own NEW is admissible: its id is fresh in the book. */
  lemma OwnIsAdmissible(me: nat, s: Sys)
    requires Inv(me, s) && s.reqs != []
    ensures RequestOk(me, s.reqs[0]) && Admissible(s.books[s.reqs[0].ticker], s.reqs[0])
    ensures var q := s.reqs[0];
      q.New? ==> Slot(s, q.ticker, q.side).state.PendingNew? && Slot(s, q.ticker, q.side).oid == q.oid
  {
    var q := s.reqs[0];
    assert q in s.reqs && RequestOk(me, q);
    if q.New? {
      var b := s.books[q.ticker];
      assert SlotOk(me, s, q.ticker, q.side);
      PickFinds(s.reqs, NewFor(q.ticker, q.side), q);
      assert Open(b, me, q.oid) == 0;
      forall x | x in b.bids + b.asks ensures !(x.client == me && x.oid == q.oid) {
        if x.client == me && x.oid == q.oid {
          assert TickerOk(me, s, q.ticker);
          FindOpen(b, x, me, q.oid);
        }
      }
    }
  }

  /**
   A request the exchange may serve next: the head of the client's channel, or anything admissible from another client.
   */
  ghost predicate Servable(me: nat, s: Sys, req: Request, own: bool)
    requires Shaped(s)
  {
    && req.ticker < ME_MAX_TICKERS && Admissible(s.books[req.ticker], req)
    && (if own then s.reqs != [] && req == s.reqs[0] else req.client != me)
  }

  function Taken(s: Sys, own: bool): Sys
    requires own ==> s.reqs != []
  {
    if own then s.(reqs := s.reqs[1..]) else s
  }

  lemma ServableBelongs(me: nat, s: Sys, req: Request, own: bool)
    requires Inv(me, s) && Servable(me, s, req, own)
    ensures req.New? ==> Belongs(me, Ids(s, req.ticker), req.client, req.oid, req.side)
    ensures own ==> req.client == me
  {
    if own { OwnIsAdmissible(me, s); }
  }

  /** What a service adds to a slot's share of the response channel. */
  lemma ServeAdds(me: nat, s: Sys, req: Request, own: bool, t: nat, side: Side)
    requires Inv(me, s) && Servable(me, s, req, own) && t < ME_MAX_TICKERS && side.Valid()
    ensures InFlight(Serve(me, Taken(s, own), req), t, side) == InFlight(s, t, side)
      + if t == req.ticker then About(Process(s.books[t], req).responses, me, Slot(s, t, side).oid) else []
  {
    var ids, rs := Ids(s, req.ticker), Process(s.books[req.ticker], req).responses;
    assert TickerOk(me, s, req.ticker);
    ServableBelongs(me, s, req, own);
    ProcessBelongs(s.books[req.ticker], req, me, ids);
    PickAppend(s.resps, Pick(rs, ForClient(me)), ToSlot(t, side));
    if t == req.ticker {
      SlotIsItsSide(me, s, t, side);
      SideFindsOrder(rs, me, ids, t, side, Slot(s, t, side).oid);
    } else {
      PickNone(Pick(rs, ForClient(me)), ToSlot(t, side));
    }
  }

  /** Taking a request that is not a NEW for the slot leaves the slot's share of the requests as it was. */
  lemma TakeSkips(s: Sys, own: bool, t: nat, side: Side)
    requires own ==> s.reqs != [] && !NewFor(t, side)(s.reqs[0])
    ensures Pick(Taken(s, own).reqs, NewFor(t, side)) == Pick(s.reqs, NewFor(t, side))
  {}

  /** A slot of another ticker. */
  lemma ServeElsewhere(me: nat, s: Sys, req: Request, own: bool, t: nat, side: Side)
    requires Inv(me, s) && Servable(me, s, req, own) && t < ME_MAX_TICKERS && side.Valid() && t != req.ticker
    ensures SlotOk(me, Serve(me, Taken(s, own), req), t, side)
  {
    var o, s' := Slot(s, t, side), Serve(me, Taken(s, own), req);
    ServeAdds(me, s, req, own, t, side);
    TakeSkips(s, own, t, side);
    assert SlotOk(me, s, t, side);
    assert InFlight(s', t, side) == InFlight(s, t, side);
    assert own && Cancel(me, o.oid, t) in s.reqs ==> Cancel(me, o.oid, t) in s.reqs[1..];
  }

  lemma AcceptedKeepsStep(o: OMOrder, req: Request, news: seq<Request>, canceling: bool, rs: seq<Response>, open: nat,
                          log: seq<Response>, open': nat, canceling': bool)
    requires InStep(o, [req] + news, canceling, rs, open)
    requires log != [] && log[0].kind.Accepted? && req.New? && Track(req.qty, log[1..], open')
    ensures o.state.PendingNew? && InStep(o, news, canceling', rs + log, open')
  {
    assert rs + log == log;
  }

  /** The client's own NEW reaches the book. */
  lemma ServeNew(me: nat, s: Sys, req: Request)
    requires Inv(me, s) && Servable(me, s, req, true) && req.New?
    ensures SlotOk(me, Serve(me, Taken(s, true), req), req.ticker, req.side)
  {
    var t, side, b, s' := req.ticker, req.side, s.books[req.ticker], Serve(me, Taken(s, true), req);
    var o := Slot(s, t, side);
    OwnIsAdmissible(me, s);
    assert SlotOk(me, s, t, side) && TickerOk(me, s, t);
    ServeAdds(me, s, req, true, t, side);
    AddTellsOwner(b, t, Taker(me, req.oid, b.nextId, side, req.price), req.qty);
    AcceptedKeepsStep(o, req, Pick(s'.reqs, NewFor(t, side)), Cancel(me, o.oid, t) in s.reqs, InFlight(s, t, side),
        Open(b, me, o.oid),
                      About(Process(b, req).responses, me, o.oid), Open(s'.books[t], me, o.oid),
                          Cancel(me, o.oid, t) in s'.reqs);
  }

  /** Any other service in the slot's own ticker. */
  lemma ServeHere(me: nat, s: Sys, req: Request, own: bool, side: Side)
    requires Inv(me, s) && me < ME_MAX_NUM_CLIENTS && Servable(me, s, req, own) && side.Valid()
    requires !(own && req.New? && req.side == side)
    ensures SlotOk(me, Serve(me, Taken(s, own), req), req.ticker, side)
  {
    var t, b, o := req.ticker, s.books[req.ticker], Slot(s, req.ticker, side);
    var s' := Serve(me, Taken(s, own), req);
    assert SlotOk(me, s, t, side) && TickerOk(me, s, t);
    ServeAdds(me, s, req, own, t, side);
    NotThisOrder(me, s, req, own, side);
    TakeSkips(s, own, t, side);
    ProcessTells(b, req, me, o.oid);
    var open' := Open(s'.books[t], me, o.oid);
    if open' > 0 && Cancel(me, o.oid, t) in s.reqs && own && req == Cancel(me, o.oid, t) {
      CancelTells(b, t, me, o.oid, me, o.oid);
    }
    ToldKeepsStep(o, Pick(s.reqs, NewFor(t, side)), Cancel(me, o.oid, t) in s.reqs, InFlight(s, t, side),
        Open(b, me, o.oid),
                  About(Process(b, req).responses, me, o.oid), open', Cancel(me, o.oid, t) in s'.reqs);
  }

  lemma NotThisOrder(me: nat, s: Sys, req: Request, own: bool, side: Side)
    requires Inv(me, s) && Servable(me, s, req, own) && side.Valid()
    requires !(own && req.New? && req.side == side)
    ensures !IsNew(req, me, Slot(s, req.ticker, side).oid)
  {
    ServableBelongs(me, s, req, own);
    SlotIsItsSide(me, s, req.ticker, side);
  }

  lemma ServeTicker(me: nat, s: Sys, req: Request, own: bool, t: nat)
    requires Inv(me, s) && Servable(me, s, req, own) && t < ME_MAX_TICKERS
    ensures TickerOk(me, Serve(me, Taken(s, own), req), t)
  {
    var s' := Serve(me, Taken(s, own), req);
    assert TickerOk(me, s, t) && Ids(s', t) == Ids(s, t);
    if t == req.ticker {
      ServableBelongs(me, s, req, own);
      ProcessBelongs(s.books[t], req, me, Ids(s, t));
      ProcessKeepsOk(s.books[t], req);
    }
  }

  lemma ServeResponses(me: nat, s: Sys, req: Request, own: bool)
    requires Inv(me, s) && Servable(me, s, req, own)
    ensures var s' := Serve(me, Taken(s, own), req); forall r | r in s'.resps :: ResponseOk(s', r)
  {
    var s', rs := Serve(me, Taken(s, own), req), Process(s.books[req.ticker], req).responses;
    assert TickerOk(me, s, req.ticker);
    ServableBelongs(me, s, req, own);
    ProcessBelongs(s.books[req.ticker], req, me, Ids(s, req.ticker));
    forall r | r in s'.resps ensures ResponseOk(s', r) {
      if r in s.resps {
        assert ResponseOk(s, r);
      } else {
        assert r in rs && ForClient(me)(r);
        assert AnswerBelongs(me, Ids(s, req.ticker), req.ticker, r);
      }
    }
  }

  lemma ServeKeeps(me: nat, s: Sys, req: Request, own: bool)
    requires Inv(me, s) && me < ME_MAX_NUM_CLIENTS && Servable(me, s, req, own)
    ensures Inv(me, Serve(me, Taken(s, own), req))
  {
    var s' := Serve(me, Taken(s, own), req);
    forall t: nat, side: Side | t < ME_MAX_TICKERS && side.Valid() ensures SlotOk(me, s', t, side) {
      if t != req.ticker {
        ServeElsewhere(me, s, req, own, t, side);
      } else if own && req.New? && req.side == side {
        ServeNew(me, s, req);
      } else {
        ServeHere(me, s, req, own, side);
      }
    }
    forall t: nat | t < ME_MAX_TICKERS ensures TickerOk(me, s', t) { ServeTicker(me, s, req, own, t); }
    ServeResponses(me, s, req, own);
    forall q | q in s'.reqs ensures RequestOk(me, q) { assert q in s.reqs; }
  }

  // ---- the client moves a slot ------------------------------------------------------------

  /** No order of the client rests on a side whose slot is free. */
  lemma FreeSideIsEmpty(me: nat, s: Sys, t: nat, side: Side)
    requires Inv(me, s) && t < ME_MAX_TICKERS && side.Valid()
    requires Slot(s, t, side).state.Invalid? || Slot(s, t, side).state.Dead?
    ensures forall x | x in s.books[t].bids + s.books[t].asks :: x.client == me ==> x.side != side
    ensures forall r | r in s.resps :: !(r.ticker == t && r.side == side)
  {
    var b, o := s.books[t], Slot(s, t, side);
    assert SlotOk(me, s, t, side) && TickerOk(me, s, t);
    forall x | x in b.bids + b.asks && x.client == me ensures x.side != side {
      assert Belongs(me, Ids(s, t), x.client, x.oid, x.side) by { assert x in b.bids || x in b.asks; }
      if x.side == side { FindOpen(b, x, me, o.oid); }
    }
    forall r | r in s.resps ensures !(r.ticker == t && r.side == side) {
      if ToSlot(t, side)(r) { PickFinds(s.resps, ToSlot(t, side), r); }
    }
  }

  /** A slot the client does not touch, while it sends `sent` for another. */
  lemma MoveElsewhere(me: nat, s: Sys, s': Sys, t: nat, side: Side, sent: seq<Request>)
    requires Shaped(s) && Shaped(s') && t < ME_MAX_TICKERS && SlotOk(me, s, t, side)
    requires Slot(s', t, side) == Slot(s, t, side) && s'.om.nextId >= s.om.nextId
    requires s'.books == s.books && s'.resps == s.resps && s'.reqs == s.reqs + sent
    requires forall q | q in sent :: !NewFor(t, side)(q)
    ensures SlotOk(me, s', t, side)
  {
    PickAppend(s.reqs, sent, NewFor(t, side));
    PickNone(sent, NewFor(t, side));
  }

  /** From `s` to `s'` only one slot changed and `sent` joined the request channel. */
  ghost predicate Moves(s: Sys, s': Sys, t: nat, side: Side, o': OMOrder, sent: seq<Request>)
    requires Shaped(s) && t < ME_MAX_TICKERS
  {
    && Shaped(s') && Slot(s', t, side) == o'
    && (forall t': nat, side': Side | t' < ME_MAX_TICKERS && (t' != t || side' != side) ::
        Slot(s', t', side') == Slot(s, t', side'))
    && s'.reqs == s.reqs + sent && s'.books == s.books && s'.resps == s.resps && s'.position == s.position
  }

  ghost predicate Cancels(me: nat, s: Sys, s': Sys, t: nat, side: Side)
    requires Shaped(s) && t < ME_MAX_TICKERS
  {
    var o := Slot(s, t, side);
    o.state.Live? && s'.om.nextId == s.om.nextId
        && Moves(s, s', t, side, o.(state := PendingCancel), [Cancel(me, o.oid, o.ticker)])
  }

  ghost predicate Opens(me: nat, s: Sys, s': Sys, t: nat, side: Side, price: nat, qty: nat)
    requires Shaped(s) && t < ME_MAX_TICKERS
  {
    var id := s.om.nextId;
    && (Slot(s, t, side).state.Invalid? || Slot(s, t, side).state.Dead?)
    && qty > 0 && id < ME_MAX_ORDER_IDS && s'.om.nextId == id + 1
    && Moves(s, s', t, side, OMOrder(t, id, side, price, qty, PendingNew), [New(me, id, t, side, price, qty)])
  }

  /** A move does one of three things, and opens a slot only through the gate. */
  lemma MoveCases(cfg: Config, s: Sys, step: Step)
    requires Shaped(s) && step.MoveSlot? && Enabled(cfg, s, step)
    ensures var s', t, side := Next(cfg, s, step), step.ticker, step.side;
      || s' == s
      || Cancels(cfg.me, s, s', t, side)
      || (&& Opens(cfg.me, s, s', t, side, step.price, step.qty)
          && RiskAt(cfg, s, t, step.pnl).CheckPreTradeRisk(side, step.qty).Allowed?)
  {
    SetSame(s.om.orders, step.ticker, step.side);
    assert s.reqs + [] == s.reqs;
  }

  lemma CancelSlot(me: nat, s: Sys, s': Sys, t: nat, side: Side)
    requires Inv(me, s) && t < ME_MAX_TICKERS && side.Valid() && Cancels(me, s, s', t, side)
    ensures SlotOk(me, s', t, side)
  {
    assert SlotOk(me, s, t, side);
    var q := Cancel(me, Slot(s, t, side).oid, t);
    PickAppend(s.reqs, [q], NewFor(t, side));
    PickNone([q], NewFor(t, side));
    assert q in s'.reqs;
  }

  lemma CancelKeeps(me: nat, s: Sys, s': Sys, t: nat, side: Side)
    requires Inv(me, s) && t < ME_MAX_TICKERS && side.Valid() && Cancels(me, s, s', t, side)
    ensures Inv(me, s')
  {
    assert SlotOk(me, s, t, side);
    forall t': nat, side': Side | t' < ME_MAX_TICKERS && side'.Valid() ensures SlotOk(me, s', t', side') {
      if t' == t && side' == side {
        CancelSlot(me, s, s', t, side);
      } else {
        assert SlotOk(me, s, t', side');
        MoveElsewhere(me, s, s', t', side', [Cancel(me, Slot(s, t, side).oid, t)]);
      }
    }
    forall t': nat | t' < ME_MAX_TICKERS ensures TickerOk(me, s', t') {
      assert TickerOk(me, s, t') && Ids(s', t') == Ids(s, t');
    }
    forall r | r in s'.resps ensures ResponseOk(s', r) { assert ResponseOk(s, r); }
  }

  lemma FreshIdIsClosed(me: nat, s: Sys, t: nat)
    requires Inv(me, s) && t < ME_MAX_TICKERS
    ensures Open(s.books[t], me, s.om.nextId) == 0
  {
    var b := s.books[t];
    assert TickerOk(me, s, t) && SlotOk(me, s, t, Buy) && SlotOk(me, s, t, Sell);
    forall x | x in b.bids || x in b.asks ensures !(x.client == me && x.oid == s.om.nextId) {
      assert Belongs(me, Ids(s, t), x.client, x.oid, x.side);
    }
    OpenAbsent(b.bids, me, s.om.nextId);
    OpenAbsent(b.asks, me, s.om.nextId);
  }

  lemma OpenSlot(me: nat, s: Sys, s': Sys, t: nat, side: Side, price: nat, qty: nat)
    requires Inv(me, s) && t < ME_MAX_TICKERS && side.Valid() && Opens(me, s, s', t, side, price, qty)
    ensures SlotOk(me, s', t, side)
  {
    assert SlotOk(me, s, t, side);
    var q := New(me, s.om.nextId, t, side, price, qty);
    PickAppend(s.reqs, [q], NewFor(t, side));
    PickOne(q, NewFor(t, side));
    FreshIdIsClosed(me, s, t);
  }

  /** Entering an order in a free slot renames the slot; no resting order and no response used the old name. */
  lemma OpenTicker(me: nat, s: Sys, s': Sys, t: nat, side: Side, price: nat, qty: nat)
    requires Inv(me, s) && t < ME_MAX_TICKERS && side.Valid() && Opens(me, s, s', t, side, price, qty)
    ensures TickerOk(me, s', t)
  {
    var b, ids, ids' := s.books[t], Ids(s, t), Ids(s', t);
    assert TickerOk(me, s, t) && SlotOk(me, s, t, Buy) && SlotOk(me, s, t, Sell);
    FreeSideIsEmpty(me, s, t, side);
    forall x | x in b.bids || x in b.asks ensures Belongs(me, ids', x.client, x.oid, x.side) {
      assert Belongs(me, ids, x.client, x.oid, x.side);
      assert x in b.bids + b.asks;
    }
  }

  lemma OpenKeeps(me: nat, s: Sys, s': Sys, t: nat, side: Side, price: nat, qty: nat)
    requires Inv(me, s) && t < ME_MAX_TICKERS && side.Valid() && Opens(me, s, s', t, side, price, qty)
    ensures Inv(me, s')
  {
    forall t': nat, side': Side | t' < ME_MAX_TICKERS && side'.Valid() ensures SlotOk(me, s', t', side') {
      if t' == t && side' == side {
        OpenSlot(me, s, s', t, side, price, qty);
      } else {
        assert SlotOk(me, s, t', side');
        MoveElsewhere(me, s, s', t', side', [New(me, s.om.nextId, t, side, price, qty)]);
      }
    }
    forall t': nat | t' < ME_MAX_TICKERS ensures TickerOk(me, s', t') {
      if t' == t {
        OpenTicker(me, s, s', t, side, price, qty);
      } else {
        assert TickerOk(me, s, t') && Ids(s', t') == Ids(s, t');
      }
    }
    FreeSideIsEmpty(me, s, t, side);
    forall r | r in s'.resps ensures ResponseOk(s', r) { assert ResponseOk(s, r); }
  }

  // ---- a response is delivered --------------------------------------------------------------

  /** Whatever response reaches a slot in step, the slot's new state is in step with the rest. */
  lemma UpdateKeepsStep(o: OMOrder, news: seq<Request>, canceling: bool, r: Response, rs: seq<Response>, open: nat)
    requires InStep(o, news, canceling, [r] + rs, open) && (o.state.Dead? || o.state.Invalid? || o.qty > 0)
    ensures var o' := OnUpdate(o, r);
      && InStep(o', news, canceling, rs, open)
      && (o'.state.Dead? || o'.qty > 0) && !o'.state.Invalid? && !o.state.Invalid?
      && Remaining(o') + (if r.kind.Filled? then r.exec else 0) <= Remaining(o)
  {
    assert ([r] + rs)[1..] == rs;
  }

  lemma DeliverSlot(me: nat, s: Sys, t: nat, side: Side)
    requires Inv(me, s) && s.resps != [] && s.resps[0].ticker < ME_MAX_TICKERS && t < ME_MAX_TICKERS && side.Valid()
    ensures SlotOk(me, Delivered(s.(resps := s.resps[1..]), s.resps[0]), t, side)
  {
    var r, o := s.resps[0], Slot(s, t, side);
    var s' := Delivered(s.(resps := s.resps[1..]), r);
    assert SlotOk(me, s, t, side);
    if ToSlot(t, side)(r) {
      UpdateKeepsStep(o, Pick(s.reqs, NewFor(t, side)), Cancel(me, o.oid, t) in s.reqs, r, InFlight(s', t, side),
          Open(s.books[t], me, o.oid));
    } else {
      assert InFlight(s', t, side) == InFlight(s, t, side);
    }
  }

  lemma DeliverKeeps(me: nat, s: Sys)
    requires Inv(me, s) && s.resps != [] && s.resps[0].ticker < ME_MAX_TICKERS
    ensures Inv(me, Delivered(s.(resps := s.resps[1..]), s.resps[0]))
  {
    var r := s.resps[0];
    var s' := Delivered(s.(resps := s.resps[1..]), r);
    assert ResponseOk(s, r);
    forall t: nat, side: Side | t < ME_MAX_TICKERS && side.Valid()
      ensures SlotOk(me, s', t, side)
    {
      DeliverSlot(me, s, t, side);
    }
    forall t: nat | t < ME_MAX_TICKERS ensures TickerOk(me, s', t) { DeliverTicker(me, s, t); }
    forall x | x in s'.resps ensures ResponseOk(s', x) { assert x in s.resps && ResponseOk(s, x); }
  }

  lemma DeliverTicker(me: nat, s: Sys, t: nat)
    requires Inv(me, s) && s.resps != [] && s.resps[0].ticker < ME_MAX_TICKERS && t < ME_MAX_TICKERS
    ensures TickerOk(me, Delivered(s.(resps := s.resps[1..]), s.resps[0]), t)
  {
    var r := s.resps[0];
    var s' := Delivered(s.(resps := s.resps[1..]), r);
    assert TickerOk(me, s, t) && ResponseOk(s, r);
    forall side: Side | side.Valid()
      ensures Slot(s', t, side).oid == Slot(s, t, side).oid
          && (Slot(s', t, side).state.Invalid? <==> Slot(s, t, side).state.Invalid?)
    {
      assert SlotOk(me, s, t, side);
      if ToSlot(t, side)(r) { assert InFlight(s, t, side) != []; }
    }
    assert Ids(s', t) == Ids(s, t);
  }
}
