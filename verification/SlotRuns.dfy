/** What holds in every run of the slot protocol: safety, quiescence and the position limit. */
module SlotRuns {
  import opened Types
  import opened PriceTime
  import opened Picking
  import opened ClientLog
  import opened Risk
  import opened OrderManager
  import opened Slots

  lemma NextKeeps(cfg: Config, s: Sys, step: Step)
    requires cfg.me < ME_MAX_NUM_CLIENTS && Inv(cfg.me, s) && Enabled(cfg, s, step)
    ensures Inv(cfg.me, Next(cfg, s, step))
  {
    match step
    case MoveSlot(ticker, side, price, qty, pnl) =>
      MoveCases(cfg, s, step);
      var s' := Next(cfg, s, step);
      if Cancels(cfg.me, s, s', ticker, side) {
        CancelKeeps(cfg.me, s, s', ticker, side);
      } else if Opens(cfg.me, s, s', ticker, side, price, qty) {
        OpenKeeps(cfg.me, s, s', ticker, side, price, qty);
      }
    case ServeOwn =>
      OwnIsAdmissible(cfg.me, s);
      ServeKeeps(cfg.me, s, s.reqs[0], true);
    case ServeOther(req) => ServeKeeps(cfg.me, s, req, false);
    case Deliver => DeliverKeeps(cfg.me, s);
  }

  // ---- the position limit ------------------------------------------------------------------

  /** Even if everything still open on one side fills and nothing on the other does, the limit holds. */
  ghost predicate Room(cfg: Config, s: Sys, t: nat)
    requires Shaped(s) && t < ME_MAX_TICKERS
  {
    var max: int := cfg.risk(t).maxPosition;
    && s.position[t] + Remaining(Slot(s, t, Buy)) <= max
    && s.position[t] - Remaining(Slot(s, t, Sell)) >= -max
    && Remaining(Slot(s, t, Buy)) <= cfg.risk(t).maxOrderSize && Remaining(Slot(s, t, Sell)) <= cfg.risk(t).maxOrderSize
  }

  lemma DeliverRoom(cfg: Config, s: Sys, t: nat)
    requires Inv(cfg.me, s) && s.resps != [] && s.resps[0].ticker < ME_MAX_TICKERS && t < ME_MAX_TICKERS
        && Room(cfg, s, t)
    ensures Room(cfg, Delivered(s.(resps := s.resps[1..]), s.resps[0]), t)
  {
    var r := s.resps[0];
    var s' := Delivered(s.(resps := s.resps[1..]), r);
    assert ResponseOk(s, r);
    if r.ticker == t && r.side.Valid() {
      assert SlotOk(cfg.me, s, t, r.side);
      var o := Slot(s, t, r.side);
      UpdateKeepsStep(o, Pick(s.reqs, NewFor(t, r.side)), Cancel(cfg.me, o.oid, t) in s.reqs, r,
          InFlight(s', t, r.side), Open(s.books[t], cfg.me, o.oid));
      assert Slot(s', t, r.side.Opposite()) == Slot(s, t, r.side.Opposite());
    }
  }

  lemma OpenRoom(cfg: Config, s: Sys, s': Sys, t: nat, side: Side, price: nat, qty: nat, pnl: real)
    requires Shaped(s) && t < ME_MAX_TICKERS && side.Valid() && Opens(cfg.me, s, s', t, side, price, qty)
        && Room(cfg, s, t)
    requires RiskAt(cfg, s, t, pnl).CheckPreTradeRisk(side, qty).Allowed?
    ensures Room(cfg, s', t)
  {
    assert Slot(s', t, side.Opposite()) == Slot(s, t, side.Opposite());
  }

  lemma NextRoom(cfg: Config, s: Sys, step: Step, t: nat)
    requires Inv(cfg.me, s) && Enabled(cfg, s, step) && t < ME_MAX_TICKERS && Room(cfg, s, t)
    ensures Room(cfg, Next(cfg, s, step), t)
  {
    match step
    case MoveSlot(ticker, side, price, qty, pnl) =>
      MoveCases(cfg, s, step);
      var s' := Next(cfg, s, step);
      if ticker == t && Opens(cfg.me, s, s', ticker, side, price, qty) {
        OpenRoom(cfg, s, s', t, side, price, qty, pnl);
      }
    case ServeOwn =>
    case ServeOther(req) =>
    case Deliver => DeliverRoom(cfg, s, t);
  }

  // ---- every run ------------------------------------------------------------------------------

  ghost predicate CanRun(cfg: Config, s: Sys, steps: seq<Step>)
    requires Shaped(s)
    decreases |steps|
  {
    steps == [] || (Enabled(cfg, s, steps[0]) && CanRun(cfg, Next(cfg, s, steps[0]), steps[1..]))
  }

  ghost function After(cfg: Config, s: Sys, steps: seq<Step>): (s': Sys)
    requires Shaped(s) && CanRun(cfg, s, steps)
    ensures Shaped(s')
    decreases |steps|
  {
    if steps == [] then s else After(cfg, Next(cfg, s, steps[0]), steps[1..])
  }

  ghost predicate Safe(cfg: Config, s: Sys) {
    Inv(cfg.me, s) && forall t: nat | t < ME_MAX_TICKERS :: Room(cfg, s, t)
  }

  lemma {:induction false} RunIsSafe(cfg: Config, s: Sys, steps: seq<Step>)
    requires cfg.me < ME_MAX_NUM_CLIENTS && Safe(cfg, s) && CanRun(cfg, s, steps)
    ensures Safe(cfg, After(cfg, s, steps))
    decreases |steps|
  {
    if steps != [] {
      NextKeeps(cfg, s, steps[0]);
      var s' := Next(cfg, s, steps[0]);
      forall t: nat | t < ME_MAX_TICKERS ensures Room(cfg, s', t) { NextRoom(cfg, s, steps[0], t); }
      RunIsSafe(cfg, s', steps[1..]);
    }
  }

  lemma StartIsSafe(cfg: Config)
    ensures Safe(cfg, Start())
  {
    StartInv(cfg.me);
  }

  /**
   Slot protocol. In every run: a response on its way to a (ticker, side) slot belongs to the slot's current
   order; the client has at most one live order per slot, and it is that order.
   */
  lemma SlotSafety(cfg: Config, steps: seq<Step>)
    requires cfg.me < ME_MAX_NUM_CLIENTS && CanRun(cfg, Start(), steps)
    ensures var s := After(cfg, Start(), steps);
      && (forall r | r in s.resps && r.side.Valid() ::
          r.ticker < ME_MAX_TICKERS && r.oid == Slot(s, r.ticker, r.side).oid)
      && (forall t: nat, x, y | t < ME_MAX_TICKERS && x in s.books[t].bids + s.books[t].asks
          && y in s.books[t].bids + s.books[t].asks ::
            x.client == cfg.me == y.client && x.side == y.side ==> x == y && x.oid == Slot(s, t, x.side).oid)
  {
    StartIsSafe(cfg);
    RunIsSafe(cfg, Start(), steps);
    var s := After(cfg, Start(), steps);
    forall r | r in s.resps && r.side.Valid()
        ensures r.ticker < ME_MAX_TICKERS && r.oid == Slot(s, r.ticker, r.side).oid
    {
      assert ResponseOk(s, r);
    }
    forall t: nat, x, y | t < ME_MAX_TICKERS && x in s.books[t].bids + s.books[t].asks
        && y in s.books[t].bids + s.books[t].asks
      && x.client == cfg.me == y.client && x.side == y.side
      ensures x == y && x.oid == Slot(s, t, x.side).oid
    {
      OneLive(cfg.me, s, t, x, y);
    }
  }

  lemma OneLive(me: nat, s: Sys, t: nat, x: Resting, y: Resting)
    requires Inv(me, s) && t < ME_MAX_TICKERS
    requires x in s.books[t].bids + s.books[t].asks && y in s.books[t].bids + s.books[t].asks
    requires x.client == me == y.client && x.side == y.side
    ensures x == y && x.oid == Slot(s, t, x.side).oid
  {
    var all, ids := s.books[t].bids + s.books[t].asks, Ids(s, t);
    assert TickerOk(me, s, t);
    var i :| 0 <= i < |all| && all[i] == x;
    var j :| 0 <= j < |all| && all[j] == y;
    assert Belongs(me, ids, x.client, x.oid, x.side) by { assert x in s.books[t].bids || x in s.books[t].asks; }
    assert Belongs(me, ids, y.client, y.oid, y.side) by { assert y in s.books[t].bids || y in s.books[t].asks; }
  }

  /**
   With both channels drained no slot is waiting, and a slot is LIVE exactly when its order rests, with the same
   quantity.
   */
  lemma Quiescent(cfg: Config, steps: seq<Step>, t: nat, side: Side)
    requires cfg.me < ME_MAX_NUM_CLIENTS && CanRun(cfg, Start(), steps) && t < ME_MAX_TICKERS && side.Valid()
    requires After(cfg, Start(), steps).reqs == [] && After(cfg, Start(), steps).resps == []
    ensures var s := After(cfg, Start(), steps); var o := Slot(s, t, side); var open := Open(s.books[t], cfg.me, o.oid);
      && (o.state.Invalid? || o.state.Dead? || o.state.Live?)
      && (o.state.Live? <==> open > 0)
      && (o.state.Live? ==> open == o.qty)
  {
    StartIsSafe(cfg);
    RunIsSafe(cfg, Start(), steps);
    assert SlotOk(cfg.me, After(cfg, Start(), steps), t, side);
  }

  /** What the client really holds: its booked position and the fills it has not been told of yet. */
  function Held(s: Sys, t: nat): int
    requires t < |s.position|
  {
    s.position[t] + Executed(InFlight(s, t, Buy)) - Executed(InFlight(s, t, Sell))
  }

  // ---- the position is what was executed -----------------------------------------------------

  /** What one response moves a ticker's position by. */
  function Signed(r: Response, t: nat): int {
    var exec: int := r.exec;
    if !r.kind.Filled? || r.ticker != t then 0
    else match r.side case Buy => exec case Sell => -exec case InvalidSide => 0
  }

  /** Bought less sold in a ticker, over a stream of responses. */
  function NetOf(rs: seq<Response>, t: nat): int {
    if rs == [] then 0 else Signed(rs[0], t) + NetOf(rs[1..], t)
  }

  lemma {:induction false} NetAppend(a: seq<Response>, b: seq<Response>, t: nat)
    ensures NetOf(a + b, t) == NetOf(a, t) + NetOf(b, t)
  {
    if a == [] {
      assert a + b == b;
    } else {
      assert (a + b)[1..] == a[1..] + b;
      NetAppend(a[1..], b, t);
    }
  }

  /** The response the client is given in a step, if any. */
  function ToldBy(s: Sys, step: Step): seq<Response> {
    if step.Deliver? && s.resps != [] then [s.resps[0]] else []
  }

  /** The responses the exchange addresses to the client in a step. */
  ghost function IssuedBy(cfg: Config, s: Sys, step: Step): seq<Response>
    requires Shaped(s) && Enabled(cfg, s, step)
  {
    var mine := (r: Response) => r.client == cfg.me;
    match step
    case ServeOwn => Pick(Process(s.books[s.reqs[0].ticker], s.reqs[0]).responses, mine)
    case ServeOther(req) => Pick(Process(s.books[req.ticker], req).responses, mine)
    case _ => []
  }

  /** The responses the client has been given over a run, in order. */
  ghost function Told(cfg: Config, s: Sys, steps: seq<Step>): seq<Response>
    requires Shaped(s) && CanRun(cfg, s, steps)
    decreases |steps|
  {
    if steps == [] then [] else ToldBy(s, steps[0]) + Told(cfg, Next(cfg, s, steps[0]), steps[1..])
  }

  /** The responses the exchange has addressed to the client over a run, in order. */
  ghost function Issued(cfg: Config, s: Sys, steps: seq<Step>): seq<Response>
    requires Shaped(s) && CanRun(cfg, s, steps)
    decreases |steps|
  {
    if steps == [] then [] else IssuedBy(cfg, s, steps[0]) + Issued(cfg, Next(cfg, s, steps[0]), steps[1..])
  }

  /** One step of both histories. */
  lemma StepHistory(cfg: Config, s: Sys, step: Step, t: nat)
    requires Shaped(s) && Enabled(cfg, s, step) && t < ME_MAX_TICKERS
    ensures var s' := Next(cfg, s, step);
      && ToldBy(s, step) + s'.resps == s.resps + IssuedBy(cfg, s, step)
      && s'.position[t] == s.position[t] + NetOf(ToldBy(s, step), t)
  {
    if step.ServeOwn? || step.ServeOther? {
      var q := if step.ServeOwn? then s.reqs[0] else step.req;
      PickAgree(Process(s.books[q.ticker], q).responses, ForClient(cfg.me), (r: Response) => r.client == cfg.me);
    }
    if step.Deliver? { assert [s.resps[0]][1..] == []; }
  }

  /** Two stretches of history, end to end. */
  lemma Chain<T>(a: seq<T>, a': seq<T>, end: seq<T>, mid: seq<T>, i: seq<T>, i': seq<T>, begin: seq<T>)
    requires a + mid == begin + i && a' + end == mid + i'
    ensures (a + a') + end == begin + (i + i')
  {
    assert (a + a') + end == a + (a' + end) == a + (mid + i') == (a + mid) + i' == (begin + i) + i' == begin + (i + i');
  }

  lemma {:induction false} RunHistory(cfg: Config, s: Sys, steps: seq<Step>, t: nat)
    requires Shaped(s) && CanRun(cfg, s, steps) && t < ME_MAX_TICKERS
    ensures Told(cfg, s, steps) + After(cfg, s, steps).resps == s.resps + Issued(cfg, s, steps)
    ensures After(cfg, s, steps).position[t] == s.position[t] + NetOf(Told(cfg, s, steps), t)
    decreases |steps|
  {
    if steps != [] {
      var s', rest := Next(cfg, s, steps[0]), steps[1..];
      StepHistory(cfg, s, steps[0], t);
      RunHistory(cfg, s', rest, t);
      Chain(ToldBy(s, steps[0]), Told(cfg, s', rest), After(cfg, s', rest).resps, s'.resps,
            IssuedBy(cfg, s, steps[0]), Issued(cfg, s', rest), s.resps);
      NetAppend(ToldBy(s, steps[0]), Told(cfg, s', rest), t);
    }
  }

  lemma {:induction false} FlightNet(rs: seq<Response>, t: nat)
    ensures Executed(Pick(rs, ToSlot(t, Buy))) - Executed(Pick(rs, ToSlot(t, Sell))) == NetOf(rs, t)
  {
    if rs != [] {
      FlightNet(rs[1..], t);
      ExecutedFirst(rs, t, Buy);
      ExecutedFirst(rs, t, Sell);
    }
  }

  lemma ExecutedFirst(rs: seq<Response>, t: nat, side: Side)
    requires rs != []
    ensures Executed(Pick(rs, ToSlot(t, side)))
            == (if rs[0].ticker == t && rs[0].side == side && rs[0].kind.Filled? then rs[0].exec else 0)
               + Executed(Pick(rs[1..], ToSlot(t, side)))
  {
    var rest := Pick(rs[1..], ToSlot(t, side));
    if ToSlot(t, side)(rs[0]) {
      assert ([rs[0]] + rest)[1..] == rest;
    } else {
      assert [] + rest == rest;
    }
  }

  /**
   In every run what the client was given, with what is still on its way, is what the exchange has addressed to it;
   the booked position is bought less sold over the former, and the true holding over all of it.
   */
  lemma HoldingsAreFills(cfg: Config, steps: seq<Step>, t: nat)
    requires CanRun(cfg, Start(), steps) && t < ME_MAX_TICKERS
    ensures var s := After(cfg, Start(), steps);
      && Told(cfg, Start(), steps) + s.resps == Issued(cfg, Start(), steps)
      && s.position[t] == NetOf(Told(cfg, Start(), steps), t)
      && Held(s, t) == NetOf(Issued(cfg, Start(), steps), t)
  {
    RunHistory(cfg, Start(), steps, t);
    var s, told := After(cfg, Start(), steps), Told(cfg, Start(), steps);
    NetAppend(told, s.resps, t);
    FlightNet(s.resps, t);
    assert [] + Issued(cfg, Start(), steps) == Issued(cfg, Start(), steps);
  }

  lemma SlotCovers(me: nat, s: Sys, t: nat, side: Side)
    requires Inv(me, s) && t < ME_MAX_TICKERS && side.Valid()
    ensures Executed(InFlight(s, t, side)) + Open(s.books[t], me, Slot(s, t, side).oid) <= Remaining(Slot(s, t, side))
  {
    var o, rs := Slot(s, t, side), InFlight(s, t, side);
    var open := Open(s.books[t], me, o.oid);
    assert SlotOk(me, s, t, side);
    match o.state
    case Invalid | Dead =>
    case PendingNew => if rs != [] { TrackSpends(o.qty, rs[1..], open); }
    case Live | PendingCancel => TrackSpends(o.qty, rs, open);
  }

  /**
   Position limit, in every run and on both views: the client's booked position with what it believes open,
   and the true holding with what really is open at the exchange; nor is more open than one order may be.
   */
  lemma PositionLimit(cfg: Config, steps: seq<Step>, t: nat)
    requires cfg.me < ME_MAX_NUM_CLIENTS && CanRun(cfg, Start(), steps) && t < ME_MAX_TICKERS
    ensures var s := After(cfg, Start(), steps); var max: int := cfg.risk(t).maxPosition;
      && s.position[t] + Remaining(Slot(s, t, Buy)) <= max
      && s.position[t] - Remaining(Slot(s, t, Sell)) >= -max
      && Held(s, t) + Open(s.books[t], cfg.me, Slot(s, t, Buy).oid) <= max
      && Held(s, t) - Open(s.books[t], cfg.me, Slot(s, t, Sell).oid) >= -max
      && (forall side: Side | side.Valid() ::
          Open(s.books[t], cfg.me, Slot(s, t, side).oid) <= cfg.risk(t).maxOrderSize)
  {
    StartIsSafe(cfg);
    RunIsSafe(cfg, Start(), steps);
    var s := After(cfg, Start(), steps);
    assert Room(cfg, s, t);
    SlotCovers(cfg.me, s, t, Buy);
    SlotCovers(cfg.me, s, t, Sell);
    forall side: Side | side.Valid()
      ensures Open(s.books[t], cfg.me, Slot(s, t, side).oid) <= cfg.risk(t).maxOrderSize
    {
      assert side == Buy || side == Sell;
    }
  }

  // ---- why clips must be positive --------------------------------------------------------------

  /**
   A zero clip is accepted and rests nowhere, so the slot turns LIVE for an order that does not exist; its cancel is
   rejected, the slot stays PENDING_CANCEL, and no later move of that slot ever sends anything.
   */
  lemma ZeroClipSticks(b: Book, me: nat, ticker: nat, side: Side, price: nat, id: nat, price': nat, qty': nat,
      risk: RiskInfo)
    requires Ok(b) && side.Valid() && me < ME_MAX_NUM_CLIENTS && FreshKey(b, me, id) && qty' > 0
    ensures var entered := OMOrder(ticker, id, side, price, 0, PendingNew);
      var added := Add(b, ticker, me, id, side, price, 0);
      && |added.responses| == 1 && Open(added.book, me, id) == 0
      && var moved := Move(me, OnUpdate(entered, added.responses[0]), id + 1, ticker, side, price', qty', risk);
      && moved.sent == [Cancel(me, id, ticker)]
      && var canceled := CancelById(added.book, ticker, me, id);
      && |canceled.responses| == 1
      && var stuck := OnUpdate(moved.order, canceled.responses[0]);
      && forall p, q, n, k :: Move(me, stuck, n, ticker, side, p, q, k) == Moved(stuck, n, [])
  {
    var t := Taker(me, id, b.nextId, side, price);
    AddTellsOwner(b, ticker, t, 0);
    var added := Add(b, ticker, me, id, side, price, 0);
    assert added.responses == [AcceptedMsg(ticker, t, 0)];
  }
}
