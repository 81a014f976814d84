/**
 The client's order slots: one per ticker and side, driven by the strategy
 through `moveOrders` and by the exchange through `onOrderUpdate`
 (trading_system/strategy/order_manager.h:22-55, order_manager.cpp:6-72).
 The send and the risk call are commented out in the text (order_manager.cpp:17,
 :37, :57); here a send appends the built request to `sent`, and the gate is
 `RiskInfo.CheckPreTradeRisk`.
 */
module OrderManager {
  import opened Types
  import opened Risk

  datatype OMOrderState = Invalid | PendingNew | Live | PendingCancel | Dead

  datatype OMOrder = OMOrder(ticker: nat, oid: nat, side: Side, price: nat, qty: nat, state: OMOrderState)

  const NoOrder := OMOrder(TICKER_ID_INVALID, ORDER_ID_INVALID, InvalidSide, PRICE_INVALID, QTY_INVALID, Invalid)

  type Table = seq<seq<OMOrder>>

  /** SELL is -1, INVALID 0 and BUY 1, so each side has a slot of its own and INVALID a spare one. */
  function SideIndex(side: Side): (i: nat)
    ensures i < 4
  {
    match side case Sell => 0 case InvalidSide => 1 case Buy => 2
  }

  predicate TableShape(tbl: Table) {
    |tbl| == ME_MAX_TICKERS && forall t | 0 <= t < |tbl| :: |tbl[t]| == 4
  }

  function SlotOf(tbl: Table, ticker: nat, side: Side): OMOrder
    requires TableShape(tbl) && ticker < ME_MAX_TICKERS
  {
    tbl[ticker][SideIndex(side)]
  }

  function WithSlot(tbl: Table, ticker: nat, side: Side, o: OMOrder): (tbl': Table)
    requires TableShape(tbl) && ticker < ME_MAX_TICKERS
    ensures TableShape(tbl') && SlotOf(tbl', ticker, side) == o
    ensures forall t: nat, s: Side | t < ME_MAX_TICKERS && (t != ticker || s != side) ::
        SlotOf(tbl', t, s) == SlotOf(tbl, t, s)
  {
    tbl[ticker := tbl[ticker][SideIndex(side) := o]]
  }

  // ---- one slot ---------------------------------------------------------------------

  datatype Moved = Moved(order: OMOrder, nextId: nat, sent: seq<Request>)

  /** `moveOrder` on one slot: cancel a live order that differs, enter an order in a free slot, else wait. */
  function Move(client: nat, o: OMOrder, nextId: nat, ticker: nat, side: Side, price: nat, qty: nat,
      risk: RiskInfo): Moved
  {
    match o.state
    case Live =>
      if o.price != price || o.qty != qty
      then Moved(o.(state := PendingCancel), nextId, [Cancel(client, o.oid, o.ticker)])
      else Moved(o, nextId, [])
    case Invalid | Dead =>
      if risk.CheckPreTradeRisk(side, qty).Allowed?
      then Moved(OMOrder(ticker, nextId, side, price, qty, PendingNew), nextId + 1,
          [New(client, nextId, ticker, side, price, qty)])
      else Moved(o, nextId, [])
    case PendingNew | PendingCancel => Moved(o, nextId, [])
  }

  /** `onOrderUpdate` on the slot a response addresses; the response's order id is never looked at. */
  function OnUpdate(o: OMOrder, r: Response): OMOrder {
    match r.kind
    case Accepted => o.(state := Live)
    case Canceled => o.(state := Dead)
    case Filled => o.(qty := r.left, state := if r.left == 0 then Dead else o.state)
    case CancelRejected => o
  }

  // ---- all slots --------------------------------------------------------------------

  datatype OM = OM(orders: Table, nextId: nat) {
    function MoveSlot(client: nat, ticker: nat, side: Side, price: nat, qty: nat, risk: RiskInfo): OM
      requires TableShape(orders) && ticker < ME_MAX_TICKERS
    {
      var m := Move(client, SlotOf(orders, ticker, side), nextId, ticker, side, price, qty, risk);
      OM(WithSlot(orders, ticker, side, m.order), m.nextId)
    }

    function Sends(client: nat, ticker: nat, side: Side, price: nat, qty: nat, risk: RiskInfo): seq<Request>
      requires TableShape(orders) && ticker < ME_MAX_TICKERS
    {
      Move(client, SlotOf(orders, ticker, side), nextId, ticker, side, price, qty, risk).sent
    }

    function Updated(r: Response): OM
      requires TableShape(orders) && r.ticker < ME_MAX_TICKERS
    {
      this.(orders := WithSlot(orders, r.ticker, r.side, OnUpdate(SlotOf(orders, r.ticker, r.side), r)))
    }
  }

  function StartTable(): (tbl: Table)
    ensures TableShape(tbl) && forall t: nat, s: Side | t < ME_MAX_TICKERS :: SlotOf(tbl, t, s) == NoOrder
  {
    seq(ME_MAX_TICKERS, _ => seq(4, _ => NoOrder))
  }

  class OrderManager {
    const client: nat
    var tickerOrders: Table
    var nextOrderId: nat
    var sent: seq<Request>

    ghost predicate Valid()
      reads this
    {
      TableShape(tickerOrders)
    }

    ghost function Value(): OM
      reads this
    {
      OM(tickerOrders, nextOrderId)
    }

    constructor (client: nat)
      ensures Valid() && Value() == OM(StartTable(), 1) && sent == [] && this.client == client
    {
      this.client := client;
      tickerOrders := StartTable();
      nextOrderId := 1;
      sent := [];
    }

    method NewOrder(ticker: nat, side: Side, price: nat, qty: nat)
      requires Valid() && ticker < ME_MAX_TICKERS
      modifies this
      ensures Valid() && nextOrderId == old(nextOrderId) + 1
      ensures sent == old(sent) + [New(client, old(nextOrderId), ticker, side, price, qty)]
      ensures tickerOrders == WithSlot(old(tickerOrders), ticker, side,
          OMOrder(ticker, old(nextOrderId), side, price, qty, PendingNew))
    {
      sent := sent + [New(client, nextOrderId, ticker, side, price, qty)];
      tickerOrders := WithSlot(tickerOrders, ticker, side, OMOrder(ticker, nextOrderId, side, price, qty, PendingNew));
      nextOrderId := nextOrderId + 1;
    }

    method CancelOrder(ticker: nat, side: Side)
      requires Valid() && ticker < ME_MAX_TICKERS
      modifies this`tickerOrders, this`sent
      ensures Valid()
      ensures var o := SlotOf(old(tickerOrders), ticker, side);
        && sent == old(sent) + [Cancel(client, o.oid, o.ticker)]
        && tickerOrders == WithSlot(old(tickerOrders), ticker, side, o.(state := PendingCancel))
    {
      var o := SlotOf(tickerOrders, ticker, side);
      sent := sent + [Cancel(client, o.oid, o.ticker)];
      tickerOrders := WithSlot(tickerOrders, ticker, side, o.(state := PendingCancel));
    }

    method MoveOrder(ticker: nat, side: Side, price: nat, qty: nat, risk: RiskInfo)
      requires Valid() && ticker < ME_MAX_TICKERS
      modifies this
      ensures Valid() && Value() == old(Value()).MoveSlot(client, ticker, side, price, qty, risk)
      ensures sent == old(sent) + old(Value()).Sends(client, ticker, side, price, qty, risk)
      ensures var o := SlotOf(old(tickerOrders), ticker, side);
        var cancels := o.state.Live? && (o.price != price || o.qty != qty);
        var enters := (o.state.Invalid? || o.state.Dead?) && risk.CheckPreTradeRisk(side, qty).Allowed?;
        && (cancels ==>
              && sent == old(sent) + [Cancel(client, o.oid, o.ticker)] && nextOrderId == old(nextOrderId)
              && tickerOrders == WithSlot(old(tickerOrders), ticker, side, o.(state := PendingCancel)))
        && (enters ==>
              && sent == old(sent) + [New(client, old(nextOrderId), ticker, side, price, qty)]
              && nextOrderId == old(nextOrderId) + 1
              && tickerOrders == WithSlot(old(tickerOrders), ticker, side,
                                          OMOrder(ticker, old(nextOrderId), side, price, qty, PendingNew)))
        && (!cancels && !enters ==>
              sent == old(sent) && nextOrderId == old(nextOrderId) && tickerOrders == old(tickerOrders))
    {
      var o := SlotOf(tickerOrders, ticker, side);
      SetSame(tickerOrders, ticker, side);
      match o.state {
        case Live =>
          if o.price != price || o.qty != qty {
            CancelOrder(ticker, side);
          }
        case Invalid | Dead =>
          if risk.CheckPreTradeRisk(side, qty).Allowed? {
            NewOrder(ticker, side, price, qty);
          }
        case PendingNew | PendingCancel =>
      }
    }

    /** Both quotes of a ticker, the bid first. */
    method MoveOrders(ticker: nat, bidPrice: nat, askPrice: nat, clip: nat, risk: RiskInfo)
      requires Valid() && ticker < ME_MAX_TICKERS
      modifies this
      ensures Valid()
      ensures var bid := old(Value()).MoveSlot(client, ticker, Buy, bidPrice, clip, risk);
        && Value() == bid.MoveSlot(client, ticker, Sell, askPrice, clip, risk)
        && sent == old(sent) + old(Value()).Sends(client, ticker, Buy, bidPrice, clip, risk)
                   + bid.Sends(client, ticker, Sell, askPrice, clip, risk)
    {
      MoveOrder(ticker, Buy, bidPrice, clip, risk);
      MoveOrder(ticker, Sell, askPrice, clip, risk);
    }

    method OnOrderUpdate(r: Response)
      requires Valid() && r.ticker < ME_MAX_TICKERS
      modifies this`tickerOrders
      ensures Valid() && Value() == old(Value()).Updated(r)
    {
      var o := SlotOf(tickerOrders, r.ticker, r.side);
      match r.kind {
        case Accepted =>
          o := o.(state := Live);
        case Canceled =>
          o := o.(state := Dead);
        case Filled =>
          o := o.(qty := r.left);
          if o.qty == 0 { o := o.(state := Dead); }
        case CancelRejected =>
      }
      tickerOrders := WithSlot(tickerOrders, r.ticker, r.side, o);
    }
  }

  lemma SetSame(tbl: Table, ticker: nat, side: Side)
    requires TableShape(tbl) && ticker < ME_MAX_TICKERS
    ensures WithSlot(tbl, ticker, side, SlotOf(tbl, ticker, side)) == tbl
  {
    assert tbl[ticker][SideIndex(side) := tbl[ticker][SideIndex(side)]] == tbl[ticker];
  }
}
