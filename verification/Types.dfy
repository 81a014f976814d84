/**
 Message and identifier types shared by the exchange and its clients
 (common/common_types.h, exchange/market_data/market_update.h,
 exchange/order_server/client_request.h and client_response.h).

 A convention of all modules: a predicate `X` given as `forall u: bool :: XDef(..., u)`
 is folded. The marker `u` adds nothing; behind the quantifier the definition
 `XDef` stays out of every proof that does not mention it.
 */
module Types {

  const ME_MAX_TICKERS: nat := 8
  const ME_MAX_NUM_CLIENTS: nat := 256
  const ME_MAX_ORDER_IDS: nat := 0x10_0000
  const ME_MAX_PRICE_LEVELS: nat := 256

  const ORDER_ID_INVALID: nat := 0xFFFF_FFFF_FFFF_FFFF
  const TICKER_ID_INVALID: nat := 0xFFFF_FFFF
  const PRICE_INVALID: nat := 0xFFFF_FFFF_FFFF_FFFF
  const QTY_INVALID: nat := 0xFFFF_FFFF
  const PRIORITY_INVALID: nat := 0xFFFF_FFFF_FFFF_FFFF

  datatype Option<+T> = None | Some(value: T)

  /** `Side::MAX` only sizes arrays, so it has no constructor here. */
  datatype Side = Buy | Sell | InvalidSide {
    predicate Valid() { Buy? || Sell? }

    function Opposite(): (s: Side)
      requires Valid()
    {
      if Buy? then Sell else Buy
    }
  }

  /** A price strictly ahead of another on its side: higher for bids, lower for asks. */
  predicate Better(side: Side, p: nat, q: nat) {
    if side.Buy? then p > q else p < q
  }

  /** An incoming order limited at `limit` may trade with a resting order at `resting`. */
  predicate Crosses(side: Side, limit: nat, resting: nat) {
    if side.Buy? then limit >= resting else limit <= resting
  }

  datatype Request =
    | New(client: nat, oid: nat, ticker: nat, side: Side, price: nat, qty: nat)
    | Cancel(client: nat, oid: nat, ticker: nat)

  datatype ResponseKind = Accepted | Canceled | Filled | CancelRejected

  datatype Response = Response(
    kind: ResponseKind, client: nat, ticker: nat, oid: nat, mid: nat,
    side: Side, price: nat, exec: nat, left: nat)

  datatype UpdateKind =
    | NoUpdate | AddOrder | ModifyOrder | CancelOrder | Trade | Clear | SnapshotStart | SnapshotEnd

  datatype Update = Update(
    kind: UpdateKind, oid: nat, ticker: nat, side: Side, price: nat, qty: nat, priority: nat)

  function Min(a: nat, b: nat): nat { if a < b then a else b }
}
