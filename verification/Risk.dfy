/** The pre-trade gate (trading_system/strategy/risk_manager.h:34-46). */
module Risk {
  import opened Types

  datatype RiskCheckResult = OrderTooLarge | PositionTooLarge | LossTooLarge | Allowed

  datatype RiskCfg = RiskCfg(maxOrderSize: nat, maxPosition: nat, maxLoss: real)

  function SideValue(side: Side): int {
    match side case Buy => 1 case Sell => -1 case InvalidSide => 0
  }

  function Abs(x: int): nat { if x < 0 then -x else x }

  /** `position` and `pnl` are read from the ticker's `PositionInfo` at the moment of the call. */
  datatype RiskInfo = RiskInfo(cfg: RiskCfg, position: int, pnl: real) {
    function CheckPreTradeRisk(side: Side, qty: nat): RiskCheckResult {
      if qty > cfg.maxOrderSize then OrderTooLarge
      else if Abs(position + SideValue(side) * qty) > cfg.maxPosition then PositionTooLarge
      else if pnl < cfg.maxLoss then LossTooLarge
      else Allowed
    }
  }

  /** The value a 32-bit two's complement register holds. */
  function Int32(x: int): (r: int)
    ensures -0x8000_0000 <= r < 0x8000_0000 && (r - x) % 0x1_0000_0000 == 0
  {
    var m := x % 0x1_0000_0000;
    if m < 0x8000_0000 then m else m - 0x1_0000_0000
  }

  /** Which answer comes when: too large an order first, then too large a position, then too large a loss. */
  lemma GateDecides(info: RiskInfo, side: Side, qty: nat)
    requires side.Valid()
    ensures var r, order := info.CheckPreTradeRisk(side, qty), qty <= info.cfg.maxOrderSize;
      var after: int := if side.Buy? then info.position + qty else info.position - qty;
      var max: int := info.cfg.maxPosition;
      var within := -max <= after <= max;
      && (r.OrderTooLarge? <==> !order)
      && (r.PositionTooLarge? <==> order && !within)
      && (r.LossTooLarge? <==> order && within && info.pnl < info.cfg.maxLoss)
      && (r.Allowed? <==> order && within && info.pnl >= info.cfg.maxLoss)
  {}

  /** The gate as the machine computes it: the order's quantity, the sum and the limit as int32 values. */
  function MachineCheck(info: RiskInfo, side: Side, qty: nat): RiskCheckResult {
    if qty > info.cfg.maxOrderSize then OrderTooLarge
    else if Abs(Int32(info.position + SideValue(side) * Int32(qty))) > Int32(info.cfg.maxPosition) then PositionTooLarge
    else if info.pnl < info.cfg.maxLoss then LossTooLarge
    else Allowed
  }

  /**
   With limits below 2^30 and a position within its limit the machine decides as the gate does on unbounded
   numbers, for every order size: an order too large to cast is refused before the cast.
   */
  lemma MachineCheckAgrees(info: RiskInfo, side: Side, qty: nat)
    requires info.cfg.maxOrderSize < 0x4000_0000 && info.cfg.maxPosition < 0x4000_0000
    requires Abs(info.position) <= info.cfg.maxPosition && side.Valid()
    ensures MachineCheck(info, side, qty) == info.CheckPreTradeRisk(side, qty)
  {
    if qty <= info.cfg.maxOrderSize {
      Int32Exact(qty);
      Int32Exact(info.cfg.maxPosition);
      Int32Exact(info.position + SideValue(side) * qty);
    }
  }

  lemma Int32Exact(x: int)
    requires -0x8000_0000 <= x < 0x8000_0000
    ensures Int32(x) == x
  {}
}
