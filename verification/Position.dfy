/**
 Position, average cost and profit of one ticker
 (trading_system/strategy/position_info.h:14-101). Amounts are reals, so
 floating-point rounding is not part of the model. The text at :77 adds the
 unrealised part twice where :96 adds realised and unrealised; the model adds
 both, and `TotalAsWritten` says when the text agrees. The open costs, left
 uninitialised at :20-21, start at 0.
 */
module Position {
  import opened Types
  import opened Risk

  datatype Fill = Fill(side: Side, price: nat, exec: nat)

  /** Open cost of the BUY side and of the SELL side (`open_vwap_`), and the realised profit. */
  datatype Costs = Costs(long: real, short: real, realised: real) {
    function Of(side: Side): real { if side.Buy? then long else short }

    function With(side: Side, x: real): Costs {
      if side.Buy? then this.(long := x) else this.(short := x)
    }
  }

  datatype Info = Info(position: int, costs: Costs, unrealised: real, total: real, volume: nat)

  const Flat := Info(0, Costs(0.0, 0.0, 0.0), 0.0, 0.0, 0)

  function R(x: int): real { x as real }

  /** What the open position is worth at `price` above its cost. */
  function Marked(position: int, c: Costs, price: real): real {
    if position == 0 then 0.0
    else if position > 0 then (price - c.long / R(Abs(position))) * R(Abs(position))
    else (c.short / R(Abs(position)) - price) * R(Abs(position))
  }

  /**
   The costs after a fill that took the position from `before` to `after`, given the flip test and the closed quantity.
   */
  function Costed(c: Costs, f: Fill, before: int, after: int, flipped: bool, closed: int): Costs
    requires f.side.Valid()
  {
    if before * SideValue(f.side) >= 0 then
      c.With(f.side, c.Of(f.side) + R(f.exec) * R(f.price))
    else
      var reduced := Reduced(c, f, before, after, closed);
      if flipped then reduced.With(f.side, R(f.price) * R(Abs(after))).With(f.side.Opposite(), 0.0) else reduced
  }

  /** Part of the position is closed: its average price stays, and the closed part is realised against it. */
  function Reduced(c: Costs, f: Fill, before: int, after: int, closed: int): Costs
    requires f.side.Valid() && before != 0
  {
    var opp := f.side.Opposite();
    var vwap := c.Of(opp) / R(Abs(before));
    c.With(opp, vwap * R(Abs(after))).(realised := c.realised + R(closed) * (vwap - R(f.price)) * R(SideValue(f.side)))
  }

  function FlatCosts(c: Costs, position: int): Costs {
    if position == 0 then c.(long := 0.0, short := 0.0) else c
  }

  function Booked(p: Info, f: Fill, after: int, flipped: bool, closed: int): Info
    requires f.side.Valid()
  {
    var c := FlatCosts(Costed(p.costs, f, p.position, after, flipped, closed), after);
    var unrealised := Marked(after, c, R(f.price));
    Info(after, c, unrealised, unrealised + c.realised, p.volume + f.exec)
  }

  function WithFill(p: Info, f: Fill): Info
    requires f.side.Valid()
  {
    var after := p.position + SideValue(f.side) * f.exec;
    Booked(p, f, after, after * p.position < 0, Min(f.exec, Abs(p.position)))
  }

  /** Revaluation at the middle of the book; a missing side (`PRICE_INVALID`) leaves everything as it was. */
  function WithBBO(p: Info, bid: nat, ask: nat): Info {
    if p.position == 0 || bid == PRICE_INVALID || ask == PRICE_INVALID then p
    else
      var unrealised := Marked(p.position, p.costs, R(bid + ask) * 0.5);
      p.(unrealised := unrealised, total := unrealised + p.costs.realised)
  }

  class PositionInfo {
    var position: int
    var realPnl: real
    var unrealPnl: real
    var totalPnl: real
    var openLong: real
    var openShort: real
    var volume: nat

    function Open(): Costs
      reads this`openLong, this`openShort, this`realPnl
    {
      Costs(openLong, openShort, realPnl)
    }

    ghost function Value(): Info
      reads this
    {
      Info(position, Open(), unrealPnl, totalPnl, volume)
    }

    constructor ()
      ensures Value() == Flat
    {
      position, realPnl, unrealPnl, totalPnl, openLong, openShort, volume := 0, 0.0, 0.0, 0.0, 0.0, 0.0, 0;
    }

    method SetOpen(side: Side, x: real)
      modifies this`openLong, this`openShort
      ensures Open() == old(Open()).With(side, x)
    {
      if side.Buy? { openLong := x; } else { openShort := x; }
    }

    /** The average-cost part of `addFill`, once the position has moved from `before`. */
    method Cost(f: Fill, before: int, flipped: bool)
      requires f.side.Valid()
      modifies this`openLong, this`openShort, this`realPnl
      ensures Open() == Costed(old(Open()), f, before, position, flipped, Min(f.exec, Abs(before)))
    {
      if before * SideValue(f.side) >= 0 {
        SetOpen(f.side, Open().Of(f.side) + R(f.exec) * R(f.price));
      } else {
        Reduce(f, before);
        if flipped { Flip(f); }
      }
    }

    /** The whole position was closed; the rest of the fill opens the opposite one. */
    method Flip(f: Fill)
      requires f.side.Valid()
      modifies this`openLong, this`openShort
      ensures Open() == old(Open()).With(f.side, R(f.price) * R(Abs(position))).With(f.side.Opposite(), 0.0)
    {
      SetOpen(f.side, R(f.price) * R(Abs(position)));
      SetOpen(f.side.Opposite(), 0.0);
    }

    method Reduce(f: Fill, before: int)
      requires f.side.Valid() && before != 0
      modifies this`openLong, this`openShort, this`realPnl
      ensures Open() == Reduced(old(Open()), f, before, position, Min(f.exec, Abs(before)))
    {
      var vwap := Open().Of(f.side.Opposite()) / R(Abs(before));
      SetOpen(f.side.Opposite(), vwap * R(Abs(position)));
      realPnl := realPnl + R(Min(f.exec, Abs(before))) * (vwap - R(f.price)) * R(SideValue(f.side));
    }

    method Mark(price: real)
      modifies this`unrealPnl, this`totalPnl
      ensures unrealPnl == Marked(position, Open(), price) && totalPnl == unrealPnl + realPnl
    {
      if position == 0 {
        unrealPnl := 0.0;
      } else if position > 0 {
        unrealPnl := (price - openLong / R(Abs(position))) * R(Abs(position));
      } else {
        unrealPnl := (openShort / R(Abs(position)) - price) * R(Abs(position));
      }
      totalPnl := unrealPnl + realPnl;
    }

    method AddFill(f: Fill)
      requires f.side.Valid()
      modifies this
      ensures Value() == WithFill(old(Value()), f)
    {
      var before := position;
      position := position + SideValue(f.side) * f.exec;
      volume := volume + f.exec;
      Cost(f, before, position * before < 0);
      if position == 0 { openLong, openShort := 0.0, 0.0; }
      Mark(R(f.price));
    }

    method UpdateBBO(bid: nat, ask: nat)
      modifies this`unrealPnl, this`totalPnl
      ensures Value() == WithBBO(old(Value()), bid, ask)
    {
      if position != 0 && bid != PRICE_INVALID && ask != PRICE_INVALID {
        Mark(R(bid + ask) * 0.5);
      }
    }
  }

  // ---- the accounting identity --------------------------------------------------------

  datatype Event = Executed(f: Fill) | Quoted(bid: nat, ask: nat)

  ghost predicate EventsOk(events: seq<Event>) {
    forall i | 0 <= i < |events| :: events[i].Executed? ==> events[i].f.side.Valid()
  }

  function Happen(p: Info, e: Event): Info
    requires e.Executed? ==> e.f.side.Valid()
  {
    match e
    case Executed(f) => WithFill(p, f)
    case Quoted(bid, ask) => WithBBO(p, bid, ask)
  }

  /** The info after any sequence of fills and quotes. */
  ghost function After(events: seq<Event>): Info
    requires EventsOk(events)
  {
    if events == [] then Flat else Happen(After(events[..|events| - 1]), events[|events| - 1])
  }

  function Flow(f: Fill): real { -R(SideValue(f.side)) * R(f.exec) * R(f.price) }

  /** Money in less money out. */
  function Cash(events: seq<Event>): real {
    if events == [] then 0.0
    else
      var e := events[|events| - 1];
      Cash(events[..|events| - 1]) + if e.Executed? then Flow(e.f) else 0.0
  }

  /** Bought less sold. */
  function Net(events: seq<Event>): int {
    if events == [] then 0
    else
      var e := events[|events| - 1];
      Net(events[..|events| - 1]) + if e.Executed? then SideValue(e.f.side) * e.f.exec else 0
  }

  /** Everything executed, on either side. */
  function Turnover(events: seq<Event>): nat {
    if events == [] then 0
    else
      var e := events[|events| - 1];
      Turnover(events[..|events| - 1]) + if e.Executed? then e.f.exec else 0
  }

  /** The price of the last fill, or the last complete quote's middle if that came later. */
  function LastPrice(events: seq<Event>): real {
    if events == [] then 0.0
    else
      match events[|events| - 1]
      case Executed(f) => R(f.price)
      case Quoted(bid, ask) =>
        if bid == PRICE_INVALID || ask == PRICE_INVALID then LastPrice(events[..|events| - 1]) else R(bid + ask) * 0.5
  }

  /** Realised profit is cash plus signed open cost, and the side not held costs nothing. */
  ghost predicate Balanced(position: int, c: Costs, cash: real) {
    && c.realised == cash + c.long - c.short
    && (position >= 0 ==> c.short == 0.0)
    && (position <= 0 ==> c.long == 0.0)
  }

  /** Shares of a cost at its average price add up. */
  lemma Share(total: real, n: nat, m: nat)
    requires 0 < n && m <= n
    ensures total / R(n) * R(n) == total
    ensures total / R(n) * R(m) + total / R(n) * R(n - m) == total
  {
    assert R(m) + R(n - m) == R(n);
    assert total / R(n) * R(m) + total / R(n) * R(n - m) == total / R(n) * (R(m) + R(n - m));
  }

  /** `Marked` is market value less signed cost. */
  lemma MarkedIs(position: int, c: Costs, cash: real, price: real)
    requires Balanced(position, c, cash)
    ensures c.realised + Marked(position, c, price) == cash + R(position) * price
  {
    if position > 0 {
      Share(c.long, position, 0);
      assert (price - c.long / R(position)) * R(position) == price * R(position) - c.long / R(position) * R(position);
    } else if position < 0 {
      Share(c.short, -position, 0);
      assert (c.short / R(-position) - price) * R(-position)
          == c.short / R(-position) * R(-position) - price * R(-position);
      assert price * R(-position) == -(R(position) * price);
    }
  }

  /** A fill that opens or grows the position. */
  lemma OpenBalances(c: Costs, f: Fill, before: int, cash: real)
    requires f.side.Valid() && Balanced(before, c, cash) && before * SideValue(f.side) >= 0
    ensures var after := before + SideValue(f.side) * f.exec;
      Balanced(after, FlatCosts(Costed(c, f, before, after, after * before < 0, Min(f.exec, Abs(before))), after), cash
          + Flow(f))
  {
    FlowIs(f);
    if before + SideValue(f.side) * f.exec == 0 {
      assert f.exec == 0 && R(f.exec) * R(f.price) == 0.0;
    }
  }

  lemma FlowIs(f: Fill)
    requires f.side.Valid()
    ensures Flow(f) == if f.side.Buy? then -(R(f.exec) * R(f.price)) else R(f.exec) * R(f.price)
  {}

  /** Closing `n` of `held` at `price`: cost leaves at the average price, and the difference is realised. */
  lemma CloseArithmetic(cost: real, held: nat, n: nat, price: real)
    requires 0 < held && n <= held
    ensures cost / R(held) * R(held - n) == cost - cost / R(held) * R(n)
    ensures R(n) * (cost / R(held) - price) == cost / R(held) * R(n) - R(n) * price
  {
    Share(cost, held, n);
  }

  /** A fill that closes part or all of the position. */
  lemma CloseBalances(c: Costs, f: Fill, before: int, cash: real)
    requires f.side.Valid() && Balanced(before, c, cash) && before * SideValue(f.side) < 0 && f.exec <= Abs(before)
    ensures var after := before + SideValue(f.side) * f.exec;
      Balanced(after, FlatCosts(Reduced(c, f, before, after, f.exec), after), cash + Flow(f))
  {
    FlowIs(f);
    CloseArithmetic(c.Of(f.side.Opposite()), Abs(before), f.exec, R(f.price));
  }

  /** A fill that closes the whole position and opens the opposite one. */
  lemma FlipBalances(c: Costs, f: Fill, before: int, cash: real)
    requires f.side.Valid() && Balanced(before, c, cash) && before * SideValue(f.side) < 0 && f.exec > Abs(before)
    ensures var after := before + SideValue(f.side) * f.exec;
      Balanced(after, Costed(c, f, before, after, true, Abs(before)), cash + Flow(f))
  {
    FlowIs(f);
    var held := Abs(before);
    CloseArithmetic(c.Of(f.side.Opposite()), held, held, R(f.price));
    assert R(f.exec) == R(held) + R(f.exec - held);
    assert R(f.exec) * R(f.price) == R(held) * R(f.price) + R(f.price) * R(f.exec - held);
  }

  lemma FlipTest(before: int, side: Side, exec: nat)
    requires side.Valid() && before * SideValue(side) < 0
    ensures (before + SideValue(side) * exec) * before < 0 <==> exec > Abs(before)
  {
    var after := before + SideValue(side) * exec;
    if before > 0 {
      if after < 0 { assert after * before < 0; } else { assert after * before >= 0; }
    } else {
      if after > 0 { assert after * before < 0; } else { assert after * before >= 0; }
    }
  }

  lemma FillBalances(p: Info, f: Fill, cash: real)
    requires f.side.Valid() && Balanced(p.position, p.costs, cash)
    ensures Balanced(WithFill(p, f).position, WithFill(p, f).costs, cash + Flow(f))
  {
    if p.position * SideValue(f.side) >= 0 {
      OpenBalances(p.costs, f, p.position, cash);
    } else {
      FlipTest(p.position, f.side, f.exec);
      if f.exec > Abs(p.position) {
        FlipBalances(p.costs, f, p.position, cash);
      } else {
        CloseBalances(p.costs, f, p.position, cash);
      }
    }
  }

  ghost predicate Accounts(p: Info, net: int, cash: real, price: real) {
    && p.position == net && Balanced(p.position, p.costs, cash)
    && p.total == p.costs.realised + p.unrealised == cash + R(net) * price
  }

  lemma AccountsFrom(q: Info, net: int, cash: real, price: real)
    requires Balanced(q.position, q.costs, cash) && q.position == net
    requires q.unrealised == Marked(q.position, q.costs, price) && q.total == q.unrealised + q.costs.realised
    ensures Accounts(q, net, cash, price)
  {
    MarkedIs(q.position, q.costs, cash, price);
  }

  lemma FillAccounts(p: Info, f: Fill, cash: real)
    requires f.side.Valid() && Balanced(p.position, p.costs, cash)
    ensures Accounts(WithFill(p, f), p.position + SideValue(f.side) * f.exec, cash + Flow(f), R(f.price))
  {
    var q := WithFill(p, f);
    FillBalances(p, f, cash);
    AccountsFrom(q, p.position + SideValue(f.side) * f.exec, cash + Flow(f), R(f.price));
  }

  lemma QuoteAccounts(p: Info, bid: nat, ask: nat, cash: real, price: real)
    requires Accounts(p, p.position, cash, price)
    ensures Accounts(WithBBO(p, bid, ask), p.position, cash, if bid == PRICE_INVALID || ask == PRICE_INVALID then price
        else R(bid + ask) * 0.5)
  {
    MarkedIs(p.position, p.costs, cash, R(bid + ask) * 0.5);
  }

  /**
   The accounting identity after any sequence of fills and quotes, with partial closes and flips: realised profit is
   cash plus signed open cost, the side not held costs nothing, the total is cash plus the position at the last price,
   and the volume is
   all that was executed.
   */
  lemma {:induction false} PnlIdentity(events: seq<Event>)
    requires EventsOk(events)
    ensures Accounts(After(events), Net(events), Cash(events), LastPrice(events))
        && After(events).volume == Turnover(events)
  {
    if events != [] {
      var before, e := events[..|events| - 1], events[|events| - 1];
      PnlIdentity(before);
      match e
      case Executed(f) => FillAccounts(After(before), f, Cash(before));
      case Quoted(bid, ask) => QuoteAccounts(After(before), bid, ask, Cash(before), LastPrice(before));
    }
  }

  /** A partial close keeps the average price of what is still held. */
  lemma CloseKeepsAverage(p: Info, f: Fill, cash: real)
    requires f.side.Valid() && Balanced(p.position, p.costs, cash)
    requires p.position * SideValue(f.side) < 0 && f.exec < Abs(p.position)
    ensures var q, held := WithFill(p, f), f.side.Opposite();
      q.position != 0 && q.costs.Of(held) / R(Abs(q.position)) == p.costs.Of(held) / R(Abs(p.position))
  {
    FlipTest(p.position, f.side, f.exec);
    var q, vwap := WithFill(p, f), p.costs.Of(f.side.Opposite()) / R(Abs(p.position));
    assert q.costs.Of(f.side.Opposite()) == vwap * R(Abs(q.position));
  }

  lemma CostedRealises(c: Costs, f: Fill, before: int, after: int, flipped: bool, closed: int, average: real)
    requires f.side.Valid() && before * SideValue(f.side) < 0
    requires average == c.Of(f.side.Opposite()) / R(Abs(before))
    ensures FlatCosts(Costed(c, f, before, after, flipped, closed), after).realised
            == c.realised + (R(closed) * (average - R(f.price))) * R(SideValue(f.side))
  {}

  lemma CostedOpens(c: Costs, f: Fill, before: int, after: int, flipped: bool, closed: int)
    requires f.side.Valid() && before * SideValue(f.side) >= 0
    ensures var c' := FlatCosts(Costed(c, f, before, after, flipped, closed), after);
      c'.realised == c.realised && (after != 0 ==> c' == c.With(f.side, c.Of(f.side) + R(f.exec) * R(f.price)))
  {}

  /** A fill that opens or grows the position realises nothing and adds its value to the open cost of its side. */
  lemma OpeningRealisesNothing(p: Info, f: Fill)
    requires f.side.Valid() && if f.side.Buy? then p.position >= 0 else p.position <= 0
    ensures var q := WithFill(p, f);
      && q.costs.realised == p.costs.realised
      && (q.position != 0 ==> q.costs == p.costs.With(f.side, p.costs.Of(f.side) + R(f.exec) * R(f.price)))
  {
    var after := p.position + SideValue(f.side) * f.exec;
    CostedOpens(p.costs, f, p.position, after, after * p.position < 0, Min(f.exec, Abs(p.position)));
  }

  lemma Turned(n: real, x: real, y: real)
    ensures (n * (x - y)) * R(-1) == n * (y - x)
    ensures (n * (x - y)) * R(1) == n * (x - y)
  {}

  lemma FillRealises(p: Info, f: Fill, average: real, closed: int)
    requires f.side.Valid() && p.position * SideValue(f.side) < 0 && closed == Min(f.exec, Abs(p.position))
    requires average == p.costs.Of(f.side.Opposite()) / R(Abs(p.position))
    ensures WithFill(p, f).costs.realised
            == p.costs.realised + (R(closed) * (average - R(f.price))) * R(SideValue(f.side))
  {
    var after := p.position + SideValue(f.side) * f.exec;
    CostedRealises(p.costs, f, p.position, after, after * p.position < 0, closed, average);
  }

  /** A fill against the position realises, on what it closes, the difference to the average price of what was held. */
  lemma ClosingRealises(p: Info, f: Fill, average: real, closed: int)
    requires f.side.Valid() && (if f.side.Sell? then p.position > 0 else p.position < 0)
    requires closed == Min(f.exec, Abs(p.position))
    requires average == (if f.side.Sell? then p.costs.long else p.costs.short) / R(Abs(p.position))
    ensures WithFill(p, f).costs.realised - p.costs.realised
            == R(closed) * (if f.side.Sell? then R(f.price) - average else average - R(f.price))
  {
    FillRealises(p, f, average, closed);
    Turned(R(closed), average, R(f.price));
  }

  // ---- splitting a fill ---------------------------------------------------------------------

  /** The open cost after a fill, by how much of the position it closes. */
  function OpenCost(p: Info, f: Fill): real
    requires f.side.Valid()
  {
    var held, price := Abs(p.position), R(f.price);
    if p.position * SideValue(f.side) >= 0 then p.costs.Of(f.side) + R(f.exec) * price
    else if f.exec <= held then p.costs.Of(f.side.Opposite()) / R(held) * R(held - f.exec)
    else price * R(f.exec - held)
  }

  lemma OpenCostOpening(p: Info, f: Fill, cash: real)
    requires f.side.Valid() && Balanced(p.position, p.costs, cash) && p.position * SideValue(f.side) >= 0
    ensures var q := WithFill(p, f); q.costs.long + q.costs.short == OpenCost(p, f)
  {
    var x := R(f.exec) * R(f.price);
    assert Costed(p.costs, f, p.position, p.position + SideValue(f.side) * f.exec, false, 0)
        == p.costs.With(f.side, p.costs.Of(f.side) + x);
    if p.position + SideValue(f.side) * f.exec == 0 { assert f.exec == 0 && x == 0.0; }
  }

  lemma OpenCostClosing(p: Info, f: Fill, cash: real)
    requires f.side.Valid() && Balanced(p.position, p.costs, cash) && p.position * SideValue(f.side) < 0
        && f.exec <= Abs(p.position)
    ensures var q := WithFill(p, f); q.costs.long + q.costs.short == OpenCost(p, f)
  {
    FlipTest(p.position, f.side, f.exec);
    var held, after := Abs(p.position), p.position + SideValue(f.side) * f.exec;
    var vwap := p.costs.Of(f.side.Opposite()) / R(held);
    assert Abs(after) == held - f.exec;
    assert WithFill(p, f).costs == FlatCosts(Reduced(p.costs, f, p.position, after, f.exec), after);
    if after == 0 { assert vwap * R(0) == 0.0; }
  }

  lemma OpenCostFlipping(p: Info, f: Fill, cash: real)
    requires f.side.Valid() && Balanced(p.position, p.costs, cash) && p.position * SideValue(f.side) < 0
        && f.exec > Abs(p.position)
    ensures var q := WithFill(p, f); q.costs.long + q.costs.short == OpenCost(p, f)
  {
    FlipTest(p.position, f.side, f.exec);
    var after := p.position + SideValue(f.side) * f.exec;
    assert Abs(after) == f.exec - Abs(p.position);
  }

  lemma OpenCostIs(p: Info, f: Fill, cash: real)
    requires f.side.Valid() && Balanced(p.position, p.costs, cash)
    ensures var q := WithFill(p, f); q.costs.long + q.costs.short == OpenCost(p, f)
  {
    if p.position * SideValue(f.side) >= 0 {
      OpenCostOpening(p, f, cash);
    } else if f.exec <= Abs(p.position) {
      OpenCostClosing(p, f, cash);
    } else {
      OpenCostFlipping(p, f, cash);
    }
  }

  /** Position, cash and open cost determine the rest. */
  lemma Determined(p: Info, q: Info, cash: real, price: real)
    requires Accounts(p, p.position, cash, price) && Accounts(q, p.position, cash, price) && p.volume == q.volume
    requires p.costs.long + p.costs.short == q.costs.long + q.costs.short
    ensures p == q
  {}

  /** `q` is `p` after `a` of the fill: what the rest of the fill costs from `q` is what the whole costs from `p`. */
  ghost predicate Partway(p: Info, q: Info, f: Fill, a: nat, cash: real, cash': real)
    requires f.side.Valid()
  {
    && a <= f.exec && Balanced(p.position, p.costs, cash) && Balanced(q.position, q.costs, cash')
    && q.position == p.position + SideValue(f.side) * a
    && q.costs.long + q.costs.short == OpenCost(p, f.(exec := a))
  }

  lemma SplitOpening(p: Info, q: Info, f: Fill, a: nat, cash: real, cash': real)
    requires f.side.Valid() && Partway(p, q, f, a, cash, cash') && p.position * SideValue(f.side) >= 0
    ensures OpenCost(q, f.(exec := f.exec - a)) == OpenCost(p, f)
  {
    assert q.position * SideValue(f.side) >= 0;
    assert q.costs.Of(f.side) == q.costs.long + q.costs.short;
    assert R(f.exec) * R(f.price) == R(a) * R(f.price) + R(f.exec - a) * R(f.price);
  }

  lemma SplitFlipped(p: Info, q: Info, f: Fill, a: nat, cash: real, cash': real)
    requires f.side.Valid() && Partway(p, q, f, a, cash, cash') && p.position * SideValue(f.side) < 0
        && a >= Abs(p.position)
    ensures OpenCost(q, f.(exec := f.exec - a)) == OpenCost(p, f)
  {
    var held, b := Abs(p.position), f.exec - a;
    assert q.position * SideValue(f.side) >= 0;
    assert q.costs.Of(f.side) == q.costs.long + q.costs.short;
    assert R(f.price) * R(f.exec - held) == R(f.price) * R(a - held) + R(b) * R(f.price) by {
      assert R(f.exec - held) == R(a - held) + R(b);
    }
    if a == held { assert R(f.price) * R(0) == 0.0; }
  }

  lemma SplitClosing(p: Info, q: Info, f: Fill, a: nat, cash: real, cash': real)
    requires f.side.Valid() && Partway(p, q, f, a, cash, cash') && p.position * SideValue(f.side) < 0
        && a < Abs(p.position)
    ensures OpenCost(q, f.(exec := f.exec - a)) == OpenCost(p, f)
  {
    var held, opp := Abs(p.position), f.side.Opposite();
    var vwap := p.costs.Of(opp) / R(held);
    assert Abs(q.position) == held - a && q.position * SideValue(f.side) < 0;
    assert q.costs.Of(opp) == vwap * R(held - a);
    assert vwap * R(held - a) / R(held - a) == vwap;
  }

  lemma FlowSplits(f: Fill, a: nat)
    requires f.side.Valid() && a <= f.exec
    ensures Flow(f.(exec := a)) + Flow(f.(exec := f.exec - a)) == Flow(f)
  {
    FlowIs(f);
    FlowIs(f.(exec := a));
    FlowIs(f.(exec := f.exec - a));
    assert R(f.exec) == R(a) + R(f.exec - a);
  }

  lemma SplitCost(p: Info, f: Fill, a: nat, cash: real)
    requires f.side.Valid() && Balanced(p.position, p.costs, cash) && a <= f.exec
    ensures OpenCost(WithFill(p, f.(exec := a)), f.(exec := f.exec - a)) == OpenCost(p, f)
  {
    var q, cash' := WithFill(p, f.(exec := a)), cash + Flow(f.(exec := a));
    assert Partway(p, q, f, a, cash, cash') by {
      FillBalances(p, f.(exec := a), cash);
      OpenCostIs(p, f.(exec := a), cash);
    }
    if p.position * SideValue(f.side) >= 0 {
      SplitOpening(p, q, f, a, cash, cash');
    } else if a >= Abs(p.position) {
      SplitFlipped(p, q, f, a, cash, cash');
    } else {
      SplitClosing(p, q, f, a, cash, cash');
    }
  }

  lemma PartsAccount(p: Info, f: Fill, a: nat, cash: real)
    requires f.side.Valid() && Balanced(p.position, p.costs, cash) && a <= f.exec
    ensures Balanced(WithFill(p, f.(exec := a)).position, WithFill(p, f.(exec := a)).costs, cash + Flow(f.(exec := a)))
    ensures var parts := WithFill(WithFill(p, f.(exec := a)), f.(exec := f.exec - a));
      Accounts(parts, p.position + SideValue(f.side) * f.exec, cash + Flow(f), R(f.price))
  {
    var q, g := WithFill(p, f.(exec := a)), f.(exec := f.exec - a);
    FillAccounts(p, f.(exec := a), cash);
    FlowSplits(f, a);
    FillAccounts(q, g, cash + Flow(f.(exec := a)));
    assert q.position + SideValue(f.side) * g.exec == p.position + SideValue(f.side) * f.exec;
  }

  lemma PartsCost(p: Info, f: Fill, a: nat, cash: real)
    requires f.side.Valid() && Balanced(p.position, p.costs, cash) && a <= f.exec
    ensures var parts, whole := WithFill(WithFill(p, f.(exec := a)), f.(exec := f.exec - a)), WithFill(p, f);
      parts.costs.long + parts.costs.short == whole.costs.long + whole.costs.short
  {
    var q, g := WithFill(p, f.(exec := a)), f.(exec := f.exec - a);
    PartsAccount(p, f, a, cash);
    OpenCostIs(q, g, cash + Flow(f.(exec := a)));
    OpenCostIs(p, f, cash);
    SplitCost(p, f, a, cash);
  }

  lemma VolumeOf(p: Info, f: Fill)
    requires f.side.Valid()
    ensures WithFill(p, f).volume == p.volume + f.exec
  {}

  /** One fill and the same quantity filled in two parts at the same price leave the same books, flips included. */
  lemma FillSplits(p: Info, f: Fill, a: nat, cash: real)
    requires f.side.Valid() && Balanced(p.position, p.costs, cash) && a <= f.exec
    ensures WithFill(WithFill(p, f.(exec := a)), f.(exec := f.exec - a)) == WithFill(p, f)
  {
    var q, g := WithFill(p, f.(exec := a)), f.(exec := f.exec - a);
    PartsAccount(p, f, a, cash);
    FillAccounts(p, f, cash);
    PartsCost(p, f, a, cash);
    VolumeOf(p, f.(exec := a));
    VolumeOf(q, g);
    VolumeOf(p, f);
    Determined(WithFill(q, g), WithFill(p, f), cash + Flow(f), R(f.price));
  }

  // ---- the text's total -----------------------------------------------------------------------

  /** The text's sum of :77 is the profit exactly when realised and unrealised happen to be equal. */
  function TotalAsWrittenOf(p: Info): real { p.unrealised + p.unrealised }

  lemma FillTotals(p: Info, f: Fill)
    requires f.side.Valid()
    ensures var q := WithFill(p, f);
      && q.position == p.position + SideValue(f.side) * f.exec && q.total == q.unrealised + q.costs.realised
      && (q.position == 0 ==> q.unrealised == 0.0 && q.costs.long == 0.0 == q.costs.short)
  {}

  lemma TwiceIsSum(x: real, y: real)
    ensures x + x == x + y <==> x == y
  {}

  /** Whenever a fill leaves the position flat the text reports 0, which is right only if no money was made or lost. */
  lemma TotalAsWritten(events: seq<Event>, f: Fill)
    requires EventsOk(events) && f.side.Valid()
    ensures var p := WithFill(After(events), f);
      && (TotalAsWrittenOf(p) == p.total <==> p.unrealised == p.costs.realised)
      && (Net(events) + SideValue(f.side) * f.exec == 0 ==>
            TotalAsWrittenOf(p) == 0.0 && (TotalAsWrittenOf(p) == p.total <==> Cash(events) + Flow(f) == 0.0))
  {
    PnlIdentity(events);
    FillTotals(After(events), f);
    FillBalances(After(events), f, Cash(events));
    var p := WithFill(After(events), f);
    TwiceIsSum(p.unrealised, p.costs.realised);
  }

  // ---- machine arithmetic ------------------------------------------------------------------------

  /**
   `position_ += exec_qty_ * side_value`: the product and the sum are taken modulo 2^32, then read as a signed number.
   */
  function MachineAfter(position: int, side: Side, exec: nat): int {
    Int32(position + (exec * (SideValue(side) % 0x1_0000_0000)) % 0x1_0000_0000)
  }

  /** Multiplying by the unsigned image of -1 subtracts, modulo 2^32. */
  lemma Unsigned(side: Side, exec: nat)
    requires side.Valid()
    ensures ((exec * (SideValue(side) % 0x1_0000_0000)) % 0x1_0000_0000 - SideValue(side) * exec) % 0x1_0000_0000 == 0
  {
    var m := 0x1_0000_0000;
    if side.Sell? {
      assert SideValue(side) % m == m - 1;
      var v := exec * (m - 1);
      assert v % m + exec == m * (exec - v / m);
      Multiple(exec - v / m);
    } else {
      assert SideValue(side) % m == 1;
      assert exec % m - exec == m * (-(exec / m));
      Multiple(-(exec / m));
    }
  }

  lemma Multiple(k: int)
    ensures (0x1_0000_0000 * k) % 0x1_0000_0000 == 0
  {}

  lemma MachineAfterExact(position: int, side: Side, exec: nat)
    requires side.Valid() && -0x8000_0000 <= position + SideValue(side) * exec < 0x8000_0000
    ensures MachineAfter(position, side, exec) == position + SideValue(side) * exec
  {
    Unsigned(side, exec);
    Int32Congruent(position + (exec * (SideValue(side) % 0x1_0000_0000)) % 0x1_0000_0000, position
        + SideValue(side) * exec);
  }

  lemma Int32Congruent(x: int, y: int)
    requires (x - y) % 0x1_0000_0000 == 0 && -0x8000_0000 <= y < 0x8000_0000
    ensures Int32(x) == y
  {}

  /** `addFill` with the sum and the flip test's product computed in 32 bits. */
  function MachineFill(p: Info, f: Fill): Info
    requires f.side.Valid()
  {
    var after := MachineAfter(p.position, f.side, f.exec);
    var cast := Int32(f.exec);
    Booked(p, f, after, Int32(after * p.position) < 0, if cast < Abs(p.position) then cast else Abs(p.position))
  }

  const SAFE_POSITION: nat := 46340

  lemma ProductFits(a: int, b: int)
    requires Abs(a) <= SAFE_POSITION && Abs(b) <= SAFE_POSITION
    ensures -0x8000_0000 <= a * b < 0x8000_0000
  {
    MulLeft(Abs(a), SAFE_POSITION, Abs(b));
    SignedProduct(a, b);
  }

  lemma MulLeft(x: nat, y: nat, z: nat)
    requires x <= y
    ensures x * z <= y * z
  {
    assert y * z == x * z + (y - x) * z;
  }

  lemma SignedProduct(a: int, b: int)
    ensures a * b == Abs(a) * Abs(b) || a * b == -(Abs(a) * Abs(b))
  {
    if a < 0 { assert a * b == -(Abs(a) * b); }
    if b < 0 { assert Abs(a) * b == -(Abs(a) * Abs(b)); }
  }

  lemma MachineFillExact(p: Info, f: Fill)
    requires f.side.Valid() && Abs(p.position) <= SAFE_POSITION
        && Abs(p.position + SideValue(f.side) * f.exec) <= SAFE_POSITION
    ensures MachineFill(p, f) == WithFill(p, f)
  {
    var after := p.position + SideValue(f.side) * f.exec;
    MachineAfterExact(p.position, f.side, f.exec);
    ProductFits(after, p.position);
    Int32Exact(after * p.position);
    Int32Exact(f.exec);
  }

  ghost function MachineRun(events: seq<Event>): Info
    requires EventsOk(events)
  {
    if events == [] then Flat
    else
      var e := events[|events| - 1];
      var p := MachineRun(events[..|events| - 1]);
      if e.Executed? then MachineFill(p, e.f) else Happen(p, e)
  }

  /** While the position stays within 46340 either way, 32-bit arithmetic computes the mathematical run. */
  lemma {:induction false} MachineRunExact(events: seq<Event>)
    requires EventsOk(events) && forall i | 0 <= i <= |events| :: Abs(Net(events[..i])) <= SAFE_POSITION
    ensures MachineRun(events) == After(events)
  {
    if events != [] {
      var n := |events| - 1;
      var before := events[..n];
      assert forall i | 0 <= i <= n :: before[..i] == events[..i];
      MachineRunExact(before);
      PnlIdentity(before);
      assert events[..n + 1] == events && before[..n] == before;
      assert Abs(Net(events[..n])) <= SAFE_POSITION && Abs(Net(events[..n + 1])) <= SAFE_POSITION;
      if events[n].Executed? { MachineFillExact(After(before), events[n].f); }
    }
  }

  /**
   Just past the bound it breaks: selling one of 46342 is taken for a flip, and the open cost is booked on the wrong
   side.
   */
  lemma FlipTestWraps(price: nat)
    requires price > 0
    ensures var p := WithFill(Flat, Fill(Buy, price, SAFE_POSITION + 2)); var f := Fill(Sell, price, 1);
      && WithFill(p, f).costs.short == 0.0
      && MachineFill(p, f).position == WithFill(p, f).position == SAFE_POSITION + 1
      && MachineFill(p, f).costs.short == R(price) * R(SAFE_POSITION + 1) > 0.0 == MachineFill(p, f).costs.long
  {
    var p := WithFill(Flat, Fill(Buy, price, SAFE_POSITION + 2));
    assert p.position == 46342;
    MachineAfterExact(46342, Sell, 1);
    Int32Congruent(46341 * 46342, 46341 * 46342 - 0x1_0000_0000);
    Int32Exact(1);
  }

  ghost predicate Within(events: seq<Event>, n: nat) {
    forall i | 0 <= i <= |events| :: Abs(Net(events[..i])) <= n
  }

  /** In 32 bits every run that stays within `n` either way is computed exactly. */
  ghost predicate SafeBound(n: nat) {
    forall events | EventsOk(events) && Within(events, n) :: MachineRun(events) == After(events)
  }

  /** A purchase of 46341 and a sale of twice as much: -46341 * 46341 is below -2^31. */
  function FlipPast(): seq<Event> {
    [Executed(Fill(Buy, 1, SAFE_POSITION + 1)), Executed(Fill(Sell, 1, 2 * (SAFE_POSITION + 1)))]
  }

  lemma FlipPastNets()
    ensures EventsOk(FlipPast()) && Within(FlipPast(), SAFE_POSITION + 1)
  {
    var w := FlipPast();
    assert w[..0] == [] && w[..1] == [w[0]] && w[..2] == w;
    assert w[..1][..0] == [];
  }

  lemma SaleNotFlipped(p: Info, f: Fill)
    requires p.position == SAFE_POSITION + 1 && f == Fill(Sell, 1, 2 * (SAFE_POSITION + 1))
    ensures MachineFill(p, f).costs.short == p.costs.short
  {
    var n := SAFE_POSITION + 1;
    MachineAfterExact(n, Sell, 2 * n);
    Int32Congruent(-n * n, 0x1_0000_0000 - n * n);
  }

  lemma SaleFlips(p: Info, f: Fill)
    requires p.position == SAFE_POSITION + 1 && f == Fill(Sell, 1, 2 * (SAFE_POSITION + 1))
    ensures WithFill(p, f).costs.short > 0.0
  {}

  lemma FirstPurchase()
    ensures var f := Fill(Buy, 1, SAFE_POSITION + 1);
      && WithFill(Flat, f).position == MachineFill(Flat, f).position == SAFE_POSITION + 1
      && MachineFill(Flat, f).costs.short == 0.0
  {
    MachineAfterExact(0, Buy, SAFE_POSITION + 1);
  }

  lemma LastFill(events: seq<Event>, f: Fill)
    requires EventsOk(events) && events != [] && events[|events| - 1] == Executed(f)
    ensures f.side.Valid()
    ensures MachineRun(events) == MachineFill(MachineRun(events[..|events| - 1]), f)
    ensures After(events) == WithFill(After(events[..|events| - 1]), f)
  {
    assert events[|events| - 1].Executed?;
  }

  lemma FlipPastMissed()
    ensures EventsOk(FlipPast()) && MachineRun(FlipPast()).costs.short == 0.0 < After(FlipPast()).costs.short
  {
    var w := FlipPast();
    var buy, sale := w[0].f, w[1].f;
    assert EventsOk(w) && EventsOk(w[..1]);
    assert w[..1] == [w[0]] && w[..1][..0] == [];
    LastFill(w[..1], buy);
    LastFill(w, sale);
    FirstPurchase();
    SaleNotFlipped(MachineRun(w[..1]), sale);
    SaleFlips(After(w[..1]), sale);
  }

  /**
   46340 is exact: every run within `n` either way is computed as over the integers if and only if `n` is at most that.
   */
  lemma SafeBoundIff(n: nat)
    ensures SafeBound(n) <==> n <= SAFE_POSITION
  {
    if n <= SAFE_POSITION {
      forall events | EventsOk(events) && Within(events, n) ensures MachineRun(events) == After(events) {
        MachineRunExact(events);
      }
    } else {
      FlipPastNets();
      FlipPastMissed();
      assert Within(FlipPast(), n);
    }
  }
}
