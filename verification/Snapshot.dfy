/**
 The snapshot synthesizer (exchange/market_data/snapshot_synthesizer.cpp) and what
 a client makes of its messages. A client is modelled by what each update type
 means: ADD joins the back of its ticker's list, MODIFY changes an entry where it
 stands, CANCEL removes it, CLEAR empties the ticker.
 */
module Snapshot {
  import opened Types
  import opened MarketLog
  import PriceTime

  datatype Numbered = Numbered(seqNum: nat, update: Update)

  // ---- what is published ---------------------------------------------------

  function StartMsg(last: nat): Update {
    Update(SnapshotStart, last, TICKER_ID_INVALID, InvalidSide, PRICE_INVALID, QTY_INVALID, PRIORITY_INVALID)
  }

  function EndMsg(last: nat): Update { StartMsg(last).(kind := SnapshotEnd) }

  function ClearMsg(ticker: nat): Update {
    Update(Clear, ORDER_ID_INVALID, ticker, InvalidSide, PRICE_INVALID, QTY_INVALID, PRIORITY_INVALID)
  }

  /** The orders of a row with ids below `n`, by ascending id. */
  function Listing(m: Slots, n: nat): seq<Update> {
    if n == 0 then [] else Listing(m, n - 1) + if n - 1 in m then [m[n - 1]] else []
  }

  /** The first `n` tickers: a CLEAR and the orders of each. */
  function Body(tbl: seq<Slots>, n: nat): seq<Update>
    requires n <= |tbl|
  {
    if n == 0 then [] else Body(tbl, n - 1) + [ClearMsg(n - 1)] + Listing(tbl[n - 1], ME_MAX_ORDER_IDS)
  }

  /** One published round; message `i` carries the number `i`. */
  function Round(tbl: seq<Slots>, last: nat): seq<Update> {
    [StartMsg(last)] + Body(tbl, |tbl|) + [EndMsg(last)]
  }

  /** A CLEAR and the ticker's orders. */
  function TickerPart(tbl: seq<Slots>, t: nat): seq<Update>
    requires t < |tbl|
  {
    [Update(Clear, ORDER_ID_INVALID, t, InvalidSide, PRICE_INVALID, QTY_INVALID, PRIORITY_INVALID)]
    + Listing(tbl[t], ME_MAX_ORDER_IDS)
  }

  lemma BodyGrows(tbl: seq<Slots>, t: nat)
    requires t < |tbl|
    ensures Body(tbl, t + 1) == Body(tbl, t) + TickerPart(tbl, t)
  {
    var a, b, c := Body(tbl, t), [ClearMsg(t)], Listing(tbl[t], ME_MAX_ORDER_IDS);
    assert a + b + c == a + (b + c);
  }

  lemma {:induction false} BodySplits(tbl: seq<Slots>, n: nat, t: nat) returns (rest: seq<Update>)
    requires t < n <= |tbl|
    ensures Body(tbl, n) == Body(tbl, t) + TickerPart(tbl, t) + rest
  {
    BodyGrows(tbl, n - 1);
    if n == t + 1 {
      rest := [];
    } else {
      var less := BodySplits(tbl, n - 1, t);
      rest := less + TickerPart(tbl, n - 1);
      var a, c := Body(tbl, t) + TickerPart(tbl, t), TickerPart(tbl, n - 1);
      assert a + less + c == a + (less + c);
    }
  }

  /** A round in full: both markers name the last update taken, and each ticker is cleared just before its orders. */
  lemma RoundInFull(tbl: seq<Slots>, last: nat, t: nat) returns (before: seq<Update>, after: seq<Update>)
    requires t < |tbl|
    ensures Round(tbl, last)
            == [Update(SnapshotStart, last, TICKER_ID_INVALID, InvalidSide, PRICE_INVALID, QTY_INVALID,
                PRIORITY_INVALID)]
               + (before + TickerPart(tbl, t) + after)
               + [Update(SnapshotEnd, last, TICKER_ID_INVALID, InvalidSide, PRICE_INVALID, QTY_INVALID,
                   PRIORITY_INVALID)]
    ensures before == Body(tbl, t)
  {
    before := Body(tbl, t);
    after := BodySplits(tbl, |tbl|, t);
  }

  /** The row admits the update: an ADD finds its slot free, a MODIFY or CANCEL its own order there. */
  ghost predicate Takes(row: Slots, u: Update) {
    && (u.kind.AddOrder? ==> u.oid < ME_MAX_ORDER_IDS && u.oid !in row)
    && (u.kind.ModifyOrder? || u.kind.CancelOrder? ==>
          u.oid < ME_MAX_ORDER_IDS && u.oid in row && row[u.oid].oid == u.oid && row[u.oid].side == u.side)
  }

  /** What the update makes of the row: only its own slot changes. */
  ghost predicate Turns(row: Slots, u: Update, row': Slots) {
    && (forall k | k != u.oid :: (k in row' <==> k in row) && (k in row ==> row'[k] == row[k]))
    && match u.kind
       case AddOrder => u.oid in row' && row'[u.oid] == u
       case ModifyOrder =>
         && u.oid in row && u.oid in row'
         && row'[u.oid].qty == u.qty && row'[u.oid].price == u.price
         && row'[u.oid] == row[u.oid].(qty := row'[u.oid].qty, price := row'[u.oid].price)
       case CancelOrder => u.oid !in row'
       case _ => row' == row
  }

  class SnapshotSynthesizer {
    var orders: seq<Slots>
    var lastIncSeqNum: nat

    constructor ()
      ensures orders == seq(ME_MAX_TICKERS, _ => map[]) && lastIncSeqNum == 0
    {
      orders := seq(ME_MAX_TICKERS, _ => map[]);
      lastIncSeqNum := 0;
    }

    /** snapshot_synthesizer.cpp:31-75; `ok` is false where an ASSERT or a bounds check ends the process. */
    method AddToSnapshot(msg: Numbered) returns (ok: bool)
      modifies this
      ensures ok <==> msg.update.ticker < |old(orders)| && Apply(old(orders)[msg.update.ticker], msg.update).Some?
                      && msg.seqNum == old(lastIncSeqNum) + 1
      ensures ok ==> orders == old(orders)[msg.update.ticker := Apply(old(orders)[msg.update.ticker], msg.update).value]
      ensures ok ==> lastIncSeqNum == msg.seqNum
      ensures ok <==> msg.update.ticker < |old(orders)| && msg.seqNum == old(lastIncSeqNum) + 1
                      && Takes(old(orders)[msg.update.ticker], msg.update)
      ensures ok ==> |orders| == |old(orders)| && forall t | 0 <= t < |orders| ::
                if t == msg.update.ticker then Turns(old(orders)[t], msg.update, orders[t])
                else orders[t] == old(orders)[t]
    {
      var u := msg.update;
      if u.ticker >= |orders| { return false; }
      var row := orders[u.ticker];
      if u.kind.AddOrder? || u.kind.ModifyOrder? || u.kind.CancelOrder? {
        if u.oid >= ME_MAX_ORDER_IDS { return false; }
        if u.kind.AddOrder? {
          if u.oid in row { return false; }
          row := row[u.oid := u];
        } else {
          if u.oid !in row || row[u.oid].oid != u.oid || row[u.oid].side != u.side { return false; }
          if u.kind.ModifyOrder? {
            row := row[u.oid := row[u.oid].(qty := u.qty, price := u.price)];
          } else {
            row := row - {u.oid};
          }
        }
      }
      orders := orders[u.ticker := row];
      if msg.seqNum != lastIncSeqNum + 1 { return false; }
      lastIncSeqNum := msg.seqNum;
      ok := true;
    }

    /** snapshot_synthesizer.cpp:77-132: two nested loops with one running counter. */
    method PublishSnapshot() returns (sent: seq<Numbered>)
      ensures |sent| == |Round(orders, lastIncSeqNum)|
      ensures forall i | 0 <= i < |sent| :: sent[i] == Numbered(i, Round(orders, lastIncSeqNum)[i])
    {
      var size := 0;
      sent := [Numbered(size, StartMsg(lastIncSeqNum))];
      size := size + 1;
      var ticker := 0;
      while ticker < |orders|
        invariant ticker <= |orders|
        invariant size == |sent| && Sent(sent, [StartMsg(lastIncSeqNum)] + Body(orders, ticker))
      {
        ghost var before := [StartMsg(lastIncSeqNum)] + Body(orders, ticker);
        sent := sent + [Numbered(size, ClearMsg(ticker))];
        size := size + 1;
        var id := 0;
        while id < ME_MAX_ORDER_IDS
          invariant id <= ME_MAX_ORDER_IDS
          invariant size == |sent| && Sent(sent, before + [ClearMsg(ticker)] + Listing(orders[ticker], id))
        {
          if id in orders[ticker] {
            sent := sent + [Numbered(size, orders[ticker][id])];
            size := size + 1;
          }
          id := id + 1;
        }
        assert before + [ClearMsg(ticker)] + Listing(orders[ticker], id)
            == [StartMsg(lastIncSeqNum)] + Body(orders, ticker + 1);
        ticker := ticker + 1;
      }
      sent := sent + [Numbered(size, EndMsg(lastIncSeqNum))];
    }
  }

  /** The messages went out with consecutive numbers from 0. */
  ghost predicate Sent(sent: seq<Numbered>, us: seq<Update>) {
    |sent| == |us| && forall i | 0 <= i < |sent| :: sent[i] == Numbered(i, us[i])
  }

  // ---- what a client makes of it --------------------------------------------

  type Client = seq<seq<Update>>

  function Amend(s: seq<Update>, u: Update): seq<Update> {
    if s == [] then []
    else [if s[0].oid == u.oid then s[0].(qty := u.qty, price := u.price) else s[0]] + Amend(s[1..], u)
  }

  function Delete(s: seq<Update>, oid: nat): seq<Update> {
    if s == [] then [] else (if s[0].oid == oid then [] else [s[0]]) + Delete(s[1..], oid)
  }

  function ClientApply(c: Client, u: Update): Client {
    if u.ticker >= |c| then c
    else
      match u.kind
      case AddOrder => c[u.ticker := c[u.ticker] + [u]]
      case ModifyOrder => c[u.ticker := Amend(c[u.ticker], u)]
      case CancelOrder => c[u.ticker := Delete(c[u.ticker], u.oid)]
      case Clear => c[u.ticker := []]
      case _ => c
  }

  function Replay(c: Client, us: seq<Update>): Client
    decreases |us|
  {
    if us == [] then c else Replay(ClientApply(c, us[0]), us[1..])
  }

  lemma {:induction false} ReplayAppend(c: Client, a: seq<Update>, b: seq<Update>)
    ensures Replay(c, a + b) == Replay(Replay(c, a), b)
    decreases |a|
  {
    if a == [] {
      assert a + b == b;
    } else {
      assert (a + b)[1..] == a[1..] + b;
      ReplayAppend(ClientApply(c, a[0]), a[1..], b);
    }
  }

  // ---- the listing of a row under one update ----------------------------------

  /** Every slot holds an ADD of its own ticker and id. */
  ghost predicate RowOk(m: Slots, ticker: nat) {
    forall k | k in m :: k < ME_MAX_ORDER_IDS && m[k].oid == k && m[k].kind.AddOrder? && m[k].ticker == ticker
  }

  lemma {:induction false} AmendAppend(a: seq<Update>, b: seq<Update>, u: Update)
    ensures Amend(a + b, u) == Amend(a, u) + Amend(b, u)
  {
    if a == [] {
      assert a + b == b;
    } else {
      assert (a + b)[1..] == a[1..] + b;
      AmendAppend(a[1..], b, u);
    }
  }

  lemma {:induction false} DeleteAppend(a: seq<Update>, b: seq<Update>, oid: nat)
    ensures Delete(a + b, oid) == Delete(a, oid) + Delete(b, oid)
  {
    if a == [] {
      assert a + b == b;
    } else {
      assert (a + b)[1..] == a[1..] + b;
      DeleteAppend(a[1..], b, oid);
    }
  }

  lemma {:induction false} ListingAdd(m: Slots, u: Update, n: nat)
    requires forall k | k in m :: k < u.oid
    ensures Listing(m[u.oid := u], n) == Listing(m, n) + if u.oid < n then [u] else []
  {
    if n > 0 { ListingAdd(m, u, n - 1); }
  }

  lemma {:induction false} ListingModify(m: Slots, u: Update, n: nat, ticker: nat)
    requires RowOk(m, ticker) && u.oid in m
    ensures Listing(m[u.oid := m[u.oid].(qty := u.qty, price := u.price)], n) == Amend(Listing(m, n), u)
  {
    if n > 0 {
      ListingModify(m, u, n - 1, ticker);
      AmendAppend(Listing(m, n - 1), if n - 1 in m then [m[n - 1]] else [], u);
    }
  }

  lemma {:induction false} ListingCancel(m: Slots, oid: nat, n: nat, ticker: nat)
    requires RowOk(m, ticker)
    ensures Listing(m - {oid}, n) == Delete(Listing(m, n), oid)
  {
    if n > 0 {
      ListingCancel(m, oid, n - 1, ticker);
      DeleteAppend(Listing(m, n - 1), if n - 1 in m then [m[n - 1]] else [], oid);
    }
  }

  // ---- tables of all tickers ----------------------------------------------------

  ghost predicate TableOk(tbl: seq<Slots>) {
    forall t | 0 <= t < |tbl| :: RowOk(tbl[t], t)
  }

  /** The client that lists every row by ascending id. */
  function Listings(tbl: seq<Slots>): (c: Client)
    ensures |c| == |tbl| && forall t | 0 <= t < |tbl| :: c[t] == Listing(tbl[t], ME_MAX_ORDER_IDS)
  {
    seq(|tbl|, t requires 0 <= t < |tbl| => Listing(tbl[t], ME_MAX_ORDER_IDS))
  }

  ghost predicate LegalIn(tbl: seq<Slots>, u: Update) {
    u.ticker < |tbl| && Legal(tbl[u.ticker], u)
  }

  function ApplyIn(tbl: seq<Slots>, u: Update): seq<Slots>
    requires u.ticker < |tbl| && Apply(tbl[u.ticker], u).Some?
  {
    tbl[u.ticker := Apply(tbl[u.ticker], u).value]
  }

  /** A client in step with the table stays in step under every legal update. */
  lemma UpdateInStep(tbl: seq<Slots>, u: Update)
    requires TableOk(tbl) && LegalIn(tbl, u)
    ensures TableOk(ApplyIn(tbl, u)) && ClientApply(Listings(tbl), u) == Listings(ApplyIn(tbl, u))
  {
    var m := tbl[u.ticker];
    match u.kind {
      case AddOrder => ListingAdd(m, u, ME_MAX_ORDER_IDS);
      case ModifyOrder => ListingModify(m, u, ME_MAX_ORDER_IDS, u.ticker);
      case CancelOrder => ListingCancel(m, u.oid, ME_MAX_ORDER_IDS, u.ticker);
      case Trade => assert ApplyIn(tbl, u) == tbl;
    }
  }

  // ---- the snapshot round trip ----------------------------------------------------

  lemma {:induction false} ReplayAdds(c: Client, us: seq<Update>, ticker: nat)
    requires ticker < |c| && forall i | 0 <= i < |us| :: us[i].kind.AddOrder? && us[i].ticker == ticker
    ensures Replay(c, us) == c[ticker := c[ticker] + us]
    decreases |us|
  {
    if us == [] {
      assert c[ticker] + us == c[ticker];
    } else {
      ReplayAdds(ClientApply(c, us[0]), us[1..], ticker);
      assert c[ticker] + [us[0]] + us[1..] == c[ticker] + us;
    }
  }

  lemma {:induction false} ListingIsAdds(m: Slots, n: nat, ticker: nat)
    requires RowOk(m, ticker)
    ensures forall i | 0 <= i < |Listing(m, n)| :: Listing(m, n)[i].kind.AddOrder? && Listing(m, n)[i].ticker == ticker
  {
    if n > 0 { ListingIsAdds(m, n - 1, ticker); }
  }

  lemma NextRow(whole: Client, c: Client, t: nat)
    requires t < |whole| == |c|
    ensures (whole[..t] + c[t..])[t := whole[t]] == whole[..t + 1] + c[t + 1..]
  {}

  lemma {:induction false} RestoreRow(d: Client, t: nat, row: seq<Update>)
    requires t < |d| && forall i | 0 <= i < |row| :: row[i].kind.AddOrder? && row[i].ticker == t
    ensures Replay(d, [ClearMsg(t)] + row) == d[t := row]
  {
    var us := [ClearMsg(t)] + row;
    assert us[0] == ClearMsg(t) && us[1..] == row;
    ReplayAdds(d[t := []], row, t);
    assert d[t := []][t] + row == row;
    assert d[t := []][t := row] == d[t := row];
  }

  lemma {:induction false} BodyRestores(c: Client, tbl: seq<Slots>, n: nat)
    requires TableOk(tbl) && |c| == |tbl| && n <= |tbl|
    ensures Replay(c, Body(tbl, n)) == Listings(tbl)[..n] + c[n..]
  {
    if n > 0 {
      var t, row := n - 1, Listing(tbl[n - 1], ME_MAX_ORDER_IDS);
      var d := Listings(tbl)[..t] + c[t..];
      BodyRestores(c, tbl, t);
      assert Body(tbl, n) == Body(tbl, t) + ([ClearMsg(t)] + row);
      ReplayAppend(c, Body(tbl, t), [ClearMsg(t)] + row);
      ListingIsAdds(tbl[t], ME_MAX_ORDER_IDS, t);
      RestoreRow(d, t, row);
      NextRow(Listings(tbl), c, t);
    }
  }

  /** From any prior client state, replaying a published snapshot restores every live order, in id order. */
  lemma SnapshotRoundTrip(c: Client, tbl: seq<Slots>)
    requires TableOk(tbl) && |c| == |tbl|
    ensures Replay(c, Body(tbl, |tbl|)) == Listings(tbl)
  {
    BodyRestores(c, tbl, |tbl|);
  }

  // ---- time priority survives the round trip ---------------------------------------

  /** A client's queue at one price. */
  function AtPrice(us: seq<Update>, side: Side, price: nat): seq<Update> {
    if us == [] then []
    else (if us[0].side == side && us[0].price == price then [us[0]] else []) + AtPrice(us[1..], side, price)
  }

  /** The exchange's queue at one price, as the updates that would announce it. */
  function QueueAt(s: seq<PriceTime.Resting>, price: nat, ticker: nat): seq<Update> {
    if s == [] then []
    else (if s[0].price == price then [PriceTime.AddMsg(ticker, s[0])] else []) + QueueAt(s[1..], price, ticker)
  }

  ghost predicate Ascending(us: seq<Update>) {
    forall i, j | 0 <= i < j < |us| :: us[i].oid < us[j].oid
  }

  lemma {:induction false} AscendingUnique(a: seq<Update>, b: seq<Update>)
    requires Ascending(a) && Ascending(b) && forall x :: x in a <==> x in b
    ensures a == b
  {
    if a == [] {
      assert forall i | 0 <= i < |b| :: b[i] in b;
    } else {
      assert a[0] in a;
      assert a[0] in b;
      assert b[0] in b;
      assert b[0] in a;
      var j :| 0 <= j < |b| && b[j] == a[0];
      var i :| 0 <= i < |a| && a[i] == b[0];
      assert j == 0 && i == 0;
      forall x ensures x in a[1..] <==> x in b[1..] {
        TailMember(a, x);
        TailMember(b, x);
      }
      AscendingUnique(a[1..], b[1..]);
    }
  }

  lemma TailMember(a: seq<Update>, x: Update)
    requires a != [] && Ascending(a)
    ensures x in a[1..] <==> x in a && x != a[0]
  {
    if x in a && x != a[0] {
      var i :| 0 <= i < |a| && a[i] == x;
      assert a[1..][i - 1] == x;
    }
    if x in a[1..] {
      var i :| 0 <= i < |a| - 1 && a[1..][i] == x;
      assert a[i + 1] == x && a[0].oid < a[i + 1].oid;
    }
  }

  lemma {:induction false} ListingMembers(m: Slots, n: nat, ticker: nat)
    requires RowOk(m, ticker)
    ensures Ascending(Listing(m, n)) && (forall i | 0 <= i < |Listing(m, n)| :: Listing(m, n)[i].oid < n)
    ensures forall x :: x in Listing(m, n) <==> x.oid < n && x.oid in m && m[x.oid] == x
  {
    if n > 0 { ListingMembers(m, n - 1, ticker); }
  }

  lemma {:induction false} AtPriceMembers(us: seq<Update>, side: Side, price: nat)
    ensures forall x :: x in AtPrice(us, side, price) <==> x in us && x.side == side && x.price == price
  {
    if us != [] {
      AtPriceMembers(us[1..], side, price);
      assert forall x :: x in us <==> x == us[0] || x in us[1..];
    }
  }

  lemma {:induction false} AtPriceAscends(us: seq<Update>, side: Side, price: nat)
    requires Ascending(us)
    ensures Ascending(AtPrice(us, side, price))
  {
    if us != [] {
      AtPriceAscends(us[1..], side, price);
      AtPriceMembers(us[1..], side, price);
      forall x | x in us[1..] ensures us[0].oid < x.oid {
        var i :| 0 <= i < |us| - 1 && us[1..][i] == x;
        assert us[i + 1] == x;
      }
    }
  }

  lemma {:induction false} QueueMembers(s: seq<PriceTime.Resting>, side: Side, nextId: nat, price: nat, ticker: nat)
    requires PriceTime.SideOk(s, side, nextId)
    ensures forall x ::
              x in QueueAt(s, price, ticker)
              <==> exists i :: 0 <= i < |s| && s[i].price == price && x == PriceTime.AddMsg(ticker, s[i])
    ensures Ascending(QueueAt(s, price, ticker))
  {
    if s != [] {
      QueueMembers(s[1..], side, nextId, price, ticker);
      var q, q' := QueueAt(s, price, ticker), QueueAt(s[1..], price, ticker);
      forall x ensures x in q <==> exists i ::
          0 <= i < |s| && s[i].price == price && x == PriceTime.AddMsg(ticker, s[i])
      {
        if x in q' {
          var i :| 0 <= i < |s| - 1 && s[1..][i].price == price && x == PriceTime.AddMsg(ticker, s[1..][i]);
          assert s[i + 1] == s[1..][i];
        }
        if i :| 0 <= i < |s| && s[i].price == price && x == PriceTime.AddMsg(ticker, s[i]) {
          if i > 0 { assert s[1..][i - 1] == s[i]; }
        }
      }
      forall x | x in q' && s[0].price == price ensures s[0].mid < x.oid {
        var i :| 0 <= i < |s| - 1 && s[1..][i].price == price && x == PriceTime.AddMsg(ticker, s[1..][i]);
        assert PriceTime.Before(s[0], s[i + 1]);
      }
    }
  }

  /**
   Time priority survives: a client that lists the orders by ascending id has, at every price, exactly the
   exchange's queue in the exchange's order.
   */
  lemma TimePriority(m: Slots, b: PriceTime.Book, side: Side, price: nat, ticker: nat)
    requires PriceTime.Ok(b) && b.nextId <= ME_MAX_ORDER_IDS && side.Valid()
    requires Mirrors(m, b.bids, b.asks, ticker) && RowOk(m, ticker)
    ensures AtPrice(Listing(m, ME_MAX_ORDER_IDS), side, price) == QueueAt(b.Of(side), price, ticker)
  {
    var a, q := AtPrice(Listing(m, ME_MAX_ORDER_IDS), side, price), QueueAt(b.Of(side), price, ticker);
    ListingMembers(m, ME_MAX_ORDER_IDS, ticker);
    AtPriceMembers(Listing(m, ME_MAX_ORDER_IDS), side, price);
    AtPriceAscends(Listing(m, ME_MAX_ORDER_IDS), side, price);
    QueueMembers(b.Of(side), side, b.nextId, price, ticker);
    forall x ensures x in a <==> x in q {
      MirrorAt(m, b, side, price, ticker, x);
    }
    AscendingUnique(a, q);
  }

  lemma MirrorAt(m: Slots, b: PriceTime.Book, side: Side, price: nat, ticker: nat, x: Update)
    requires PriceTime.Ok(b) && b.nextId <= ME_MAX_ORDER_IDS && side.Valid() && Mirrors(m, b.bids, b.asks, ticker)
    ensures (x.oid < ME_MAX_ORDER_IDS && x.oid in m && m[x.oid] == x && x.side == side && x.price == price) <==>
            exists i :: 0 <= i < |b.Of(side)| && b.Of(side)[i].price == price
                && x == PriceTime.AddMsg(ticker, b.Of(side)[i])
  {
    if x.oid in m && m[x.oid] == x && x.side == side && x.price == price {
      if HasMid(b.bids, x.oid) {
        var i :| 0 <= i < |b.bids| && b.bids[i].mid == x.oid;
        assert x == PriceTime.AddMsg(ticker, b.bids[i]);
        assert b.Of(side)[i].price == price;
      } else {
        var i :| 0 <= i < |b.asks| && b.asks[i].mid == x.oid;
        assert x == PriceTime.AddMsg(ticker, b.asks[i]);
        assert b.Of(side)[i].price == price;
      }
    }
  }
}
