/**
 The market-update stream as a log. `Apply` is what the snapshot synthesizer does
 with one update (exchange/market_data/snapshot_synthesizer.cpp:31-75), and the
 stream the book emits is proved to keep the synthesizer's slots an exact copy of
 the resting orders, with none of its ASSERTs firing.
 */
module MarketLog {
  import opened Types
  import opened PriceTime

  /** One ticker's row of `orders_per_ticker_`: the non-null slots. */
  type Slots = map<nat, Update>

  /** `None` is a failed ASSERT or an index past the end of the row; both end the process. */
  function Apply(m: Slots, u: Update): Option<Slots> {
    match u.kind
    case AddOrder =>
      if u.oid < ME_MAX_ORDER_IDS && u.oid !in m then Some(m[u.oid := u]) else None
    case ModifyOrder =>
      if u.oid < ME_MAX_ORDER_IDS && u.oid in m && m[u.oid].oid == u.oid && m[u.oid].side == u.side
      then Some(m[u.oid := m[u.oid].(qty := u.qty, price := u.price)]) else None
    case CancelOrder =>
      if u.oid < ME_MAX_ORDER_IDS && u.oid in m && m[u.oid].oid == u.oid && m[u.oid].side == u.side
      then Some(m - {u.oid}) else None
    case _ => Some(m)
  }

  /**
   An update the synthesizer takes without an ASSERT, of a kind that the book emits; a new order's id is
   above every live one.
   */
  ghost predicate Legal(m: Slots, u: Update) {
    && Apply(m, u).Some?
    && (u.kind.AddOrder? || u.kind.ModifyOrder? || u.kind.CancelOrder? || u.kind.Trade?)
    && (u.kind.AddOrder? ==> forall k | k in m :: k < u.oid)
  }

  ghost predicate LegalAll(m: Slots, us: seq<Update>)
    decreases |us|
  {
    us == [] || (Legal(m, us[0]) && LegalAll(Apply(m, us[0]).value, us[1..]))
  }

  ghost function Fold(m: Slots, us: seq<Update>): Slots
    requires LegalAll(m, us)
    decreases |us|
  {
    if us == [] then m else Fold(Apply(m, us[0]).value, us[1..])
  }

  lemma {:induction false} FoldAppend(m: Slots, a: seq<Update>, b: seq<Update>)
    requires LegalAll(m, a) && LegalAll(Fold(m, a), b)
    ensures LegalAll(m, a + b) && Fold(m, a + b) == Fold(Fold(m, a), b)
    decreases |a|
  {
    if a == [] {
      assert a + b == b;
    } else {
      assert (a + b)[1..] == a[1..] + b;
      FoldAppend(Apply(m, a[0]).value, a[1..], b);
    }
  }

  // ---- the slots mirror the book ------------------------------------------

  ghost predicate HasMid(s: seq<Resting>, k: nat) {
    exists i :: 0 <= i < |s| && s[i].mid == k
  }

  /** Every order of `s` is in its slot with id, side, price, quantity and priority. */
  ghost predicate Holds(m: Slots, s: seq<Resting>, ticker: nat) {
    forall i | 0 <= i < |s| :: s[i].mid in m && m[s[i].mid] == AddMsg(ticker, s[i])
  }

  /** The slots hold exactly the resting orders. */
  ghost predicate Mirrors(m: Slots, own: seq<Resting>, opp: seq<Resting>, ticker: nat) {
    && Holds(m, own, ticker) && Holds(m, opp, ticker)
    && (forall k | k in m :: HasMid(own, k) || HasMid(opp, k))
  }

  ghost predicate MidsApart(own: seq<Resting>, opp: seq<Resting>) {
    && (forall i, j | 0 <= i < j < |opp| :: opp[i].mid != opp[j].mid)
    && (forall i, j | 0 <= i < |own| && 0 <= j < |opp| :: own[i].mid != opp[j].mid)
    && (forall j | 0 <= j < |opp| :: opp[j].mid < ME_MAX_ORDER_IDS)
  }

  lemma HasMidDrop(s: seq<Resting>, p: nat, k: nat)
    requires p < |s| && HasMid(s, k) && k != s[p].mid
    ensures HasMid(s[..p] + s[p + 1..], k)
  {
    var i :| 0 <= i < |s| && s[i].mid == k;
    assert (s[..p] + s[p + 1..])[if i < p then i else i - 1] == s[i];
  }

  lemma MirrorRemove(m: Slots, own: seq<Resting>, opp: seq<Resting>, p: nat, ticker: nat)
    requires Mirrors(m, own, opp, ticker) && MidsApart(own, opp) && p < |opp|
    ensures Mirrors(m - {opp[p].mid}, own, opp[..p] + opp[p + 1..], ticker) && MidsApart(own, opp[..p] + opp[p + 1..])
  {
    var opp' := opp[..p] + opp[p + 1..];
    forall i | 0 <= i < |opp'| ensures opp'[i] == opp[if i < p then i else i + 1] && opp'[i].mid != opp[p].mid {}
    forall k | k in m && k != opp[p].mid ensures HasMid(own, k) || HasMid(opp', k) {
      if !HasMid(own, k) { HasMidDrop(opp, p, k); }
    }
  }

  lemma MirrorReduce(m: Slots, own: seq<Resting>, opp: seq<Resting>, qty: nat, ticker: nat)
    requires Mirrors(m, own, opp, ticker) && MidsApart(own, opp) && opp != []
    ensures var r := opp[0].(qty := qty);
      Mirrors(m[r.mid := AddMsg(ticker, r)], own, [r] + opp[1..], ticker) && MidsApart(own, [r] + opp[1..])
  {
    var r := opp[0].(qty := qty);
    var opp' := [r] + opp[1..];
    forall i | 0 <= i < |opp'| ensures opp'[i].mid == opp[i].mid && (i > 0 ==> opp'[i] == opp[i]) {}
    forall k | k in m ensures HasMid(own, k) || HasMid(opp', k) {
      if !HasMid(own, k) {
        var i :| 0 <= i < |opp| && opp[i].mid == k;
        assert opp'[i].mid == k;
      }
    }
  }

  lemma FoldOne(m: Slots, u: Update)
    requires Legal(m, u)
    ensures LegalAll(m, [u]) && Fold(m, [u]) == Apply(m, u).value
  {
    assert [u][1..] == [];
  }

  /** The maker's MODIFY or CANCEL. */
  lemma MakerLog(m: Slots, own: seq<Resting>, opp: seq<Resting>, fill: nat, ticker: nat)
    requires Mirrors(m, own, opp, ticker) && MidsApart(own, opp) && opp != [] && fill <= opp[0].qty
    ensures var u := MakerUpdate(ticker, opp[0], opp[0].qty - fill);
      Legal(m, u) && Mirrors(Apply(m, u).value, own, AfterFill(opp, fill), ticker)
          && MidsApart(own, AfterFill(opp, fill))
  {
    if fill == opp[0].qty {
      MirrorRemove(m, own, opp, 0, ticker);
      assert opp[..0] + opp[1..] == opp[1..];
    } else {
      MirrorReduce(m, own, opp, opp[0].qty - fill, ticker);
    }
  }

  /** One fill: the TRADE and the maker's update. */
  lemma FillLog(m: Slots, own: seq<Resting>, opp: seq<Resting>, fill: nat, trade: Update, ticker: nat)
    requires Mirrors(m, own, opp, ticker) && MidsApart(own, opp) && opp != [] && fill <= opp[0].qty && trade.kind.Trade?
    ensures var us := [trade, MakerUpdate(ticker, opp[0], opp[0].qty - fill)];
      LegalAll(m, us) && Mirrors(Fold(m, us), own, AfterFill(opp, fill), ticker) && MidsApart(own, AfterFill(opp, fill))
  {
    var u := MakerUpdate(ticker, opp[0], opp[0].qty - fill);
    MakerLog(m, own, opp, fill, ticker);
    FoldOne(m, u);
    assert [trade, u][1..] == [u];
  }

  lemma {:induction false} SweepLog(m: Slots, own: seq<Resting>, opp: seq<Resting>, ticker: nat, t: Taker, left: nat)
    requires Mirrors(m, own, opp, ticker) && MidsApart(own, opp)
    ensures var r := SweepSide(ticker, opp, t, left);
      LegalAll(m, r.updates) && Mirrors(Fold(m, r.updates), own, r.rest, ticker)
    decreases |opp| + left
  {
    if CanTrade(opp, t, left) {
      var fill := Min(left, opp[0].qty);
      var us := [TradeMsg(ticker, t, opp[0].price, fill), MakerUpdate(ticker, opp[0], opp[0].qty - fill)];
      FillLog(m, own, opp, fill, us[0], ticker);
      SweepLog(Fold(m, us), own, AfterFill(opp, fill), ticker, t, left - fill);
      FoldAppend(m, us, SweepSide(ticker, AfterFill(opp, fill), t, left - fill).updates);
    }
  }

  lemma MirrorPut(m: Slots, own: seq<Resting>, opp: seq<Resting>, k: nat, r: Resting, ticker: nat)
    requires Mirrors(m, own, opp, ticker) && r.mid !in m && k <= |own|
    ensures Mirrors(m[r.mid := AddMsg(ticker, r)], own[..k] + [r] + own[k..], opp, ticker)
  {
    var own' := own[..k] + [r] + own[k..];
    assert own'[k] == r;
    forall i | 0 <= i < |own'| && i != k ensures own'[i] == own[if i < k then i else i - 1] {}
    forall x | x in m ensures HasMid(own', x) || HasMid(opp, x) {
      if !HasMid(opp, x) {
        var i :| 0 <= i < |own| && own[i].mid == x;
        assert own'[if i < k then i else i + 1] == own[i];
      }
    }
  }

  lemma SlotsBelow(m: Slots, own: seq<Resting>, opp: seq<Resting>, n: nat, ticker: nat)
    requires Mirrors(m, own, opp, ticker)
    requires (forall i | 0 <= i < |own| :: own[i].mid < n) && (forall i | 0 <= i < |opp| :: opp[i].mid < n)
    ensures forall k | k in m :: k < n
  {}

  lemma RestLog(m: Slots, own: seq<Resting>, opp: seq<Resting>, r: Resting, ticker: nat)
    requires Mirrors(m, own, opp, ticker) && r.mid < ME_MAX_ORDER_IDS
    requires (forall i | 0 <= i < |own| :: own[i].mid < r.mid) && (forall i | 0 <= i < |opp| :: opp[i].mid < r.mid)
    ensures LegalAll(m, [AddMsg(ticker, r)]) && Mirrors(Fold(m, [AddMsg(ticker, r)]), Insert(own, r), opp, ticker)
  {
    SlotsBelow(m, own, opp, r.mid, ticker);
    FoldOne(m, AddMsg(ticker, r));
    var k := InsertAt(own, r);
    MirrorPut(m, own, opp, k, r, ticker);
  }

  /** From one side's point of view, `Ok` keeps the ids apart. */
  lemma OkApart(own: seq<Resting>, opp: seq<Resting>, side: Side, nextId: nat)
    requires side.Valid() && OkFrom(own, opp, side, nextId) && nextId <= ME_MAX_ORDER_IDS
    ensures MidsApart(own, opp)
  {
    forall i, j | 0 <= i < j < |opp| ensures opp[i].mid != opp[j].mid {
      assert (own + opp)[|own| + i] == opp[i] && (own + opp)[|own| + j] == opp[j];
    }
    forall i, j | 0 <= i < |own| && 0 <= j < |opp| ensures own[i].mid != opp[j].mid {
      assert (own + opp)[i] == own[i] && (own + opp)[|own| + j] == opp[j];
    }
  }

  lemma AddLogFrom(m: Slots, own: seq<Resting>, opp: seq<Resting>, ticker: nat, t: Taker, qty: nat)
    requires t.side.Valid() && OkFrom(own, opp, t.side, t.mid) && t.mid < ME_MAX_ORDER_IDS
        && Mirrors(m, own, opp, ticker)
    ensures var s := SweepSide(ticker, opp, t, qty);
      var r := Resting(t.client, t.oid, t.mid, t.side, t.price, s.left, NextPriority(own, t.price));
      var us := s.updates + if s.left == 0 then [] else [AddMsg(ticker, r)];
      LegalAll(m, us) && Mirrors(Fold(m, us), if s.left == 0 then own else Insert(own, r), s.rest, ticker)
  {
    var s := SweepSide(ticker, opp, t, qty);
    OkApart(own, opp, t.side, t.mid);
    SweepLog(m, own, opp, ticker, t, qty);
    if s.left == 0 {
      assert s.updates + [] == s.updates;
    } else {
      var r := Resting(t.client, t.oid, t.mid, t.side, t.price, s.left, NextPriority(own, t.price));
      var k := SweepShape(ticker, opp, t, qty);
      forall i | 0 <= i < |s.rest| ensures s.rest[i].mid < t.mid { assert s.rest[i].mid == opp[k + i].mid; }
      RestLog(Fold(m, s.updates), own, s.rest, r, ticker);
      FoldAppend(m, s.updates, [AddMsg(ticker, r)]);
    }
  }

  lemma AddLog(m: Slots, b: Book, ticker: nat, client: nat, oid: nat, side: Side, price: nat, qty: nat)
    requires Ok(b) && side.Valid() && b.nextId < ME_MAX_ORDER_IDS && Mirrors(m, b.bids, b.asks, ticker)
    ensures var o := Add(b, ticker, client, oid, side, price, qty);
      LegalAll(m, o.updates) && Mirrors(Fold(m, o.updates), o.book.bids, o.book.asks, ticker)
  {
    OkFromEitherSide(b, side);
    var t := Taker(client, oid, b.nextId, side, price);
    AddLogFrom(m, b.Of(side), b.Of(side.Opposite()), ticker, t, qty);
    var s := SweepSide(ticker, b.Of(side.Opposite()), t, qty);
    assert s.updates + [] == s.updates;
  }

  lemma CancelLogFrom(m: Slots, own: seq<Resting>, opp: seq<Resting>, r: Resting, nextId: nat, ticker: nat)
    requires r.side.Valid() && OkFrom(opp, own, r.side.Opposite(), nextId) && nextId <= ME_MAX_ORDER_IDS
    requires Mirrors(m, opp, own, ticker) && r in own
    ensures LegalAll(m, [CancelMsg(ticker, r)])
    ensures Mirrors(Fold(m, [CancelMsg(ticker, r)]), opp, Without(own, r.mid), ticker)
  {
    OkApart(opp, own, r.side.Opposite(), nextId);
    var p := WithoutAt(own, r.mid);
    MirrorRemove(m, opp, own, p, ticker);
    FoldOne(m, CancelMsg(ticker, r));
  }

  lemma CancelLog(m: Slots, b: Book, ticker: nat, client: nat, oid: nat)
    requires Ok(b) && b.nextId <= ME_MAX_ORDER_IDS && Mirrors(m, b.bids, b.asks, ticker)
    ensures var o := CancelById(b, ticker, client, oid);
      LegalAll(m, o.updates) && Mirrors(Fold(m, o.updates), o.book.bids, o.book.asks, ticker)
  {
    if client < ME_MAX_NUM_CLIENTS && Find(b.bids + b.asks, client, oid).Some? {
      var r := Find(b.bids + b.asks, client, oid).value;
      assert r in b.bids || r in b.asks;
      assert r.side.Valid();
      OkFromEitherSide(b, r.side.Opposite());
      CancelLogFrom(m, b.Of(r.side), b.Of(r.side.Opposite()), r, b.nextId, ticker);
    }
  }

  /**
   The stream is a faithful log: replaying what one request emits turns a mirror of the book into a mirror of the next
   book.
   */
  lemma ProcessLog(m: Slots, b: Book, req: Request)
    requires Ok(b) && Admissible(b, req) && b.nextId < ME_MAX_ORDER_IDS && Mirrors(m, b.bids, b.asks, req.ticker)
    ensures var o := Process(b, req);
      LegalAll(m, o.updates) && Mirrors(Fold(m, o.updates), o.book.bids, o.book.asks, req.ticker)
  {
    match req
    case New(client, oid, ticker, side, price, qty) => AddLog(m, b, ticker, client, oid, side, price, qty);
    case Cancel(client, oid, ticker) => CancelLog(m, b, ticker, client, oid);
  }

  // ---- as written: the cancel names the wrong order ------------------------

  /** me_order_book.cpp:185 puts the client's order id where every other update has the market order id. */
  function CancelMsgAsWritten(ticker: nat, r: Resting): Update {
    CancelMsg(ticker, r).(oid := r.oid)
  }

  /** Published that way, a cancel keeps the mirror exactly when the two ids happen to be equal. */
  lemma CancelAsWrittenFaithfulIff(m: Slots, own: seq<Resting>, opp: seq<Resting>, p: nat, ticker: nat)
    requires Mirrors(m, opp, own, ticker) && MidsApart(opp, own) && p < |own|
    ensures var r := own[p];
      var m' := Apply(m, CancelMsgAsWritten(ticker, r));
      (m'.Some? && Mirrors(m'.value, opp, own[..p] + own[p + 1..], ticker)) <==> r.oid == r.mid
  {
    var r := own[p];
    MirrorRemove(m, opp, own, p, ticker);
    if r.oid != r.mid && Apply(m, CancelMsgAsWritten(ticker, r)).Some? {
      var m' := Apply(m, CancelMsgAsWritten(ticker, r)).value;
      assert r.mid in m';
      var own' := own[..p] + own[p + 1..];
      forall i | 0 <= i < |own'| ensures own'[i].mid != r.mid {}
      assert !HasMid(own', r.mid) && !HasMid(opp, r.mid);
    }
  }

  /**
   The first order of a day, entered by its client as number 7 and canceled: the copy has no order 7, and the process
   ends.
   */
  lemma FirstCancelAsWrittenFails()
    ensures var b := Process(EmptyBook, New(0, 7, 0, Buy, 100, 1)).book;
      && b.bids == [Resting(0, 7, 1, Buy, 100, 1, 1)]
      && Process(EmptyBook, New(0, 7, 0, Buy, 100, 1)).updates == [AddMsg(0, b.bids[0])]
      && Apply(Apply(map[], AddMsg(0, b.bids[0])).value, CancelMsgAsWritten(0, b.bids[0])).None?
  {
    assert SweepSide(0, [], Taker(0, 7, 1, Buy, 100), 1) == SweepResult([], 1, [], []);
  }
}
