/**
 The price-time matcher on plain sorted sequences. One sequence per side holds
 the resting orders, best price first and oldest first within a price. This is
 the reference that the linked rings of `OrderBook` are proved to refine.
 */
module PriceTime {
  import opened Types

  datatype Resting = Resting(
    client: nat, oid: nat, mid: nat, side: Side, price: nat, qty: nat, priority: nat)

  datatype Book = Book(bids: seq<Resting>, asks: seq<Resting>, nextId: nat) {
    function Of(side: Side): seq<Resting> {
      if side.Buy? then bids else asks
    }

    function With(side: Side, s: seq<Resting>): Book {
      if side.Buy? then this.(bids := s) else this.(asks := s)
    }
  }

  const EmptyBook := Book([], [], 1)

  datatype Taker = Taker(client: nat, oid: nat, mid: nat, side: Side, price: nat)

  datatype Outcome = Outcome(book: Book, responses: seq<Response>, updates: seq<Update>)

  // ---- messages ----------------------------------------------------------

  function AcceptedMsg(ticker: nat, t: Taker, qty: nat): Response {
    Response(Accepted, t.client, ticker, t.oid, t.mid, t.side, t.price, 0, qty)
  }

  function TakerFill(ticker: nat, t: Taker, price: nat, exec: nat, left: nat): Response {
    Response(Filled, t.client, ticker, t.oid, t.mid, t.side, price, exec, left)
  }

  /** `maker` is the resting order as it is after the fill. */
  function MakerFill(ticker: nat, maker: Resting, exec: nat): Response {
    Response(Filled, maker.client, ticker, maker.oid, maker.mid, maker.side, maker.price, exec, maker.qty)
  }

  function CanceledMsg(ticker: nat, r: Resting): Response {
    Response(Canceled, r.client, ticker, r.oid, r.mid, r.side, r.price, QTY_INVALID, r.qty)
  }

  function RejectedMsg(ticker: nat, client: nat, oid: nat): Response {
    Response(CancelRejected, client, ticker, oid, ORDER_ID_INVALID, InvalidSide, PRICE_INVALID, QTY_INVALID,
        QTY_INVALID)
  }

  function TradeMsg(ticker: nat, t: Taker, price: nat, exec: nat): Update {
    Update(Trade, ORDER_ID_INVALID, ticker, t.side, price, exec, PRIORITY_INVALID)
  }

  function AddMsg(ticker: nat, r: Resting): Update {
    Update(AddOrder, r.mid, ticker, r.side, r.price, r.qty, r.priority)
  }

  /** What the market is told about `maker` once it has traded down to `left`. */
  function MakerUpdate(ticker: nat, maker: Resting, left: nat): Update {
    if left == 0
    then Update(CancelOrder, maker.mid, ticker, maker.side, maker.price, maker.qty, PRIORITY_INVALID)
    else Update(ModifyOrder, maker.mid, ticker, maker.side, maker.price, left, maker.priority)
  }

  function CancelMsg(ticker: nat, r: Resting): Update {
    Update(CancelOrder, r.mid, ticker, r.side, r.price, r.qty, r.priority)
  }

  // ---- the matcher -------------------------------------------------------

  datatype SweepResult = SweepResult(rest: seq<Resting>, left: nat, responses: seq<Response>, updates: seq<Update>)

  /** The head of the opposite side after trading `fill` of it. */
  function AfterFill(opp: seq<Resting>, fill: nat): seq<Resting>
    requires opp != [] && fill <= opp[0].qty
  {
    if fill == opp[0].qty then opp[1..] else [opp[0].(qty := opp[0].qty - fill)] + opp[1..]
  }

  predicate CanTrade(opp: seq<Resting>, t: Taker, left: nat) {
    left > 0 && opp != [] && Crosses(t.side, t.price, opp[0].price)
  }

  function SweepSide(ticker: nat, opp: seq<Resting>, t: Taker, left: nat): SweepResult
    decreases |opp| + left
  {
    if !CanTrade(opp, t, left) then
      SweepResult(opp, left, [], [])
    else
      var maker := opp[0];
      var fill := Min(left, maker.qty);
      var tail := SweepSide(ticker, AfterFill(opp, fill), t, left - fill);
      SweepResult(
        tail.rest, tail.left,
        [TakerFill(ticker, t, maker.price, fill, left - fill),
            MakerFill(ticker, maker.(qty := maker.qty - fill), fill)] + tail.responses,
        [TradeMsg(ticker, t, maker.price, fill), MakerUpdate(ticker, maker, maker.qty - fill)] + tail.updates)
  }

  /** Queues `r` behind every order that is at its price or better. */
  function Insert(s: seq<Resting>, r: Resting): seq<Resting> {
    if s == [] || Better(r.side, r.price, s[0].price) then [r] + s
    else [s[0]] + Insert(s[1..], r)
  }

  function NextPriority(s: seq<Resting>, price: nat): nat {
    if s == [] then 1
    else
      var last := s[|s| - 1];
      if last.price == price then last.priority + 1 else NextPriority(s[..|s| - 1], price)
  }

  function Without(s: seq<Resting>, mid: nat): seq<Resting> {
    if s == [] then []
    else if s[0].mid == mid then Without(s[1..], mid)
    else [s[0]] + Without(s[1..], mid)
  }

  function Find(s: seq<Resting>, client: nat, oid: nat): (r: Option<Resting>)
    ensures r.Some? ==> r.value in s && r.value.client == client && r.value.oid == oid
    ensures r.None? ==> forall x | x in s :: !(x.client == client && x.oid == oid)
  {
    if s == [] then None
    else if s[0].client == client && s[0].oid == oid then Some(s[0])
    else Find(s[1..], client, oid)
  }

  function Add(b: Book, ticker: nat, client: nat, oid: nat, side: Side, price: nat, qty: nat): Outcome
    requires side.Valid()
  {
    var t := Taker(client, oid, b.nextId, side, price);
    var sweep := SweepSide(ticker, b.Of(side.Opposite()), t, qty);
    var swept := b.With(side.Opposite(), sweep.rest).(nextId := b.nextId + 1);
    var responses := [AcceptedMsg(ticker, t, qty)] + sweep.responses;
    if sweep.left == 0 then
      Outcome(swept, responses, sweep.updates)
    else
      var r := Resting(client, oid, b.nextId, side, price, sweep.left, NextPriority(b.Of(side), price));
      Outcome(swept.With(side, Insert(b.Of(side), r)), responses, sweep.updates + [AddMsg(ticker, r)])
  }

  function CancelById(b: Book, ticker: nat, client: nat, oid: nat): Outcome {
    if client >= ME_MAX_NUM_CLIENTS then
      Outcome(b, [], [])
    else
      match Find(b.bids + b.asks, client, oid)
      case None => Outcome(b, [RejectedMsg(ticker, client, oid)], [])
      case Some(r) => Outcome(b.With(r.side, Without(b.Of(r.side), r.mid)), [CanceledMsg(ticker, r)],
          [CancelMsg(ticker, r)])
  }

  function Process(b: Book, req: Request): Outcome
    requires req.New? ==> req.side.Valid()
  {
    match req
    case New(client, oid, ticker, side, price, qty) => Add(b, ticker, client, oid, side, price, qty)
    case Cancel(client, oid, ticker) => CancelById(b, ticker, client, oid)
  }

  // ---- the invariant -----------------------------------------------------

  /** `x` is served ahead of `y`: a better price, or the same price and an earlier arrival. */
  ghost predicate Before(x: Resting, y: Resting) {
    || Better(x.side, x.price, y.price)
    || (x.price == y.price && x.priority < y.priority && x.mid < y.mid)
  }

  ghost predicate SideOk(s: seq<Resting>, side: Side, nextId: nat) {
    && (forall i | 0 <= i < |s| :: s[i].side == side && s[i].qty > 0 && s[i].mid < nextId)
    && (forall i, j | 0 <= i < j < |s| :: Before(s[i], s[j]))
  }

  ghost predicate DistinctIds(s: seq<Resting>) {
    forall i, j | 0 <= i < j < |s| ::
      s[i].mid != s[j].mid && !(s[i].client == s[j].client && s[i].oid == s[j].oid)
  }

  ghost predicate Uncrossed(b: Book) {
    forall i, j | 0 <= i < |b.bids| && 0 <= j < |b.asks| :: b.bids[i].price < b.asks[j].price
  }

  ghost predicate Ok(b: Book) {
    && SideOk(b.bids, Buy, b.nextId)
    && SideOk(b.asks, Sell, b.nextId)
    && DistinctIds(b.bids + b.asks)
    && Uncrossed(b)
  }

  /** The client does not reuse an id that is still live. */
  ghost predicate FreshKey(b: Book, client: nat, oid: nat) {
    forall r | r in b.bids + b.asks :: !(r.client == client && r.oid == oid)
  }

  ghost predicate Admissible(b: Book, req: Request) {
    req.New? ==> req.side.Valid() && FreshKey(b, req.client, req.oid)
  }

  // ---- shape of one sweep ------------------------------------------------

  /** Everything before `k` is consumed; the order at `k` may be cut; the rest is untouched. */
  ghost predicate Shape(opp: seq<Resting>, rest: seq<Resting>, k: nat) {
    && k <= |opp|
    && (|| rest == opp[k..]
        || (&& k < |opp| && rest != [] && 0 < rest[0].qty < opp[k].qty
            && rest == [opp[k].(qty := rest[0].qty)] + opp[k + 1..]))
  }

  /** The loop ends only with nothing left, an empty side, or a best price that does not cross. */
  lemma {:induction false} SweepShape(ticker: nat, opp: seq<Resting>, t: Taker, left: nat) returns (k: nat)
    requires forall i | 0 <= i < |opp| :: opp[i].qty > 0
    ensures var r := SweepSide(ticker, opp, t, left);
      && Shape(opp, r.rest, k)
      && (forall j | 0 <= j < k :: Crosses(t.side, t.price, opp[j].price))
      && !CanTrade(r.rest, t, r.left)
      && r.left <= left
      && (k < |opp| && r.rest != opp[k..] ==> Crosses(t.side, t.price, opp[k].price) && r.left == 0)
    decreases |opp| + left
  {
    if !CanTrade(opp, t, left) {
      k := 0;
    } else {
      var fill := Min(left, opp[0].qty);
      var opp' := AfterFill(opp, fill);
      if fill == opp[0].qty {
        var k' := SweepShape(ticker, opp', t, left - fill);
        k := k' + 1;
        assert opp'[k'..] == opp[k..];
        assert k' < |opp'| ==> opp'[k'] == opp[k] && opp'[k' + 1..] == opp[k + 1..];
      } else {
        k := 0;
        assert opp'[0].qty < opp[0].qty;
      }
    }
  }

  lemma {:induction false} InsertAt(s: seq<Resting>, r: Resting) returns (k: nat)
    ensures k <= |s| && Insert(s, r) == s[..k] + [r] + s[k..]
    ensures forall j | 0 <= j < k :: !Better(r.side, r.price, s[j].price)
    ensures k < |s| ==> Better(r.side, r.price, s[k].price)
  {
    if s == [] || Better(r.side, r.price, s[0].price) {
      k := 0;
    } else {
      var k' := InsertAt(s[1..], r);
      k := k' + 1;
      assert s[1..][..k'] == s[1..k] && s[1..][k'..] == s[k..];
    }
  }

  lemma {:induction false} NextPriorityIsLast(s: seq<Resting>, side: Side, nextId: nat, price: nat)
    requires SideOk(s, side, nextId)
    ensures forall i | 0 <= i < |s| && s[i].price == price :: s[i].priority < NextPriority(s, price)
  {
    if s != [] && s[|s| - 1].price != price {
      NextPriorityIsLast(s[..|s| - 1], side, nextId, price);
    }
  }

  /** The first order at a price gets priority 1. */
  lemma {:induction false} NextPriorityAlone(s: seq<Resting>, price: nat)
    requires forall i | 0 <= i < |s| :: s[i].price != price
    ensures NextPriority(s, price) == 1
  {
    if s != [] { NextPriorityAlone(s[..|s| - 1], price); }
  }

  /** Any other gets one more than the last at the price. */
  lemma {:induction false} NextPriorityBehind(s: seq<Resting>, price: nat, i: nat)
    requires i < |s| && s[i].price == price && forall j | i < j < |s| :: s[j].price != price
    ensures NextPriority(s, price) == s[i].priority + 1
    decreases |s|
  {
    if i < |s| - 1 { NextPriorityBehind(s[..|s| - 1], price, i); }
  }

  lemma {:induction false} WithoutAt(s: seq<Resting>, mid: nat) returns (k: nat)
    requires forall i, j | 0 <= i < j < |s| :: s[i].mid != s[j].mid
    requires exists i | 0 <= i < |s| :: s[i].mid == mid
    ensures k < |s| && s[k].mid == mid && Without(s, mid) == s[..k] + s[k + 1..]
  {
    if s[0].mid == mid {
      k := 0;
      WithoutAbsent(s[1..], mid);
    } else {
      k := WithoutAt(s[1..], mid);
      k := k + 1;
    }
  }

  lemma {:induction false} WithoutAbsent(s: seq<Resting>, mid: nat)
    requires forall i | 0 <= i < |s| :: s[i].mid != mid
    ensures Without(s, mid) == s
  {
    if s != [] { WithoutAbsent(s[1..], mid); }
  }

  // ---- every request keeps the invariant ---------------------------------

  lemma ShapeKeepsSide(opp: seq<Resting>, rest: seq<Resting>, k: nat, side: Side, nextId: nat)
    requires SideOk(opp, side, nextId) && Shape(opp, rest, k)
    ensures SideOk(rest, side, nextId)
  {
    forall i, j | 0 <= i < j < |rest| ensures Before(rest[i], rest[j]) {
      assert Before(opp[k + i], opp[k + j]);
    }
  }

  lemma ShapeKeepsIds(own: seq<Resting>, opp: seq<Resting>, rest: seq<Resting>, k: nat)
    requires DistinctIds(own + opp) && Shape(opp, rest, k)
    ensures DistinctIds(own + rest)
  {
    forall i, j | 0 <= i < j < |own + rest|
      ensures var s := own + rest; s[i].mid != s[j].mid && !(s[i].client == s[j].client && s[i].oid == s[j].oid)
    {
      var i' := if i < |own| then i else i + k;
      var j' := if j < |own| then j else j + k;
      assert (own + opp)[i'].mid != (own + opp)[j'].mid;
    }
  }

  lemma DistinctSwap(a: seq<Resting>, b: seq<Resting>)
    requires DistinctIds(a + b)
    ensures DistinctIds(b + a)
  {
    forall i, j | 0 <= i < j < |b + a|
      ensures var s := b + a; s[i].mid != s[j].mid && !(s[i].client == s[j].client && s[i].oid == s[j].oid)
    {
      var i' := if i < |b| then |a| + i else i - |b|;
      var j' := if j < |b| then |a| + j else j - |b|;
      assert (b + a)[i] == (a + b)[i'] && (b + a)[j] == (a + b)[j'];
      assert i' < j' || j' < i';
    }
  }

  lemma PutOrdered(s: seq<Resting>, r: Resting, k: nat)
    requires k <= |s| && forall i, j | 0 <= i < j < |s| :: Before(s[i], s[j])
    requires forall j | 0 <= j < |s| :: if j < k then Before(s[j], r) else Before(r, s[j])
    ensures var s' := s[..k] + [r] + s[k..]; forall i, j | 0 <= i < j < |s'| :: Before(s'[i], s'[j])
  {
    var s' := s[..k] + [r] + s[k..];
    forall i, j | 0 <= i < j < |s'| ensures Before(s'[i], s'[j]) {
      var i', j' := if i < k then i else i - 1, if j < k then j else j - 1;
      if i == k {
        assert Before(r, s[j']);
      } else if j == k {
        assert Before(s[i'], r);
      } else {
        assert Before(s[i'], s[j']);
      }
    }
  }

  lemma PutFields(s: seq<Resting>, r: Resting, k: nat, side: Side, nextId: nat)
    requires k <= |s| && r.side == side && r.qty > 0 && r.mid < nextId + 1
    requires forall i | 0 <= i < |s| :: s[i].side == side && s[i].qty > 0 && s[i].mid < nextId
    ensures var s' := s[..k] + [r] + s[k..];
        forall i | 0 <= i < |s'| :: s'[i].side == side && s'[i].qty > 0 && s'[i].mid < nextId + 1
  {
    var s' := s[..k] + [r] + s[k..];
    forall i | 0 <= i < |s'| ensures s'[i].side == side && s'[i].qty > 0 && s'[i].mid < nextId + 1 {
      if i != k { assert s'[i] == s[if i < k then i else i - 1]; }
    }
  }

  lemma InsertKeepsSide(s: seq<Resting>, r: Resting, k: nat, nextId: nat)
    requires SideOk(s, r.side, nextId) && r.side.Valid() && r.qty > 0 && r.mid == nextId
    requires r.priority == NextPriority(s, r.price)
    requires k <= |s|
    requires forall j | 0 <= j < k :: !Better(r.side, r.price, s[j].price)
    requires k < |s| ==> Better(r.side, r.price, s[k].price)
    ensures SideOk(s[..k] + [r] + s[k..], r.side, nextId + 1)
  {
    NextPriorityIsLast(s, r.side, nextId, r.price);
    forall j | 0 <= j < |s| ensures if j < k then Before(s[j], r) else Before(r, s[j]) {
      if j > k { assert Before(s[k], s[j]); }
    }
    PutOrdered(s, r, k);
    PutFields(s, r, k, r.side, nextId);
  }

  lemma InsertKeepsIds(s: seq<Resting>, opp: seq<Resting>, r: Resting, k: nat)
    requires DistinctIds(s + opp) && k <= |s|
    requires forall x | x in s + opp :: x.mid != r.mid && !(x.client == r.client && x.oid == r.oid)
    ensures DistinctIds(s[..k] + [r] + s[k..] + opp)
  {
    var s' := s[..k] + [r] + s[k..] + opp;
    forall i, j | 0 <= i < j < |s'|
      ensures s'[i].mid != s'[j].mid && !(s'[i].client == s'[j].client && s'[i].oid == s'[j].oid)
    {
      if i == k {
        assert s'[j] == (s + opp)[j - 1];
      } else {
        var i' := if i < k then i else i - 1;
        assert s'[i] == (s + opp)[i'];
        if j != k {
          var j' := if j < k then j else j - 1;
          assert s'[j] == (s + opp)[j'];
        }
      }
    }
  }

  /** `Ok`, seen from one side. */
  ghost predicate OkFrom(own: seq<Resting>, opp: seq<Resting>, side: Side, nextId: nat)
    requires side.Valid()
  {
    && SideOk(own, side, nextId)
    && SideOk(opp, side.Opposite(), nextId)
    && DistinctIds(own + opp)
    && (forall i, j | 0 <= i < |own| && 0 <= j < |opp| :: !Crosses(side, own[i].price, opp[j].price))
  }

  lemma OkFromEitherSide(b: Book, side: Side)
    requires side.Valid()
    ensures Ok(b) <==> OkFrom(b.Of(side), b.Of(side.Opposite()), side, b.nextId)
  {
    if side.Sell? {
      if Ok(b) { DistinctSwap(b.bids, b.asks); }
      if DistinctIds(b.asks + b.bids) { DistinctSwap(b.asks, b.bids); }
    }
  }

  lemma ShapeKeeps(own: seq<Resting>, opp: seq<Resting>, rest: seq<Resting>, k: nat, side: Side, nextId: nat)
    requires side.Valid() && OkFrom(own, opp, side, nextId) && Shape(opp, rest, k)
    ensures OkFrom(own, rest, side, nextId)
  {
    ShapeKeepsSide(opp, rest, k, side.Opposite(), nextId);
    ShapeKeepsIds(own, opp, rest, k);
    forall j | 0 <= j < |rest| ensures rest[j].price == opp[k + j].price {}
  }

  lemma HeadDecidesCrossing(opp: seq<Resting>, side: Side, nextId: nat, limit: nat)
    requires side.Valid() && SideOk(opp, side.Opposite(), nextId)
    requires opp != [] ==> !Crosses(side, limit, opp[0].price)
    ensures forall i | 0 <= i < |opp| :: !Crosses(side, limit, opp[i].price)
  {
    forall i | 0 <= i < |opp| ensures !Crosses(side, limit, opp[i].price) {
      assert i > 0 ==> Before(opp[0], opp[i]);
    }
  }

  lemma ShapeFresh(own: seq<Resting>, opp: seq<Resting>, rest: seq<Resting>, k: nat, client: nat, oid: nat)
    requires Shape(opp, rest, k)
    requires forall r | r in own + opp :: !(r.client == client && r.oid == oid)
    ensures forall r | r in own + rest :: !(r.client == client && r.oid == oid)
  {
    forall r | r in own + rest ensures !(r.client == client && r.oid == oid) {
      if r in own {
        assert r in own + opp;
      } else {
        var j :| 0 <= j < |rest| && rest[j] == r;
        assert opp[k + j] in own + opp;
      }
    }
  }

  lemma RestKeeps(own: seq<Resting>, opp: seq<Resting>, r: Resting)
    requires r.side.Valid() && OkFrom(own, opp, r.side, r.mid) && r.qty > 0
    requires r.priority == NextPriority(own, r.price)
    requires forall x | x in own + opp :: !(x.client == r.client && x.oid == r.oid)
    requires forall i | 0 <= i < |opp| :: !Crosses(r.side, r.price, opp[i].price)
    ensures OkFrom(Insert(own, r), opp, r.side, r.mid + 1)
  {
    var k := InsertAt(own, r);
    InsertKeepsSide(own, r, k, r.mid);
    forall x | x in own + opp ensures x.mid != r.mid {
      var i :| 0 <= i < |own + opp| && (own + opp)[i] == x;
    }
    InsertKeepsIds(own, opp, r, k);
  }

  /** What the opposite side is after a sweep, and that the leftover may rest. */
  lemma SweepKeeps(own: seq<Resting>, opp: seq<Resting>, nextId: nat, ticker: nat, t: Taker, qty: nat)
    requires t.side.Valid() && OkFrom(own, opp, t.side, nextId)
    requires forall r | r in own + opp :: !(r.client == t.client && r.oid == t.oid)
    ensures var r := SweepSide(ticker, opp, t, qty);
      && OkFrom(own, r.rest, t.side, nextId)
      && (r.left > 0 ==> forall i | 0 <= i < |r.rest| :: !Crosses(t.side, t.price, r.rest[i].price))
      && (forall x | x in own + r.rest :: !(x.client == t.client && x.oid == t.oid))
  {
    var k := SweepShape(ticker, opp, t, qty);
    var r := SweepSide(ticker, opp, t, qty);
    ShapeKeeps(own, opp, r.rest, k, t.side, nextId);
    ShapeFresh(own, opp, r.rest, k, t.client, t.oid);
    if r.left > 0 { HeadDecidesCrossing(r.rest, t.side, nextId, t.price); }
  }

  lemma AddKeepsFrom(own: seq<Resting>, opp: seq<Resting>, nextId: nat, ticker: nat, t: Taker, qty: nat)
    requires t.side.Valid() && OkFrom(own, opp, t.side, nextId) && t.mid == nextId
    requires forall r | r in own + opp :: !(r.client == t.client && r.oid == t.oid)
    ensures var r := SweepSide(ticker, opp, t, qty);
      var own' := if r.left == 0 then own
                  else Insert(own, Resting(t.client, t.oid, t.mid, t.side, t.price, r.left,
                      NextPriority(own, t.price)));
      OkFrom(own', r.rest, t.side, nextId + 1)
  {
    SweepKeeps(own, opp, nextId, ticker, t, qty);
    var r := SweepSide(ticker, opp, t, qty);
    if r.left > 0 {
      RestKeeps(own, r.rest, Resting(t.client, t.oid, t.mid, t.side, t.price, r.left, NextPriority(own, t.price)));
    }
  }

  lemma AddKeepsOk(b: Book, ticker: nat, client: nat, oid: nat, side: Side, price: nat, qty: nat)
    requires Ok(b) && side.Valid() && FreshKey(b, client, oid)
    ensures Ok(Add(b, ticker, client, oid, side, price, qty).book)
  {
    var b' := Add(b, ticker, client, oid, side, price, qty).book;
    assert OkFrom(b'.Of(side), b'.Of(side.Opposite()), side, b'.nextId) by {
      OkFromEitherSide(b, side);
      assert forall x: Resting | x in b.Of(side) + b.Of(side.Opposite()) :: x in b.bids + b.asks;
      AddKeepsFrom(b.Of(side), b.Of(side.Opposite()), b.nextId, ticker, Taker(client, oid, b.nextId, side, price), qty);
    }
    OkFromEitherSide(b', side);
  }

  lemma MidsDistinct(own: seq<Resting>, opp: seq<Resting>)
    requires DistinctIds(own + opp)
    ensures forall i, j | 0 <= i < j < |own| :: own[i].mid != own[j].mid
  {
    forall i, j | 0 <= i < j < |own| ensures own[i].mid != own[j].mid {
      assert (own + opp)[i] == own[i] && (own + opp)[j] == own[j];
    }
  }

  lemma RemoveKeeps(own: seq<Resting>, opp: seq<Resting>, side: Side, nextId: nat, r: Resting)
    requires side.Valid() && OkFrom(own, opp, side, nextId) && r in own
    ensures OkFrom(Without(own, r.mid), opp, side, nextId)
  {
    MidsDistinct(own, opp);
    var k := WithoutAt(own, r.mid);
    CutKeeps(own, opp, side, nextId, k);
  }

  lemma CutKeeps(own: seq<Resting>, opp: seq<Resting>, side: Side, nextId: nat, k: nat)
    requires side.Valid() && OkFrom(own, opp, side, nextId) && k < |own|
    ensures OkFrom(own[..k] + own[k + 1..], opp, side, nextId)
  {
    var own' := own[..k] + own[k + 1..];
    CutIds(own, opp, k);
    forall i | 0 <= i < |own'| ensures own'[i] == own[if i < k then i else i + 1] {}
    forall i, j | 0 <= i < j < |own'| ensures Before(own'[i], own'[j]) {
      assert Before(own[if i < k then i else i + 1], own[if j < k then j else j + 1]);
    }
  }

  lemma CutIds(own: seq<Resting>, opp: seq<Resting>, k: nat)
    requires DistinctIds(own + opp) && k < |own|
    ensures DistinctIds(own[..k] + own[k + 1..] + opp)
  {
    var s, s' := own + opp, own[..k] + own[k + 1..] + opp;
    assert forall i | 0 <= i < |s'| :: s'[i] == s[if i < k then i else i + 1];
  }

  lemma CancelKeepsOk(b: Book, ticker: nat, client: nat, oid: nat)
    requires Ok(b)
    ensures Ok(CancelById(b, ticker, client, oid).book)
  {
    if client < ME_MAX_NUM_CLIENTS && Find(b.bids + b.asks, client, oid).Some? {
      var r := Find(b.bids + b.asks, client, oid).value;
      assert r in b.bids || r in b.asks;
      OkFromEitherSide(b, r.side);
      RemoveKeeps(b.Of(r.side), b.Of(r.side.Opposite()), r.side, b.nextId, r);
      OkFromEitherSide(CancelById(b, ticker, client, oid).book, r.side);
    }
  }

  lemma ProcessKeepsOk(b: Book, req: Request)
    requires Ok(b) && Admissible(b, req)
    ensures Ok(Process(b, req).book)
  {
    match req
    case New(client, oid, ticker, side, price, qty) => AddKeepsOk(b, ticker, client, oid, side, price, qty);
    case Cancel(client, oid, ticker) => CancelKeepsOk(b, ticker, client, oid);
  }

  // ---- whole runs --------------------------------------------------------

  ghost predicate AdmissibleRun(b: Book, reqs: seq<Request>)
    decreases |reqs|
  {
    reqs == [] || (Admissible(b, reqs[0]) && AdmissibleRun(Process(b, reqs[0]).book, reqs[1..]))
  }

  ghost function Run(b: Book, reqs: seq<Request>): Outcome
    requires AdmissibleRun(b, reqs)
    decreases |reqs|
  {
    if reqs == [] then Outcome(b, [], [])
    else
      var first := Process(b, reqs[0]);
      var rest := Run(first.book, reqs[1..]);
      Outcome(rest.book, first.responses + rest.responses, first.updates + rest.updates)
  }

  /** In every run, after every completed request, the book is sorted and the best bid is below the best ask. */
  lemma {:induction false} RunKeepsOk(b: Book, reqs: seq<Request>)
    requires Ok(b) && AdmissibleRun(b, reqs)
    ensures Ok(Run(b, reqs).book)
    decreases |reqs|
  {
    if reqs != [] {
      ProcessKeepsOk(b, reqs[0]);
      RunKeepsOk(Process(b, reqs[0]).book, reqs[1..]);
    }
  }
}
