/**
 What one order's owner is told. The responses that carry an order's
 (client, order id) are a faithful log of its open quantity at the exchange:
 accepted once at full size, every fill announced with the quantity it took and
 what is left, and one CANCELED that names the remainder
 (exchange/matcher/me_order_book.cpp:102-122, :168-193, :195-229).
 */
module ClientLog {
  import opened Types
  import opened PriceTime
  import opened Picking

  /** Messages about the order itself; a rejected cancel names no order that exists. */
  function Names(c: nat, o: nat): Response -> bool {
    (r: Response) => r.client == c && r.oid == o && !r.kind.CancelRejected?
  }

  function About(rs: seq<Response>, c: nat, o: nat): seq<Response> {
    Pick(rs, Names(c, o))
  }

  function OpenIn(s: seq<Resting>, c: nat, o: nat): nat {
    if s == [] then 0
    else (if s[0].client == c && s[0].oid == o then s[0].qty else 0) + OpenIn(s[1..], c, o)
  }

  /** The quantity that rests under a (client, order id); zero when the order is not live. */
  function Open(b: Book, c: nat, o: nat): nat {
    OpenIn(b.bids, c, o) + OpenIn(b.asks, c, o)
  }

  /** Reading `rs` takes an order from open quantity `q` to `live`. */
  predicate Track(q: nat, rs: seq<Response>, live: nat)
    decreases |rs|
  {
    if rs == [] then live == q
    else if rs[0].kind.Filled? then
      rs[0].left < q && rs[0].exec == q - rs[0].left && Track(rs[0].left, rs[1..], live)
    else
      rs[0].kind.Canceled? && |rs| == 1 && q > 0 && rs[0].left == q && live == 0
  }

  /** The quantity executed over a stream of responses. */
  function Executed(rs: seq<Response>): nat {
    if rs == [] then 0 else (if rs[0].kind.Filled? then rs[0].exec else 0) + Executed(rs[1..])
  }

  lemma {:induction false} TrackJoin(q: nat, a: seq<Response>, mid: nat, b: seq<Response>, live: nat)
    requires Track(q, a, mid) && Track(mid, b, live)
    ensures Track(q, a + b, live)
    decreases |a|
  {
    if a == [] {
      assert a + b == b;
    } else {
      assert (a + b)[1..] == a[1..] + b;
      if a[0].kind.Filled? { TrackJoin(a[0].left, a[1..], mid, b, live); }
    }
  }

  /** Whatever was executed or is still open came out of `q`; nothing else did unless it was cancelled. */
  lemma {:induction false} TrackSpends(q: nat, rs: seq<Response>, live: nat)
    requires Track(q, rs, live)
    ensures Executed(rs) + live <= q
    ensures (forall r | r in rs :: !r.kind.Canceled?) ==> Executed(rs) + live == q
    decreases |rs|
  {
    if rs != [] && rs[0].kind.Filled? {
      TrackSpends(rs[0].left, rs[1..], live);
      assert forall r | r in rs[1..] :: r in rs;
    }
  }

  // ---- open quantity under the book's edits -----------------------------------------

  lemma {:induction false} OpenAppend(a: seq<Resting>, b: seq<Resting>, c: nat, o: nat)
    ensures OpenIn(a + b, c, o) == OpenIn(a, c, o) + OpenIn(b, c, o)
  {
    if a == [] {
      assert a + b == b;
    } else {
      assert (a + b)[1..] == a[1..] + b;
      OpenAppend(a[1..], b, c, o);
    }
  }

  lemma {:induction false} OpenAbsent(s: seq<Resting>, c: nat, o: nat)
    requires forall x | x in s :: !(x.client == c && x.oid == o)
    ensures OpenIn(s, c, o) == 0
  {
    if s != [] {
      assert s[0] in s && forall x | x in s[1..] :: x in s;
      OpenAbsent(s[1..], c, o);
    }
  }

  lemma {:induction false} OpenPresent(s: seq<Resting>, x: Resting)
    requires x in s
    ensures OpenIn(s, x.client, x.oid) >= x.qty
  {
    if s[0] != x { OpenPresent(s[1..], x); }
  }

  lemma OpenInsert(s: seq<Resting>, r: Resting, c: nat, o: nat)
    ensures OpenIn(Insert(s, r), c, o) == OpenIn(s, c, o) + OpenIn([r], c, o)
  {
    var k := InsertAt(s, r);
    OpenAppend(s[..k], [r], c, o);
    OpenAppend(s[..k] + [r], s[k..], c, o);
    OpenAppend(s[..k], s[k..], c, o);
    assert s == s[..k] + s[k..];
  }

  lemma OpenWithout(s: seq<Resting>, r: Resting, c: nat, o: nat)
    requires DistinctIds(s) && r in s
    ensures OpenIn(s, c, o) == OpenIn(Without(s, r.mid), c, o) + OpenIn([r], c, o)
  {
    var k := WithoutAt(s, r.mid);
    OpenAppend(s[..k], [s[k]], c, o);
    OpenAppend(s[..k] + [s[k]], s[k + 1..], c, o);
    OpenAppend(s[..k], s[k + 1..], c, o);
    assert s == s[..k] + [s[k]] + s[k + 1..];
  }

  // ---- one sweep ----------------------------------------------------------------------

  lemma AboutCons(x: Response, y: Response, rest: seq<Response>, c: nat, o: nat)
    ensures About([x, y] + rest, c, o) ==
            (if Names(c, o)(x) then [x] else []) + (if Names(c, o)(y) then [y] else []) + About(rest, c, o)
  {
    assert [x, y] + rest == [x] + ([y] + rest);
    PickCons(x, [y] + rest, Names(c, o));
    PickCons(y, rest, Names(c, o));
  }

  lemma FillKeepsIds(opp: seq<Resting>, fill: nat)
    requires opp != [] && DistinctIds(opp) && fill <= opp[0].qty
    ensures DistinctIds(AfterFill(opp, fill))
  {
    var opp' := AfterFill(opp, fill);
    var d := if fill == opp[0].qty then 1 else 0;
    assert forall i | 0 <= i < |opp'| ::
        opp'[i].mid == opp[i + d].mid && opp'[i].client == opp[i + d].client && opp'[i].oid == opp[i + d].oid;
  }

  lemma FillOpens(opp: seq<Resting>, fill: nat, c: nat, o: nat)
    requires opp != [] && DistinctIds(opp) && fill <= opp[0].qty
    ensures var own := opp[0].client == c && opp[0].oid == o;
      && (own ==> OpenIn(opp, c, o) == opp[0].qty && OpenIn(AfterFill(opp, fill), c, o) == opp[0].qty - fill)
      && (!own ==> OpenIn(AfterFill(opp, fill), c, o) == OpenIn(opp, c, o))
  {
    if opp[0].client == c && opp[0].oid == o {
      forall x | x in opp[1..] ensures !(x.client == c && x.oid == o) {
        var i :| 0 < i < |opp| && opp[i] == x;
      }
      OpenAbsent(opp[1..], c, o);
    }
    if fill != opp[0].qty { assert AfterFill(opp, fill)[1..] == opp[1..]; }
  }

  /** One fill more in front of a log. */
  lemma TrackFirst(q: nat, y: Response, own: bool, log: seq<Response>, q': nat, live: nat, all: seq<Response>)
    requires Track(q', log, live) && OnlyFills(log) && all == (if own then [y] else []) + log
    requires if own then y.kind.Filled? && y.left == q' < q && y.exec == q - q' else q' == q
    ensures Track(q, all, live) && OnlyFills(all)
  {
    if own { assert all[1..] == log; } else { assert all == log; }
  }

  /** What the maker hears of one fill and of the rest of the sweep. */
  lemma MakerHears(ticker: nat, opp: seq<Resting>, t: Taker, left: nat, c: nat, o: nat)
    requires CanTrade(opp, t, left) && !(t.client == c && t.oid == o)
    ensures var maker, fill := opp[0], Min(left, opp[0].qty);
      var y := MakerFill(ticker, maker.(qty := maker.qty - fill), fill);
      var tail := SweepSide(ticker, AfterFill(opp, fill), t, left - fill);
      About(SweepSide(ticker, opp, t, left).responses, c, o)
      == (if maker.client == c && maker.oid == o then [y] else []) + About(tail.responses, c, o)
  {
    var maker, fill := opp[0], Min(left, opp[0].qty);
    var y := MakerFill(ticker, maker.(qty := maker.qty - fill), fill);
    var tail := SweepSide(ticker, AfterFill(opp, fill), t, left - fill);
    AboutCons(TakerFill(ticker, t, maker.price, fill, left - fill), y, tail.responses, c, o);
    assert [] + (if Names(c, o)(y) then [y] else []) == if Names(c, o)(y) then [y] else [];
  }

  /** A maker is told of its every fill and of nothing else. */
  lemma {:induction false} SweepTellsMaker(ticker: nat, opp: seq<Resting>, t: Taker, left: nat, c: nat, o: nat)
    requires DistinctIds(opp) && (forall i | 0 <= i < |opp| :: opp[i].qty > 0)
    requires !(t.client == c && t.oid == o)
    ensures var r := SweepSide(ticker, opp, t, left);
      && Track(OpenIn(opp, c, o), About(r.responses, c, o), OpenIn(r.rest, c, o))
      && OnlyFills(About(r.responses, c, o))
    decreases |opp| + left
  {
    if CanTrade(opp, t, left) {
      var maker, fill := opp[0], Min(left, opp[0].qty);
      var opp' := AfterFill(opp, fill);
      FillKeepsIds(opp, fill);
      FillOpens(opp, fill, c, o);
      SweepTellsMaker(ticker, opp', t, left - fill, c, o);
      MakerHears(ticker, opp, t, left, c, o);
      var tail := SweepSide(ticker, opp', t, left - fill);
      TrackFirst(OpenIn(opp, c, o), MakerFill(ticker, maker.(qty := maker.qty - fill), fill),
                 maker.client == c && maker.oid == o, About(tail.responses, c, o), OpenIn(opp', c, o),
                 OpenIn(tail.rest, c, o), About(SweepSide(ticker, opp, t, left).responses, c, o));
    }
  }

  /** The taker is told of its every fill, from its full size down to what is left to rest. */
  lemma {:induction false} SweepTellsTaker(ticker: nat, opp: seq<Resting>, t: Taker, left: nat)
    requires forall i | 0 <= i < |opp| :: opp[i].qty > 0 && !(opp[i].client == t.client && opp[i].oid == t.oid)
    ensures var r := SweepSide(ticker, opp, t, left);
      && Track(left, About(r.responses, t.client, t.oid), r.left)
      && forall x | x in About(r.responses, t.client, t.oid) :: x.kind.Filled?
    decreases |opp| + left
  {
    if CanTrade(opp, t, left) {
      var maker, fill := opp[0], Min(left, opp[0].qty);
      var tail := SweepSide(ticker, AfterFill(opp, fill), t, left - fill);
      SweepTellsTaker(ticker, AfterFill(opp, fill), t, left - fill);
      var x := TakerFill(ticker, t, maker.price, fill, left - fill);
      AboutCons(x, MakerFill(ticker, maker.(qty := maker.qty - fill), fill), tail.responses, t.client, t.oid);
      assert ([x] + About(tail.responses, t.client, t.oid))[1..] == About(tail.responses, t.client, t.oid);
    }
  }

  // ---- one request ------------------------------------------------------------------------

  lemma DistinctParts(own: seq<Resting>, opp: seq<Resting>)
    requires DistinctIds(own + opp)
    ensures DistinctIds(own) && DistinctIds(opp)
  {
    assert forall i | 0 <= i < |own| :: (own + opp)[i] == own[i];
    assert forall i | 0 <= i < |opp| :: (own + opp)[|own| + i] == opp[i];
  }

  lemma OnOneSide(own: seq<Resting>, opp: seq<Resting>, c: nat, o: nat)
    requires DistinctIds(own + opp)
    ensures OpenIn(own, c, o) == 0 || OpenIn(opp, c, o) == 0
  {
    if x :| x in own && x.client == c && x.oid == o {
      var i :| 0 <= i < |own| && own[i] == x;
      forall y | y in opp ensures !(y.client == c && y.oid == o) {
        var j :| 0 <= j < |opp| && opp[j] == y;
        assert (own + opp)[i] == x && (own + opp)[|own| + j] == y;
      }
      OpenAbsent(opp, c, o);
    } else {
      OpenAbsent(own, c, o);
    }
  }

  lemma OpenFrom(b: Book, side: Side, c: nat, o: nat)
    requires side.Valid()
    ensures Open(b, c, o) == OpenIn(b.Of(side), c, o) + OpenIn(b.Of(side.Opposite()), c, o)
  {}

  ghost predicate IsNew(req: Request, c: nat, o: nat) { req.New? && req.client == c && req.oid == o }

  ghost predicate OnlyFills(rs: seq<Response>) { forall r | r in rs :: r.kind.Filled? }

  /** The log and the open quantity of any key after an add, read off its sweep. */
  lemma AddParts(b: Book, ticker: nat, t: Taker, qty: nat, c: nat, o: nat)
    requires t.side.Valid() && t.mid == b.nextId
    ensures var r := Add(b, ticker, t.client, t.oid, t.side, t.price, qty);
      var sweep := SweepSide(ticker, b.Of(t.side.Opposite()), t, qty);
      var own := t.client == c && t.oid == o;
      && About(r.responses, c, o) == (if own then [AcceptedMsg(ticker, t, qty)] else []) + About(sweep.responses, c, o)
      && Open(r.book, c, o) == OpenIn(b.Of(t.side), c, o) + OpenIn(sweep.rest, c, o) + (if own then sweep.left else 0)
  {
    var own := b.Of(t.side);
    var sweep := SweepSide(ticker, b.Of(t.side.Opposite()), t, qty);
    var r := Add(b, ticker, t.client, t.oid, t.side, t.price, qty);
    assert About(r.responses, c, o)
        == (if t.client == c && t.oid == o then [AcceptedMsg(ticker, t, qty)] else []) + About(sweep.responses, c, o) by
    {
      PickAppend([AcceptedMsg(ticker, t, qty)], sweep.responses, Names(c, o));
      PickOne(AcceptedMsg(ticker, t, qty), Names(c, o));
    }
    OpenFrom(r.book, t.side, c, o);
    if sweep.left > 0 {
      OpenInsert(own, Resting(t.client, t.oid, t.mid, t.side, t.price, sweep.left, NextPriority(own, t.price)), c, o);
    }
  }

  lemma FreshIsClosed(b: Book, side: Side, c: nat, o: nat)
    requires side.Valid() && FreshKey(b, c, o)
    ensures OpenIn(b.Of(side), c, o) == 0 == OpenIn(b.Of(side.Opposite()), c, o)
    ensures forall x | x in b.Of(side) + b.Of(side.Opposite()) :: !(x.client == c && x.oid == o)
  {
    var own, opp := b.Of(side), b.Of(side.Opposite());
    assert forall x: Resting | x in own || x in opp :: x in b.bids + b.asks;
    OpenAbsent(own, c, o);
    OpenAbsent(opp, c, o);
  }

  lemma SweptIsClosed(b: Book, ticker: nat, t: Taker, qty: nat)
    requires Ok(b) && t.side.Valid() && FreshKey(b, t.client, t.oid)
    ensures OpenIn(SweepSide(ticker, b.Of(t.side.Opposite()), t, qty).rest, t.client, t.oid) == 0
  {
    var own, opp := b.Of(t.side), b.Of(t.side.Opposite());
    FreshIsClosed(b, t.side, t.client, t.oid);
    var rest := SweepSide(ticker, opp, t, qty).rest;
    var k := SweepShape(ticker, opp, t, qty);
    ShapeFresh(own, opp, rest, k, t.client, t.oid);
    assert forall x | x in rest :: x in own + rest;
    OpenAbsent(rest, t.client, t.oid);
  }

  lemma OwnLog(b: Book, ticker: nat, t: Taker, qty: nat)
    requires Ok(b) && t.side.Valid() && t.mid == b.nextId && FreshKey(b, t.client, t.oid)
    ensures var r := Add(b, ticker, t.client, t.oid, t.side, t.price, qty);
      var sweep := SweepSide(ticker, b.Of(t.side.Opposite()), t, qty);
      && About(r.responses, t.client, t.oid) == [AcceptedMsg(ticker, t, qty)] + About(sweep.responses, t.client, t.oid)
      && Open(r.book, t.client, t.oid) == sweep.left
  {
    FreshIsClosed(b, t.side, t.client, t.oid);
    SweptIsClosed(b, ticker, t, qty);
    AddParts(b, ticker, t, qty, t.client, t.oid);
  }

  lemma OwnFills(b: Book, ticker: nat, t: Taker, qty: nat)
    requires Ok(b) && t.side.Valid() && FreshKey(b, t.client, t.oid)
    ensures var sweep := SweepSide(ticker, b.Of(t.side.Opposite()), t, qty);
      var fills := About(sweep.responses, t.client, t.oid);
      Track(qty, fills, sweep.left) && OnlyFills(fills)
  {
    var opp := b.Of(t.side.Opposite());
    FreshIsClosed(b, t.side, t.client, t.oid);
    forall i | 0 <= i < |opp| ensures opp[i].qty > 0 && !(opp[i].client == t.client && opp[i].oid == t.oid) {
      assert opp[i] in b.Of(t.side) + opp;
    }
    SweepTellsTaker(ticker, opp, t, qty);
  }

  /** The new order's own log: accepted at full size, then filled down to what rests. */
  lemma AddTellsOwner(b: Book, ticker: nat, t: Taker, qty: nat)
    requires Ok(b) && t.side.Valid() && t.mid == b.nextId && FreshKey(b, t.client, t.oid)
    ensures Open(b, t.client, t.oid) == 0
    ensures var r := Add(b, ticker, t.client, t.oid, t.side, t.price, qty);
        var log := About(r.responses, t.client, t.oid);
      && log != [] && log[0] == Response(Accepted, t.client, ticker, t.oid, t.mid, t.side, t.price, 0, qty)
      && OnlyFills(log[1..]) && Track(qty, log[1..], Open(r.book, t.client, t.oid))
  {
    FreshIsClosed(b, t.side, t.client, t.oid);
    OpenFrom(b, t.side, t.client, t.oid);
    OwnLog(b, ticker, t, qty);
    OwnFills(b, ticker, t, qty);
    FirstThenFills(AcceptedMsg(ticker, t, qty),
                   About(SweepSide(ticker, b.Of(t.side.Opposite()), t, qty).responses, t.client, t.oid),
                   About(Add(b, ticker, t.client, t.oid, t.side, t.price, qty).responses, t.client, t.oid));
  }

  lemma FirstThenFills(first: Response, fills: seq<Response>, log: seq<Response>)
    requires log == [first] + fills
    ensures log[0] == first && log[1..] == fills
  {}

  /** Every other order is told exactly of the fills the new order gave it. */
  lemma AddTellsOthers(b: Book, ticker: nat, t: Taker, qty: nat, c: nat, o: nat)
    requires Ok(b) && t.side.Valid() && t.mid == b.nextId && !(t.client == c && t.oid == o)
    ensures var r := Add(b, ticker, t.client, t.oid, t.side, t.price, qty); var log := About(r.responses, c, o);
      OnlyFills(log) && Track(Open(b, c, o), log, Open(r.book, c, o))
  {
    var own, opp := b.Of(t.side), b.Of(t.side.Opposite());
    OkFromEitherSide(b, t.side);
    DistinctParts(own, opp);
    SweepTellsMaker(ticker, opp, t, qty, c, o);
    OpenFrom(b, t.side, c, o);
    AddPartsOther(b, ticker, t, qty, c, o);
    OnOneSide(own, opp, c, o);
    var sweep, r := SweepSide(ticker, opp, t, qty), Add(b, ticker, t.client, t.oid, t.side, t.price, qty);
    TrackShift(OpenIn(opp, c, o), About(sweep.responses, c, o), OpenIn(sweep.rest, c, o), OpenIn(own, c, o),
        Open(b, c, o), Open(r.book, c, o));
  }

  lemma AddPartsOther(b: Book, ticker: nat, t: Taker, qty: nat, c: nat, o: nat)
    requires t.side.Valid() && t.mid == b.nextId && !(t.client == c && t.oid == o)
    ensures var r := Add(b, ticker, t.client, t.oid, t.side, t.price, qty);
      var sweep := SweepSide(ticker, b.Of(t.side.Opposite()), t, qty);
      && About(r.responses, c, o) == About(sweep.responses, c, o)
      && Open(r.book, c, o) == OpenIn(b.Of(t.side), c, o) + OpenIn(sweep.rest, c, o)
  {
    AddParts(b, ticker, t, qty, c, o);
    var log := About(SweepSide(ticker, b.Of(t.side.Opposite()), t, qty).responses, c, o);
    assert [] + log == log;
  }

  /** An order rests on one side only, so what is open elsewhere is nothing. */
  lemma TrackShift(q: nat, rs: seq<Response>, live: nat, elsewhere: nat, q': nat, live': nat)
    requires Track(q, rs, live) && (q == 0 || elsewhere == 0) && q' == elsewhere + q && live' == elsewhere + live
    ensures Track(q', rs, live')
  {
    if q == 0 { assert rs == []; }
  }

  lemma FindOpen(b: Book, r: Resting, c: nat, o: nat)
    requires Ok(b) && r in b.bids + b.asks && r.client == c && r.oid == o
    ensures r in b.Of(r.side) && Open(b, c, o) == r.qty > 0
  {
    assert r in b.bids || r in b.asks;
    assert r in b.Of(r.side);
    OkFromEitherSide(b, r.side);
    var own, opp := b.Of(r.side), b.Of(r.side.Opposite());
    DistinctParts(own, opp);
    OpenWithout(own, r, c, o);
    OpenPresent(own, r);
    OnOneSide(own, opp, c, o);
    var k := WithoutAt(own, r.mid);
    var own' := Without(own, r.mid);
    forall x | x in own' ensures !(x.client == c && x.oid == o) {
      var i :| 0 <= i < |own'| && own'[i] == x;
      assert x == own[if i < k then i else i + 1];
    }
    OpenAbsent(own', c, o);
    OpenFrom(b, r.side, c, o);
  }

  lemma CancelTellsFound(b: Book, ticker: nat, x: Resting, c: nat, o: nat)
    requires Ok(b) && x in b.bids + b.asks
    ensures x.side.Valid() && x in b.Of(x.side)
    ensures Open(b, c, o) == Open(b.With(x.side, Without(b.Of(x.side), x.mid)), c, o) + OpenIn([x], c, o)
    ensures x.client == c && x.oid == o ==> Open(b, c, o) == x.qty > 0
  {
    if x.client == c && x.oid == o { FindOpen(b, x, c, o); }
    assert x in b.bids || x in b.asks;
    OkFromEitherSide(b, x.side);
    DistinctParts(b.Of(x.side), b.Of(x.side.Opposite()));
    OpenWithout(b.Of(x.side), x, c, o);
  }

  /** A cancel closes its own order, naming the remainder, and touches no other. */
  lemma CancelTells(b: Book, ticker: nat, client: nat, oid: nat, c: nat, o: nat)
    requires Ok(b)
    ensures var r := CancelById(b, ticker, client, oid); var log := About(r.responses, c, o);
      && Track(Open(b, c, o), log, Open(r.book, c, o))
      && (!(client == c && oid == o) ==> log == [])
      && (client == c && oid == o && client < ME_MAX_NUM_CLIENTS ==> Open(r.book, c, o) == 0)
  {
    var found := Find(b.bids + b.asks, client, oid);
    if client >= ME_MAX_NUM_CLIENTS {
    } else if found.None? {
      PickOne(RejectedMsg(ticker, client, oid), Names(c, o));
      FreshIsClosed(b, Buy, client, oid);
    } else {
      PickOne(CanceledMsg(ticker, found.value), Names(c, o));
      CancelTellsFound(b, ticker, found.value, c, o);
    }
  }

  /** One request, any order: its owner's log takes its open quantity from before to after. */
  lemma ProcessTells(b: Book, req: Request, c: nat, o: nat)
    requires Ok(b) && Admissible(b, req) && !IsNew(req, c, o)
    ensures var r := Process(b, req); var log := About(r.responses, c, o);
      && Track(Open(b, c, o), log, Open(r.book, c, o))
      && (req.New? ==> OnlyFills(log))
      && (req.Cancel? && !(req.client == c && req.oid == o) ==> log == [])
  {
    match req
    case New(client, oid, ticker, side, price, qty) => AddTellsOthers(b, ticker,
        Taker(client, oid, b.nextId, side, price), qty, c, o);
    case Cancel(client, oid, ticker) => CancelTells(b, ticker, client, oid, c, o);
  }

  // ---- whole runs -----------------------------------------------------------------------------

  /**
   Over any run that does not enter the order again, its log leads from its open quantity to what is open at the end.
   */
  lemma {:induction false} RunTells(b: Book, reqs: seq<Request>, c: nat, o: nat)
    requires Ok(b) && AdmissibleRun(b, reqs)
    requires forall i | 0 <= i < |reqs| :: !IsNew(reqs[i], c, o)
    ensures Track(Open(b, c, o), About(Run(b, reqs).responses, c, o), Open(Run(b, reqs).book, c, o))
    decreases |reqs|
  {
    if reqs != [] {
      var first := Process(b, reqs[0]);
      ProcessTells(b, reqs[0], c, o);
      ProcessKeepsOk(b, reqs[0]);
      RunTells(first.book, reqs[1..], c, o);
      var rest := Run(first.book, reqs[1..]);
      PickAppend(first.responses, rest.responses, Names(c, o));
      TrackJoin(Open(b, c, o), About(first.responses, c, o), Open(first.book, c, o), About(rest.responses, c, o),
          Open(rest.book, c, o));
    }
  }

  lemma LifeJoin(q: nat, a: seq<Response>, mid: nat, z: seq<Response>, live: nat)
    requires a != [] && Track(q, a[1..], mid) && Track(mid, z, live)
    ensures (a + z)[0] == a[0] && Track(q, (a + z)[1..], live) && Executed((a + z)[1..]) + live <= q
  {
    TrackJoin(q, a[1..], mid, z, live);
    assert (a + z)[1..] == a[1..] + z;
    TrackSpends(q, a[1..] + z, live);
  }

  /** The life of an order: one acceptance, then a log that accounts for every unit of its quantity. */
  lemma OrderLife(b: Book, req: Request, reqs: seq<Request>)
    requires Ok(b) && req.New? && Admissible(b, req) && AdmissibleRun(Process(b, req).book, reqs)
    requires forall i | 0 <= i < |reqs| :: !IsNew(reqs[i], req.client, req.oid)
    ensures var first := Process(b, req); var rest := Run(first.book, reqs);
      var log := About(first.responses + rest.responses, req.client, req.oid);
      && log != [] && log[0].kind.Accepted? && log[0].left == req.qty
      && Track(req.qty, log[1..], Open(rest.book, req.client, req.oid))
      && Executed(log[1..]) + Open(rest.book, req.client, req.oid) <= req.qty
  {
    var c, o, first := req.client, req.oid, Process(b, req);
    var rest := Run(first.book, reqs);
    AddTellsOwner(b, req.ticker, Taker(c, o, b.nextId, req.side, req.price), req.qty);
    ProcessKeepsOk(b, req);
    RunTells(first.book, reqs, c, o);
    PickAppend(first.responses, rest.responses, Names(c, o));
    LifeJoin(req.qty, About(first.responses, c, o), Open(first.book, c, o), About(rest.responses, c, o),
        Open(rest.book, c, o));
  }
}
