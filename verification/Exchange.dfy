/**
 The matching engine over all tickers: requests are dispatched to the book of
 their ticker (exchange/matcher/matching_engine.cpp:33-49) and everything the
 books publish joins one stream, numbered from 1 by the publisher
 (exchange/market_data/market_data_publisher.cpp:42-57; the hand-over to the
 synthesizer, commented out at :51-54, is taken as done).
 */
module Exchange {
  import opened Types
  import opened PriceTime
  import opened MarketLog
  import opened Snapshot
  import opened Picking

  datatype Engine = Engine(books: seq<Book>, log: seq<Update>, responses: seq<Response>)

  function EmptyTable(): (tbl: seq<Slots>)
    ensures |tbl| == ME_MAX_TICKERS && forall t | 0 <= t < |tbl| :: tbl[t] == map[]
  {
    seq(ME_MAX_TICKERS, _ => map[])
  }

  function Start(): Engine {
    Engine(seq(ME_MAX_TICKERS, _ => EmptyBook), [], [])
  }

  /**
   What the engine requires of a request: a known ticker, a valid side, a fresh id, and room for one more order id.
   */
  ghost predicate Accepts(e: Engine, req: Request) {
    && req.ticker < |e.books| && Admissible(e.books[req.ticker], req)
    && e.books[req.ticker].nextId < ME_MAX_ORDER_IDS
  }

  function Handle(e: Engine, req: Request): Engine
    requires req.ticker < |e.books| && (req.New? ==> req.side.Valid())
  {
    var o := Process(e.books[req.ticker], req);
    Engine(e.books[req.ticker := o.book], e.log + o.updates, e.responses + o.responses)
  }

  // ---- the stream as a log of all tickers ------------------------------------

  ghost predicate LegalLog(tbl: seq<Slots>, us: seq<Update>)
    decreases |us|
  {
    us == [] || (LegalIn(tbl, us[0]) && LegalLog(ApplyIn(tbl, us[0]), us[1..]))
  }

  ghost function FoldIn(tbl: seq<Slots>, us: seq<Update>): (r: seq<Slots>)
    requires LegalLog(tbl, us)
    ensures |r| == |tbl|
    decreases |us|
  {
    if us == [] then tbl else FoldIn(ApplyIn(tbl, us[0]), us[1..])
  }

  lemma {:induction false} LogAppend(tbl: seq<Slots>, a: seq<Update>, b: seq<Update>)
    requires LegalLog(tbl, a) && LegalLog(FoldIn(tbl, a), b)
    ensures LegalLog(tbl, a + b) && FoldIn(tbl, a + b) == FoldIn(FoldIn(tbl, a), b)
    decreases |a|
  {
    if a == [] {
      assert a + b == b;
    } else {
      assert (a + b)[1..] == a[1..] + b;
      LogAppend(ApplyIn(tbl, a[0]), a[1..], b);
    }
  }

  lemma {:induction false} LogPrefix(tbl: seq<Slots>, us: seq<Update>, k: nat)
    requires LegalLog(tbl, us) && k <= |us|
    ensures LegalLog(tbl, us[..k]) && LegalLog(FoldIn(tbl, us[..k]), us[k..])
    decreases k
  {
    if k > 0 {
      LogPrefix(ApplyIn(tbl, us[0]), us[1..], k - 1);
      assert us[..k][1..] == us[1..][..k - 1] && us[k..] == us[1..][k - 1..];
    }
  }

  /** A client fed the whole stream lists exactly what the synthesizer holds. */
  lemma {:induction false} LogInStep(tbl: seq<Slots>, us: seq<Update>)
    requires TableOk(tbl) && LegalLog(tbl, us)
    ensures TableOk(FoldIn(tbl, us)) && Replay(Listings(tbl), us) == Listings(FoldIn(tbl, us))
    decreases |us|
  {
    if us != [] {
      UpdateInStep(tbl, us[0]);
      LogInStep(ApplyIn(tbl, us[0]), us[1..]);
    }
  }

  // ---- one request's updates stay in its row -----------------------------------

  ghost predicate OfTicker(us: seq<Update>, ticker: nat) {
    forall i | 0 <= i < |us| :: us[i].ticker == ticker
  }

  lemma {:induction false} SweepTicker(ticker: nat, opp: seq<Resting>, t: Taker, left: nat)
    ensures OfTicker(SweepSide(ticker, opp, t, left).updates, ticker)
    decreases |opp| + left
  {
    if CanTrade(opp, t, left) {
      var fill := Min(left, opp[0].qty);
      SweepTicker(ticker, AfterFill(opp, fill), t, left - fill);
    }
  }

  lemma ProcessTicker(b: Book, req: Request)
    requires req.New? ==> req.side.Valid()
    ensures OfTicker(Process(b, req).updates, req.ticker)
  {
    match req
    case New(client, oid, ticker, side, price, qty) =>
      SweepTicker(ticker, b.Of(side.Opposite()), Taker(client, oid, b.nextId, side, price), qty);
    case Cancel(client, oid, ticker) =>
  }

  lemma {:induction false} RowLog(tbl: seq<Slots>, ticker: nat, us: seq<Update>)
    requires ticker < |tbl| && OfTicker(us, ticker) && LegalAll(tbl[ticker], us)
    ensures LegalLog(tbl, us) && FoldIn(tbl, us) == tbl[ticker := Fold(tbl[ticker], us)]
    decreases |us|
  {
    if us == [] {
      assert tbl[ticker := tbl[ticker]] == tbl;
    } else {
      RowLog(ApplyIn(tbl, us[0]), ticker, us[1..]);
    }
  }

  // ---- the invariant of every run -------------------------------------------------

  ghost predicate RowMirrors(tbl: seq<Slots>, books: seq<Book>, t: nat)
    requires t < |tbl| && t < |books|
  {
    Mirrors(tbl[t], books[t].bids, books[t].asks, t)
  }

  /** Every book is in order and the synthesizer that folded the stream so far mirrors every book. */
  ghost predicate EngineOk(e: Engine) {
    && |e.books| == ME_MAX_TICKERS
    && (forall t | 0 <= t < |e.books| :: Ok(e.books[t]) && e.books[t].nextId <= ME_MAX_ORDER_IDS)
    && LegalLog(EmptyTable(), e.log)
    && (forall t | 0 <= t < |e.books| :: RowMirrors(FoldIn(EmptyTable(), e.log), e.books, t))
  }

  lemma EmptyMirrors(t: nat)
    ensures Mirrors(map[], [], [], t) && Ok(EmptyBook)
  {}

  lemma StartOk()
    ensures EngineOk(Start())
  {
    var e := Start();
    assert LegalLog(EmptyTable(), []) && FoldIn(EmptyTable(), []) == EmptyTable();
    forall t | 0 <= t < |e.books|
      ensures Ok(e.books[t]) && e.books[t].nextId <= ME_MAX_ORDER_IDS && RowMirrors(EmptyTable(), e.books, t)
    {
      assert e.books[t] == EmptyBook && EmptyTable()[t] == map[];
      EmptyMirrors(t);
    }
  }

  lemma BookKeeps(b: Book, req: Request)
    requires Ok(b) && Admissible(b, req) && b.nextId < ME_MAX_ORDER_IDS
    ensures Ok(Process(b, req).book) && Process(b, req).book.nextId <= ME_MAX_ORDER_IDS
  {
    ProcessKeepsOk(b, req);
  }

  /** One request keeps the books and the copy of the stream together. */
  lemma HandleKeeps(e: Engine, req: Request)
    requires EngineOk(e) && Accepts(e, req)
    ensures EngineOk(Handle(e, req))
  {
    var t, tbl := req.ticker, FoldIn(EmptyTable(), e.log);
    var o := Process(e.books[t], req);
    assert RowMirrors(tbl, e.books, t);
    BookKeeps(e.books[t], req);
    ProcessLog(tbl[t], e.books[t], req);
    ProcessTicker(e.books[t], req);
    RowLog(tbl, t, o.updates);
    LogAppend(EmptyTable(), e.log, o.updates);
    var e' := Handle(e, req);
    forall s | 0 <= s < |e'.books| ensures RowMirrors(FoldIn(EmptyTable(), e'.log), e'.books, s) {
      assert RowMirrors(tbl, e.books, s);
    }
  }

  // ---- every run ------------------------------------------------------------------

  ghost predicate AcceptsAll(e: Engine, reqs: seq<Request>)
    decreases |reqs|
  {
    reqs == [] || (Accepts(e, reqs[0]) && AcceptsAll(Handle(e, reqs[0]), reqs[1..]))
  }

  ghost function HandleAll(e: Engine, reqs: seq<Request>): Engine
    requires AcceptsAll(e, reqs)
    decreases |reqs|
  {
    if reqs == [] then e else HandleAll(Handle(e, reqs[0]), reqs[1..])
  }

  /** After any run the whole stream is a legal log, and folding it gives exactly the resting orders of every book. */
  lemma {:induction false} RunKeeps(e: Engine, reqs: seq<Request>)
    requires EngineOk(e) && AcceptsAll(e, reqs)
    ensures EngineOk(HandleAll(e, reqs))
    decreases |reqs|
  {
    if reqs != [] {
      HandleKeeps(e, reqs[0]);
      RunKeeps(Handle(e, reqs[0]), reqs[1..]);
    }
  }

  // ---- the tickers do not touch each other -------------------------------------------

  function Asks(t: nat): Request -> bool { (q: Request) => q.ticker == t }

  function Answers(t: nat): Response -> bool { (r: Response) => r.ticker == t }

  function Announces(t: nat): Update -> bool { (u: Update) => u.ticker == t }

  lemma {:induction false} SweepAnswers(ticker: nat, opp: seq<Resting>, t: Taker, left: nat)
    ensures forall r | r in SweepSide(ticker, opp, t, left).responses :: r.ticker == ticker
    decreases |opp| + left
  {
    if CanTrade(opp, t, left) {
      var fill := Min(left, opp[0].qty);
      SweepAnswers(ticker, AfterFill(opp, fill), t, left - fill);
    }
  }

  lemma ProcessAnswers(b: Book, req: Request)
    requires req.New? ==> req.side.Valid()
    ensures forall r | r in Process(b, req).responses :: r.ticker == req.ticker
  {
    match req
    case New(client, oid, ticker, side, price, qty) =>
      SweepAnswers(ticker, b.Of(side.Opposite()), Taker(client, oid, b.nextId, side, price), qty);
    case Cancel(client, oid, ticker) =>
  }

  /** What one request adds to a ticker's share of both streams. */
  lemma HandleShares(e: Engine, req: Request, t: nat)
    requires Accepts(e, req)
    ensures var o, e' := Process(e.books[req.ticker], req), Handle(e, req);
      && Pick(e'.responses, Answers(t)) == Pick(e.responses, Answers(t)) + (if req.ticker == t then o.responses else [])
      && Pick(e'.log, Announces(t)) == Pick(e.log, Announces(t)) + (if req.ticker == t then o.updates else [])
  {
    var o := Process(e.books[req.ticker], req);
    ProcessAnswers(e.books[req.ticker], req);
    ProcessTicker(e.books[req.ticker], req);
    assert forall u | u in o.updates :: u.ticker == req.ticker;
    PickAppend(e.responses, o.responses, Answers(t));
    PickAppend(e.log, o.updates, Announces(t));
    if req.ticker == t {
      PickAll(o.responses, Answers(t));
      PickAll(o.updates, Announces(t));
    } else {
      PickNone(o.responses, Answers(t));
      PickNone(o.updates, Announces(t));
    }
  }

  /** A ticker's own run, by its first request. */
  lemma RunFirst(b: Book, req: Request, rest: seq<Request>, mine: seq<Request>)
    requires Admissible(b, req) && AdmissibleRun(Process(b, req).book, rest) && mine == [req] + rest
    ensures AdmissibleRun(b, mine)
    ensures var o, more, all := Process(b, req), Run(Process(b, req).book, rest), Run(b, mine);
      && all.book == more.book && all.responses == o.responses + more.responses
      && all.updates == o.updates + more.updates
  {
    assert mine[0] == req && mine[1..] == rest;
  }

  lemma Joined<T>(a: seq<T>, x: seq<T>, mid: seq<T>, more: seq<T>, end: seq<T>, all: seq<T>)
    requires mid == a + x && end == mid + more && all == x + more
    ensures end == a + all
  {}

  /** What a ticker's share of a run that began with engine `e` is: its book, its answers and its updates. */
  ghost predicate SharesAre(e: Engine, e': Engine, t: nat, o: Outcome)
    requires t < |e.books|
  {
    && |e'.books| == |e.books| && e'.books[t] == o.book
    && Pick(e'.responses, Answers(t)) == Pick(e.responses, Answers(t)) + o.responses
    && Pick(e'.log, Announces(t)) == Pick(e.log, Announces(t)) + o.updates
  }

  lemma SharesJoin(e: Engine, req: Request, e': Engine, t: nat, more: Outcome, all: Outcome)
    requires Accepts(e, req) && t < |e.books| && SharesAre(Handle(e, req), e', t, more) && all.book == more.book
    requires var o, own := Process(e.books[req.ticker], req), req.ticker == t;
      && all.responses == (if own then o.responses else []) + more.responses
      && all.updates == (if own then o.updates else []) + more.updates
    ensures SharesAre(e, e', t, all)
  {
    var o, e1 := Process(e.books[req.ticker], req), Handle(e, req);
    var rs, us := if req.ticker == t then o.responses else [], if req.ticker == t then o.updates else [];
    HandleShares(e, req, t);
    Joined(Pick(e.responses, Answers(t)), rs, Pick(e1.responses, Answers(t)), more.responses,
           Pick(e'.responses, Answers(t)), all.responses);
    Joined(Pick(e.log, Announces(t)), us, Pick(e1.log, Announces(t)), more.updates,
           Pick(e'.log, Announces(t)), all.updates);
  }

  /**
   Over any run each ticker's book, answers and updates are those of the ticker's own requests alone, in their order,
   whatever is asked for the others.
   */
  lemma {:induction false} TickersApart(e: Engine, reqs: seq<Request>, t: nat)
    requires AcceptsAll(e, reqs) && t < |e.books|
    ensures AdmissibleRun(e.books[t], Pick(reqs, Asks(t)))
    ensures SharesAre(e, HandleAll(e, reqs), t, Run(e.books[t], Pick(reqs, Asks(t))))
    decreases |reqs|
  {
    if reqs == [] {
      assert Run(e.books[t], Pick(reqs, Asks(t))) == Outcome(e.books[t], [], []);
    } else {
      var req, e1, rest, mine := reqs[0], Handle(e, reqs[0]), Pick(reqs[1..], Asks(t)), Pick(reqs, Asks(t));
      TickersApart(e1, reqs[1..], t);
      OwnFirst(reqs, t);
      if req.ticker == t {
        RunFirst(e.books[t], req, rest, mine);
        SharesJoin(e, req, HandleAll(e, reqs), t, Run(e1.books[t], rest), Run(e.books[t], mine));
      } else {
        assert mine == rest;
        SharesStay(e, req, HandleAll(e, reqs), t, Run(e.books[t], rest));
      }
    }
  }

  lemma OwnFirst(reqs: seq<Request>, t: nat)
    requires reqs != []
    ensures Pick(reqs, Asks(t)) == (if reqs[0].ticker == t then [reqs[0]] else []) + Pick(reqs[1..], Asks(t))
  {}

  lemma SharesStay(e: Engine, req: Request, e': Engine, t: nat, o: Outcome)
    requires Accepts(e, req) && t < |e.books| && req.ticker != t && SharesAre(Handle(e, req), e', t, o)
    ensures SharesAre(e, e', t, o)
  {
    HandleShares(e, req, t);
    assert Pick(e.responses, Answers(t)) + [] == Pick(e.responses, Answers(t));
    assert Pick(e.log, Announces(t)) + [] == Pick(e.log, Announces(t));
  }

  /** The synthesizer's table after the first `s` updates. */
  ghost function TableAt(log: seq<Update>, s: nat): (tbl: seq<Slots>)
    requires LegalLog(EmptyTable(), log) && s <= |log|
    ensures |tbl| == ME_MAX_TICKERS
  {
    LogPrefix(EmptyTable(), log, s);
    FoldIn(EmptyTable(), log[..s])
  }

  ghost function RoundAt(log: seq<Update>, s: nat): seq<Update>
    requires LegalLog(EmptyTable(), log) && s <= |log|
  {
    Round(TableAt(log, s), s)
  }

  lemma NextTable(log: seq<Update>, s: nat)
    requires LegalLog(EmptyTable(), log) && s < |log|
    ensures LegalIn(TableAt(log, s), log[s]) && TableAt(log, s + 1) == ApplyIn(TableAt(log, s), log[s])
  {
    LogPrefix(EmptyTable(), log, s);
    assert log[s..][0] == log[s];
    assert LegalLog(TableAt(log, s), [log[s]])
        && FoldIn(TableAt(log, s), [log[s]]) == ApplyIn(TableAt(log, s), log[s]) by
    {
      assert [log[s]][1..] == [];
    }
    LogAppend(EmptyTable(), log[..s], [log[s]]);
    assert log[..s] + [log[s]] == log[..s + 1];
  }

  lemma WholeTable(log: seq<Update>)
    requires LegalLog(EmptyTable(), log)
    ensures TableAt(log, |log|) == FoldIn(EmptyTable(), log)
  {
    assert log[..|log|] == log;
  }

  ghost predicate SentAtDef(log: seq<Update>, s: nat, due: bool, sent: seq<Numbered>, u: bool)
    requires LegalLog(EmptyTable(), log) && s <= |log|
  {
    if due then Sent(sent, RoundAt(log, s)) else sent == []
  }

  /** What is on the wire after update `s`: the round of that update, or nothing; folded (see `Types`). */
  ghost predicate SentAt(log: seq<Update>, s: nat, due: bool, sent: seq<Numbered>)
    requires LegalLog(EmptyTable(), log) && s <= |log|
  {
    forall u: bool :: SentAtDef(log, s, due, sent, u)
  }

  /** The synthesizer has taken the first `s` updates. */
  ghost predicate Holds(syn: SnapshotSynthesizer, log: seq<Update>, s: nat)
    requires LegalLog(EmptyTable(), log)
    reads syn
  {
    s <= |log| && syn.orders == TableAt(log, s) && syn.lastIncSeqNum == s
  }

  method TakeNext(syn: SnapshotSynthesizer, log: seq<Update>, s: nat) returns (ok: bool)
    requires LegalLog(EmptyTable(), log) && s < |log| && Holds(syn, log, s)
    modifies syn
    ensures ok && Holds(syn, log, s + 1)
  {
    NextTable(log, s);
    ok := syn.AddToSnapshot(Numbered(s + 1, log[s]));
  }

  method SendIfDue(syn: SnapshotSynthesizer, ghost log: seq<Update>, ghost s: nat, due: bool)
      returns (sent: seq<Numbered>)
    requires LegalLog(EmptyTable(), log) && Holds(syn, log, s)
    ensures SentAt(log, s, due, sent)
  {
    sent := [];
    if due { sent := syn.PublishSnapshot(); }
    forall u: bool ensures SentAtDef(log, s, due, sent, u) {}
  }

  /**
   The synthesizer over a whole stream, numbered from 1 by the publisher; `due[s]` says whether the clock asks
   for a round after update `s`. No ASSERT fires, whatever round is sent is that of the updates before it, and
   the table at the end is the fold of the stream.
   */
  method Follow(syn: SnapshotSynthesizer, log: seq<Update>, due: seq<bool>)
    returns (ok: bool, rounds: seq<seq<Numbered>>)
    requires LegalLog(EmptyTable(), log) && |due| == |log| + 1
    requires syn.orders == EmptyTable() && syn.lastIncSeqNum == 0
    modifies syn
    ensures ok && syn.orders == FoldIn(EmptyTable(), log) && syn.lastIncSeqNum == |log|
    ensures |rounds| == |due| && forall s | 0 <= s < |due| :: SentAt(log, s, due[s], rounds[s])
  {
    ok := true;
    var sent := SendIfDue(syn, log, 0, due[0]);
    rounds := [sent];
    var i := 0;
    while i < |log|
      invariant ok && i <= |log| && Holds(syn, log, i)
      invariant |rounds| == i + 1 && forall s | 0 <= s <= i :: SentAt(log, s, due[s], rounds[s])
    {
      ok := TakeNext(syn, log, i);
      i := i + 1;
      sent := SendIfDue(syn, log, i, due[i]);
      rounds := rounds + [sent];
    }
    WholeTable(log);
  }
}
