/**
 Whole runs of the linked order book. A request reaches the book as the engine
 dispatches it (exchange/matcher/matching_engine.cpp:33-49); what the rings and
 tables do with any sequence of requests is exactly what the price-time matcher
 does, so everything proved of its runs holds of theirs.
 */
module BookRuns {
  import opened Types
  import opened PriceTime
  import opened Rings
  import opened BookMemory
  import opened BookState
  import opened BookSteps
  import opened Collisions
  import opened OrderBook
  import L = Ladder
  import M = Matching

  // ---- what the source demands of a request, said on the price-time book --------------------

  /** Ids inside the tables, no live id used again, and an order that rests finds no other price in its table entry. */
  ghost predicate Servable(b: Book, ticker: nat, req: Request) {
    && req.ticker == ticker && Admissible(b, req) && req.oid < ME_MAX_ORDER_IDS
    && (req.New? ==>
          && req.client < ME_MAX_NUM_CLIENTS
          && RestsApart(b, ticker, Taker(req.client, req.oid, b.nextId, req.side, req.price), req.qty))
  }

  ghost predicate ServableRun(b: Book, ticker: nat, reqs: seq<Request>)
    decreases |reqs|
  {
    reqs == [] || (Servable(b, ticker, reqs[0]) && ServableRun(Process(b, reqs[0]).book, ticker, reqs[1..]))
  }

  lemma {:induction false} ServableIsAdmissible(b: Book, ticker: nat, reqs: seq<Request>)
    requires ServableRun(b, ticker, reqs)
    ensures AdmissibleRun(b, reqs)
    decreases |reqs|
  {
    if reqs != [] { ServableIsAdmissible(Process(b, reqs[0]).book, ticker, reqs[1..]); }
  }

  // ---- the tables say the same as the book ----------------------------------------------------

  lemma KeyHasOrder(s: State, sh: Shape, b: Book, key: (nat, nat)) returns (r: Resting)
    requires Refines(s, sh, Buy, b.bids, b.asks) && key in s.clients
    ensures r in b.bids + b.asks && Key(r) == key
  {
    RefineClients(s, sh, Buy, b.bids, b.asks, key);
    RefinesElim(s, sh, Buy, b.bids, b.asks);
    GoodOpposite(s, sh, Buy);
    r := s.os.data[s.clients[key]];
    var k, j := HangsOnSide(s, sh, r.side, s.clients[key]);
    var p := PositionOf(s, sh, r.side, k, j);
  }

  lemma KeyIsFree(s: State, sh: Shape, b: Book, client: nat, oid: nat)
    requires Refines(s, sh, Buy, b.bids, b.asks) && FreshKey(b, client, oid)
    ensures (client, oid) !in s.clients
  {
    if (client, oid) in s.clients { var r := KeyHasOrder(s, sh, b, (client, oid)); }
  }

  // ---- requests on the linked book -------------------------------------------------------------

  /** matching_engine.cpp:33-49. */
  method ProcessClientRequest(book: MEOrderBook, req: Request)
    requires book.Valid() && Servable(book.view, book.ticker, req)
    modifies book
    ensures book.Valid()
    ensures var o := Process(old(book.view), req);
      book.view == o.book && book.responses == old(book.responses) + o.responses
          && book.updates == old(book.updates) + o.updates
  {
    match req
    case New(client, oid, _, side, price, qty) =>
      KeyIsFree(book.Snap(), book.shape, book.view, client, oid);
      book.Add(client, oid, side, price, qty);
    case Cancel(client, oid, _) =>
      book.Cancel(client, oid);
  }

  /** A run under way: `mid` is the book after `i` requests, which gave `rs` and `us`. */
  datatype Progress = Progress(mid: Book, i: nat, rs: seq<Response>, us: seq<Update>)

  ghost predicate UnderWayDef(b: Book, ticker: nat, reqs: seq<Request>, p: Progress, u: bool) {
    && p.i <= |reqs| && AdmissibleRun(b, reqs) && AdmissibleRun(p.mid, reqs[p.i..])
        && ServableRun(p.mid, ticker, reqs[p.i..])
    && var whole, tail := Run(b, reqs), Run(p.mid, reqs[p.i..]);
    whole.book == tail.book && whole.responses == p.rs + tail.responses && whole.updates == p.us + tail.updates
  }

  /** Folded (see `Types`). */
  ghost predicate UnderWay(b: Book, ticker: nat, reqs: seq<Request>, p: Progress) {
    forall u: bool :: UnderWayDef(b, ticker, reqs, p, u)
  }

  lemma UnderWayIntro(b: Book, ticker: nat, reqs: seq<Request>, p: Progress)
    requires UnderWayDef(b, ticker, reqs, p, true)
    ensures UnderWay(b, ticker, reqs, p)
  {
    forall u: bool ensures UnderWayDef(b, ticker, reqs, p, u) {}
  }

  lemma UnderWayElim(b: Book, ticker: nat, reqs: seq<Request>, p: Progress)
    requires UnderWay(b, ticker, reqs, p)
    ensures UnderWayDef(b, ticker, reqs, p, true)
  {
  }

  lemma RunBegins(b: Book, ticker: nat, reqs: seq<Request>)
    requires ServableRun(b, ticker, reqs)
    ensures UnderWay(b, ticker, reqs, Progress(b, 0, [], []))
  {
    ServableIsAdmissible(b, ticker, reqs);
    assert reqs[0..] == reqs;
    UnderWayIntro(b, ticker, reqs, Progress(b, 0, [], []));
  }

  lemma RunNext(b: Book, ticker: nat, reqs: seq<Request>, p: Progress)
    requires UnderWay(b, ticker, reqs, p) && p.i < |reqs|
    ensures Servable(p.mid, ticker, reqs[p.i])
    ensures var o := Process(p.mid, reqs[p.i]);
      UnderWay(b, ticker, reqs, Progress(o.book, p.i + 1, p.rs + o.responses, p.us + o.updates))
  {
    UnderWayElim(b, ticker, reqs, p);
    var rest, o := reqs[p.i..], Process(p.mid, reqs[p.i]);
    assert rest[0] == reqs[p.i] && rest[1..] == reqs[p.i + 1..];
    var tail := Run(o.book, rest[1..]);
    assert p.rs + (o.responses + tail.responses) == (p.rs + o.responses) + tail.responses;
    assert p.us + (o.updates + tail.updates) == (p.us + o.updates) + tail.updates;
    UnderWayIntro(b, ticker, reqs, Progress(o.book, p.i + 1, p.rs + o.responses, p.us + o.updates));
  }

  lemma RunEnds(b: Book, ticker: nat, reqs: seq<Request>, p: Progress)
    requires UnderWay(b, ticker, reqs, p) && p.i == |reqs| && Ok(b)
    ensures AdmissibleRun(b, reqs) && Run(b, reqs) == Outcome(p.mid, p.rs, p.us) && M.Balanced(b, Run(b, reqs))
  {
    UnderWayElim(b, ticker, reqs, p);
    assert reqs[p.i..] == [];
    M.RunConserves(b, reqs);
  }

  /** The book stands where the run `p` says, having added to the queues what the run says. */
  ghost predicate Keeps(book: MEOrderBook, p: Progress, rs: seq<Response>, us: seq<Update>)
    reads book
  {
    book.Valid() && book.view == p.mid && book.responses == rs + p.rs && book.updates == us + p.us
  }

  method ServeNext(book: MEOrderBook, req: Request, ghost b: Book, ghost reqs: seq<Request>, ghost p: Progress,
                   ghost rs: seq<Response>, ghost us: seq<Update>) returns (ghost p': Progress)
    requires Keeps(book, p, rs, us) && UnderWay(b, book.ticker, reqs, p) && p.i < |reqs| && req == reqs[p.i]
    modifies book
    ensures Keeps(book, p', rs, us) && UnderWay(b, book.ticker, reqs, p') && p'.i == p.i + 1
  {
    RunNext(b, book.ticker, reqs, p);
    ghost var o := Process(book.view, req);
    ProcessClientRequest(book, req);
    p' := Progress(o.book, p.i + 1, p.rs + o.responses, p.us + o.updates);
    Regroup(rs, p.rs, o.responses);
    Regroup(us, p.us, o.updates);
  }

  /**
   Every run: the rings, tables and heads stay sound after every request, and the book, the responses and the updates
   are those of the price-time matcher; in particular the book is never crossed and quantity is conserved.
   */
  method ServeAll(book: MEOrderBook, reqs: seq<Request>)
    requires book.Valid() && ServableRun(book.view, book.ticker, reqs)
    modifies book
    ensures book.Valid() && AdmissibleRun(old(book.view), reqs)
    ensures var o := Run(old(book.view), reqs);
      && book.view == o.book && book.responses == old(book.responses) + o.responses
          && book.updates == old(book.updates) + o.updates
      && M.Balanced(old(book.view), o)
  {
    ghost var b, rs, us := book.view, book.responses, book.updates;
    ghost var p := Progress(b, 0, [], []);
    RunBegins(b, book.ticker, reqs);
    var i := 0;
    while i < |reqs|
      invariant p.i == i <= |reqs| && Keeps(book, p, rs, us) && UnderWay(b, book.ticker, reqs, p)
    {
      p := ServeNext(book, reqs[i], b, reqs, p, rs, us);
      i := i + 1;
    }
    RunEnds(b, book.ticker, reqs, p);
  }
}
