/**
 Neither of the two tests of `InTurn` can be left out. From start-up, with nothing
 but loss, a consumer can leave recovery with a book that is not the exchange's:
 once with the entry test passing throughout, once with the agreement test passing
 throughout.
 */
module RecoveryLimits {
  import opened Types
  import opened PriceTime
  import opened MarketLog
  import opened Snapshot
  import opened Exchange
  import opened Recovery
  import opened InTurn
  import opened CatchUp
  import C = Consumer

  // ---- two rounds spliced --------------------------------------------------------

  function Order(id: nat): Update { Update(AddOrder, id, 0, Buy, 100, 1, 1) }

  /** Order 1 comes, goes, and order 2 comes. */
  function ShortLog(): seq<Update> { [Order(1), Order(1).(kind := CancelOrder), Order(2)] }

  /** A CLEAR for each ticker from 1 to `n - 1`. */
  function Clears(n: nat): seq<Update> {
    if n <= 1 then [] else Clears(n - 1) + [ClearMsg(n - 1)]
  }

  /** The messages between START and END when ticker 0 holds just `u`. */
  function OneOrderBody(u: Update): seq<Update> {
    [ClearMsg(0), u] + Clears(ME_MAX_TICKERS)
  }

  lemma {:induction false} EmptyListing(n: nat)
    ensures Listing(map[], n) == []
  {
    if n > 0 { EmptyListing(n - 1); }
  }

  lemma OneOrderListing(u: Update)
    requires u.oid < ME_MAX_ORDER_IDS
    ensures Listing(map[u.oid := u], ME_MAX_ORDER_IDS) == [u]
  {
    EmptyListing(ME_MAX_ORDER_IDS);
    ListingAdd(map[], u, ME_MAX_ORDER_IDS);
    assert map[][u.oid := u] == map[u.oid := u];
  }

  lemma {:induction false} OneOrderBodyUpTo(u: Update, tbl: seq<Slots>, n: nat)
    requires u.oid < ME_MAX_ORDER_IDS && tbl == EmptyTable()[0 := map[u.oid := u]] && 1 <= n <= |tbl|
    ensures Body(tbl, n) == [ClearMsg(0), u] + Clears(n)
  {
    if n == 1 {
      OneOrderListing(u);
      assert Body(tbl, 0) == [];
      assert [ClearMsg(0)] + [u] == [ClearMsg(0), u];
    } else {
      OneOrderBodyUpTo(u, tbl, n - 1);
      EmptyListing(ME_MAX_ORDER_IDS);
      assert tbl[n - 1] == map[];
      var a, b := [ClearMsg(0), u], Clears(n - 1);
      assert a + b + [ClearMsg(n - 1)] + [] == a + (b + [ClearMsg(n - 1)]);
    }
  }

  lemma OneOrderTable(u: Update)
    requires u.oid < ME_MAX_ORDER_IDS
    ensures Body(EmptyTable()[0 := map[u.oid := u]], ME_MAX_TICKERS) == OneOrderBody(u)
  {
    OneOrderBodyUpTo(u, EmptyTable()[0 := map[u.oid := u]], ME_MAX_TICKERS);
  }

  lemma {:induction false} ClearsAreNoMarkers(n: nat)
    ensures forall i | 0 <= i < |Clears(n)| :: !C.IsMarker(Clears(n)[i])
  {
    if n > 1 { ClearsAreNoMarkers(n - 1); }
  }

  lemma ShortLogTables()
    ensures LegalLog(EmptyTable(), ShortLog())
    ensures TableAt(ShortLog(), 1) == EmptyTable()[0 := map[1 := Order(1)]]
    ensures TableAt(ShortLog(), 3) == EmptyTable()[0 := map[2 := Order(2)]]
  {
    var e, log := EmptyTable(), ShortLog();
    var t1 := e[0 := map[1 := Order(1)]];
    var t3 := e[0 := map[2 := Order(2)]];
    assert ApplyIn(e, log[0]) == t1;
    assert ApplyIn(t1, log[1]) == e by { assert map[1 := Order(1)] - {1} == map[]; }
    assert ApplyIn(e, log[2]) == t3;
    assert log[1..][0] == log[1] && log[1..][1..] == [log[2]] && [log[2]][1..] == [];
    assert LegalIn(e, log[0]) && LegalIn(t1, log[1]) && LegalIn(e, log[2]);
    assert LegalLog(e, [log[2]]) && FoldIn(e, [log[2]]) == t3;
    assert LegalLog(t1, log[1..]) && FoldIn(t1, log[1..]) == t3;
    assert LegalLog(e, log) && FoldIn(e, log) == t3;
    assert log[..3] == log;
    assert log[..1] == [log[0]] && [log[0]][1..] == [];
    assert FoldIn(e, [log[0]]) == t1;
  }

  /** START of round `s`, the body of the round after update 1, and END of the round after update 3. */
  function Splice(s: nat): seq<Update> { [StartMsg(s)] + OneOrderBody(Order(1)) + [EndMsg(3)] }

  lemma ShortRounds()
    ensures LegalLog(EmptyTable(), ShortLog())
    ensures RoundAt(ShortLog(), 1) == OneOrderRound(1, Order(1))
    ensures RoundAt(ShortLog(), 3) == OneOrderRound(3, Order(2))
  {
    ShortLogTables();
    OneOrderTable(Order(1));
    OneOrderTable(Order(2));
  }

  /** The round after update `s` of `ShortLog`, when ticker 0 holds just `u`. */
  function OneOrderRound(s: nat, u: Update): seq<Update> { [StartMsg(s)] + OneOrderBody(u) + [EndMsg(s)] }

  /** Place by place, a splice is the head of one round and the rest of the other. */
  lemma SpliceAt(s: nat, i: nat)
    requires i < |Splice(s)|
    ensures |OneOrderRound(1, Order(1))| == |OneOrderRound(3, Order(2))| == |Splice(s)|
    ensures i == 0 ==> Splice(s)[i] == StartMsg(s)
    ensures 0 < i < 3 ==> Splice(s)[i] == OneOrderRound(1, Order(1))[i]
    ensures 3 <= i ==> Splice(s)[i] == OneOrderRound(3, Order(2))[i]
  {
    var rest := Clears(ME_MAX_TICKERS);
    assert Splice(s) == [StartMsg(s), ClearMsg(0), Order(1)] + rest + [EndMsg(3)];
    assert OneOrderRound(1, Order(1)) == [StartMsg(1), ClearMsg(0), Order(1)] + rest + [EndMsg(1)];
    assert OneOrderRound(3, Order(2)) == [StartMsg(3), ClearMsg(0), Order(2)] + rest + [EndMsg(3)];
  }

  /** The round that message `i` of the splice comes from. */
  function RoundOf(s: nat, i: nat): nat { if i == 0 then s else if i < 3 then 1 else 3 }

  lemma SpliceOfRounds(s: nat, i: nat)
    requires (s == 1 || s == 3) && i < |Splice(s)|
    ensures LegalLog(EmptyTable(), ShortLog())
    ensures OfRound(ShortLog(), RoundOf(s, i), Number(Splice(s))[i])
  {
    ShortRounds();
    SpliceAt(s, i);
  }

  lemma TakenBook()
    ensures |Replay(NoOrders(), OneOrderBody(Order(1)))| == ME_MAX_TICKERS
    ensures Replay(NoOrders(), OneOrderBody(Order(1)))[0] == [Order(1)]
  {
    ShortLogTables();
    OneOrderTable(Order(1));
    TableAtOk(ShortLog(), 1);
    SnapshotRoundTrip(NoOrders(), TableAt(ShortLog(), 1));
    OneOrderListing(Order(1));
  }

  lemma TrueBook()
    ensures |Replay(NoOrders(), ShortLog())| == ME_MAX_TICKERS && Replay(NoOrders(), ShortLog())[0] == [Order(2)]
  {
    ShortLogTables();
    TableAtOk(ShortLog(), 3);
    assert ShortLog()[..3] == ShortLog();
    OneOrderListing(Order(2));
  }

  lemma BooksDiffer()
    ensures Replay(NoOrders(), OneOrderBody(Order(1))) != Replay(NoOrders(), ShortLog())
  {
    TakenBook();
    TrueBook();
    assert [Order(1)][0] != [Order(2)][0];
  }

  // ---- the run up to the first snapshot message ------------------------------------------

  lemma Extend(run: seq<Feed>, f: Feed, entry: bool, agree: bool)
    requires IsFeed(run, entry, agree) && FeedStep(run[|run| - 1], f, entry, agree)
    ensures IsFeed(run + [f], entry, agree)
  {
    var run' := run + [f];
    forall i | 0 <= i < |run'| - 1 ensures FeedStepAt(run', i, entry, agree) {
      if i < |run| - 1 { assert FeedStepAt(run, i, entry, agree); }
    }
  }

  lemma ServeNext(run: seq<Feed>, req: Request, entry: bool, agree: bool) returns (f: Feed)
    requires IsFeed(run, entry, agree) && Accepts(run[|run| - 1].sys.e, req)
    ensures f.sys.e == Handle(run[|run| - 1].sys.e, req) && f.sys.c == run[|run| - 1].sys.c
    ensures f.round == run[|run| - 1].round && IsFeed(run + [f], entry, agree)
  {
    var last := run[|run| - 1];
    f := Feed(Sys(Handle(last.sys.e, req), last.sys.c), last.round);
    assert ServeStep(last.sys, f.sys);
    Extend(run, f, entry, agree);
  }

  function OneBid(id: nat): Resting { Resting(0, id, id, Buy, 100, 1, 1) }

  lemma BidComes(e: Engine, id: nat)
    requires e.books != [] && e.books[0] == Book([], [], id) && id < ME_MAX_ORDER_IDS
    ensures Accepts(e, New(0, id, 0, Buy, 100, 1))
    ensures var e' := Handle(e, New(0, id, 0, Buy, 100, 1));
      && |e'.books| == |e.books| && e'.books[0] == Book([OneBid(id)], [], id + 1)
      && e'.log == e.log + [Order(id)]
  {}

  lemma BidGoes(e: Engine, id: nat, next: nat)
    requires e.books != [] && e.books[0] == Book([OneBid(id)], [], next) && next < ME_MAX_ORDER_IDS
    ensures Accepts(e, Cancel(0, id, 0))
    ensures var e' := Handle(e, Cancel(0, id, 0));
      && |e'.books| == |e.books| && e'.books[0] == Book([], [], next)
      && e'.log == e.log + [Order(id).(kind := CancelOrder)]
  {
    assert [OneBid(id)] + [] == [OneBid(id)];
    assert Without([OneBid(id)], id) == [] by { assert [OneBid(id)][1..] == []; }
  }

  /** In recovery, with update 3 queued. */
  function Waiting(): C.State { C.State(1, true, [Numbered(3, Order(2))], [], []) }

  lemma UpdateThreeComes()
    ensures C.Receive(C.Fresh, false, [Numbered(3, Order(2))]) == Waiting()
    ensures AllFromLog(ShortLog(), [Numbered(3, Order(2))])
  {
    var m := Numbered(3, Order(2));
    assert [m][1..] == [];
  }

  /** Order 1 comes, goes, and order 2 comes. */
  lemma ThreeRequests(entry: bool, agree: bool) returns (run: seq<Feed>)
    ensures IsFeed(run, entry, agree)
    ensures var f := run[|run| - 1]; f.sys.e.log == ShortLog() && f.sys.c == C.Fresh && f.round == 0
  {
    run := [Feed(Sys(Start(), C.Fresh), 0)];
    BidComes(run[0].sys.e, 1);
    var f := ServeNext(run, New(0, 1, 0, Buy, 100, 1), entry, agree);
    run := run + [f];
    BidGoes(f.sys.e, 1, 2);
    f := ServeNext(run, Cancel(0, 1, 0), entry, agree);
    run := run + [f];
    BidComes(f.sys.e, 2);
    f := ServeNext(run, New(0, 2, 0, Buy, 100, 1), entry, agree);
    run := run + [f];
    assert f.sys.e.log == ShortLog();
  }

  /** Of the three updates the consumer hears only the third. */
  lemma Opening(entry: bool, agree: bool) returns (run: seq<Feed>)
    ensures IsFeed(run, entry, agree)
    ensures var f := run[|run| - 1]; f.sys.e.log == ShortLog() && f.sys.c == Waiting() && f.round == 0
  {
    run := ThreeRequests(entry, agree);
    var f := run[|run| - 1];
    UpdateThreeComes();
    var g := f.(sys := f.sys.(c := Waiting()));
    assert IncrementalsCome(f, [Numbered(3, Order(2))], g);
    Extend(run, g, entry, agree);
    run := run + [g];
  }

  // ---- the two runs ---------------------------------------------------------------------

  /** Out of recovery, up to date by number, and not in step. */
  ghost predicate Misled(s: Sys) {
    && !s.c.inRecovery && s.c.next == |s.e.log| + 1
    && Replay(NoOrders(), s.c.out) != Replay(NoOrders(), s.e.log) && !Synced(s.e.log, s.c)
  }

  lemma CaughtUpIsSame(log: seq<Update>, c: C.State)
    requires Synced(log, c) && !c.inRecovery && c.next == |log| + 1
    ensures Replay(NoOrders(), c.out) == Replay(NoOrders(), log)
  {
    var m: nat :| SyncedAt(log, c, m);
    assert log[..m] == log;
  }

  lemma WrongBook(s: Sys)
    requires s.e.log == ShortLog() && s.c == C.State(4, false, [], [], OneOrderBody(Order(1)))
    ensures Misled(s)
  {
    if Synced(s.e.log, s.c) { CaughtUpIsSame(s.e.log, s.c); }
    BooksDiffer();
  }

  lemma SpliceFramed(s: nat)
    ensures Framed(Splice(s)) && Strip(Splice(s)) == OneOrderBody(Order(1))
    ensures Splice(s)[0].oid == s && Splice(s)[|Splice(s)| - 1].oid == 3
  {
    var body := OneOrderBody(Order(1));
    ClearsAreNoMarkers(ME_MAX_TICKERS);
    StripRound(body, s, 3);
    forall i | 0 < i < |Splice(s)| - 1 ensures !C.IsMarker(Splice(s)[i]) { assert Splice(s)[i] == body[i - 1]; }
  }

  lemma SpliceTaken(snap: seq<Numbered>)
    ensures C.Rebuild(Waiting().(snap := snap), OneOrderBody(Order(1)), C.Drain(Waiting().inc, 4))
            == C.State(4, false, [], [], OneOrderBody(Order(1)))
  {
    assert Waiting().inc[1..] == [];
    assert [] + (OneOrderBody(Order(1)) + []) == OneOrderBody(Order(1));
  }

  lemma {:induction false} OneAfterAnother(log: seq<Update>, round: nat, got: seq<Arrival>)
    requires LegalLog(EmptyTable(), log)
    requires forall i | 0 <= i < |got| :: round <= got[i].round && OfRound(log, got[i].round, got[i].msg)
    requires forall i, j | 0 <= i < j < |got| :: got[i].round <= got[j].round
    ensures ComeInTurn(log, round, got)
    decreases |got|
  {
    if got != [] { OneAfterAnother(log, got[0].round, got[1..]); }
  }

  /** Messages 0 to 2 of the round after update 1, then messages 3 and up of the round after update 3. */
  function HeadThenTail(): seq<Arrival> {
    var us := Splice(1);
    seq(|us|, i requires 0 <= i < |us| => Arrival(RoundOf(1, i), Number(us)[i]))
  }

  /** Messages 1 and 2 of the round after update 1, then the round after update 3 without its messages 1 and 2. */
  function LateStart(): seq<Arrival> {
    var us := Splice(3);
    [Arrival(1, Number(us)[1]), Arrival(1, Number(us)[2]), Arrival(3, Number(us)[0])]
    + seq(|us| - 3, i requires 0 <= i < |us| - 3 => Arrival(3, Number(us)[i + 3]))
  }

  /** The `k`-th message to arrive is message `at[k]` of the splice. */
  ghost predicate Pieces(s: nat, got: seq<Arrival>, at: seq<nat>) {
    && |at| == |got|
    && forall k | 0 <= k < |got| ::
         at[k] < |Splice(s)| && got[k] == Arrival(RoundOf(s, at[k]), Number(Splice(s))[at[k]])
  }

  lemma PiecesInTurn(log: seq<Update>, s: nat, got: seq<Arrival>, at: seq<nat>)
    requires LegalLog(EmptyTable(), log) && log == ShortLog() && (s == 1 || s == 3) && Pieces(s, got, at)
    requires forall i, j | 0 <= i < j < |at| :: RoundOf(s, at[i]) <= RoundOf(s, at[j])
    ensures ComeInTurn(log, 0, got)
  {
    forall k | 0 <= k < |got| ensures OfRound(log, got[k].round, got[k].msg) { SpliceOfRounds(s, at[k]); }
    OneAfterAnother(log, 0, got);
  }

  lemma HeadThenTailPieces() returns (at: seq<nat>)
    ensures Pieces(1, HeadThenTail(), at)
    ensures forall i, j | 0 <= i < j < |at| :: RoundOf(1, at[i]) <= RoundOf(1, at[j])
  {
    at := seq(|Splice(1)|, i requires 0 <= i < |Splice(1)| => i);
  }

  lemma LateStartPieces() returns (at: seq<nat>)
    ensures Pieces(3, LateStart(), at)
    ensures forall i, j | 0 <= i < j < |at| :: RoundOf(3, at[i]) <= RoundOf(3, at[j])
  {
    var n := |Splice(3)|;
    at := [1, 2, 0] + seq(n - 3, i requires 0 <= i < n - 3 => i + 3);
  }

  lemma HeadThenTailTaken(c: C.State, us: seq<Update>, got: seq<Arrival>)
    requires c == Waiting() && us == Splice(1) && got == HeadThenTail()
    ensures EntriesPass(c, got)
    ensures C.OnMessages(c, true, Messages(got)) == C.State(4, false, [], [], OneOrderBody(Order(1)))
  {
    SpliceFramed(1);
    FillsUp(c, us, 0, got);
    SpliceTaken(Number(us));
  }

  /** What both runs end with: the snapshot messages arrive and the wrong book is taken. */
  lemma EndsMisled(run: seq<Feed>, got: seq<Arrival>, entry: bool, agree: bool) returns (f: Feed)
    requires IsFeed(run, entry, agree) && LegalLog(EmptyTable(), ShortLog())
    requires var f := run[|run| - 1]; f.sys.e.log == ShortLog() && f.sys.c == Waiting() && f.round == 0
    requires ComeInTurn(ShortLog(), 0, got)
    requires entry ==> EntriesPass(Waiting(), got)
    requires agree ==> AgreementsPass(Waiting(), got)
    requires C.OnMessages(Waiting(), true, Messages(got)) == C.State(4, false, [], [], OneOrderBody(Order(1)))
    ensures IsFeed(run + [f], entry, agree) && Misled(f.sys)
  {
    var last := run[|run| - 1];
    f := Feed(last.sys.(c := C.Receive(last.sys.c, true, Messages(got))), LastRound(0, got));
    assert SnapshotsCome(last, got, entry, agree, f);
    Extend(run, f, entry, agree);
    WrongBook(f.sys);
  }

  /**
   START and END are never compared. The head of one round and the tail of a later one arrive, each in order:
   the entry test passes throughout, and the consumer leaves recovery expecting update 4 while it holds order 1,
   which the first three updates have already removed.
   */
  lemma SplicedRoundsMislead() returns (run: seq<Feed>)
    ensures IsFeed(run, true, false) && Misled(run[|run| - 1].sys)
  {
    run := Opening(true, false);
    ShortLogTables();
    var at := HeadThenTailPieces();
    PiecesInTurn(ShortLog(), 1, HeadThenTail(), at);
    HeadThenTailTaken(Waiting(), Splice(1), HeadThenTail());
    var f := EndsMisled(run, HeadThenTail(), true, false);
    run := run + [f];
  }

  lemma EarlyMessage(c: C.State, q: seq<Numbered>, m: Numbered)
    requires c.inRecovery && !C.Has(c.snap, m.seqNum) && q == C.Put(c.snap, m) && C.Gather(q).NotYet?
    ensures C.OnMessage(c, true, m) == c.(snap := q) && AgreementTest(c, m)
  {
    C.CheckSyncCases(C.Queued(c, true, m));
  }

  /** Messages 1, 2 and then 0 of a splice leave its first three messages queued. */
  lemma ThreeQueued(c: C.State, us: seq<Update>)
    requires Framed(us) && |us| > 3 && c.inRecovery && c.snap == []
    ensures var q := Number(us);
      var c1 := C.OnMessage(c, true, q[1]);
      var c2 := C.OnMessage(c1, true, q[2]);
      && AgreementTest(c, q[1]) && AgreementTest(c1, q[2]) && AgreementTest(c2, q[0])
      && C.OnMessage(c2, true, q[0]) == c.(snap := q[..3])
  {
    var q := Number(us);
    EarlyMessage(c, [q[1]], q[1]);
    var c1 := c.(snap := [q[1]]);
    LastGoesLast([q[1]], q[2]);
    assert [q[1]] + [q[2]] == [q[1], q[2]];
    EarlyMessage(c1, [q[1], q[2]], q[2]);
    var c2 := c.(snap := [q[1], q[2]]);
    assert q[..3] == [q[0]] + [q[1], q[2]];
    PrefixNotYet(us, 3);
    assert [q[1], q[2]][1..] == [q[2]] && [q[2]][1..] == [];
    EarlyMessage(c2, q[..3], q[0]);
  }

  /** The first three arrivals, one by one. */
  lemma LateStartBegins(c: C.State, us: seq<Update>, got: seq<Arrival>)
    requires Framed(us) && |us| > 3 && c.inRecovery && c.snap == [] && |got| >= 3
    requires got[0].msg == Number(us)[1] && got[1].msg == Number(us)[2] && got[2].msg == Number(us)[0]
    ensures var c' := c.(snap := Number(us)[..3]);
      && C.OnMessages(c, true, Messages(got)) == C.OnMessages(c', true, Messages(got[3..]))
      && (AgreementsPass(c', got[3..]) ==> AgreementsPass(c, got))
  {
    ThreeQueued(c, us);
    var c1 := C.OnMessage(c, true, got[0].msg);
    var c2 := C.OnMessage(c1, true, got[1].msg);
    FirstMessage(c, got);
    FirstMessage(c1, got[1..]);
    FirstMessage(c2, got[2..]);
    assert got[1..][1..] == got[2..] && got[2..][1..] == got[3..];
  }

  lemma LateStartFills(c: C.State, us: seq<Update>, got: seq<Arrival>)
    requires Framed(us) && |us| > 3 && c.inRecovery && c.snap == [] && |got| == |us|
    requires got[0].msg == Number(us)[1] && got[1].msg == Number(us)[2] && got[2].msg == Number(us)[0]
    requires forall i | 3 <= i < |got| :: got[i].msg == Number(us)[i]
    ensures C.OnMessages(c, true, Messages(got))
            == C.Rebuild(c.(snap := Number(us)), Strip(us), C.Drain(c.inc, us[|us| - 1].oid + 1))
    ensures us[0].oid == us[|us| - 1].oid ==> AgreementsPass(c, got)
  {
    LateStartBegins(c, us, got);
    FillsUp(c.(snap := Number(us)[..3]), us, 3, got[3..]);
  }

  lemma LateStartTaken(c: C.State, us: seq<Update>, got: seq<Arrival>)
    requires c == Waiting() && us == Splice(3) && got == LateStart()
    ensures AgreementsPass(c, got)
    ensures C.OnMessages(c, true, Messages(got)) == C.State(4, false, [], [], OneOrderBody(Order(1)))
  {
    SpliceFramed(3);
    LateStartFills(c, us, got);
    SpliceTaken(Number(us));
  }

  /**
   A START joins messages that are already queued. The first round's START is lost, so its next messages wait
   for the START of a later round: START and END agree, and the consumer leaves recovery with the same wrong book.
   */
  lemma LateStartMisleads() returns (run: seq<Feed>)
    ensures IsFeed(run, false, true) && Misled(run[|run| - 1].sys)
  {
    run := Opening(false, true);
    ShortLogTables();
    var at := LateStartPieces();
    PiecesInTurn(ShortLog(), 3, LateStart(), at);
    LateStartTaken(Waiting(), Splice(3), LateStart());
    var f := EndsMisled(run, LateStart(), false, true);
    run := run + [f];
  }
}
