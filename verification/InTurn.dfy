/**
 When recovery is safe, in terms a consumer could test. Snapshot messages arrive
 in turn: any may be lost, but no round is heard after a later one. Two tests on
 what is queued then make every completed queue one published round:
 - entry: a START joins an empty queue;
 - agreement: START and END of a completed queue carry the same number.
 */
module InTurn {
  import opened Types
  import opened PriceTime
  import opened MarketLog
  import opened Snapshot
  import opened Exchange
  import opened Recovery
  import C = Consumer

  /** A snapshot message and the round it was published in: the one taken after update `round`. */
  datatype Arrival = Arrival(round: nat, msg: Numbered)

  /** The queue that a snapshot message joins. */
  function Base(c: C.State, msg: Numbered): seq<Numbered> {
    if !c.inRecovery || C.Has(c.snap, msg.seqNum) then [] else c.snap
  }

  predicate EntryTest(c: C.State, msg: Numbered) {
    msg.update.kind.SnapshotStart? ==> Base(c, msg) == []
  }

  predicate Agree(q: seq<Numbered>) {
    q != [] && q[0].update.oid == q[|q| - 1].update.oid
  }

  predicate AgreementTest(c: C.State, msg: Numbered) {
    C.Gather(QueueWith(c, msg)).Whole? ==> Agree(QueueWith(c, msg))
  }

  /** Every message is of a published round, and the rounds do not go back below `round`. */
  ghost predicate ComeInTurn(log: seq<Update>, round: nat, got: seq<Arrival>)
    requires LegalLog(EmptyTable(), log)
    decreases |got|
  {
    got == [] ||
    (round <= got[0].round && OfRound(log, got[0].round, got[0].msg) && ComeInTurn(log, got[0].round, got[1..]))
  }

  function LastRound(round: nat, got: seq<Arrival>): nat
    decreases |got|
  {
    if got == [] then round else LastRound(got[0].round, got[1..])
  }

  function Messages(got: seq<Arrival>): (msgs: seq<Numbered>)
    ensures |msgs| == |got| && forall i | 0 <= i < |got| :: msgs[i] == got[i].msg
  {
    seq(|got|, i requires 0 <= i < |got| => got[i].msg)
  }

  ghost predicate EntriesPass(c: C.State, got: seq<Arrival>)
    decreases |got|
  {
    got == [] || (EntryTest(c, got[0].msg) && EntriesPass(C.OnMessage(c, true, got[0].msg), got[1..]))
  }

  ghost predicate AgreementsPass(c: C.State, got: seq<Arrival>)
    decreases |got|
  {
    got == [] || (AgreementTest(c, got[0].msg) && AgreementsPass(C.OnMessage(c, true, got[0].msg), got[1..]))
  }

  // ---- a queue behind a START is one growing run of numbers -------------------------

  ghost predicate Located(log: seq<Update>, q: seq<Numbered>, round: nat, rounds: seq<nat>)
    requires LegalLog(EmptyTable(), log)
  {
    && |rounds| == |q|
    && (forall i | 0 <= i < |q| :: q[i].seqNum == i && OfRound(log, rounds[i], q[i]) && rounds[i] <= round)
    && (forall i, j | 0 <= i < j < |q| :: rounds[i] <= rounds[j])
  }

  predicate StartsHere(q: seq<Numbered>) { q != [] && q[0].update.kind.SnapshotStart? }

  ghost predicate TrackedDef(log: seq<Update>, q: seq<Numbered>, round: nat, u: bool)
    requires LegalLog(EmptyTable(), log)
  {
    StartsHere(q) ==> exists rounds :: Located(log, q, round, rounds)
  }

  /**
   Behind a START the queue is gapless, of rounds that do not go back and end at `round` or before; folded (see
   `Types`).
   */
  ghost predicate Tracked(log: seq<Update>, q: seq<Numbered>, round: nat)
    requires LegalLog(EmptyTable(), log)
  {
    forall u: bool :: TrackedDef(log, q, round, u)
  }

  lemma TrackedIntro(log: seq<Update>, q: seq<Numbered>, round: nat, rounds: seq<nat>)
    requires LegalLog(EmptyTable(), log) && (StartsHere(q) ==> Located(log, q, round, rounds))
    ensures Tracked(log, q, round)
  {
    forall u: bool ensures TrackedDef(log, q, round, u) {}
  }

  lemma TrackedElim(log: seq<Update>, q: seq<Numbered>, round: nat) returns (rounds: seq<nat>)
    requires LegalLog(EmptyTable(), log) && Tracked(log, q, round) && StartsHere(q)
    ensures Located(log, q, round, rounds)
  {
    assert TrackedDef(log, q, round, true);
    rounds :| Located(log, q, round, rounds);
  }

  /** The markers of a round carry its number, and stand only at its ends. */
  lemma MarkersAtEnds(body: seq<Update>, s: nat, k: nat)
    requires (forall i | 0 <= i < |body| :: !C.IsMarker(body[i])) && k < |body| + 2
    ensures var r := [StartMsg(s)] + body + [EndMsg(s)];
      (C.IsMarker(r[k]) ==> r[k].oid == s) && (r[k].kind.SnapshotStart? ==> k == 0)
  {
    var r := [StartMsg(s)] + body + [EndMsg(s)];
    if 0 < k < |body| + 1 { assert r[k] == body[k - 1]; }
  }

  lemma MarkerNames(log: seq<Update>, s: nat, m: Numbered)
    requires LegalLog(EmptyTable(), log) && OfRound(log, s, m)
    ensures C.IsMarker(m.update) ==> m.update.oid == s
    ensures m.update.kind.SnapshotStart? ==> m.seqNum == 0
  {
    TableAtOk(log, s);
    BodyKinds(TableAt(log, s), ME_MAX_TICKERS);
    MarkersAtEnds(Body(TableAt(log, s), ME_MAX_TICKERS), s, m.seqNum);
  }

  /** A message with a number above all queued ones goes to the end. */
  lemma LastGoesLast(q: seq<Numbered>, m: Numbered)
    requires forall i | 0 <= i < |q| :: q[i].seqNum < m.seqNum
    ensures C.Put(q, m) == q + [m] && !C.Has(q, m.seqNum)
  {
    var k := C.PutAt(q, m);
    assert k == |q|;
    assert q[..k] == q && q[k..] == [];
  }

  lemma {:induction false} CollectGap(q: seq<Numbered>, wanted: nat, i: nat)
    requires i < |q| && q[i].seqNum != wanted + i
    ensures C.Collect(q, wanted).None?
  {
    if q[0].seqNum == wanted {
      assert q[1..][i - 1] == q[i];
      CollectGap(q[1..], wanted + 1, i - 1);
    }
  }

  lemma LocatedNext(log: seq<Update>, q: seq<Numbered>, round: nat, rounds: seq<nat>, m: Numbered, s: nat)
    requires LegalLog(EmptyTable(), log) && Located(log, q, round, rounds)
    requires round <= s && OfRound(log, s, m) && m.seqNum == |q|
    ensures Located(log, q + [m], s, rounds + [s])
  {
    forall i | 0 <= i < |q| + 1
      ensures (q + [m])[i].seqNum == i && OfRound(log, (rounds + [s])[i], (q + [m])[i]) && (rounds + [s])[i] <= s
    {
      if i < |q| { assert OfRound(log, rounds[i], q[i]); }
    }
  }

  lemma AheadOfAll(q: seq<Numbered>, k: nat)
    requires forall i | 0 <= i < |q| :: q[i].seqNum == i
    ensures !C.Has(q, k) ==> |q| <= k
  {
    assert k < |q| ==> q[k].seqNum == k;
  }

  lemma GapBehindStart(q: seq<Numbered>, m: Numbered)
    requires StartsHere(q) && |q| < m.seqNum
    ensures C.Gather(q + [m]).Gap?
  {
    CollectGap(q + [m], 0, |q|);
  }

  /** A message behind a START: the next number extends the queue, a later one leaves a gap. */
  lemma BehindStart(log: seq<Update>, q: seq<Numbered>, round: nat, m: Numbered, s: nat)
    requires LegalLog(EmptyTable(), log) && Tracked(log, q, round) && StartsHere(q)
    requires round <= s && OfRound(log, s, m) && !C.Has(q, m.seqNum)
    ensures C.Gather(C.Put(q, m)).Gap? || Tracked(log, C.Put(q, m), s)
  {
    var rounds := TrackedElim(log, q, round);
    AheadOfAll(q, m.seqNum);
    LastGoesLast(q, m);
    if m.seqNum > |q| {
      GapBehindStart(q, m);
    } else {
      LocatedNext(log, q, round, rounds, m, s);
      TrackedIntro(log, q + [m], s, rounds + [s]);
    }
  }

  lemma AloneIsTracked(log: seq<Update>, m: Numbered, s: nat)
    requires LegalLog(EmptyTable(), log) && OfRound(log, s, m)
    ensures Tracked(log, [m], s)
  {
    MarkerNames(log, s, m);
    TrackedIntro(log, [m], s, [s]);
  }

  /** What a message that passes the entry test does to the queue. */
  lemma QueueStaysTracked(log: seq<Update>, c: C.State, round: nat, m: Numbered, s: nat)
    requires LegalLog(EmptyTable(), log) && Tracked(log, c.snap, round)
    requires round <= s && OfRound(log, s, m) && EntryTest(c, m)
    ensures C.Gather(QueueWith(c, m)).Gap? || Tracked(log, QueueWith(c, m), s)
  {
    var q := Base(c, m);
    assert QueueWith(c, m) == C.Put(q, m);
    if q == [] {
      AloneIsTracked(log, m, s);
      assert C.Put(q, m) == [m];
    } else if StartsHere(q) {
      BehindStart(log, q, round, m, s);
    } else {
      TrackedIntro(log, C.Put(q, m), s, []);
    }
  }

  lemma MessageStaysTracked(log: seq<Update>, c: C.State, round: nat, m: Numbered, s: nat)
    requires LegalLog(EmptyTable(), log) && Tracked(log, c.snap, round)
    requires round <= s && OfRound(log, s, m) && EntryTest(c, m)
    ensures Tracked(log, C.OnMessage(c, true, m).snap, s)
  {
    QueueStaysTracked(log, c, round, m, s);
    SnapAfter(c, m);
    LaterRound(log, c.snap, round, s);
  }

  /** The snapshot queue after a message: what it completed or filled with a gap is gone. */
  lemma SnapAfter(c: C.State, m: Numbered)
    ensures var q, q' := QueueWith(c, m), C.OnMessage(c, true, m).snap;
      q' == c.snap || q' == [] || (q' == q && !C.Gather(q).Gap?)
  {
    C.CheckSyncCases(C.Queued(if c.inRecovery then c else c.(inRecovery := true, inc := [], snap := []), true, m));
  }

  lemma LaterRound(log: seq<Update>, q: seq<Numbered>, round: nat, s: nat)
    requires LegalLog(EmptyTable(), log) && Tracked(log, q, round) && round <= s
    ensures Tracked(log, q, s)
  {
    var rounds := [];
    if StartsHere(q) { rounds := TrackedElim(log, q, round); }
    TrackedIntro(log, q, s, rounds);
  }

  // ---- the two tests --------------------------------------------------------------

  /** All messages, START included, were published in one round. */
  ghost predicate OneRound(log: seq<Update>, q: seq<Numbered>)
    requires LegalLog(EmptyTable(), log)
  {
    exists s: nat :: AllOfRound(log, s, q)
  }

  ghost predicate AllOfRound(log: seq<Update>, s: nat, q: seq<Numbered>)
    requires LegalLog(EmptyTable(), log)
  {
    s <= |log| && forall i | 0 <= i < |q| :: OfRound(log, s, q[i])
  }

  lemma SqueezedRounds(log: seq<Update>, q: seq<Numbered>, round: nat, rounds: seq<nat>)
    requires LegalLog(EmptyTable(), log) && Located(log, q, round, rounds) && q != []
    requires rounds[0] == rounds[|q| - 1]
    ensures AllOfRound(log, rounds[0], q)
  {
    forall i | 0 <= i < |q| ensures OfRound(log, rounds[0], q[i]) {
      assert rounds[0] <= rounds[i] <= rounds[|q| - 1];
    }
    assert OfRound(log, rounds[0], q[0]);
  }

  lemma WholeEnds(q: seq<Numbered>)
    requires C.Gather(q).Whole?
    ensures StartsHere(q) && q[|q| - 1].update.kind.SnapshotEnd?
  {}

  lemma LocatedEnds(log: seq<Update>, q: seq<Numbered>, round: nat, rounds: seq<nat>)
    requires LegalLog(EmptyTable(), log) && Located(log, q, round, rounds) && q != []
    ensures |rounds| == |q|
    ensures OfRound(log, rounds[0], q[0]) && OfRound(log, rounds[|q| - 1], q[|q| - 1])
  {}

  /** The ends of a complete queue name the rounds they come from. */
  lemma EndsName(log: seq<Update>, first: Numbered, s: nat, last: Numbered, e: nat)
    requires LegalLog(EmptyTable(), log) && OfRound(log, s, first) && OfRound(log, e, last)
    requires first.update.kind.SnapshotStart? && last.update.kind.SnapshotEnd?
    ensures first.update.oid == s && last.update.oid == e
  {
    MarkerNames(log, s, first);
    MarkerNames(log, e, last);
  }

  lemma OneRoundAgrees(log: seq<Update>, s: nat, q: seq<Numbered>)
    requires LegalLog(EmptyTable(), log) && AllOfRound(log, s, q) && C.Gather(q).Whole?
    ensures Agree(q)
  {
    MarkerNames(log, s, q[0]);
    MarkerNames(log, s, q[|q| - 1]);
  }

  /** A completed queue is one published round if and only if START and END carry the same number. */
  lemma WholeIsOneRoundIff(log: seq<Update>, q: seq<Numbered>, round: nat)
    requires LegalLog(EmptyTable(), log) && Tracked(log, q, round) && C.Gather(q).Whole?
    ensures OneRound(log, q) <==> Agree(q)
  {
    if Agree(q) {
      var rounds := TrackedElim(log, q, round);
      WholeEnds(q);
      LocatedEnds(log, q, round, rounds);
      EndsName(log, q[0], rounds[0], q[|q| - 1], rounds[|q| - 1]);
      SqueezedRounds(log, q, round, rounds);
    } else if s: nat :| AllOfRound(log, s, q) {
      OneRoundAgrees(log, s, q);
    }
  }

  // ---- every step -------------------------------------------------------------------

  /** Recovery and the rounds heard so far: none before `round` is heard again. */
  datatype Feed = Feed(sys: Sys, round: nat)

  ghost predicate InitFeed(f: Feed) { Init(f.sys) && f.round == 0 }

  /**
   A batch read from the snapshot socket; the tests are those of a consumer in recovery, any other drops the batch.
   */
  ghost predicate SnapshotsCome(f: Feed, got: seq<Arrival>, entry: bool, agree: bool, f': Feed) {
    && LegalLog(EmptyTable(), f.sys.e.log)
    && ComeInTurn(f.sys.e.log, f.round, got)
    && (f.sys.c.inRecovery && entry ==> EntriesPass(f.sys.c, got))
    && (f.sys.c.inRecovery && agree ==> AgreementsPass(f.sys.c, got))
    && f' == Feed(f.sys.(c := C.Receive(f.sys.c, true, Messages(got))), LastRound(f.round, got))
  }

  ghost predicate IncrementalsCome(f: Feed, msgs: seq<Numbered>, f': Feed) {
    AllFromLog(f.sys.e.log, msgs) && f' == f.(sys := f.sys.(c := C.Receive(f.sys.c, false, msgs)))
  }

  ghost predicate FeedStep(f: Feed, f': Feed, entry: bool, agree: bool) {
    || (ServeStep(f.sys, f'.sys) && f'.round == f.round)
    || (exists msgs :: IncrementalsCome(f, msgs, f'))
    || (exists got :: SnapshotsCome(f, got, entry, agree, f'))
  }

  /** A run in which the tests that are on always pass. */
  ghost predicate IsFeed(run: seq<Feed>, entry: bool, agree: bool) {
    && run != [] && InitFeed(run[0])
    && forall i | 0 <= i < |run| - 1 :: FeedStepAt(run, i, entry, agree)
  }

  ghost predicate FeedStepAt(run: seq<Feed>, i: nat, entry: bool, agree: bool)
    requires i + 1 < |run|
  {
    FeedStep(run[i], run[i + 1], entry, agree)
  }

  ghost predicate FeedOk(f: Feed) {
    EngineOk(f.sys.e) && Tracked(f.sys.e.log, f.sys.c.snap, f.round)
  }

  lemma SnapAfterIncremental(c: C.State, m: Numbered)
    ensures var q := C.OnMessage(c, false, m).snap; q == c.snap || q == []
  {
    C.CheckSyncCases(C.Queued(if c.inRecovery then c else c.(inRecovery := true, inc := [], snap := []), false, m));
  }

  lemma {:induction false} IncrementalsLeaveSnap(c: C.State, msgs: seq<Numbered>)
    ensures var q := C.OnMessages(c, false, msgs).snap; q == c.snap || q == []
    decreases |msgs|
  {
    if msgs != [] {
      SnapAfterIncremental(c, msgs[0]);
      IncrementalsLeaveSnap(C.OnMessage(c, false, msgs[0]), msgs[1..]);
    }
  }

  lemma FirstMessage(c: C.State, got: seq<Arrival>)
    requires got != []
    ensures C.OnMessages(c, true, Messages(got))
            == C.OnMessages(C.OnMessage(c, true, got[0].msg), true, Messages(got[1..]))
  {
    assert Messages(got)[1..] == Messages(got[1..]);
  }

  lemma {:induction false} SnapshotsStayTracked(log: seq<Update>, c: C.State, round: nat, got: seq<Arrival>)
    requires LegalLog(EmptyTable(), log) && Tracked(log, c.snap, round)
    requires ComeInTurn(log, round, got) && EntriesPass(c, got)
    ensures Tracked(log, C.OnMessages(c, true, Messages(got)).snap, LastRound(round, got))
    decreases |got|
  {
    if got != [] {
      MessageStaysTracked(log, c, round, got[0].msg, got[0].round);
      SnapshotsStayTracked(log, C.OnMessage(c, true, got[0].msg), got[0].round, got[1..]);
      FirstMessage(c, got);
    }
  }

  lemma {:induction false} LastRoundIsLater(log: seq<Update>, round: nat, got: seq<Arrival>)
    requires LegalLog(EmptyTable(), log) && ComeInTurn(log, round, got)
    ensures round <= LastRound(round, got)
    decreases |got|
  {
    if got != [] { LastRoundIsLater(log, got[0].round, got[1..]); }
  }

  /** Published rounds do not change when the stream grows. */
  lemma OldRound(log: seq<Update>, more: seq<Update>, s: nat, m: Numbered)
    requires LegalLog(EmptyTable(), log) && LegalLog(EmptyTable(), log + more) && OfRound(log, s, m)
    ensures OfRound(log + more, s, m)
  {
    assert (log + more)[..s] == log[..s];
  }

  lemma GrowLocated(log: seq<Update>, more: seq<Update>, q: seq<Numbered>, round: nat, rounds: seq<nat>)
    requires LegalLog(EmptyTable(), log) && LegalLog(EmptyTable(), log + more) && Located(log, q, round, rounds)
    ensures Located(log + more, q, round, rounds)
  {
    forall i | 0 <= i < |q| ensures OfRound(log + more, rounds[i], q[i]) { OldRound(log, more, rounds[i], q[i]); }
  }

  lemma GrowTracked(log: seq<Update>, more: seq<Update>, q: seq<Numbered>, round: nat)
    requires LegalLog(EmptyTable(), log) && LegalLog(EmptyTable(), log + more) && Tracked(log, q, round)
    ensures Tracked(log + more, q, round)
  {
    var rounds := [];
    if StartsHere(q) {
      rounds := TrackedElim(log, q, round);
      GrowLocated(log, more, q, round, rounds);
    }
    TrackedIntro(log + more, q, round, rounds);
  }

  lemma EmptyTracked(log: seq<Update>, round: nat)
    requires LegalLog(EmptyTable(), log)
    ensures Tracked(log, [], round)
  {
    TrackedIntro(log, [], round, []);
  }

  lemma FeedStepKeeps(f: Feed, f': Feed, agree: bool)
    requires FeedOk(f) && FeedStep(f, f', true, agree)
    ensures FeedOk(f')
  {
    var log, c := f.sys.e.log, f.sys.c;
    if ServeStep(f.sys, f'.sys) && f'.round == f.round {
      var req :| Accepts(f.sys.e, req) && f'.sys.e == Handle(f.sys.e, req) && f'.sys.c == f.sys.c;
      HandleKeeps(f.sys.e, req);
      GrowTracked(log, Process(f.sys.e.books[req.ticker], req).updates, c.snap, f.round);
    } else if msgs :| IncrementalsCome(f, msgs, f') {
      IncrementalsLeaveSnap(c, msgs);
      EmptyTracked(log, f.round);
    } else {
      var got :| SnapshotsCome(f, got, true, agree, f');
      if c.inRecovery {
        SnapshotsStayTracked(log, c, f.round, got);
      } else {
        LastRoundIsLater(log, f.round, got);
        LaterRound(log, c.snap, f.round, LastRound(f.round, got));
      }
    }
  }

  lemma {:induction false} FeedKeeps(run: seq<Feed>, n: nat, agree: bool)
    requires IsFeed(run, true, agree) && n < |run|
    ensures FeedOk(run[n])
  {
    if n == 0 {
      StartOk();
      EmptyTracked([], 0);
    } else {
      FeedKeeps(run, n - 1, agree);
      assert FeedStepAt(run, n - 1, true, agree);
      FeedStepKeeps(run[n - 1], run[n], agree);
    }
  }

  // ---- the theorems --------------------------------------------------------------------

  /**
   In every run with the entry test, a queue that the next snapshot message completes was published in one
   round if and only if it passes the agreement test.
   */
  lemma CompletedIsOneRoundIff(run: seq<Feed>, n: nat, a: Arrival)
    requires IsFeed(run, true, false) && n < |run|
    requires LegalLog(EmptyTable(), run[n].sys.e.log) && ComeInTurn(run[n].sys.e.log, run[n].round, [a])
    requires EntryTest(run[n].sys.c, a.msg) && C.Gather(QueueWith(run[n].sys.c, a.msg)).Whole?
    ensures OneRound(run[n].sys.e.log, QueueWith(run[n].sys.c, a.msg)) <==> AgreementTest(run[n].sys.c, a.msg)
  {
    var log, c := run[n].sys.e.log, run[n].sys.c;
    FeedKeeps(run, n, false);
    QueueStaysTracked(log, c, run[n].round, a.msg, a.round);
    WholeIsOneRoundIff(log, QueueWith(c, a.msg), a.round);
  }

  lemma TestedTakesOneRound(log: seq<Update>, c: C.State, round: nat, m: Numbered, s: nat)
    requires LegalLog(EmptyTable(), log) && Tracked(log, c.snap, round)
    requires round <= s && OfRound(log, s, m) && EntryTest(c, m) && AgreementTest(c, m)
    ensures TakesOneRound(log, QueueWith(c, m))
  {
    var q := QueueWith(c, m);
    QueueStaysTracked(log, c, round, m, s);
    if C.Gather(q).Whole? {
      WholeIsOneRoundIff(log, q, s);
      var t: nat :| AllOfRound(log, t, q);
      assert BodyOfRound(log, t, q);
    }
    forall u: bool ensures TakesOneRoundDef(log, q, u) {}
  }

  lemma {:induction false} TestedBatch(log: seq<Update>, c: C.State, round: nat, got: seq<Arrival>)
    requires LegalLog(EmptyTable(), log) && Tracked(log, c.snap, round)
    requires ComeInTurn(log, round, got) && EntriesPass(c, got) && AgreementsPass(c, got)
    ensures SnapshotBatch(log, c, Messages(got))
    decreases |got|
  {
    if got != [] {
      TestedTakesOneRound(log, c, round, got[0].msg, got[0].round);
      MessageStaysTracked(log, c, round, got[0].msg, got[0].round);
      TestedBatch(log, C.OnMessage(c, true, got[0].msg), got[0].round, got[1..]);
      assert Messages(got)[1..] == Messages(got[1..]);
    }
  }

  lemma TestedStep(f: Feed, f': Feed)
    requires FeedOk(f) && FeedStep(f, f', true, true)
    ensures ServeStep(f.sys, f'.sys) || ReadStep(f.sys, f'.sys)
  {
    if !ServeStep(f.sys, f'.sys) {
      if msgs :| IncrementalsCome(f, msgs, f') {
      } else {
        var got :| SnapshotsCome(f, got, true, true, f');
        if f.sys.c.inRecovery { TestedBatch(f.sys.e.log, f.sys.c, f.round, got); }
        assert SnapshotRead(f.sys.e.log, f.sys.c, Messages(got), f'.sys.c);
      }
    }
  }

  function Systems(run: seq<Feed>): (systems: seq<Sys>)
    ensures |systems| == |run| && forall i | 0 <= i < |run| :: systems[i] == run[i].sys
  {
    seq(|run|, i requires 0 <= i < |run| => run[i].sys)
  }

  /** Runs in which both tests pass are among the runs of `RecoverySafety`. */
  lemma TestedIsRun(run: seq<Feed>)
    requires IsFeed(run, true, true)
    ensures IsRun(Systems(run))
  {
    forall i | 0 <= i < |run| - 1 ensures StepAt(Systems(run), i) {
      FeedKeeps(run, i, true);
      assert FeedStepAt(run, i, true, true);
      TestedStep(run[i], run[i + 1]);
    }
  }

  /**
   Whatever the network loses, a consumer whose queues pass the two tests holds, out of recovery, the book of
   the first `next - 1` updates.
   */
  lemma TestedRecoverySafety(run: seq<Feed>, n: nat)
    requires IsFeed(run, true, true) && n < |run|
    ensures Synced(run[n].sys.e.log, run[n].sys.c)
  {
    TestedIsRun(run);
    RecoverySafety(Systems(run), n);
  }
}
