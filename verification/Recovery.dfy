/**
 The exchange, the two lossy feeds and the consumer together. Every published
 message may be lost, repeated or delivered out of order. As long as each snapshot
 queue that is completed holds one round behind its START, a client that is not in
 recovery holds exactly the book that the first `next - 1` updates make.
 */
module Recovery {
  import opened Types
  import opened PriceTime
  import opened MarketLog
  import opened Snapshot
  import opened Exchange
  import C = Consumer

  // ---- what the network may deliver --------------------------------------------

  /** An incremental: update number `k` of the stream, counted from 1. */
  ghost predicate FromLog(log: seq<Update>, msg: Numbered) {
    1 <= msg.seqNum <= |log| && msg.update == log[msg.seqNum - 1]
  }

  ghost predicate AllFromLog(log: seq<Update>, q: seq<Numbered>) {
    forall i | 0 <= i < |q| :: FromLog(log, q[i])
  }

  /** A message of the snapshot round taken after update `s`. */
  ghost predicate OfRound(log: seq<Update>, s: nat, m: Numbered)
    requires LegalLog(EmptyTable(), log)
  {
    s <= |log| && m.seqNum < |RoundAt(log, s)| && m.update == RoundAt(log, s)[m.seqNum]
  }

  ghost predicate BodyOfRound(log: seq<Update>, s: nat, q: seq<Numbered>)
    requires LegalLog(EmptyTable(), log)
  {
    s <= |log| && forall i | 1 <= i < |q| :: OfRound(log, s, q[i])
  }

  ghost predicate TakesOneRoundDef(log: seq<Update>, q: seq<Numbered>, u: bool)
    requires LegalLog(EmptyTable(), log)
  {
    C.Gather(q).Whole? ==> exists s: nat :: BodyOfRound(log, s, q)
  }

  /** If this queue is complete, what stands behind its START was published in one round; folded (see `Types`). */
  ghost predicate TakesOneRound(log: seq<Update>, q: seq<Numbered>)
    requires LegalLog(EmptyTable(), log)
  {
    forall u: bool :: TakesOneRoundDef(log, q, u)
  }

  /** The snapshot queue that `checkSnapshotSync` looks at once the message is in. */
  function QueueWith(c: C.State, msg: Numbered): seq<Numbered> {
    C.Queued(if c.inRecovery then c else c.(snap := []), true, msg).snap
  }

  /** A batch read from the snapshot socket. Only a queue it completes matters. */
  ghost predicate SnapshotBatch(log: seq<Update>, c: C.State, msgs: seq<Numbered>)
    requires LegalLog(EmptyTable(), log)
    decreases |msgs|
  {
    msgs == [] ||
    (TakesOneRound(log, QueueWith(c, msgs[0])) && SnapshotBatch(log, C.OnMessage(c, true, msgs[0]), msgs[1..]))
  }

  // ---- the invariant --------------------------------------------------------------

  function NoOrders(): Client {
    Listings(EmptyTable())
  }

  /** What was delivered rebuilds the book of the first `m` updates; out of recovery, `m + 1` is expected next. */
  ghost predicate SyncedAt(log: seq<Update>, c: C.State, m: nat) {
    && m <= |log|
    && Replay(NoOrders(), c.out) == Replay(NoOrders(), log[..m])
    && (!c.inRecovery ==> c.next == m + 1)
  }

  ghost predicate Synced(log: seq<Update>, c: C.State) {
    exists m: nat :: SyncedAt(log, c, m)
  }

  ghost predicate QueuesOk(log: seq<Update>, c: C.State)
    requires LegalLog(EmptyTable(), log)
  {
    C.Sorted(c.inc) && AllFromLog(log, c.inc) && C.Sorted(c.snap)
  }

  ghost predicate InvDef(log: seq<Update>, c: C.State, u: bool)
    requires LegalLog(EmptyTable(), log)
  {
    QueuesOk(log, c) && Synced(log, c)
  }

  /** Folded (see `Types`). */
  ghost predicate Inv(log: seq<Update>, c: C.State) {
    LegalLog(EmptyTable(), log) && forall u: bool :: InvDef(log, c, u)
  }

  lemma InvIntro(log: seq<Update>, c: C.State)
    requires LegalLog(EmptyTable(), log) && QueuesOk(log, c) && Synced(log, c)
    ensures Inv(log, c)
  {
    forall u: bool ensures InvDef(log, c, u) {}
  }

  lemma InvElim(log: seq<Update>, c: C.State)
    requires Inv(log, c)
    ensures QueuesOk(log, c) && Synced(log, c)
  {
    assert InvDef(log, c, true);
  }

  // ---- a whole queued round is the published one -------------------------------------

  function Strip(us: seq<Update>): seq<Update> {
    if us == [] then [] else (if C.IsMarker(us[0]) then [] else [us[0]]) + Strip(us[1..])
  }

  lemma {:induction false} StripAppend(a: seq<Update>, b: seq<Update>)
    ensures Strip(a + b) == Strip(a) + Strip(b)
  {
    if a == [] {
      assert a + b == b;
    } else {
      assert (a + b)[1..] == a[1..] + b;
      StripAppend(a[1..], b);
    }
  }

  lemma {:induction false} StripNothing(us: seq<Update>)
    requires forall i | 0 <= i < |us| :: !C.IsMarker(us[i])
    ensures Strip(us) == us
  {
    if us != [] { StripNothing(us[1..]); }
  }

  lemma {:induction false} BodyKinds(tbl: seq<Slots>, n: nat)
    requires TableOk(tbl) && n <= |tbl|
    ensures forall i | 0 <= i < |Body(tbl, n)| :: !C.IsMarker(Body(tbl, n)[i])
  {
    if n > 0 {
      BodyKinds(tbl, n - 1);
      ListingIsAdds(tbl[n - 1], ME_MAX_ORDER_IDS, n - 1);
    }
  }

  ghost predicate Carries(q: seq<Numbered>, us: seq<Update>) {
    |q| == |us| && forall i | 0 <= i < |q| :: q[i].update == us[i]
  }

  lemma {:induction false} CollectGapless(q: seq<Numbered>, wanted: nat, us: seq<Update>)
    requires C.Collect(q, wanted).Some? && Carries(q, us)
    ensures forall i | 0 <= i < |q| :: q[i].seqNum == wanted + i
    ensures C.Collect(q, wanted).value == Strip(us)
  {
    if q != [] {
      CollectGapless(q[1..], wanted + 1, us[1..]);
      forall i | 0 < i < |q| ensures q[i].seqNum == wanted + i { assert q[1..][i - 1] == q[i]; }
    }
  }

  lemma StripRound(body: seq<Update>, s: nat, e: nat)
    requires forall i | 0 <= i < |body| :: !C.IsMarker(body[i])
    ensures Strip([StartMsg(s)] + body + [EndMsg(e)]) == body
  {
    StripAppend([StartMsg(s)] + body, [EndMsg(e)]);
    StripAppend([StartMsg(s)], body);
    StripNothing(body);
    assert Strip([StartMsg(s)]) == [] by { assert [StartMsg(s)][1..] == []; }
    assert Strip([EndMsg(e)]) == [] by { assert [EndMsg(e)][1..] == []; }
  }

  /** Behind a START, of the messages of one round only all of them are gapless up to an END. */
  lemma WholeRound(body: seq<Update>, s: nat, q: seq<Numbered>)
    requires forall i | 0 <= i < |body| :: !C.IsMarker(body[i])
    requires var r := [StartMsg(s)] + body + [EndMsg(s)];
      forall i | 1 <= i < |q| :: q[i].seqNum < |r| && q[i].update == r[q[i].seqNum]
    requires C.Gather(q).Whole?
    ensures C.Gather(q) == C.Whole(body, s)
  {
    var r := [StartMsg(s)] + body + [EndMsg(s)];
    var us := seq(|q|, i requires 0 <= i < |q| => q[i].update);
    CollectGapless(q, 0, us);
    forall i | 1 <= i < |q| ensures us[i] == r[i] { assert q[i].seqNum == i; }
    forall i | 0 < i < |r| - 1 ensures !C.IsMarker(r[i]) { assert r[i] == body[i - 1]; }
    assert C.IsMarker(r[|q| - 1]) && r[|q| - 1].kind.SnapshotEnd?;
    assert |q| == |r|;
    assert us[1..] == body + [EndMsg(s)];
    StripAppend(body, [EndMsg(s)]);
    StripNothing(body);
    assert Strip([EndMsg(s)]) == [] by { assert [EndMsg(s)][1..] == []; }
    assert Strip(us) == Strip(us[1..]);
  }

  lemma GatherWhole(log: seq<Update>, s: nat, q: seq<Numbered>)
    requires LegalLog(EmptyTable(), log) && BodyOfRound(log, s, q) && C.Gather(q).Whole?
    ensures C.Gather(q) == C.Whole(Body(TableAt(log, s), ME_MAX_TICKERS), s)
  {
    TableAtOk(log, s);
    BodyKinds(TableAt(log, s), ME_MAX_TICKERS);
    forall i | 1 <= i < |q|
      ensures q[i].seqNum < |RoundAt(log, s)| && q[i].update == RoundAt(log, s)[q[i].seqNum]
    {
      assert OfRound(log, s, q[i]);
    }
    WholeRound(Body(TableAt(log, s), ME_MAX_TICKERS), s, q);
  }

  lemma EmptyOk()
    ensures TableOk(EmptyTable())
  {}

  lemma TableAtOk(log: seq<Update>, s: nat)
    requires LegalLog(EmptyTable(), log) && s <= |log|
    ensures TableOk(TableAt(log, s)) && Replay(NoOrders(), log[..s]) == Listings(TableAt(log, s))
  {
    EmptyOk();
    LogPrefix(EmptyTable(), log, s);
    LogInStep(EmptyTable(), log[..s]);
  }

  // ---- queued incrementals are a stretch of the stream -----------------------------------

  lemma {:induction false} LogKinds(tbl: seq<Slots>, us: seq<Update>)
    requires LegalLog(tbl, us)
    ensures forall i | 0 <= i < |us| :: !C.IsMarker(us[i])
    decreases |us|
  {
    if us != [] { LogKinds(ApplyIn(tbl, us[0]), us[1..]); }
  }

  lemma {:induction false} DrainStretch(log: seq<Update>, q: seq<Numbered>, next: nat)
    requires AllFromLog(log, q) && 1 <= next <= |log| + 1
    requires forall i | 0 <= i < |log| :: !C.IsMarker(log[i])
    ensures var d := C.Drain(q, next);
      d.Drained? ==> next <= d.next <= |log| + 1 && d.us == log[next - 1..d.next - 1]
  {
    if q != [] {
      assert FromLog(log, q[0]);
      assert AllFromLog(log, q[1..]);
      if q[0].seqNum < next {
        DrainStretch(log, q[1..], next);
      } else if q[0].seqNum == next {
        DrainStretch(log, q[1..], next + 1);
        var d := C.Drain(q[1..], next + 1);
        if d.Drained? { assert log[next - 1..d.next - 1] == [log[next - 1]] + log[next..d.next - 1]; }
      }
    }
  }

  lemma {:induction false} ReplayWidth(c: Client, us: seq<Update>)
    ensures |Replay(c, us)| == |c|
    decreases |us|
  {
    if us != [] { ReplayWidth(ClientApply(c, us[0]), us[1..]); }
  }

  lemma ReplayBoth(c: Client, a: seq<Update>, a': seq<Update>, more: seq<Update>)
    requires Replay(c, a) == Replay(c, a')
    ensures Replay(c, a + more) == Replay(c, a' + more)
  {
    ReplayAppend(c, a, more);
    ReplayAppend(c, a', more);
  }

  /** Where two histories meet, they stay together. */
  lemma ReplayJoin(c: Client, a: seq<Update>, b: seq<Update>, a': seq<Update>, more: seq<Update>, all: seq<Update>)
    requires Replay(Replay(c, a), b) == Replay(c, a') && all == a' + more
    ensures Replay(c, a + (b + more)) == Replay(c, all)
  {
    ReplayAppend(c, a, b + more);
    ReplayAppend(Replay(c, a), b, more);
    ReplayAppend(c, a', more);
  }

  /** Whatever was delivered before, a round brings the client to the book it was taken from. */
  lemma RoundMeets(log: seq<Update>, out: seq<Update>, s: nat)
    requires LegalLog(EmptyTable(), log) && s <= |log|
    ensures Replay(Replay(NoOrders(), out), Body(TableAt(log, s), ME_MAX_TICKERS)) == Replay(NoOrders(), log[..s])
  {
    ReplayWidth(NoOrders(), out);
    TableAtOk(log, s);
    SnapshotRoundTrip(Replay(NoOrders(), out), TableAt(log, s));
  }

  /** A snapshot plus the incrementals after it equals the whole history. */
  lemma SnapshotPlusIncrementals(log: seq<Update>, out: seq<Update>, s: nat, m: nat)
    requires LegalLog(EmptyTable(), log) && s <= m <= |log|
    ensures Replay(NoOrders(), out + (Body(TableAt(log, s), ME_MAX_TICKERS) + log[s..m]))
        == Replay(NoOrders(), log[..m])
  {
    assert log[..s] + log[s..m] == log[..m];
    RoundMeets(log, out, s);
    ReplayJoin(NoOrders(), out, Body(TableAt(log, s), ME_MAX_TICKERS), log[..s], log[s..m], log[..m]);
  }

  // ---- every step keeps the invariant ------------------------------------------------------

  lemma NoQueues(log: seq<Update>, c: C.State)
    requires LegalLog(EmptyTable(), log) && QueuesOk(log, c)
    ensures QueuesOk(log, c.(snap := [])) && QueuesOk(log, c.(inc := [], snap := []))
  {}

  ghost predicate RebuiltDef(log: seq<Update>, out: seq<Update>, m: nat, u: bool)
    requires m <= |log|
  {
    Replay(NoOrders(), out) == Replay(NoOrders(), log[..m])
  }

  /** What was delivered makes the book of the first `m` updates; folded (see `Types`). */
  ghost predicate Rebuilt(log: seq<Update>, out: seq<Update>, m: nat) {
    m <= |log| && forall u: bool :: RebuiltDef(log, out, m, u)
  }

  lemma RoundRebuilds(log: seq<Update>, out: seq<Update>, s: nat, us: seq<Update>, m: nat)
    requires LegalLog(EmptyTable(), log) && s <= m <= |log| && us == log[s..m]
    ensures Rebuilt(log, out + (Body(TableAt(log, s), ME_MAX_TICKERS) + us), m)
  {
    SnapshotPlusIncrementals(log, out, s, m);
    forall u: bool ensures RebuiltDef(log, out + (Body(TableAt(log, s), ME_MAX_TICKERS) + us), m, u) {}
  }

  lemma RebuildSyncs(log: seq<Update>, c: C.State, body: seq<Update>, d: C.Drained)
    requires d.Drained? && 1 <= d.next <= |log| + 1 && Rebuilt(log, c.out + (body + d.us), d.next - 1)
    ensures Synced(log, C.Rebuild(c, body, d))
  {
    assert RebuiltDef(log, c.out + (body + d.us), d.next - 1, true);
    assert SyncedAt(log, C.Rebuild(c, body, d), d.next - 1);
  }

  lemma DrainAfter(log: seq<Update>, q: seq<Numbered>, s: nat)
    requires LegalLog(EmptyTable(), log) && s <= |log| && AllFromLog(log, q)
    ensures var d := C.Drain(q, s + 1);
      d.Drained? ==> s + 1 <= d.next <= |log| + 1 && d.us == log[s..d.next - 1]
  {
    LogKinds(EmptyTable(), log);
    DrainStretch(log, q, s + 1);
  }

  lemma RebuildKeeps(log: seq<Update>, c: C.State, s: nat)
    requires LegalLog(EmptyTable(), log) && s <= |log| && AllFromLog(log, c.inc)
    requires C.Drain(c.inc, s + 1).Drained?
    ensures Synced(log, C.Rebuild(c, Body(TableAt(log, s), ME_MAX_TICKERS), C.Drain(c.inc, s + 1)))
  {
    var d := C.Drain(c.inc, s + 1);
    DrainAfter(log, c.inc, s);
    RoundRebuilds(log, c.out, s, d.us, d.next - 1);
    RebuildSyncs(log, c, Body(TableAt(log, s), ME_MAX_TICKERS), d);
  }

  lemma StillSynced(log: seq<Update>, c: C.State, c': C.State)
    requires Synced(log, c) && c'.out == c.out && (!c'.inRecovery ==> !c.inRecovery && c'.next == c.next)
    ensures Synced(log, c')
  {
    var m: nat :| SyncedAt(log, c, m);
    assert SyncedAt(log, c', m);
  }

  lemma ForgetSnapshot(log: seq<Update>, c: C.State)
    requires Inv(log, c) && c.inRecovery
    ensures Inv(log, c.(snap := []))
  {
    InvElim(log, c);
    NoQueues(log, c);
    StillSynced(log, c, c.(snap := []));
    InvIntro(log, c.(snap := []));
  }

  /** The queued messages are the whole round `s`. */
  lemma TakeWhole(log: seq<Update>, c: C.State, s: nat)
    requires Inv(log, c) && s <= |log| && Inv(log, c.(snap := []))
    ensures Inv(log, C.Rebuild(c, Body(TableAt(log, s), ME_MAX_TICKERS), C.Drain(c.inc, s + 1)))
  {
    var c' := C.Rebuild(c, Body(TableAt(log, s), ME_MAX_TICKERS), C.Drain(c.inc, s + 1));
    if C.Drain(c.inc, s + 1).Drained? {
      InvElim(log, c);
      RebuildKeeps(log, c, s);
      InvIntro(log, c');
    }
  }

  lemma TakenRound(log: seq<Update>, q: seq<Numbered>, g: C.Gathered) returns (s: nat)
    requires LegalLog(EmptyTable(), log) && TakesOneRound(log, q) && g == C.Gather(q)
    ensures g.Whole? ==> s <= |log| && g == C.Whole(Body(TableAt(log, s), ME_MAX_TICKERS), s)
  {
    assert TakesOneRoundDef(log, q, true);
    if g.Whole? {
      s :| BodyOfRound(log, s, q);
      GatherWhole(log, s, q);
    } else {
      s := 0;
    }
  }

  /** The first loop found the whole round `s`. */
  lemma WholeKeeps(log: seq<Update>, c: C.State, g: C.Gathered, s: nat, c': C.State)
    requires Inv(log, c) && c.inRecovery && g.Whole?
    requires s <= |log| && g == C.Whole(Body(TableAt(log, s), ME_MAX_TICKERS), s)
    requires c' == C.Rebuild(c, g.body, C.Drain(c.inc, g.last + 1))
    ensures Inv(log, c')
  {
    ForgetSnapshot(log, c);
    TakeWhole(log, c, s);
  }

  lemma CheckSyncKeeps(log: seq<Update>, c: C.State)
    requires Inv(log, c) && c.inRecovery && TakesOneRound(log, c.snap)
    ensures Inv(log, C.CheckSync(c))
  {
    CheckedKeeps(log, c, C.Gather(c.snap), C.CheckSync(c)) by { C.CheckSyncCases(c); }
  }

  /** `checkSnapshotSync` after any of the three results of its first loop. */
  lemma CheckedKeeps(log: seq<Update>, c: C.State, g: C.Gathered, c': C.State)
    requires Inv(log, c) && c.inRecovery && g == C.Gather(c.snap) && TakesOneRound(log, c.snap)
    requires g.NotYet? ==> c' == c
    requires g.Gap? ==> c' == c.(snap := [])
    requires g.Whole? ==> c' == C.Rebuild(c, g.body, C.Drain(c.inc, g.last + 1))
    ensures Inv(log, c')
  {
    match g {
      case NotYet =>
      case Gap => ForgetSnapshot(log, c);
      case Whole(_, _) =>
        var s := TakenRound(log, c.snap, g);
        WholeKeeps(log, c, g, s, c');
    }
  }

  lemma DeliverSyncs(log: seq<Update>, c: C.State, u: Update, m: nat)
    requires SyncedAt(log, c, m) && !c.inRecovery && m < |log| && u == log[m]
    ensures SyncedAt(log, c.(next := c.next + 1, out := c.out + [u]), m + 1)
  {
    ReplayBoth(NoOrders(), c.out, log[..m], [u]);
    assert log[..m] + [u] == log[..m + 1];
  }

  lemma DeliverKeeps(log: seq<Update>, c: C.State, msg: Numbered)
    requires Inv(log, c) && !c.inRecovery && msg.seqNum == c.next && FromLog(log, msg)
    ensures Inv(log, c.(next := c.next + 1, out := c.out + [msg.update]))
  {
    InvElim(log, c);
    var m: nat :| SyncedAt(log, c, m);
    DeliverSyncs(log, c, msg.update, m);
    InvIntro(log, c.(next := c.next + 1, out := c.out + [msg.update]));
  }

  /** Between messages no queue is complete: a complete one is taken or thrown away at once. */
  ghost predicate Unfinished(c: C.State) { !C.Gather(c.snap).Whole? }

  lemma MessageUnfinished(c: C.State, isSnapshot: bool, msg: Numbered)
    requires Unfinished(c)
    ensures Unfinished(C.OnMessage(c, isSnapshot, msg))
  {
    if c.inRecovery || msg.seqNum != c.next {
      C.CheckSyncCases(C.Queued(if c.inRecovery then c
          else c.(inRecovery := true, inc := [], snap := []), isSnapshot, msg));
    }
  }

  lemma OnMessageKeeps(log: seq<Update>, c: C.State, isSnapshot: bool, msg: Numbered)
    requires Inv(log, c) && Unfinished(c)
    requires if isSnapshot then TakesOneRound(log, QueueWith(c, msg)) else FromLog(log, msg)
    ensures Inv(log, C.OnMessage(c, isSnapshot, msg))
  {
    if c.inRecovery || msg.seqNum != c.next {
      var c1 := if c.inRecovery then c else c.(inRecovery := true, inc := [], snap := []);
      assert Inv(log, C.Queued(c1, isSnapshot, msg)) by {
        InvElim(log, c);
        NoQueues(log, c);
        QueuedKeeps(log, c1, isSnapshot, msg);
        StillSynced(log, c, C.Queued(c1, isSnapshot, msg));
        InvIntro(log, C.Queued(c1, isSnapshot, msg));
      }
      CheckSyncKeeps(log, C.Queued(c1, isSnapshot, msg));
    } else if !isSnapshot {
      DeliverKeeps(log, c, msg);
    }
  }

  lemma QueuedKeeps(log: seq<Update>, c: C.State, isSnapshot: bool, msg: Numbered)
    requires LegalLog(EmptyTable(), log) && QueuesOk(log, c) && (!isSnapshot ==> FromLog(log, msg))
    ensures QueuesOk(log, C.Queued(c, isSnapshot, msg))
  {
    if isSnapshot {
      C.PutSorted(if C.Has(c.snap, msg.seqNum) then [] else c.snap, msg);
    } else {
      C.PutSorted(c.inc, msg);
    }
  }

  lemma {:induction false} IncrementalsKeep(log: seq<Update>, c: C.State, msgs: seq<Numbered>)
    requires Inv(log, c) && Unfinished(c) && AllFromLog(log, msgs)
    ensures Inv(log, C.OnMessages(c, false, msgs)) && Unfinished(C.OnMessages(c, false, msgs))
    decreases |msgs|
  {
    if msgs != [] {
      assert FromLog(log, msgs[0]);
      OnMessageKeeps(log, c, false, msgs[0]);
      MessageUnfinished(c, false, msgs[0]);
      IncrementalsKeep(log, C.OnMessage(c, false, msgs[0]), msgs[1..]);
    }
  }

  lemma {:induction false} SnapshotsKeep(log: seq<Update>, c: C.State, msgs: seq<Numbered>)
    requires Inv(log, c) && Unfinished(c) && SnapshotBatch(log, c, msgs)
    ensures Inv(log, C.OnMessages(c, true, msgs)) && Unfinished(C.OnMessages(c, true, msgs))
    decreases |msgs|
  {
    if msgs != [] {
      OnMessageKeeps(log, c, true, msgs[0]);
      MessageUnfinished(c, true, msgs[0]);
      SnapshotsKeep(log, C.OnMessage(c, true, msgs[0]), msgs[1..]);
    }
  }

  lemma GrowKeeps(log: seq<Update>, more: seq<Update>, c: C.State)
    requires Inv(log, c) && LegalLog(EmptyTable(), log + more)
    ensures Inv(log + more, c)
  {
    var log' := log + more;
    InvElim(log, c);
    var m: nat :| SyncedAt(log, c, m);
    assert log'[..m] == log[..m];
    assert SyncedAt(log', c, m);
    forall i | 0 <= i < |c.inc| ensures FromLog(log', c.inc[i]) { assert FromLog(log, c.inc[i]); }
    InvIntro(log', c);
  }

  // ---- every run -------------------------------------------------------------------------------

  datatype Sys = Sys(e: Engine, c: C.State)

  ghost predicate Init(s: Sys) { s.e == Start() && s.c == C.Fresh }

  /** The engine serves a request. */
  ghost predicate ServeStep(s: Sys, s': Sys) {
    exists req :: Accepts(s.e, req) && s'.e == Handle(s.e, req) && s'.c == s.c
  }

  /**
   The consumer reads any published incrementals, or any snapshot messages such that each queue they complete
   holds one round behind its START; what is read from the snapshot socket outside recovery is not restricted.
   */
  ghost predicate ReadStep(s: Sys, s': Sys) {
    && s'.e == s.e
    && ((exists msgs :: AllFromLog(s.e.log, msgs) && s'.c == C.Receive(s.c, false, msgs))
        || (LegalLog(EmptyTable(), s.e.log) && exists msgs :: SnapshotRead(s.e.log, s.c, msgs, s'.c)))
  }

  ghost predicate SnapshotRead(log: seq<Update>, c: C.State, msgs: seq<Numbered>, c': C.State)
    requires LegalLog(EmptyTable(), log)
  {
    (c.inRecovery ==> SnapshotBatch(log, c, msgs)) && c' == C.Receive(c, true, msgs)
  }

  ghost predicate IsRun(run: seq<Sys>) {
    && run != [] && Init(run[0])
    && forall i | 0 <= i < |run| - 1 :: StepAt(run, i)
  }

  ghost predicate StepAt(run: seq<Sys>, i: nat)
    requires i + 1 < |run|
  {
    ServeStep(run[i], run[i + 1]) || ReadStep(run[i], run[i + 1])
  }

  ghost predicate SysOk(s: Sys) { EngineOk(s.e) && Inv(s.e.log, s.c) && Unfinished(s.c) }

  lemma StepKeeps(s: Sys, s': Sys)
    requires SysOk(s) && (ServeStep(s, s') || ReadStep(s, s'))
    ensures SysOk(s')
  {
    if ServeStep(s, s') {
      var req :| Accepts(s.e, req) && s'.e == Handle(s.e, req) && s'.c == s.c;
      HandleKeeps(s.e, req);
      GrowKeeps(s.e.log, Process(s.e.books[req.ticker], req).updates, s.c);
    } else if msgs :| AllFromLog(s.e.log, msgs) && s'.c == C.Receive(s.c, false, msgs) {
      IncrementalsKeep(s.e.log, s.c, msgs);
    } else {
      var msgs :| SnapshotRead(s.e.log, s.c, msgs, s'.c);
      if s.c.inRecovery { SnapshotsKeep(s.e.log, s.c, msgs); }
    }
  }

  lemma InitOk(s: Sys)
    requires Init(s)
    ensures SysOk(s)
  {
    StartOk();
    assert SyncedAt(s.e.log, s.c, 0);
    InvIntro(s.e.log, s.c);
  }

  /** Recovery safety, over every run. */
  lemma {:induction false} RecoverySafety(run: seq<Sys>, n: nat)
    requires IsRun(run) && n < |run|
    ensures SysOk(run[n]) && Synced(run[n].e.log, run[n].c)
  {
    if n == 0 {
      InitOk(run[0]);
    } else {
      RecoverySafety(run, n - 1);
      assert StepAt(run, n - 1);
      StepKeeps(run[n - 1], run[n]);
    }
    InvElim(run[n].e.log, run[n].c);
  }

  /** A consumer that has caught up holds, at every price, exactly the exchange's queue in time order. */
  lemma CaughtUpMatchesExchange(run: seq<Sys>, n: nat, ticker: nat, side: Side, price: nat)
    requires IsRun(run) && n < |run| && ticker < ME_MAX_TICKERS && side.Valid()
    requires !run[n].c.inRecovery && run[n].c.next == |run[n].e.log| + 1
    ensures |Replay(NoOrders(), run[n].c.out)| == |run[n].e.books| == ME_MAX_TICKERS
    ensures AtPrice(Replay(NoOrders(), run[n].c.out)[ticker], side, price)
        == QueueAt(run[n].e.books[ticker].Of(side), price, ticker)
  {
    var e, c := run[n].e, run[n].c;
    RecoverySafety(run, n);
    var m: nat :| SyncedAt(e.log, c, m);
    TableAtOk(e.log, m);
    assert e.log[..m] == e.log;
    assert RowMirrors(FoldIn(EmptyTable(), e.log), e.books, ticker);
    TimePriority(TableAt(e.log, m)[ticker], e.books[ticker], side, price, ticker);
  }
}
