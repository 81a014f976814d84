/**
 What a consumer that hears enough delivers: with nothing lost every update, once
 and in order; after a gap, a whole snapshot round and the updates since end the
 recovery, and the consumer is at the newest update again.
 */
module CatchUp {
  import opened Types
  import opened MarketLog
  import opened Snapshot
  import opened Exchange
  import opened Recovery
  import opened InTurn
  import C = Consumer

  function Number(us: seq<Update>): (q: seq<Numbered>)
    ensures |q| == |us| && forall i | 0 <= i < |us| :: q[i] == Numbered(i, us[i])
  {
    seq(|us|, i requires 0 <= i < |us| => Numbered(i, us[i]))
  }

  lemma {:induction false} CollectAll(q: seq<Numbered>, wanted: nat, us: seq<Update>)
    requires Carries(q, us) && forall i | 0 <= i < |q| :: q[i].seqNum == wanted + i
    ensures C.Collect(q, wanted) == Some(Strip(us))
  {
    if q != [] { CollectAll(q[1..], wanted + 1, us[1..]); }
  }

  // ---- a queue that fills in key order -----------------------------------------------

  /** One START in front, one END at the back. */
  ghost predicate Framed(us: seq<Update>) {
    && |us| >= 2 && us[0].kind.SnapshotStart? && us[|us| - 1].kind.SnapshotEnd?
    && forall i | 0 < i < |us| - 1 :: !C.IsMarker(us[i])
  }

  /** A gapless queue behind a START that stops before END is not complete. */
  lemma PrefixNotYet(us: seq<Update>, k: nat)
    requires Framed(us) && 0 < k < |us|
    ensures C.Gather(Number(us)[..k]).NotYet?
  {
    CollectAll(Number(us)[..k], 0, us[..k]);
  }

  lemma {:induction false} AllWhole(us: seq<Update>, q: seq<Numbered>)
    requires Framed(us) && q == Number(us)
    ensures C.Gather(q) == C.Whole(Strip(us), us[|us| - 1].oid)
  {
    CollectAll(q, 0, us);
    assert q[|q| - 1].update == us[|us| - 1];
  }

  lemma NextInQueue(c: C.State, us: seq<Update>, k: nat)
    requires k < |us| && c.inRecovery && c.snap == Number(us)[..k]
    ensures Base(c, Number(us)[k]) == c.snap && QueueWith(c, Number(us)[k]) == Number(us)[..k + 1]
  {
    LastGoesLast(c.snap, Number(us)[k]);
    assert Number(us)[..k] + [Number(us)[k]] == Number(us)[..k + 1];
  }

  lemma QueuesNext(c: C.State, us: seq<Update>, k: nat)
    requires Framed(us) && k + 1 < |us| && c.inRecovery && c.snap == Number(us)[..k]
    ensures C.OnMessage(c, true, Number(us)[k]) == c.(snap := Number(us)[..k + 1])
    ensures AgreementTest(c, Number(us)[k])
  {
    NextInQueue(c, us, k);
    PrefixNotYet(us, k + 1);
    C.CheckSyncCases(C.Queued(c, true, Number(us)[k]));
  }

  lemma {:induction false} TakesLast(c: C.State, us: seq<Update>)
    requires Framed(us) && c.inRecovery && c.snap == Number(us)[..|us| - 1]
    ensures var last := us[|us| - 1].oid;
      C.OnMessage(c, true, Number(us)[|us| - 1])
      == C.Rebuild(c.(snap := Number(us)), Strip(us), C.Drain(c.inc, last + 1))
    ensures us[0].oid == us[|us| - 1].oid ==> AgreementTest(c, Number(us)[|us| - 1])
  {
    var k := |us| - 1;
    NextInQueue(c, us, k);
    assert Number(us)[..k + 1] == Number(us);
    AllWhole(us, Number(us));
    C.CheckSyncCases(C.Queued(c, true, Number(us)[k]));
  }

  /** The messages from `k` on arrive in order: the queue fills, and the last one has it taken for the round of END. */
  lemma {:induction false} FillsUp(c: C.State, us: seq<Update>, k: nat, got: seq<Arrival>)
    requires Framed(us) && k < |us| && c.inRecovery && c.snap == Number(us)[..k]
    requires |got| == |us| - k && forall i | 0 <= i < |got| :: got[i].msg == Number(us)[k + i]
    ensures C.OnMessages(c, true, Messages(got))
            == C.Rebuild(c.(snap := Number(us)), Strip(us), C.Drain(c.inc, us[|us| - 1].oid + 1))
    ensures EntriesPass(c, got)
    ensures us[0].oid == us[|us| - 1].oid ==> AgreementsPass(c, got)
    decreases |us| - k
  {
    FirstMessage(c, got);
    NextInQueue(c, us, k);
    assert EntryTest(c, got[0].msg);
    if k == |us| - 1 {
      TakesLast(c, us);
      assert got[1..] == [] && Messages(got[1..]) == [];
    } else {
      QueuesNext(c, us, k);
      FillsUp(c.(snap := Number(us)[..k + 1]), us, k + 1, got[1..]);
    }
  }

  // ---- with nothing lost --------------------------------------------------------------

  /** Updates `a + 1` to `m` of the stream, as they are published. */
  function Stretch(log: seq<Update>, a: nat, m: nat): (msgs: seq<Numbered>)
    requires a <= m <= |log|
    ensures |msgs| == m - a && forall i | 0 <= i < |msgs| :: msgs[i] == Numbered(a + 1 + i, log[a + i])
  {
    seq(m - a, i requires 0 <= i < m - a => Numbered(a + 1 + i, log[a + i]))
  }

  /** A consumer that expects update `a + 1` and hears all up to `m`, however they are cut into reads. */
  method Listen(consumer: C.MarketDataConsumer, log: seq<Update>, a: nat, m: nat, cuts: seq<nat>)
    requires a <= m <= |log| && !consumer.inRecoveryMode && consumer.nextUpdateSeqNum == a + 1
    modifies consumer
    ensures !consumer.inRecoveryMode && consumer.nextUpdateSeqNum == m + 1
    ensures consumer.incomingUpdates == old(consumer.incomingUpdates) + log[a..m]
  {
    var done, i := a, 0;
    while done < m
      invariant a <= done <= m && !consumer.inRecoveryMode && consumer.nextUpdateSeqNum == done + 1
      invariant consumer.incomingUpdates == old(consumer.incomingUpdates) + log[a..done]
    {
      var upTo := if i < |cuts| && done < cuts[i] <= m then cuts[i] else m;
      consumer.RecvCallback(false, Stretch(log, done, upTo));
      assert C.Payload(Stretch(log, done, upTo)) == log[done..upTo];
      assert log[a..done] + log[done..upTo] == log[a..upTo];
      done, i := upTo, i + 1;
    }
  }

  /** From start-up, a feed that loses nothing is delivered as it is. */
  method LosslessFeed(log: seq<Update>, cuts: seq<nat>) returns (consumer: C.MarketDataConsumer)
    ensures fresh(consumer) && !consumer.inRecoveryMode
    ensures consumer.incomingUpdates == log && consumer.nextUpdateSeqNum == |log| + 1
  {
    consumer := new C.MarketDataConsumer();
    Listen(consumer, log, 0, |log|, cuts);
    assert log[0..|log|] == log;
  }

  // ---- after a gap ------------------------------------------------------------------------

  lemma {:induction false} QueuesStretch(c: C.State, msgs: seq<Numbered>, k: nat)
    requires c.inRecovery && c.snap == [] && k <= |msgs| && c.inc == msgs[..k]
    requires forall i, j | 0 <= i < j < |msgs| :: msgs[i].seqNum < msgs[j].seqNum
    ensures C.OnMessages(c, false, msgs[k..]) == c.(inc := msgs)
    decreases |msgs| - k
  {
    if k < |msgs| {
      LastGoesLast(msgs[..k], msgs[k]);
      assert msgs[..k] + [msgs[k]] == msgs[..k + 1];
      var c' := c.(inc := msgs[..k + 1]);
      C.CheckSyncCases(C.Queued(c, false, msgs[k]));
      assert msgs[k..][1..] == msgs[k + 1..];
      QueuesStretch(c', msgs, k + 1);
    } else {
      assert msgs[..k] == msgs;
    }
  }

  /** A stretch that does not begin with the expected number is queued whole. */
  lemma StretchIsQueued(c: C.State, msgs: seq<Numbered>)
    requires !c.inRecovery && msgs != [] && msgs[0].seqNum != c.next
    requires forall i, j | 0 <= i < j < |msgs| :: msgs[i].seqNum < msgs[j].seqNum
    ensures C.Receive(c, false, msgs) == C.State(c.next, true, msgs, [], c.out)
  {
    var c' := C.State(c.next, true, [msgs[0]], [], c.out);
    C.CheckSyncCases(C.Queued(c.(inRecovery := true, inc := [], snap := []), false, msgs[0]));
    assert C.Put([], msgs[0]) == [msgs[0]] == msgs[..1];
    QueuesStretch(c', msgs, 1);
  }

  lemma {:induction false} DrainAll(log: seq<Update>, a: nat, s: nat, m: nat)
    requires a <= s <= m <= |log| && forall i | 0 <= i < |log| :: !C.IsMarker(log[i])
    ensures C.Drain(Stretch(log, a, m), s + 1) == C.Drained(log[s..m], m + 1)
    decreases m - a
  {
    if a < m {
      var msgs := Stretch(log, a, m);
      assert msgs[1..] == Stretch(log, a + 1, m);
      if a < s {
        DrainAll(log, a + 1, s, m);
      } else {
        DrainAll(log, a + 1, a + 1, m);
        assert [log[a]] + log[a + 1..m] == log[a..m];
      }
    }
  }

  lemma FramedBody(body: seq<Update>, s: nat, us: seq<Update>)
    requires us == [StartMsg(s)] + body + [EndMsg(s)] && forall i | 0 <= i < |body| :: !C.IsMarker(body[i])
    ensures Framed(us) && Strip(us) == body && us[|us| - 1].oid == s
  {
    StripRound(body, s, s);
    forall i | 0 < i < |us| - 1 ensures !C.IsMarker(us[i]) { assert us[i] == body[i - 1]; }
  }

  lemma RoundIsFramed(log: seq<Update>, s: nat)
    requires LegalLog(EmptyTable(), log) && s <= |log|
    ensures var us := RoundAt(log, s);
      Framed(us) && Strip(us) == Body(TableAt(log, s), ME_MAX_TICKERS) && us[|us| - 1].oid == s
  {
    TableAtOk(log, s);
    BodyKinds(TableAt(log, s), ME_MAX_TICKERS);
    FramedBody(Body(TableAt(log, s), ME_MAX_TICKERS), s, RoundAt(log, s));
  }

  /** A framed queue that arrives as a whole. */
  lemma {:induction false} FrameIsTaken(c: C.State, us: seq<Update>, d: C.Drained)
    requires Framed(us) && c.inRecovery && c.snap == [] && d == C.Drain(c.inc, us[|us| - 1].oid + 1)
    ensures C.Receive(c, true, Number(us)) == C.Rebuild(c.(snap := Number(us)), Strip(us), d)
  {
    var got := seq(|us|, i requires 0 <= i < |us| => Arrival(0, Number(us)[i]));
    FillsUp(c, us, 0, got);
    assert Messages(got) == Number(us);
  }

  lemma StretchDrains(log: seq<Update>, a: nat, s: nat, m: nat)
    requires LegalLog(EmptyTable(), log) && a <= s <= m <= |log|
    ensures C.Drain(Stretch(log, a, m), s + 1) == C.Drained(log[s..m], m + 1)
  {
    LogKinds(EmptyTable(), log);
    DrainAll(log, a, s, m);
  }

  /** A whole round on top of the queued stretch. */
  lemma RoundEndsRecovery(log: seq<Update>, c: C.State, a: nat, s: nat, m: nat, us: seq<Update>, body: seq<Update>)
    requires LegalLog(EmptyTable(), log) && a <= s <= m <= |log|
    requires us == RoundAt(log, s) && body == Body(TableAt(log, s), ME_MAX_TICKERS)
    requires c.inRecovery && c.snap == [] && c.inc == Stretch(log, a, m)
    ensures C.Receive(c, true, Number(us)) == C.State(m + 1, false, [], [], c.out + (body + log[s..m]))
  {
    RoundIsFramed(log, s);
    StretchDrains(log, a, s, m);
    FrameIsTaken(c, us, C.Drained(log[s..m], m + 1));
  }

  /**
   A consumer that misses updates hears `a + 1` to `m`, and then a whole round taken after some update `s` between:
   it is back at the newest update, with the round and the updates since on top of what it had.
   */
  method Recover(consumer: C.MarketDataConsumer, log: seq<Update>, a: nat, ghost s: nat, m: nat, round: seq<Numbered>)
    requires LegalLog(EmptyTable(), log) && a <= s <= m <= |log| && a < m && Sent(round, RoundAt(log, s))
    requires !consumer.inRecoveryMode && consumer.nextUpdateSeqNum != a + 1
    modifies consumer
    ensures !consumer.inRecoveryMode && consumer.nextUpdateSeqNum == m + 1
    ensures consumer.incomingUpdates
            == old(consumer.incomingUpdates) + (Body(TableAt(log, s), ME_MAX_TICKERS) + log[s..m])
  {
    StretchIsQueued(consumer.Abs(), Stretch(log, a, m));
    consumer.RecvCallback(false, Stretch(log, a, m));
    RoundEndsRecovery(log, consumer.Abs(), a, s, m, RoundAt(log, s), Body(TableAt(log, s), ME_MAX_TICKERS));
    assert round == Number(RoundAt(log, s));
    consumer.RecvCallback(true, round);
  }

  /**
   A consumer that starts late, at any update, hears one whole round, and nothing is lost from there on: at the end
   it expects the next update, and what it delivered makes the book of the whole stream.
   */
  method JoinLate(log: seq<Update>, a: nat, ghost s: nat, m: nat, round: seq<Numbered>, cuts: seq<nat>)
      returns (consumer: C.MarketDataConsumer)
    requires LegalLog(EmptyTable(), log) && 0 < a <= s <= m <= |log| && a < m && Sent(round, RoundAt(log, s))
    ensures fresh(consumer) && !consumer.inRecoveryMode && consumer.nextUpdateSeqNum == |log| + 1
    ensures Replay(NoOrders(), consumer.incomingUpdates) == Replay(NoOrders(), log)
  {
    consumer := new C.MarketDataConsumer();
    Recover(consumer, log, a, s, m, round);
    Listen(consumer, log, m, |log|, cuts);
    ghost var body := Body(TableAt(log, s), ME_MAX_TICKERS);
    assert consumer.incomingUpdates == [] + (body + log[s..|log|]) by {
      assert log[s..m] + log[m..|log|] == log[s..|log|];
      assert [] + (body + log[s..m]) + log[m..|log|] == [] + (body + (log[s..m] + log[m..|log|]));
    }
    SnapshotPlusIncrementals(log, [], s, |log|);
    assert log[..|log|] == log;
  }
}
