/**
 The market-data consumer (trading_system/market_data/market_data_consumer.h and
 .cpp): it follows the incremental stream and, after a gap, rebuilds from a
 snapshot round plus queued incrementals. Repairs, each to what the code states
 elsewhere: snapshot messages are counted against the snapshot counter and START
 counts (:30, :42); joining the snapshot feed clears the queues when recovery begins
 (:160 tests the opposite of :164); after recovery the next number follows the last
 message taken (:108-111); the first expected number is the publisher's first, 1
 (market_data_consumer.h:21, market_data_publisher.h:30).
 */
module Consumer {
  import opened Types
  import opened Snapshot

  // ---- a std::map from sequence number to update, in key order ------------------

  type Queue = seq<Numbered>

  ghost predicate Sorted(q: Queue) {
    forall i, j | 0 <= i < j < |q| :: q[i].seqNum < q[j].seqNum
  }

  function Has(q: Queue, k: nat): (b: bool)
    ensures b <==> exists i :: 0 <= i < |q| && q[i].seqNum == k
  {
    q != [] && (q[0].seqNum == k || Has(q[1..], k))
  }

  /** `q[m.seqNum] = m.update`. */
  function Put(q: Queue, m: Numbered): Queue {
    if q == [] || m.seqNum < q[0].seqNum then [m] + q
    else if m.seqNum == q[0].seqNum then [m] + q[1..]
    else [q[0]] + Put(q[1..], m)
  }

  lemma {:induction false} PutAt(q: Queue, m: Numbered) returns (k: nat)
    ensures k <= |q| && forall j | 0 <= j < k :: q[j].seqNum < m.seqNum
    ensures k < |q| ==> m.seqNum <= q[k].seqNum
    ensures Put(q, m) == if k < |q| && q[k].seqNum == m.seqNum then q[k := m] else q[..k] + [m] + q[k..]
  {
    if q == [] || m.seqNum <= q[0].seqNum {
      k := 0;
    } else {
      k := PutAt(q[1..], m);
      k := k + 1;
      assert q[1..][..k - 1] == q[1..k] && q[1..][k - 1..] == q[k..];
    }
  }

  lemma ReplaceSorted(q: Queue, m: Numbered, k: nat)
    requires Sorted(q) && k < |q| && q[k].seqNum == m.seqNum
    ensures var q' := q[k := m]; Sorted(q') && forall i | 0 <= i < |q'| :: q'[i] == m || q'[i] in q
  {}

  lemma InsertSorted(q: Queue, m: Numbered, k: nat)
    requires Sorted(q) && k <= |q| && (forall j | 0 <= j < k :: q[j].seqNum < m.seqNum)
        && (k < |q| ==> m.seqNum < q[k].seqNum)
    ensures var q' := q[..k] + [m] + q[k..]; Sorted(q') && forall i | 0 <= i < |q'| :: q'[i] == m || q'[i] in q
  {
    var q' := q[..k] + [m] + q[k..];
    forall i, j | 0 <= i < j < |q'| ensures q'[i].seqNum < q'[j].seqNum {
      if i != k && j != k { assert q[if i < k then i else i - 1].seqNum < q[if j < k then j else j - 1].seqNum; }
    }
    forall i | 0 <= i < |q'| ensures q'[i] == m || q'[i] in q {
      if i != k { assert q'[i] == q[if i < k then i else i - 1]; }
    }
  }

  lemma PutSorted(q: Queue, m: Numbered)
    requires Sorted(q)
    ensures Sorted(Put(q, m))
    ensures forall i | 0 <= i < |Put(q, m)| :: Put(q, m)[i] == m || Put(q, m)[i] in q
  {
    var k := PutAt(q, m);
    if k < |q| && q[k].seqNum == m.seqNum { ReplaceSorted(q, m, k); } else { InsertSorted(q, m, k); }
  }

  // ---- the consumer's state and steps -------------------------------------------

  datatype State = State(next: nat, inRecovery: bool, inc: Queue, snap: Queue, out: seq<Update>)

  const Fresh := State(1, false, [], [], [])

  predicate IsMarker(u: Update) { u.kind.SnapshotStart? || u.kind.SnapshotEnd? }

  /** The queued snapshot without its markers; `None` at the first number that is not `wanted`. */
  function Collect(q: Queue, wanted: nat): Option<seq<Update>> {
    if q == [] then Some([])
    else if q[0].seqNum != wanted then None
    else
      match Collect(q[1..], wanted + 1)
      case None => None
      case Some(us) => Some((if IsMarker(q[0].update) then [] else [q[0].update]) + us)
  }

  /** What the queued snapshot messages amount to. */
  datatype Gathered = NotYet | Gap | Whole(body: seq<Update>, last: nat)

  /** market_data_consumer.cpp:6-59. */
  function Gather(q: Queue): Gathered {
    if q == [] || !q[0].update.kind.SnapshotStart? then NotYet
    else
      match Collect(q, 0)
      case None => Gap
      case Some(body) =>
        var last := q[|q| - 1].update;
        if last.kind.SnapshotEnd? then Whole(body, last.oid) else NotYet
  }

  datatype Drained = Broken | Drained(us: seq<Update>, next: nat)

  /**
   The queued incrementals from `next` on, and the number after them; `Broken` at a gap
   (market_data_consumer.cpp:61-90).
   */
  function Drain(q: Queue, next: nat): Drained {
    if q == [] then Drained([], next)
    else if q[0].seqNum < next then Drain(q[1..], next)
    else if q[0].seqNum != next then Broken
    else if IsMarker(q[0].update) then Drain(q[1..], next)
    else
      match Drain(q[1..], next + 1)
      case Broken => Broken
      case Drained(us, n) => Drained([q[0].update] + us, n)
  }

  /** market_data_consumer.cpp:92-113. */
  function Rebuild(c: State, body: seq<Update>, d: Drained): State {
    match d
    case Broken => c.(snap := [])
    case Drained(us, n) => State(n, false, [], [], c.out + (body + us))
  }

  /** market_data_consumer.cpp:5-114. */
  function CheckSync(c: State): State {
    match Gather(c.snap)
    case NotYet => c
    case Gap => c.(snap := [])
    case Whole(body, last) => Rebuild(c, body, Drain(c.inc, last + 1))
  }

  lemma CheckSyncCases(c: State)
    ensures var g := Gather(c.snap);
      && (g.NotYet? ==> CheckSync(c) == c)
      && (g.Gap? ==> CheckSync(c) == c.(snap := []))
      && (g.Whole? ==> CheckSync(c) == Rebuild(c, g.body, Drain(c.inc, g.last + 1)))
  {}

  function Queued(c: State, isSnapshot: bool, msg: Numbered): State {
    if isSnapshot then c.(snap := Put(if Has(c.snap, msg.seqNum) then [] else c.snap, msg))
    else c.(inc := Put(c.inc, msg))
  }

  /** market_data_consumer.cpp:116-128. */
  function QueueMessage(c: State, isSnapshot: bool, msg: Numbered): State {
    CheckSync(Queued(c, isSnapshot, msg))
  }

  /** One message of market_data_consumer.cpp:151-179. */
  function OnMessage(c: State, isSnapshot: bool, msg: Numbered): State {
    if c.inRecovery then QueueMessage(c, isSnapshot, msg)
    else if msg.seqNum != c.next then QueueMessage(c.(inRecovery := true, inc := [], snap := []), isSnapshot, msg)
    else if isSnapshot then c
    else c.(next := c.next + 1, out := c.out + [msg.update])
  }

  function OnMessages(c: State, isSnapshot: bool, msgs: seq<Numbered>): State
    decreases |msgs|
  {
    if msgs == [] then c else OnMessages(OnMessage(c, isSnapshot, msgs[0]), isSnapshot, msgs[1..])
  }

  /** market_data_consumer.cpp:138-185: a snapshot read outside recovery is dropped as a whole. */
  function Receive(c: State, isSnapshot: bool, msgs: seq<Numbered>): State {
    if isSnapshot && !c.inRecovery then c else OnMessages(c, isSnapshot, msgs)
  }

  // ---- what single messages do ------------------------------------------------------

  /** Numbered `from`, `from + 1`, ... */
  ghost predicate Consecutive(msgs: seq<Numbered>, from: nat) {
    forall i | 0 <= i < |msgs| :: msgs[i].seqNum == from + i
  }

  function Payload(msgs: seq<Numbered>): (us: seq<Update>)
    ensures |us| == |msgs| && forall i | 0 <= i < |us| :: us[i] == msgs[i].update
  {
    seq(|msgs|, i requires 0 <= i < |msgs| => msgs[i].update)
  }

  /** Out of recovery the expected incrementals go straight through. */
  lemma {:induction false} GoStraightThrough(c: State, msgs: seq<Numbered>)
    requires !c.inRecovery && Consecutive(msgs, c.next)
    ensures Receive(c, false, msgs) == c.(next := c.next + |msgs|, out := c.out + Payload(msgs))
    decreases |msgs|
  {
    if msgs == [] {
      assert c.out + [] == c.out;
    } else {
      var c' := c.(next := c.next + 1, out := c.out + [msgs[0].update]);
      GoStraightThrough(c', msgs[1..]);
      assert c.out + [msgs[0].update] + Payload(msgs[1..]) == c.out + Payload(msgs);
    }
  }

  /** Any other incremental begins recovery, and is the first message queued. */
  lemma AnotherNumberBeginsRecovery(c: State, msg: Numbered)
    requires !c.inRecovery && msg.seqNum != c.next
    ensures Receive(c, false, [msg]) == State(c.next, true, [msg], [], c.out)
  {
    var c' := State(c.next, true, [msg], [], c.out);
    assert Put([], msg) == [msg];
    assert OnMessage(c, false, msg) == CheckSync(c') == c';
    assert OnMessages(c', false, [msg][1..]) == c';
  }

  /** What a read means to a consumer that is not in recovery. */
  lemma ReadOutsideRecovery(c: State, isSnapshot: bool, msgs: seq<Numbered>)
    requires !c.inRecovery
    ensures isSnapshot ==> Receive(c, isSnapshot, msgs) == c
    ensures !isSnapshot && Consecutive(msgs, c.next) ==>
              Receive(c, isSnapshot, msgs) == c.(next := c.next + |msgs|, out := c.out + Payload(msgs))
    ensures !isSnapshot && |msgs| == 1 && msgs[0].seqNum != c.next ==>
              Receive(c, isSnapshot, msgs) == State(c.next, true, msgs, [], c.out)
  {
    if !isSnapshot && Consecutive(msgs, c.next) { GoStraightThrough(c, msgs); }
    if !isSnapshot && |msgs| == 1 && msgs[0].seqNum != c.next {
      assert msgs == [msgs[0]];
      AnotherNumberBeginsRecovery(c, msgs[0]);
    }
  }

  // ---- the class ------------------------------------------------------------------

  /** The first loop has read `next` messages and kept `events`. */
  ghost predicate Collecting(q: Queue, next: nat, events: seq<Update>)
    requires next <= |q|
  {
    var whole, rest := Collect(q, 0), Collect(q[next..], next);
    whole.Some? == rest.Some? && (whole.Some? ==> whole.value == events + rest.value)
  }

  /** The second loop has read `i` messages, kept `events` and expects `next`. */
  ghost predicate Draining(q: Queue, first: nat, i: nat, next: nat, events: seq<Update>)
    requires i <= |q|
  {
    var whole, rest := Drain(q, first), Drain(q[i..], next);
    whole.Drained? == rest.Drained? && (whole.Drained? ==> whole.us == events + rest.us && whole.next == rest.next)
  }

  class MarketDataConsumer {
    var nextUpdateSeqNum: nat
    var inRecoveryMode: bool
    var incrementalQueued: Queue
    var snapshotQueued: Queue
    /** What has been handed to the trading engine's queue. */
    var incomingUpdates: seq<Update>

    ghost function Abs(): State
      reads this
    {
      State(nextUpdateSeqNum, inRecoveryMode, incrementalQueued, snapshotQueued, incomingUpdates)
    }

    constructor ()
      ensures Abs() == Fresh
    {
      nextUpdateSeqNum, inRecoveryMode := 1, false;
      incrementalQueued, snapshotQueued, incomingUpdates := [], [], [];
    }

    method GatherSnapshot() returns (g: Gathered)
      ensures g == Gather(snapshotQueued)
    {
      var q := snapshotQueued;
      if q == [] || !q[0].update.kind.SnapshotStart? { return NotYet; }
      var next, events := 0, [];
      assert q[0..] == q;
      while next < |q|
        invariant next <= |q|
        invariant Collecting(q, next, events)
      {
        assert q[next..][0] == q[next] && q[next..][1..] == q[next + 1..];
        if q[next].seqNum != next { return Gap; }
        if !IsMarker(q[next].update) { events := events + [q[next].update]; }
        next := next + 1;
      }
      var last := q[|q| - 1].update;
      g := if last.kind.SnapshotEnd? then Whole(events, last.oid) else NotYet;
    }

    method DrainIncrementals(first: nat) returns (d: Drained)
      ensures d == Drain(incrementalQueued, first)
    {
      var q := incrementalQueued;
      var next, events := first, [];
      var i := 0;
      assert q[0..] == q;
      while i < |q|
        invariant i <= |q|
        invariant Draining(q, first, i, next, events)
      {
        var msg := q[i];
        assert q[i..][0] == msg && q[i..][1..] == q[i + 1..];
        i := i + 1;
        if msg.seqNum < next { continue; }
        if msg.seqNum != next { return Broken; }
        if !IsMarker(msg.update) {
          events := events + [msg.update];
          next := next + 1;
        }
      }
      d := Drained(events, next);
    }

    method CheckSnapshotSync()
      modifies this
      ensures Abs() == CheckSync(old(Abs()))
    {
      var g := GatherSnapshot();
      if g.NotYet? { return; }
      if g.Gap? {
        snapshotQueued := [];
        return;
      }
      var d := DrainIncrementals(g.last + 1);
      snapshotQueued := [];
      if d.Broken? { return; }
      incomingUpdates := incomingUpdates + (g.body + d.us);
      incrementalQueued := [];
      inRecoveryMode, nextUpdateSeqNum := false, d.next;
    }

    method EnqueueMessage(isSnapshot: bool, msg: Numbered)
      modifies this
      ensures Abs() == QueueMessage(old(Abs()), isSnapshot, msg)
    {
      if isSnapshot {
        if Has(snapshotQueued, msg.seqNum) { snapshotQueued := []; }
        snapshotQueued := Put(snapshotQueued, msg);
      } else {
        incrementalQueued := Put(incrementalQueued, msg);
      }
      CheckSnapshotSync();
    }

    /** One message (market_data_consumer.cpp:156-178). */
    method TakeMessage(isSnapshot: bool, msg: Numbered)
      modifies this
      ensures Abs() == OnMessage(old(Abs()), isSnapshot, msg)
      ensures old(inRecoveryMode) && inRecoveryMode ==>
                && nextUpdateSeqNum == old(nextUpdateSeqNum) && incomingUpdates == old(incomingUpdates)
                && var queued := old(incrementalQueued);
                   incrementalQueued == if isSnapshot then queued else Put(queued, msg)
      ensures old(inRecoveryMode) && !inRecoveryMode ==> incrementalQueued == [] && snapshotQueued == []
    {
      var already := inRecoveryMode;
      inRecoveryMode := inRecoveryMode || msg.seqNum != nextUpdateSeqNum;
      if inRecoveryMode {
        if !already { incrementalQueued, snapshotQueued := [], []; }
        EnqueueMessage(isSnapshot, msg);
      } else if !isSnapshot {
        nextUpdateSeqNum := nextUpdateSeqNum + 1;
        incomingUpdates := incomingUpdates + [msg.update];
      }
    }

    method RecvCallback(isSnapshot: bool, msgs: seq<Numbered>)
      modifies this
      ensures Abs() == Receive(old(Abs()), isSnapshot, msgs)
      ensures !old(inRecoveryMode) && !isSnapshot && Consecutive(msgs, old(nextUpdateSeqNum)) ==>
                && !inRecoveryMode && nextUpdateSeqNum == old(nextUpdateSeqNum) + |msgs|
                && incomingUpdates == old(incomingUpdates) + Payload(msgs)
      ensures !old(inRecoveryMode) && !isSnapshot && |msgs| == 1 && msgs[0].seqNum != old(nextUpdateSeqNum) ==>
                && inRecoveryMode && incrementalQueued == msgs && snapshotQueued == []
                && nextUpdateSeqNum == old(nextUpdateSeqNum) && incomingUpdates == old(incomingUpdates)
      ensures !old(inRecoveryMode) && isSnapshot ==>
                && !inRecoveryMode && nextUpdateSeqNum == old(nextUpdateSeqNum)
                && incomingUpdates == old(incomingUpdates)
    {
      if !inRecoveryMode { ReadOutsideRecovery(Abs(), isSnapshot, msgs); }
      if isSnapshot && !inRecoveryMode { return; }
      var i := 0;
      while i < |msgs|
        invariant i <= |msgs|
        invariant OnMessages(Abs(), isSnapshot, msgs[i..]) == OnMessages(old(Abs()), isSnapshot, msgs)
      {
        assert msgs[i..][0] == msgs[i] && msgs[i..][1..] == msgs[i + 1..];
        TakeMessage(isSnapshot, msgs[i]);
        i := i + 1;
      }
      assert msgs[i..] == [];
    }
  }
}
