/**
 The market-data consumer exactly as its text stands
 (trading_system/market_data/market_data_consumer.cpp).
 */
module ConsumerAsWritten {
  import opened Types
  import opened Snapshot
  import C = Consumer
  import R = Recovery

  /**
   The first loop as written (market_data_consumer.cpp:25-44): every number is compared with `next_update_seq_num_`.
   */
  predicate CompleteAsWritten(q: seq<Numbered>, next: nat) {
    forall i | 0 <= i < |q| :: q[i].seqNum == next
  }

  function CheckSyncAsWritten(c: C.State): C.State {
    if c.snap == [] || !c.snap[0].update.kind.SnapshotStart? then c
    else if !CompleteAsWritten(c.snap, c.next) then c.(snap := [])
    else
      var last := c.snap[|c.snap| - 1].update;
      if !last.kind.SnapshotEnd? then c
      else
        match C.Drain(c.inc, last.oid + 1)
        case Broken => c.(snap := [])
        case Drained(us, n) => C.State(c.next, false, [], [], c.out
            + (R.Strip(seq(|c.snap|, i requires 0 <= i < |c.snap| => c.snap[i].update)) + us))
  }

  /** One message as written: the queues are cleared when recovery was already on (market_data_consumer.cpp:156-178). */
  function OnMessageAsWritten(c: C.State, isSnapshot: bool, msg: Numbered): C.State {
    if c.inRecovery then CheckSyncAsWritten(C.Queued(c.(inc := [], snap := []), isSnapshot, msg))
    else if msg.seqNum != c.next then CheckSyncAsWritten(C.Queued(c.(inRecovery := true), isSnapshot, msg))
    else if isSnapshot then c
    else c.(next := c.next + 1, out := c.out + [msg.update])
  }

  datatype Arrival = Arrival(isSnapshot: bool, msg: Numbered)

  /** Reads in any order; a snapshot message outside recovery is dropped, and incrementals are numbered from 1. */
  function RunAsWritten(c: C.State, got: seq<Arrival>): C.State
    decreases |got|
  {
    if got == [] then c
    else
      var r := got[0];
      RunAsWritten(if r.isSnapshot && !c.inRecovery then c else OnMessageAsWritten(c, r.isSnapshot, r.msg), got[1..])
  }

  ghost predicate Stuck(c: C.State) {
    && c.next == 0 && c.out == [] && (!c.inRecovery ==> c.snap == [])
  }

  lemma StuckStep(c: C.State, isSnapshot: bool, msg: Numbered)
    requires Stuck(c) && (isSnapshot ==> c.inRecovery) && (!isSnapshot ==> msg.seqNum >= 1)
    ensures Stuck(OnMessageAsWritten(c, isSnapshot, msg))
  {
    var c1 := if c.inRecovery then c.(inc := [], snap := []) else c.(inRecovery := true);
    var c2 := C.Queued(c1, isSnapshot, msg);
    if isSnapshot {
      assert c2.snap == [msg];
    } else {
      assert c2.snap == [];
    }
    assert CheckSyncAsWritten(c2).inRecovery;
  }

  /** As written, starting from number 0, the consumer delivers nothing in any run and never leaves recovery. */
  lemma {:induction false} NothingDeliveredAsWritten(c: C.State, got: seq<Arrival>)
    requires Stuck(c) && forall i | 0 <= i < |got| && !got[i].isSnapshot :: got[i].msg.seqNum >= 1
    ensures Stuck(RunAsWritten(c, got)) && RunAsWritten(c, got).out == []
    ensures c.inRecovery ==> RunAsWritten(c, got).inRecovery
    decreases |got|
  {
    if got != [] {
      var r := got[0];
      if !(r.isSnapshot && !c.inRecovery) { StuckStep(c, r.isSnapshot, r.msg); }
      var c' := if r.isSnapshot && !c.inRecovery then c else OnMessageAsWritten(c, r.isSnapshot, r.msg);
      NothingDeliveredAsWritten(c', got[1..]);
    }
  }
}
