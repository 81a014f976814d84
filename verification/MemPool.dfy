/**
 The next-fit object pool (common/mem_pool.h:11-89): a fixed array of blocks, a
 free flag each, and the index of the block to hand out next. Repair: the scan
 wraps to 0 at the end of the array (:67 compares where it should assign).
 */
module MemPool {
  import opened Types

  // ---- the scan, as a function ------------------------------------------------------------

  /** The block `k` places after `from`, around the ring. */
  function Around(from: nat, k: nat, n: nat): (i: nat)
    requires from < n && k <= n
    ensures i < n
  {
    if from + k < n then from + k else from + k - n
  }

  /** `i` is the first free block at or after `from`, going around. */
  ghost predicate FirstFree(free: seq<bool>, from: nat, i: nat) {
    && from < |free|
    && exists k: nat :: k < |free| && i == Around(from, k, |free|) && free[i]
                        && forall j: nat | j < k :: !free[Around(from, j, |free|)]
  }

  /** Next-fit leaves no choice. */
  lemma FirstFreeUnique(free: seq<bool>, from: nat, i: nat, i': nat)
    requires FirstFree(free, from, i) && FirstFree(free, from, i')
    ensures i == i'
  {
    var k: nat :| k < |free| && i == Around(from, k, |free|) && free[i] && forall j: nat | j < k ::
        !free[Around(from, j, |free|)];
    var k': nat :| k' < |free| && i' == Around(from, k', |free|) && free[i'] && forall j: nat | j < k' ::
        !free[Around(from, j, |free|)];
    assert !(k < k') && !(k' < k);
  }

  lemma AroundCovers(from: nat, i: nat, n: nat) returns (k: nat)
    requires from < n && i < n
    ensures k < n && Around(from, k, n) == i
  {
    k := if i >= from then i - from else i + n - from;
  }

  /** A block other than `i` is free. */
  ghost predicate Another(free: seq<bool>, i: nat) {
    exists j :: 0 <= j < |free| && j != i && free[j]
  }

  class MemPool<T(0)> {
    const objects: array<T>
    const isFree: array<bool>
    var nextFreeIndex: nat

    ghost predicate Shape()
      reads this
    {
      isFree.Length == objects.Length > 0 && nextFreeIndex < isFree.Length && objects as object != isFree
    }

    /** The next block to hand out is free. */
    ghost predicate Valid()
      reads this, isFree
    {
      Shape() && isFree[nextFreeIndex]
    }

    constructor (numElems: nat, blank: T)
      requires numElems > 0
      ensures Valid() && isFree[..] == seq(numElems, _ => true) && nextFreeIndex == 0
      ensures fresh(isFree) && fresh(objects)
    {
      objects := new T[numElems](_ => blank);
      isFree := new bool[numElems](_ => true);
      nextFreeIndex := 0;
    }

    /** mem_pool.h:58-76; `ok` is false where the ASSERT reports that the pool is out of space. */
    method UpdateNextFreeIndex() returns (ok: bool)
      requires Shape()
      modifies `nextFreeIndex
      ensures Shape()
      ensures ok <==> exists i :: 0 <= i < isFree.Length && isFree[i]
      ensures ok ==> FirstFree(isFree[..], old(nextFreeIndex), nextFreeIndex)
    {
      var init, n := nextFreeIndex, isFree.Length;
      ghost var k := 0;
      while !isFree[nextFreeIndex]
        invariant k < n && nextFreeIndex == Around(init, k, n)
        invariant forall j: nat | j < k :: !isFree[Around(init, j, n)]
        decreases n - k
      {
        nextFreeIndex := nextFreeIndex + 1;
        k := k + 1;
        if nextFreeIndex == n { nextFreeIndex := 0; }
        if init == nextFreeIndex {
          forall i | 0 <= i < n ensures !isFree[i] { var j := AroundCovers(init, i, n); }
          return false;
        }
      }
      assert isFree[..][nextFreeIndex];
      assert FirstFree(isFree[..], init, nextFreeIndex) by {
        assert forall j: nat | j < k :: isFree[..][Around(init, j, n)] == isFree[Around(init, j, n)];
      }
      ok := true;
    }

    /**
     mem_pool.h:20-36. The block was free and is the only one that changes hands; the call ends the process exactly
     when it would take the last free block.
     */
    method Allocate(value: T) returns (ok: bool, block: nat)
      requires Valid()
      modifies this, objects, isFree
      ensures block == old(nextFreeIndex) < isFree.Length && old(isFree[block])
      ensures isFree[..] == old(isFree[..])[block := false] && objects[..] == old(objects[..])[block := value]
      ensures ok <==> Another(old(isFree[..]), block)
      ensures ok ==> Valid() && FirstFree(isFree[..], block, nextFreeIndex)
    {
      block := nextFreeIndex;
      ghost var was := isFree[..];
      objects[block] := value;
      isFree[block] := false;
      ok := UpdateNextFreeIndex();
      assert forall i | 0 <= i < isFree.Length && i != block :: isFree[i] == was[i];
    }

    /** mem_pool.h:38-48; `ok` is false where an ASSERT refuses a foreign or an already free block. */
    method Deallocate(block: int) returns (ok: bool)
      requires Valid()
      modifies isFree
      ensures Valid()
      ensures ok <==> 0 <= block < isFree.Length && !old(isFree[..])[block]
      ensures isFree[..] == if ok then old(isFree[..])[block := true] else old(isFree[..])
    {
      ok := 0 <= block < isFree.Length && !isFree[block];
      if ok { isFree[block] := true; }
    }
  }

  // ---- owners ------------------------------------------------------------------------------

  /** The pool's flags and index, and which block each live owner holds. */
  datatype Pool = Pool(free: seq<bool>, next: nat, held: map<nat, nat>)

  datatype Op = Take(owner: nat) | Give(owner: nat)

  function Start(n: nat): Pool { Pool(seq(n, _ => true), 0, map[]) }

  /** One call that the pool survives, as the contracts of `Allocate` and `Deallocate` say. */
  ghost predicate Step(p: Pool, op: Op, p': Pool) {
    && p.next < |p.free|
    && match op
       case Take(owner) =>
         && owner !in p.held && p'.free == p.free[p.next := false] && p'.held == p.held[owner := p.next]
         && FirstFree(p'.free, p.next, p'.next)
       case Give(owner) =>
         && owner in p.held && p.held[owner] < |p.free| && p'.free == p.free[p.held[owner] := true]
         && p'.held == p.held - {owner} && p'.next == p.next
  }

  ghost predicate Owned(held: map<nat, nat>, i: nat) { exists o :: o in held && held[o] == i }

  ghost predicate Injective(held: map<nat, nat>) {
    forall o, o' | o in held && o' in held && o != o' :: held[o] != held[o']
  }

  /** The blocks in use are exactly those held, each by one owner, and the next one is free. */
  ghost predicate PoolOk(p: Pool) {
    && p.next < |p.free| && p.free[p.next]
    && Injective(p.held)
    && (forall o | o in p.held :: p.held[o] in InUse(p.free))
    && (forall i | i in InUse(p.free) :: Owned(p.held, i))
  }

  /** The blocks in use. */
  ghost function InUse(free: seq<bool>): set<nat> {
    set i: nat | i < |free| && !free[i]
  }

  lemma TakeKeeps(p: Pool, owner: nat, p': Pool)
    requires PoolOk(p) && Step(p, Take(owner), p')
    ensures PoolOk(p') && |p'.free| == |p.free| && !Owned(p.held, p.next)
  {
    assert InUse(p'.free) == InUse(p.free) + {p.next};
    forall i | i in InUse(p'.free) ensures Owned(p'.held, i) {
      if i == p.next {
        assert p'.held[owner] == i;
      } else {
        assert Owned(p.held, i);
        var o :| o in p.held && p.held[o] == i;
        assert p'.held[o] == i;
      }
    }
  }

  lemma GiveKeeps(p: Pool, owner: nat, p': Pool)
    requires PoolOk(p) && Step(p, Give(owner), p')
    ensures PoolOk(p') && |p'.free| == |p.free|
  {
    assert InUse(p'.free) == InUse(p.free) - {p.held[owner]};
    forall i | i in InUse(p'.free) ensures Owned(p'.held, i) {
      assert Owned(p.held, i);
      var o :| o in p.held && p.held[o] == i;
      assert p'.held[o] == i;
    }
  }

  lemma {:induction false} OwnersAreBlocks(held: map<nat, nat>, blocks: set<nat>)
    requires Injective(held) && (forall o | o in held :: held[o] in blocks)
    requires forall i | i in blocks :: Owned(held, i)
    ensures |held| == |blocks|
    decreases |held|
  {
    if held == map[] {
      assert forall i | i in blocks :: Owned(held, i);
      assert blocks == {};
    } else {
      var o :| o in held;
      var rest, less := held - {o}, blocks - {held[o]};
      forall i | i in less ensures Owned(rest, i) {
        assert Owned(held, i);
        var o' :| o' in held && held[o'] == i;
        assert rest[o'] == i;
      }
      OwnersAreBlocks(rest, less);
      assert held.Keys == rest.Keys + {o};
      assert |held| == |rest| + 1;
    }
  }

  /** All blocks of a pool of `n`. */
  function Blocks(n: nat): (all: set<nat>)
    ensures |all| == n && forall i: nat :: i in all <==> i < n
  {
    if n == 0 then {} else Blocks(n - 1) + {n - 1}
  }

  lemma Within(a: set<nat>, b: set<nat>)
    requires a <= b
    ensures |a| <= |b| && (|a| == |b| ==> a == b)
  {
    assert b == a + (b - a);
  }

  /**
   A pool of `n` serves at most `n - 1` owners at once, and can serve one more exactly while fewer than `n - 1` are
   live.
   */
  lemma Capacity(p: Pool)
    requires PoolOk(p)
    ensures |p.held| <= |p.free| - 1
    ensures Another(p.free, p.next) <==> |p.held| < |p.free| - 1
  {
    var used, all := InUse(p.free), Blocks(|p.free|);
    OwnersAreBlocks(p.held, used);
    var but := all - {p.next};
    assert |but| == |p.free| - 1;
    Within(used, but);
    if Another(p.free, p.next) {
      var i :| 0 <= i < |p.free| && i != p.next && p.free[i];
      assert i in but && i !in used;
    } else {
      forall i | i in but ensures i in used { assert !(p.free[i] && i != p.next); }
      assert used == but;
    }
  }

  ghost predicate CanRun(ps: seq<Pool>, ops: seq<Op>, n: nat) {
    && |ps| == |ops| + 1 && ps[0] == Start(n)
    && forall i | 0 <= i < |ops| :: Step(ps[i], ops[i], ps[i + 1])
  }

  /**
   Over every run: no block ever has two live owners, a taken block was free and unowned, and the number of live
   owners stays below the size of the pool.
   */
  lemma {:induction false} AllocatorSafety(ps: seq<Pool>, ops: seq<Op>, n: nat, k: nat)
    requires n > 0 && CanRun(ps, ops, n) && k < |ps|
    ensures PoolOk(ps[k]) && |ps[k].free| == n && |ps[k].held| <= n - 1
    ensures k > 0 && ops[k - 1].Take? ==>
      var block := ps[k].held[ops[k - 1].owner];
      block < n && ps[k - 1].free[block] && !Owned(ps[k - 1].held, block)
  {
    if k > 0 {
      AllocatorSafety(ps, ops, n, k - 1);
      assert Step(ps[k - 1], ops[k - 1], ps[k - 1 + 1]);
      match ops[k - 1]
      case Take(owner) => TakeKeeps(ps[k - 1], owner, ps[k]);
      case Give(owner) => GiveKeeps(ps[k - 1], owner, ps[k]);
    }
    Capacity(ps[k]);
  }

  // ---- as written -----------------------------------------------------------------------------

  /** The scan as written never wraps; `None` is an access past the end of the array. */
  function ScanAsWritten(free: seq<bool>, from: nat): Option<nat>
    decreases |free| - from
  {
    if from >= |free| then None
    else if free[from] then Some(from)
    else ScanAsWritten(free, from + 1)
  }

  lemma {:induction false} ScanFinds(free: seq<bool>, from: nat)
    ensures ScanAsWritten(free, from).Some? <==> exists i :: from <= i < |free| && free[i]
    ensures var r := ScanAsWritten(free, from);
      r.Some? ==> from <= r.value < |free| && free[r.value] && forall i | from <= i < r.value :: !free[i]
    decreases |free| - from
  {
    if from < |free| && !free[from] { ScanFinds(free, from + 1); }
  }

  /** As written the scan agrees with next-fit exactly when some block at or after its start is free. */
  lemma ScanAsWrittenRightIff(free: seq<bool>, from: nat)
    requires from < |free|
    ensures (ScanAsWritten(free, from).Some? && FirstFree(free, from, ScanAsWritten(free, from).value))
            <==> exists i :: from <= i < |free| && free[i]
  {
    ScanFinds(free, from);
    var r := ScanAsWritten(free, from);
    if r.Some? {
      var k := r.value - from;
      assert r.value == Around(from, k, |free|);
      assert forall j: nat | j < k :: Around(from, j, |free|) == from + j;
    }
  }

  /** One call of the pool as written. */
  ghost predicate StepAsWritten(p: Pool, op: Op, p': Pool) {
    && p.next < |p.free| && |p'.free| == |p.free|
    && if op.Take? then p'.free == p.free[p.next := false] && ScanAsWritten(p'.free, p.next) == Some(p'.next)
       else p'.next == p.next
  }

  function Takes(ops: seq<Op>): nat {
    if ops == [] then 0 else Takes(ops[..|ops| - 1]) + if ops[|ops| - 1].Take? then 1 else 0
  }

  /**
   As written a pool of `n` makes at most `n - 1` allocations in its whole life, however many blocks are given back.
   */
  lemma {:induction false} AsWrittenWearsOut(ps: seq<Pool>, ops: seq<Op>, n: nat)
    requires n > 0 && |ps| == |ops| + 1 && ps[0] == Start(n)
    requires forall i | 0 <= i < |ops| :: StepAsWritten(ps[i], ops[i], ps[i + 1])
    ensures Takes(ops) <= ps[|ops|].next < n == |ps[|ops|].free|
    decreases |ops|
  {
    if ops != [] {
      var k := |ops| - 1;
      AsWrittenWearsOut(ps[..k + 1], ops[..k], n);
      assert StepAsWritten(ps[k], ops[k], ps[k + 1]);
      if ops[k].Take? { ScanFinds(ps[k + 1].free, ps[k].next); }
    }
  }
}
