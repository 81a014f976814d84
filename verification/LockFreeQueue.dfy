/**
 The single-producer single-consumer ring (common/lf_queue.h:11-59): first the
 class as one thread sees it, then the ring under every interleaving of its two
 threads. There, producer and consumer are program counters over the shared
 fields and each step is one access to a shared field, so a run is any
 interleaving. Atomics are sequentially consistent, which is the default order
 the text uses.
 */
module LockFreeQueue {
  import opened Types

  // ---- indices are counters modulo the ring ---------------------------------------------

  lemma Multiples(n: nat, d: int)
    requires n > 0
    ensures d >= 1 ==> n * d >= n
    ensures d >= 2 ==> n * d >= 2 * n
    ensures d <= -1 ==> n * d + n <= 0
  {
    if d >= 2 { assert n * d == n * (d - 2) + 2 * n; }
    if d <= -1 { assert n * d == n * (d + 1) - n; }
  }

  lemma Quotient(q: int, r: nat, n: nat)
    requires r < n
    ensures (n * q + r) % n == r
  {
    var i := n * q + r;
    assert i == n * (i / n) + i % n;
    assert n * (i / n - q) == r - i % n;
    Multiples(n, i / n - q);
  }

  lemma ModStep(i: nat, n: nat)
    requires n > 0
    ensures (i % n + 1) % n == (i + 1) % n
  {
    var q, r := i / n, i % n;
    assert i == n * q + r;
    if r + 1 == n {
      Quotient(1, 0, n);
      assert i + 1 == n * (q + 1) + 0;
      Quotient(q + 1, 0, n);
    } else {
      Quotient(0, r + 1, n);
      assert i + 1 == n * q + (r + 1);
      Quotient(q, r + 1, n);
    }
  }

  /** Two counters at most one lap apart address the same slot exactly when they are equal or a whole lap apart. */
  lemma SameSlotIff(lo: nat, hi: nat, n: nat)
    requires n > 0 && lo <= hi <= lo + n
    ensures hi % n == lo % n <==> hi == lo || hi == lo + n
  {
    assert hi == n * (hi / n) + hi % n && lo == n * (lo / n) + lo % n;
    if hi % n == lo % n {
      var k := hi / n - lo / n;
      assert hi - lo == n * k;
      Multiples(n, k);
      assert k == 0 || k == 1;
    } else if hi == lo + n {
      assert hi == n * (lo / n + 1) + lo % n;
      Quotient(lo / n + 1, lo % n, n);
    }
  }

  lemma ModAdd(i: nat, k: nat, n: nat)
    requires n > 0
    ensures (i % n + k) % n == (i + k) % n
  {
    var t := i % n + k;
    assert i + k == n * (i / n) + t && t == n * (t / n) + t % n;
    assert i + k == n * (i / n + t / n) + t % n;
    Quotient(i / n + t / n, t % n, n);
  }

  // ---- the class, one thread at a time ----------------------------------------------------

  class LFQueue<T(0)> {
    const store: array<T>
    var nextWriteIndex: nat
    var nextReadIndex: nat
    var storeSize: nat

    /** The slot of the `i`-th element that waits. */
    function SlotOf(i: nat): (slot: nat)
      requires store.Length > 0
      reads this
      ensures slot < store.Length
    {
      (nextReadIndex + i) % store.Length
    }

    ghost predicate Valid()
      reads this
    {
      nextReadIndex < store.Length && nextWriteIndex == SlotOf(storeSize)
    }

    /** What the reader will find, oldest first; past a full ring the producer writes over elements that wait. */
    ghost function Contents(): (q: seq<T>)
      requires Valid()
      reads this, store
      ensures |q| == storeSize && forall i | 0 <= i < storeSize :: q[i] == store[SlotOf(i)]
    {
      seq(storeSize, i requires 0 <= i < storeSize && Valid() reads this, store => store[SlotOf(i)])
    }

    constructor (size: nat)
      requires size > 0
      ensures Valid() && Contents() == [] && store.Length == size && fresh(store)
    {
      store := new T[size];
      nextWriteIndex, nextReadIndex, storeSize := 0, 0, 0;
    }

    /** The slot holds an element that waits if and only if the ring is full or overrun. */
    method GetNextToWriteTo() returns (slot: nat)
      requires Valid()
      ensures slot == nextWriteIndex < store.Length
      ensures (exists i | 0 <= i < storeSize :: SlotOf(i) == slot) <==> storeSize >= store.Length
    {
      slot := nextWriteIndex;
      if storeSize >= store.Length {
        ghost var i := storeSize - store.Length;
        SameSlotIff(nextReadIndex + i, nextReadIndex + storeSize, store.Length);
        assert SlotOf(i) == slot;
      } else {
        forall i | 0 <= i < storeSize ensures SlotOf(i) != slot {
          SameSlotIff(nextReadIndex + i, nextReadIndex + storeSize, store.Length);
        }
      }
    }

    /** Whatever stands in the producer's slot joins the back. */
    method UpdateNextToWriteTo()
      requires Valid()
      modifies this
      ensures Valid() && Contents() == old(Contents()) + [store[old(nextWriteIndex)]]
    {
      ModStep(nextReadIndex + storeSize, store.Length);
      nextWriteIndex := (nextWriteIndex + 1) % store.Length;
      storeSize := storeSize + 1;
    }

    /** The reader finds nothing when nothing waits, and also when whole laps wait. */
    method GetNextToRead() returns (slot: Option<nat>)
      requires Valid()
      ensures slot.None? <==> storeSize % store.Length == 0
      ensures slot.Some? ==> storeSize > 0 && slot.value < store.Length && store[slot.value] == Contents()[0]
    {
      WholeLaps(nextReadIndex, storeSize, store.Length);
      assert SlotOf(0) == nextReadIndex;
      slot := if nextReadIndex == nextWriteIndex then None else Some(nextReadIndex);
    }

    /** `ok` is false where the ASSERT ends the process. */
    method UpdateReadIndex() returns (ok: bool)
      requires Valid()
      modifies this
      ensures ok <==> old(Contents()) != []
      ensures ok ==> Valid() && Contents() == old(Contents())[1..]
    {
      ghost var r, n := nextReadIndex, store.Length;
      nextReadIndex := (nextReadIndex + 1) % store.Length;
      if storeSize == 0 { return false; }
      storeSize := storeSize - 1;
      ok := true;
      forall i: nat ensures SlotOf(i) == (r + (i + 1)) % n { ModAdd(r + 1, i, n); }
    }
  }

  lemma WholeLaps(r: nat, k: nat, n: nat)
    requires r < n
    ensures (r + k) % n == r <==> k % n == 0
    ensures r % n == r
  {
    ModAdd(k, r, n);
    SameSlotIff(r, r + k % n, n);
    Quotient(0, r, n);
  }

  // ---- two threads --------------------------------------------------------------------------

  /**
   `Writing`: the slot is being overwritten. `Written`: it holds the value. `Indexed`: the index is published, the size
   is not.
   */
  datatype Producer<T> = Idle | Writing(v: T) | Written(v: T) | Indexed

  /**
   `Pointing`: holds a slot. `Reading`: may read it. `Done`: has read it. `Advanced`: the index has moved. `Checked`:
   the ASSERT has passed.
   */
  datatype Consumer = Waiting | Pointing(slot: nat) | Reading(slot: nat) | Done(slot: nat) | Advanced | Checked

  /** The shared fields and both program counters, with the histories of published and consumed values. */
  datatype State<T> = State(
    store: seq<T>, writeIndex: nat, readIndex: nat, size: nat,
    p: Producer<T>, c: Consumer, asserted: bool,
    produced: seq<T>, consumed: seq<T>, advanced: nat)

  datatype Step<T> =
    | WriteBegin(v: T, torn: T) | WriteEnd | PublishIndex | PublishSize
    | LoadPointer | TestSize | Read | AdvanceIndex | CheckSize | DropSize

  /**
   `limit` is how many elements the producer ever leaves unread. `tests` is the reader of
   market_data_publisher.cpp:42-49, which takes the pointer, tests `size()`, reads, then advances;
   without it, the reader of matching_engine.cpp:80-85, which does not test.
   */
  datatype Use = Use(limit: nat, tests: bool)

  function Start<T>(store: seq<T>): State<T> {
    State(store, 0, 0, 0, Idle, Waiting, false, [], [], 0)
  }

  /** Published and not yet passed by the read index. */
  function Unread<T>(s: State<T>): int { |s.produced| - s.advanced }

  /** The thread stands at this step; the only demand is the producer's `limit`. A failed ASSERT ends the run. */
  predicate Enabled<T>(s: State<T>, step: Step<T>, use: Use) {
    && !s.asserted
    && match step
       case WriteBegin(_, _) => s.p.Idle? && Unread(s) < use.limit
       case WriteEnd => s.p.Writing?
       case PublishIndex => s.p.Written?
       case PublishSize => s.p.Indexed?
       case LoadPointer => s.c.Waiting?
       case TestSize => s.c.Pointing?
       case Read => s.c.Reading?
       case AdvanceIndex => s.c.Done?
       case CheckSize => s.c.Advanced?
       case DropSize => s.c.Checked?
  }

  /** While a slot is being written it may hold anything (`torn`). */
  function Next<T>(s: State<T>, step: Step<T>, use: Use): State<T>
    requires Enabled(s, step, use) && InRange(s)
  {
    var n := |s.store|;
    match step
    case WriteBegin(v, torn) => s.(store := s.store[s.writeIndex := torn], p := Writing(v))
    case WriteEnd => s.(store := s.store[s.writeIndex := s.p.v], p := Written(s.p.v))
    case PublishIndex => s.(writeIndex := (s.writeIndex + 1) % n, p := Indexed, produced := s.produced + [s.p.v])
    case PublishSize => s.(size := s.size + 1, p := Idle)
    case LoadPointer => if s.readIndex == s.writeIndex then s else s.(c := Pointing(s.readIndex))
    case TestSize => s.(c := if use.tests && s.size == 0 then Waiting else Reading(s.c.slot))
    case Read => s.(c := Done(s.c.slot), consumed := s.consumed + [s.store[s.c.slot]])
    case AdvanceIndex => s.(readIndex := (s.readIndex + 1) % n, c := Advanced, advanced := s.advanced + 1)
    case CheckSize => if s.size == 0 then s.(asserted := true) else s.(c := Checked)
    case DropSize => s.(size := if s.size == 0 then 0 else s.size - 1, c := Waiting)
  }

  /** Every index the next access uses is inside the store. */
  predicate InRange<T>(s: State<T>) {
    && s.writeIndex < |s.store| && s.readIndex < |s.store|
    && (s.c.Pointing? || s.c.Reading? || s.c.Done? ==> s.c.slot < |s.store|)
  }

  // ---- the invariant ---------------------------------------------------------------------

  predicate HasSlot(c: Consumer) { c.Pointing? || c.Reading? || c.Done? }

  predicate Busy<T>(p: Producer<T>) { p.Writing? || p.Written? }

  ghost predicate Indices<T>(s: State<T>, limit: nat) {
    var n, w := |s.store|, |s.produced|;
    && 0 < n && limit <= n && s.advanced <= w && w - s.advanced <= limit
    && s.writeIndex == w % n && s.readIndex == s.advanced % n
    && (Busy(s.p) ==> w - s.advanced < limit)
    && (HasSlot(s.c) ==> s.c.slot == s.readIndex && s.advanced < w)
  }

  /** Unread elements stand in their slots, and what was read is what was produced. */
  ghost predicate Stored<T>(s: State<T>) {
    var n := |s.store|;
    && n > 0 && s.advanced <= |s.produced|
    && (forall i {:trigger s.produced[i]} | s.advanced <= i < |s.produced| :: s.store[i % n] == s.produced[i])
    && s.consumed == s.produced[..s.advanced]
        + (if s.c.Done? && s.advanced < |s.produced| then [s.produced[s.advanced]] else [])
    && (s.p.Written? ==> s.store[|s.produced| % n] == s.p.v)
  }

  /** How many times the size was raised and lowered. */
  function Raised<T>(s: State<T>): int { |s.produced| - if s.p.Indexed? then 1 else 0 }
  function Lowered<T>(s: State<T>): int { s.advanced - if s.c.Advanced? || s.c.Checked? then 1 else 0 }

  ghost predicate Sized<T>(s: State<T>, tests: bool) {
    && s.size == Raised(s) - Lowered(s)
    && (s.c.Checked? ==> s.size > 0)
    && (tests ==> !s.asserted && (s.c.Reading? || s.c.Done? || s.c.Advanced? ==> s.size > 0))
  }

  ghost predicate Inv<T>(s: State<T>, use: Use) {
    Indices(s, use.limit) && Stored(s) && Sized(s, use.tests)
  }

  /** A slot outside the unread stretch may change. */
  lemma StoreElsewhere<T>(s: State<T>, limit: nat, x: T)
    requires Indices(s, limit) && Stored(s) && |s.produced| - s.advanced < |s.store|
    ensures forall i {:trigger s.produced[i]} | s.advanced <= i < |s.produced| ::
        s.store[s.writeIndex := x][i % |s.store|] == s.produced[i]
  {
    forall i {:trigger s.produced[i]} | s.advanced <= i < |s.produced|
      ensures s.store[s.writeIndex := x][i % |s.store|] == s.produced[i]
    {
      SameSlotIff(i, |s.produced|, |s.store|);
    }
  }

  lemma ProducerKeeps<T>(s: State<T>, step: Step<T>, use: Use)
    requires Inv(s, use) && InRange(s) && Enabled(s, step, use)
    requires step.WriteBegin? || step.WriteEnd? || step.PublishIndex? || step.PublishSize?
    ensures Inv(Next(s, step, use), use)
  {
    match step
    case WriteBegin(v, torn) => StoreElsewhere(s, use.limit, torn);
    case WriteEnd => StoreElsewhere(s, use.limit, s.p.v);
    case PublishIndex =>
      ModStep(|s.produced|, |s.store|);
      var s' := Next(s, step, use);
      forall i {:trigger s'.produced[i]} | s.advanced <= i < |s'.produced|
          ensures s'.store[i % |s.store|] == s'.produced[i]
      {
        if i < |s.produced| { assert s'.produced[i] == s.produced[i]; }
      }
      assert s'.produced[..s.advanced] == s.produced[..s.advanced];
    case PublishSize =>
  }

  lemma ConsumerKeeps<T>(s: State<T>, step: Step<T>, use: Use)
    requires Inv(s, use) && InRange(s) && Enabled(s, step, use)
    requires !(step.WriteBegin? || step.WriteEnd? || step.PublishIndex? || step.PublishSize?)
    ensures Inv(Next(s, step, use), use)
  {
    match step
    case LoadPointer => SameSlotIff(s.advanced, |s.produced|, |s.store|);
    case TestSize =>
    case Read => assert s.store[s.advanced % |s.store|] == s.produced[s.advanced];
    case AdvanceIndex =>
      ModStep(s.advanced, |s.store|);
      assert s.produced[..s.advanced + 1] == s.produced[..s.advanced] + [s.produced[s.advanced]];
    case CheckSize =>
    case DropSize =>
  }

  lemma NextKeeps<T>(s: State<T>, step: Step<T>, use: Use)
    requires Inv(s, use) && InRange(s) && Enabled(s, step, use)
    ensures Inv(Next(s, step, use), use) && |Next(s, step, use).store| == |s.store|
  {
    if step.WriteBegin? || step.WriteEnd? || step.PublishIndex? || step.PublishSize? {
      ProducerKeeps(s, step, use);
    } else {
      ConsumerKeeps(s, step, use);
    }
  }

  // ---- every interleaving ------------------------------------------------------------------

  ghost predicate CanRun<T(!new)>(s: State<T>, steps: seq<Step<T>>, use: Use)
    decreases |steps|
  {
    steps == [] || (InRange(s) && Enabled(s, steps[0], use) && CanRun(Next(s, steps[0], use), steps[1..], use))
  }

  ghost function After<T(!new)>(s: State<T>, steps: seq<Step<T>>, use: Use): State<T>
    requires CanRun(s, steps, use)
    decreases |steps|
  {
    if steps == [] then s else After(Next(s, steps[0], use), steps[1..], use)
  }

  lemma {:induction false} RunKeeps<T(!new)>(s: State<T>, steps: seq<Step<T>>, use: Use)
    requires Inv(s, use) && CanRun(s, steps, use)
    ensures Inv(After(s, steps, use), use) && |After(s, steps, use).store| == |s.store|
    decreases |steps|
  {
    if steps != [] {
      NextKeeps(s, steps[0], use);
      RunKeeps(Next(s, steps[0], use), steps[1..], use);
    }
  }

  /**
   In every interleaving with a spare slot: the consumer has read exactly a prefix of what was produced, in order;
   it never stands on the slot being written; it finds no element exactly when every published element has been
   passed; and every access is inside the store. For readers that test `size()` the ASSERT never fires.
   */
  lemma ReadsWhatWasProduced<T(!new)>(store: seq<T>, steps: seq<Step<T>>, use: Use)
    requires use.limit < |store| && CanRun(Start(store), steps, use)
    ensures var s := After(Start(store), steps, use);
      && s.consumed <= s.produced && InRange(s)
      && (Busy(s.p) && HasSlot(s.c) ==> s.c.slot != s.writeIndex)
      && (s.c.Waiting? ==> (s.readIndex == s.writeIndex <==> s.consumed == s.produced))
      && (use.tests ==> !s.asserted)
  {
    RunKeeps(Start(store), steps, use);
    var s := After(Start(store), steps, use);
    SameSlotIff(s.advanced, |s.produced|, |s.store|);
  }

  /**
   With no spare slot nothing is lost either, but a full ring looks empty: the reader finds nothing although all slots
   hold unread elements.
   */
  lemma FullLooksEmpty<T(!new)>(store: seq<T>, steps: seq<Step<T>>, tests: bool)
    requires store != [] && CanRun(Start(store), steps, Use(|store|, tests))
    ensures var s := After(Start(store), steps, Use(|store|, tests));
      && s.consumed <= s.produced
      && (s.readIndex == s.writeIndex <==> Unread(s) == 0 || Unread(s) == |store|)
  {
    RunKeeps(Start(store), steps, Use(|store|, tests));
    var s := After(Start(store), steps, Use(|store|, tests));
    SameSlotIff(s.advanced, |s.produced|, |s.store|);
  }

  /** `k` elements are written, one after the other. */
  function Writes<T>(v: T, k: nat): seq<Step<T>> {
    if k == 0 then [] else [WriteBegin(v, v)] + ([WriteEnd] + ([PublishIndex] + ([PublishSize] + Writes(v, k - 1))))
  }

  /** One write by itself. */
  lemma WriteOne<T(!new)>(s: State<T>, v: T, use: Use, rest: seq<Step<T>>) returns (s': State<T>)
    requires Inv(s, use) && InRange(s) && !s.asserted && s.p.Idle? && s.c.Waiting? && Unread(s) < use.limit
    ensures Inv(s', use) && InRange(s') && !s'.asserted && s'.p.Idle? && s'.c.Waiting? && |s'.store| == |s.store|
    ensures Unread(s') == Unread(s) + 1 && s'.advanced == s.advanced && s'.consumed == s.consumed
    ensures CanRun(s', rest, use) ==>
              var steps := [WriteBegin(v, v)] + ([WriteEnd] + ([PublishIndex] + ([PublishSize] + rest)));
              CanRun(s, steps, use) && After(s, steps, use) == After(s', rest, use)
  {
    var s1 := Next(s, WriteBegin(v, v), use);
    NextKeeps(s, WriteBegin(v, v), use);
    var s2 := Next(s1, WriteEnd, use);
    NextKeeps(s1, WriteEnd, use);
    var s3 := Next(s2, PublishIndex, use);
    NextKeeps(s2, PublishIndex, use);
    s' := Next(s3, PublishSize, use);
    NextKeeps(s3, PublishSize, use);
    if CanRun(s', rest, use) {
      Cons(s3, PublishSize, rest, use);
      Cons(s2, PublishIndex, [PublishSize] + rest, use);
      Cons(s1, WriteEnd, [PublishIndex] + ([PublishSize] + rest), use);
      Cons(s, WriteBegin(v, v), [WriteEnd] + ([PublishIndex] + ([PublishSize] + rest)), use);
    }
  }

  lemma {:induction false} WritesRun<T(!new)>(s: State<T>, v: T, k: nat, use: Use)
    requires Inv(s, use) && InRange(s) && !s.asserted && s.p.Idle? && s.c.Waiting? && Unread(s) + k <= use.limit
    ensures CanRun(s, Writes(v, k), use)
    ensures var s' := After(s, Writes(v, k), use);
      Inv(s', use) && s'.c.Waiting? && |s'.store| == |s.store| && Unread(s') == Unread(s) + k
          && s'.consumed == s.consumed
    decreases k
  {
    if k > 0 {
      var s' := WriteOne(s, v, use, Writes(v, k - 1));
      WritesRun(s', v, k - 1, use);
    }
  }

  /** A producer that fills every slot of a new ring: the reader, looking for the first time, finds nothing. */
  lemma FilledRingLooksEmpty<T(!new)>(store: seq<T>, v: T, tests: bool)
    requires store != []
    ensures var use, steps := Use(|store|, tests), Writes(v, |store|);
      && CanRun(Start(store), steps, use)
      && var s := After(Start(store), steps, use);
      s.c.Waiting? && s.readIndex == s.writeIndex && Unread(s) == |store| && s.consumed == []
  {
    var use := Use(|store|, tests);
    WritesRun(Start(store), v, |store|, use);
    FullLooksEmpty(store, Writes(v, |store|), tests);
  }

  /** One more write and the oldest unread element is the one overwritten. */
  lemma OverrunHitsOldest<T>(s: State<T>, use: Use)
    requires Inv(s, use) && s.p.Idle?
    ensures s.writeIndex == s.readIndex && Unread(s) > 0 <==> Unread(s) == |s.store|
  {
    SameSlotIff(s.advanced, |s.produced|, |s.store|);
  }

  // ---- the reader that does not test ---------------------------------------------------------

  /**
   Whichever reader: once it has advanced, the ASSERT fires exactly when the producer stands between publishing the
   index and raising the size, and the element just passed was the only one.
   */
  lemma AssertFiresIff<T(!new)>(store: seq<T>, steps: seq<Step<T>>, use: Use)
    requires store != [] && use.limit <= |store| && CanRun(Start(store), steps, use)
    requires After(Start(store), steps, use).c.Advanced?
    ensures var s := After(Start(store), steps, use);
      s.size == 0 <==> s.p.Indexed? && Unread(s) == 0
  {
    RunKeeps(Start(store), steps, use);
  }

  /** The producer has published the index and not the size; the reader passes the element and checks. */
  function Overtake<T>(): seq<Step<T>> {
    [LoadPointer] + ([TestSize] + ([Step<T>.Read] + ([AdvanceIndex] + [CheckSize])))
  }

  lemma Cons<T(!new)>(s: State<T>, step: Step<T>, rest: seq<Step<T>>, use: Use)
    requires InRange(s) && Enabled(s, step, use) && CanRun(Next(s, step, use), rest, use)
    ensures CanRun(s, [step] + rest, use) && After(s, [step] + rest, use) == After(Next(s, step, use), rest, use)
  {
    assert ([step] + rest)[1..] == rest;
  }

  lemma OvertakeFails<T(!new)>(s: State<T>, use: Use)
    requires Inv(s, use) && InRange(s) && !use.tests && !s.asserted
    requires s.p.Indexed? && s.c.Waiting? && Unread(s) == 1 && s.readIndex != s.writeIndex
    ensures CanRun(s, Overtake(), use) && After(s, Overtake(), use).asserted
  {
    var s1 := Next(s, LoadPointer, use);
    var s2 := Next(s1, TestSize, use);
    var s3 := Next(s2, Step<T>.Read, use);
    var s4 := Next(s3, AdvanceIndex, use);
    assert InRange(s4) by {
      NextKeeps(s, LoadPointer, use);
      NextKeeps(s1, TestSize, use);
      NextKeeps(s2, Step<T>.Read, use);
      NextKeeps(s3, AdvanceIndex, use);
    }
    assert [Step<T>.CheckSize] == [Step<T>.CheckSize] + [];
    Cons(s4, CheckSize, [], use);
    Cons(s3, AdvanceIndex, [CheckSize], use);
    Cons(s2, Step<T>.Read, [AdvanceIndex] + [CheckSize], use);
    Cons(s1, TestSize, [Step<T>.Read] + ([AdvanceIndex] + [CheckSize]), use);
    Cons(s, LoadPointer, [TestSize] + ([Step<T>.Read] + ([AdvanceIndex] + [CheckSize])), use);
  }

  /**
   The interleaving in which the reader of matching_engine.cpp:80-85 ends the process, on any ring and for the very
   first element.
   */
  lemma UntestedReaderFails<T(!new)>(store: seq<T>, v: T)
    requires |store| > 1
    ensures var use, steps := Use(|store| - 1, false),
        [WriteBegin(v, v)] + ([WriteEnd] + ([PublishIndex] + Overtake()));
      CanRun(Start(store), steps, use) && After(Start(store), steps, use).asserted
  {
    var use, s := Use(|store| - 1, false), Start(store);
    var s1 := Next(s, WriteBegin(v, v), use);
    NextKeeps(s, WriteBegin(v, v), use);
    var s2 := Next(s1, WriteEnd, use);
    NextKeeps(s1, WriteEnd, use);
    var s3 := Next(s2, PublishIndex, use);
    NextKeeps(s2, PublishIndex, use);
    Quotient(0, 1, |store|);
    OvertakeFails(s3, use);
    Cons(s2, PublishIndex, Overtake(), use);
    Cons(s1, WriteEnd, [PublishIndex] + Overtake(), use);
    Cons(s, WriteBegin(v, v), [WriteEnd] + ([PublishIndex] + Overtake()), use);
  }

  // ---- nothing is stuck ---------------------------------------------------------------------

  /** The values of the producer's writes, in order. */
  function Begun<T>(steps: seq<Step<T>>): seq<T> {
    if steps == [] then [] else (if steps[0].WriteBegin? then [steps[0].v] else []) + Begun(steps[1..])
  }

  /** The value being written, if any. */
  function AtHand<T>(p: Producer<T>): seq<T> { if p.Writing? || p.Written? then [p.v] else [] }

  lemma StepPublishes<T>(s: State<T>, step: Step<T>, use: Use)
    requires InRange(s) && Enabled(s, step, use)
    ensures var s' := Next(s, step, use);
      s'.produced + AtHand(s'.p) == s.produced + AtHand(s.p) + if step.WriteBegin? then [step.v] else []
  {}

  lemma {:induction false} RunPublishes<T(!new)>(s: State<T>, steps: seq<Step<T>>, use: Use)
    requires CanRun(s, steps, use)
    ensures var s' := After(s, steps, use); s'.produced + AtHand(s'.p) == s.produced + AtHand(s.p) + Begun(steps)
    decreases |steps|
  {
    if steps != [] {
      var s', first := Next(s, steps[0], use), if steps[0].WriteBegin? then [steps[0].v] else [];
      StepPublishes(s, steps[0], use);
      RunPublishes(s', steps[1..], use);
      var was := s.produced + AtHand(s.p);
      assert was + first + Begun(steps[1..]) == was + (first + Begun(steps[1..]));
    } else {
      assert s.produced + AtHand(s.p) + [] == s.produced + AtHand(s.p);
    }
  }

  /** In every interleaving what is published, with the value at hand, is exactly what was written, in order. */
  lemma PublishesWhatWasWritten<T(!new)>(store: seq<T>, steps: seq<Step<T>>, use: Use)
    requires store != [] && CanRun(Start(store), steps, use)
    ensures var s := After(Start(store), steps, use); s.produced + AtHand(s.p) == Begun(steps)
  {
    RunPublishes(Start(store), steps, use);
    assert [] + AtHand<T>(Idle) + Begun(steps) == Begun(steps);
  }

  /** The reader's six steps from one wait to the next. */
  function OneRead<T>(rest: seq<Step<T>>): seq<Step<T>> {
    [LoadPointer] + ([TestSize] + ([Step<T>.Read] + ([AdvanceIndex] + ([CheckSize] + ([DropSize] + rest)))))
  }

  function Reads<T>(k: nat): seq<Step<T>> { if k == 0 then [] else OneRead(Reads(k - 1)) }

  /** One element whose size is published is read, whether the reader tests or not. */
  lemma ReadOne<T(!new)>(s: State<T>, use: Use, rest: seq<Step<T>>) returns (s': State<T>)
    requires Inv(s, use) && InRange(s) && !s.asserted && s.c.Waiting? && !s.p.Indexed? && Unread(s) > 0
    requires use.limit < |s.store|
    ensures Inv(s', use) && InRange(s') && !s'.asserted && s'.c.Waiting? && s'.p == s.p && |s'.store| == |s.store|
    ensures s'.produced == s.produced && Unread(s') == Unread(s) - 1
    ensures CanRun(s', rest, use) ==>
              CanRun(s, OneRead(rest), use) && After(s, OneRead(rest), use) == After(s', rest, use)
  {
    SameSlotIff(s.advanced, |s.produced|, |s.store|);
    var s1 := Next(s, LoadPointer, use);
    NextKeeps(s, LoadPointer, use);
    var s2 := Next(s1, TestSize, use);
    NextKeeps(s1, TestSize, use);
    var s3 := Next(s2, Step<T>.Read, use);
    NextKeeps(s2, Step<T>.Read, use);
    var s4 := Next(s3, AdvanceIndex, use);
    NextKeeps(s3, AdvanceIndex, use);
    var s5 := Next(s4, CheckSize, use);
    NextKeeps(s4, CheckSize, use);
    s' := Next(s5, DropSize, use);
    NextKeeps(s5, DropSize, use);
    if CanRun(s', rest, use) {
      Cons(s5, DropSize, rest, use);
      Cons(s4, CheckSize, [DropSize] + rest, use);
      Cons(s3, AdvanceIndex, [CheckSize] + ([DropSize] + rest), use);
      Cons(s2, Step<T>.Read, [AdvanceIndex] + ([CheckSize] + ([DropSize] + rest)), use);
      Cons(s1, TestSize, [Step<T>.Read] + ([AdvanceIndex] + ([CheckSize] + ([DropSize] + rest))), use);
      Cons(s, LoadPointer, [TestSize] + ([Step<T>.Read] + ([AdvanceIndex] + ([CheckSize] + ([DropSize] + rest)))),
           use);
    }
  }

  lemma {:induction false} NoWrites<T>(k: nat)
    ensures Begun(Reads<T>(k)) == []
  {
    if k > 0 {
      NoWrites<T>(k - 1);
      var rest := Reads<T>(k - 1);
      BegunCons(DropSize, rest);
      BegunCons(CheckSize, [DropSize] + rest);
      BegunCons(AdvanceIndex, [CheckSize] + ([DropSize] + rest));
      BegunCons(Step<T>.Read, [AdvanceIndex] + ([CheckSize] + ([DropSize] + rest)));
      BegunCons(TestSize, [Step<T>.Read] + ([AdvanceIndex] + ([CheckSize] + ([DropSize] + rest))));
      BegunCons(LoadPointer, [TestSize] + ([Step<T>.Read] + ([AdvanceIndex] + ([CheckSize] + ([DropSize] + rest)))));
    }
  }

  lemma BegunCons<T>(step: Step<T>, rest: seq<Step<T>>)
    requires !step.WriteBegin?
    ensures Begun([step] + rest) == Begun(rest)
  {
    assert ([step] + rest)[1..] == rest;
    assert [] + Begun(rest) == Begun(rest);
  }

  lemma {:induction false} ReadsRun<T(!new)>(s: State<T>, k: nat, use: Use)
    requires Inv(s, use) && InRange(s) && !s.asserted && s.c.Waiting? && !s.p.Indexed? && Unread(s) == k
    requires use.limit < |s.store|
    ensures CanRun(s, Reads(k), use)
    ensures var s' := After(s, Reads(k), use);
      Inv(s', use) && s'.c.Waiting? && s'.produced == s.produced && Unread(s') == 0
    decreases k
  {
    if k > 0 {
      var s' := ReadOne(s, use, Reads(k - 1));
      ReadsRun(s', k - 1, use);
    }
  }

  lemma {:induction false} RunsOn<T(!new)>(s: State<T>, a: seq<Step<T>>, b: seq<Step<T>>, use: Use)
    requires CanRun(s, a, use) && CanRun(After(s, a, use), b, use)
    ensures CanRun(s, a + b, use) && After(s, a + b, use) == After(After(s, a, use), b, use)
    decreases |a|
  {
    if a == [] {
      assert a + b == b;
    } else {
      assert (a + b)[1..] == a[1..] + b;
      RunsOn(Next(s, a[0], use), a[1..], b, use);
    }
  }

  /**
   From any point of any run with a spare slot at which the reader waits and no publication is half done, the
   reader by itself takes everything that is published.
   */
  lemma ReaderCatchesUp<T(!new)>(store: seq<T>, steps: seq<Step<T>>, use: Use) returns (more: seq<Step<T>>)
    requires use.limit < |store| && CanRun(Start(store), steps, use)
    requires var s := After(Start(store), steps, use); !s.asserted && s.c.Waiting? && !s.p.Indexed?
    ensures CanRun(Start(store), steps + more, use) && Begun(more) == []
    ensures var s' := After(Start(store), steps + more, use);
      s'.produced == After(Start(store), steps, use).produced == s'.consumed
  {
    RunKeeps(Start(store), steps, use);
    var s := After(Start(store), steps, use);
    more := Reads(Unread(s));
    ReadsRun(s, Unread(s), use);
    RunsOn(Start(store), steps, more, use);
    NoWrites<T>(Unread(s));
  }
}
