/**
 The FIFO sequencer's sort (exchange/order_server/fifo_sequencer.h:16-61). A batch
 is ordered by receive time with `std::sort`, which promises a sorted permutation
 and nothing about ties; the lemmas say exactly when that keeps a client's order.
 */
module Sequencing {
  import opened Picking
  import opened Wire

  /** `RecvTimeClientRequest`; the session number and the socket are kept for the statements only. */
  datatype Entry = Entry(recvTime: nat, socket: nat, frame: Frame)

  function OfClient(c: nat): Entry -> bool { (e: Entry) => e.frame.client == c }

  ghost predicate ByTime(s: seq<Entry>) {
    forall i, j | 0 <= i < j < |s| :: s[i].recvTime <= s[j].recvTime
  }

  ghost predicate StrictlyByTime(s: seq<Entry>) {
    forall i, j | 0 <= i < j < |s| :: s[i].recvTime < s[j].recvTime
  }

  /** All that `std::sort` promises. */
  ghost predicate SortOf(batch: seq<Entry>, out: seq<Entry>) {
    ByTime(out) && multiset(out) == multiset(batch)
  }

  // ---- a stable sort, for comparison ------------------------------------------------------

  function InsertFront(e: Entry, s: seq<Entry>): seq<Entry> {
    if s == [] || e.recvTime <= s[0].recvTime then [e] + s else [s[0]] + InsertFront(e, s[1..])
  }

  function StableSort(s: seq<Entry>): seq<Entry> {
    if s == [] then [] else InsertFront(s[0], StableSort(s[1..]))
  }

  lemma {:induction false} InsertFrontAt(e: Entry, s: seq<Entry>) returns (k: nat)
    ensures k <= |s| && InsertFront(e, s) == s[..k] + [e] + s[k..]
    ensures (forall j | 0 <= j < k :: s[j].recvTime < e.recvTime) && (k < |s| ==> e.recvTime <= s[k].recvTime)
  {
    if s == [] || e.recvTime <= s[0].recvTime {
      k := 0;
    } else {
      k := InsertFrontAt(e, s[1..]);
      k := k + 1;
      assert s[1..][..k - 1] == s[1..k] && s[1..][k - 1..] == s[k..];
    }
  }

  lemma PutByTime(e: Entry, s: seq<Entry>, k: nat)
    requires ByTime(s) && k <= |s|
    requires (forall j | 0 <= j < k :: s[j].recvTime < e.recvTime) && (k < |s| ==> e.recvTime <= s[k].recvTime)
    ensures ByTime(s[..k] + [e] + s[k..])
  {
    var t := s[..k] + [e] + s[k..];
    assert forall i | 0 <= i < |t| :: t[i] == if i < k then s[i] else if i == k then e else s[i - 1];
    assert forall i | k <= i < |s| :: e.recvTime <= s[i].recvTime;
  }

  lemma InsertFrontSorts(e: Entry, s: seq<Entry>)
    requires ByTime(s)
    ensures ByTime(InsertFront(e, s)) && multiset(InsertFront(e, s)) == multiset([e]) + multiset(s)
  {
    var k := InsertFrontAt(e, s);
    PutByTime(e, s, k);
    PutCounts(e, s, k);
  }

  lemma PutCounts(e: Entry, s: seq<Entry>, k: nat)
    requires k <= |s|
    ensures multiset(s[..k] + [e] + s[k..]) == multiset([e]) + multiset(s)
  {
    assert multiset(s) == multiset(s[..k]) + multiset(s[k..]) by { assert s == s[..k] + s[k..]; }
  }

  lemma {:induction false} StableSortSorts(s: seq<Entry>)
    ensures SortOf(s, StableSort(s))
  {
    if s != [] {
      StableSortSorts(s[1..]);
      InsertFrontSorts(s[0], StableSort(s[1..]));
      assert s == [s[0]] + s[1..];
    }
  }

  lemma {:induction false} PickInsert(e: Entry, s: seq<Entry>, c: nat)
    requires ByTime(s)
    ensures Pick(InsertFront(e, s), OfClient(c)) ==
            if OfClient(c)(e) then InsertFront(e, Pick(s, OfClient(c))) else Pick(s, OfClient(c))
  {
    if s == [] || e.recvTime <= s[0].recvTime {
      assert ([e] + s)[1..] == s;
      forall x | x in Pick(s, OfClient(c)) ensures e.recvTime <= x.recvTime {
        var i :| 0 <= i < |s| && s[i] == x;
        assert i > 0 ==> s[0].recvTime <= s[i].recvTime;
      }
    } else {
      PickInsert(e, s[1..], c);
      assert ([s[0]] + InsertFront(e, s[1..]))[1..] == InsertFront(e, s[1..]);
      var rest := Pick(s[1..], OfClient(c));
      if OfClient(c)(s[0]) { assert ([s[0]] + rest)[1..] == rest; } else { assert [] + rest == rest; }
    }
  }

  /** A stable sort keeps a client's order exactly when the client's requests arrived in the order of their times. */
  lemma {:induction false} StableKeepsIff(s: seq<Entry>, c: nat)
    ensures Pick(StableSort(s), OfClient(c)) == Pick(s, OfClient(c)) <==> ByTime(Pick(s, OfClient(c)))
  {
    StableSortSorts(s);
    if Pick(StableSort(s), OfClient(c)) == Pick(s, OfClient(c)) {
      PickByTime(StableSort(s), c);
    } else if s != [] {
      StableSortSorts(s[1..]);
      StableKeepsIff(s[1..], c);
      PickInsert(s[0], StableSort(s[1..]), c);
      var rest := Pick(s[1..], OfClient(c));
      if OfClient(c)(s[0]) {
        assert Pick(s, OfClient(c))[1..] == rest;
        if ByTime(Pick(s, OfClient(c))) { TailByTime(Pick(s, OfClient(c))); }
      } else {
        assert [] + rest == rest;
      }
    }
  }

  lemma TailByTime(s: seq<Entry>)
    requires s != [] && ByTime(s)
    ensures ByTime(s[1..]) && (|s| > 1 ==> s[0].recvTime <= s[1].recvTime)
  {}

  lemma {:induction false} PickByTime(s: seq<Entry>, c: nat)
    requires ByTime(s)
    ensures ByTime(Pick(s, OfClient(c)))
  {
    if s != [] {
      PickByTime(s[1..], c);
      forall x | x in Pick(s[1..], OfClient(c)) ensures s[0].recvTime <= x.recvTime {
        var i :| 0 <= i < |s| - 1 && s[1..][i] == x;
        assert s[i + 1] == x;
      }
    }
  }

  // ---- any sort -------------------------------------------------------------------------------

  lemma {:induction false} PickCounts(s: seq<Entry>, c: nat, x: Entry)
    ensures multiset(Pick(s, OfClient(c)))[x] == if OfClient(c)(x) then multiset(s)[x] else 0
  {
    if s != [] {
      PickCounts(s[1..], c, x);
      assert s == [s[0]] + s[1..];
    }
  }

  lemma PickPermutes(s: seq<Entry>, t: seq<Entry>, c: nat)
    requires multiset(s) == multiset(t)
    ensures multiset(Pick(s, OfClient(c))) == multiset(Pick(t, OfClient(c)))
  {
    forall x ensures multiset(Pick(s, OfClient(c)))[x] == multiset(Pick(t, OfClient(c)))[x] {
      PickCounts(s, c, x);
      PickCounts(t, c, x);
    }
  }

  lemma SameHead(a: seq<Entry>, b: seq<Entry>)
    requires StrictlyByTime(a) && ByTime(b) && multiset(a) == multiset(b) && a != [] && b != []
    ensures a[0] == b[0]
  {
    assert a[0] in multiset(b) && b[0] in multiset(a);
    var i :| 0 <= i < |b| && b[i] == a[0];
    var j :| 0 <= j < |a| && a[j] == b[0];
  }

  lemma TailCounts(a: seq<Entry>)
    requires a != []
    ensures multiset(a) == multiset{a[0]} + multiset(a[1..])
  {
    assert a == [a[0]] + a[1..];
  }

  /** Only one order of distinct times is sorted. */
  lemma {:induction false} StrictUnique(a: seq<Entry>, b: seq<Entry>)
    requires StrictlyByTime(a) && ByTime(b) && multiset(a) == multiset(b)
    ensures a == b
  {
    assert |a| == |multiset(a)| == |multiset(b)| == |b|;
    if a != [] {
      SameHead(a, b);
      TailCounts(a);
      TailCounts(b);
      assert multiset(a[1..]) == multiset(a) - multiset{a[0]} == multiset(b[1..]);
      StrictUnique(a[1..], b[1..]);
    }
  }

  lemma StrictIsKept(batch: seq<Entry>, out: seq<Entry>, c: nat)
    requires SortOf(batch, out) && StrictlyByTime(Pick(batch, OfClient(c)))
    ensures Pick(out, OfClient(c)) == Pick(batch, OfClient(c))
  {
    PickPermutes(batch, out, c);
    PickByTime(out, c);
    StrictUnique(Pick(batch, OfClient(c)), Pick(out, OfClient(c)));
  }

  /** Two chosen elements keep their order among the chosen. */
  lemma {:induction false} PickOrder(s: seq<Entry>, c: nat, a: nat, b: nat) returns (i: nat, j: nat)
    requires a < b < |s| && OfClient(c)(s[a]) && OfClient(c)(s[b])
    ensures i < j < |Pick(s, OfClient(c))| && Pick(s, OfClient(c))[i] == s[a] && Pick(s, OfClient(c))[j] == s[b]
  {
    var rest := Pick(s[1..], OfClient(c));
    if a > 0 {
      i, j := PickOrder(s[1..], c, a - 1, b - 1);
      if OfClient(c)(s[0]) { i, j := i + 1, j + 1; }
    } else {
      i := 0;
      assert s[b] in s[1..] by { assert s[1..][b - 1] == s[b]; }
      PickFinds(s[1..], OfClient(c), s[b]);
      j :| 0 <= j < |rest| && rest[j] == s[b];
      j := j + 1;
    }
  }

  ghost predicate Different(s: seq<Entry>) { forall i, j | 0 <= i < j < |s| :: s[i] != s[j] }

  /** A sequence with two of a client's elements the other way round does not keep the client's order. */
  lemma Reversed(w: seq<Entry>, mine: seq<Entry>, c: nat, i: nat, j: nat, a: nat, b: nat)
    requires Different(mine) && i < j < |mine| && b < a < |w| && w[a] == mine[i] && w[b] == mine[j]
    requires OfClient(c)(mine[i]) && OfClient(c)(mine[j])
    ensures Pick(w, OfClient(c)) != mine
  {
    var i', j' := PickOrder(w, c, b, a);
  }

  lemma SwapSorted(batch: seq<Entry>, out: seq<Entry>, a: nat, b: nat)
    requires SortOf(batch, out) && a < b < |out| && out[a].recvTime == out[b].recvTime
    ensures SortOf(batch, out[a := out[b]][b := out[a]])
  {
    var w := out[a := out[b]][b := out[a]];
    assert forall k | 0 <= k < |out| :: w[k].recvTime == out[k].recvTime;
    assert multiset(w) == multiset(out);
  }

  /** Of two requests of a client that are not strictly in time order, some sort turns the order round. */
  lemma SomeSortReverses(batch: seq<Entry>, c: nat, i: nat, j: nat) returns (w: seq<Entry>)
    requires Different(Pick(batch, OfClient(c))) && i < j < |Pick(batch, OfClient(c))|
    requires var mine := Pick(batch, OfClient(c)); mine[i].recvTime >= mine[j].recvTime
    ensures SortOf(batch, w) && Pick(w, OfClient(c)) != Pick(batch, OfClient(c))
  {
    var mine, out := Pick(batch, OfClient(c)), StableSort(batch);
    StableSortSorts(batch);
    assert mine[i] in mine && mine[j] in mine;
    assert mine[i] in multiset(out) && mine[j] in multiset(out) by {
      assert mine[i] in multiset(batch) && mine[j] in multiset(batch);
    }
    var a: nat :| a < |out| && out[a] == mine[i];
    var b: nat :| b < |out| && out[b] == mine[j];
    assert mine[i] != mine[j];
    if b < a {
      w := out;
      Reversed(w, mine, c, i, j, a, b);
    } else {
      assert out[a].recvTime <= out[b].recvTime;
      w := out[a := out[b]][b := out[a]];
      SwapSorted(batch, out, a, b);
      Reversed(w, mine, c, i, j, b, a);
    }
  }

  /**
   `std::sort` is bound to keep a client's order exactly when no two of the client's requests in the batch share a
   receive time and the times rise; requests read in one go share theirs.
   */
  lemma EverySortKeepsIff(batch: seq<Entry>, c: nat)
    requires Different(Pick(batch, OfClient(c)))
    ensures (forall out | SortOf(batch, out) :: Pick(out, OfClient(c)) == Pick(batch, OfClient(c)))
            <==> StrictlyByTime(Pick(batch, OfClient(c)))
  {
    var mine := Pick(batch, OfClient(c));
    if StrictlyByTime(mine) {
      forall out | SortOf(batch, out) ensures Pick(out, OfClient(c)) == mine { StrictIsKept(batch, out, c); }
    } else {
      var i, j :| 0 <= i < j < |mine| && mine[i].recvTime >= mine[j].recvTime;
      var w := SomeSortReverses(batch, c, i, j);
    }
  }

  // ---- the call -----------------------------------------------------------------------------

  /** Stands for `std::sort` (fifo_sequencer.h:51); callers may rely on no more than its contract. */
  method Sort(batch: seq<Entry>) returns (out: seq<Entry>)
    ensures SortOf(batch, out)
  {
    out := [];
    var i := |batch|;
    while i > 0
      invariant 0 <= i <= |batch| && SortOf(batch[i..], out)
    {
      i := i - 1;
      InsertFrontSorts(batch[i], out);
      out := InsertFront(batch[i], out);
      assert batch[i..] == [batch[i]] + batch[i + 1..];
    }
    assert batch[0..] == batch;
  }
}
