/**
 The order server's ingress (exchange/order_server/order_server.cpp:6-56 and
 fifo_sequencer.h:33-61): records are taken off a socket, each client is bound to
 the socket it first spoke on, its requests must be numbered 1, 2, 3, ..., and
 what was accepted is published in batches ordered by receive time. Repair: a
 request is checked against the counter of incoming requests
 (order_server.cpp:32 reads the outgoing one, contrary to order_server.h:45-48).
 A socket is named by its descriptor.
 */
module Ingress {
  import opened Types
  import opened Picking
  import opened Wire
  import opened Sequencing

  const ME_MAX_PENDING_REQUESTS: nat := 1024

  /** `accepted` is every request that ever passed the checks; `fatal` is the end of the process. */
  datatype Server = Server(
    sockets: seq<Option<nat>>, expected: seq<nat>, pending: seq<Entry>,
    accepted: seq<Entry>, published: seq<Entry>, fatal: bool)

  function Start(): Server {
    Server(seq(ME_MAX_NUM_CLIENTS, _ => None), seq(ME_MAX_NUM_CLIENTS, _ => 1), [], [], [], false)
  }

  ghost predicate Shaped(s: Server) { |s.sockets| == ME_MAX_NUM_CLIENTS == |s.expected| }

  ghost predicate Known(f: Frame) { f.client < ME_MAX_NUM_CLIENTS }

  // ---- one request ------------------------------------------------------------------------

  /** The first socket a client speaks on is its socket for good. */
  function Bound(s: Server, c: nat, socket: nat): (s': Server)
    requires Shaped(s) && c < ME_MAX_NUM_CLIENTS
    ensures Shaped(s')
  {
    if s.sockets[c].None? then s.(sockets := s.sockets[c := Some(socket)]) else s
  }

  /** fifo_sequencer.h:33-38. */
  function Enqueued(s: Server, e: Entry): Server {
    if |s.pending| >= ME_MAX_PENDING_REQUESTS then s.(fatal := true)
    else s.(pending := s.pending + [e], accepted := s.accepted + [e])
  }

  /** order_server.cpp:13-44. */
  function OnRequest(s: Server, socket: nat, time: nat, f: Frame): (s': Server)
    requires Shaped(s) && Known(f)
    ensures Shaped(s')
  {
    if s.fatal then s
    else
      var b := Bound(s, f.client, socket);
      if b.sockets[f.client] != Some(socket) || f.seqNum != b.expected[f.client] then b
      else Enqueued(b.(expected := b.expected[f.client := f.seqNum + 1]), Entry(time, socket, f))
  }

  ghost predicate AllKnown(fs: seq<Frame>) { forall i | 0 <= i < |fs| :: Known(fs[i]) }

  ghost function OnRequests(s: Server, socket: nat, time: nat, fs: seq<Frame>): (s': Server)
    requires Shaped(s) && AllKnown(fs)
    ensures Shaped(s')
    decreases |fs|
  {
    if fs == [] then s else OnRequests(OnRequest(s, socket, time, fs[0]), socket, time, fs[1..])
  }

  /** fifo_sequencer.h:40-61, given the order the sort chose. */
  function Publish(s: Server, out: seq<Entry>): Server {
    s.(published := s.published + out, pending := [])
  }

  // ---- the class ------------------------------------------------------------------------------

  lemma {:induction false} FatalStays(s: Server, socket: nat, time: nat, fs: seq<Frame>)
    requires Shaped(s) && AllKnown(fs) && s.fatal
    ensures OnRequests(s, socket, time, fs) == s
    decreases |fs|
  {
    if fs != [] { FatalStays(s, socket, time, fs[1..]); }
  }

  lemma NextRecord(data: seq<Byte>, i: nat)
    requires i + FRAME <= |data|
    ensures Frames(data[i..]) == [Decode(data[i..i + FRAME])] + Frames(data[i + FRAME..])
    ensures Leftover(data[i..]) == Leftover(data[i + FRAME..])
  {
    assert data[i..][..FRAME] == data[i..i + FRAME] && data[i..][FRAME..] == data[i + FRAME..];
  }

  /** Where the bytes came from, and the server before them. */
  datatype Reading = Reading(start: Server, socket: nat, time: nat, data: seq<Byte>)

  ghost predicate HandledDef(r: Reading, s: Server, i: nat, u: bool) {
    && i <= |r.data| && Shaped(r.start) && Shaped(s) && AllKnown(Frames(r.data)) && AllKnown(Frames(r.data[i..]))
    && OnRequests(s, r.socket, r.time, Frames(r.data[i..])) == OnRequests(r.start, r.socket, r.time, Frames(r.data))
    && Leftover(r.data[i..]) == Leftover(r.data)
  }

  /** With the records before `i` handled, what remains to be done leads to the same end; folded (see `Types`). */
  ghost predicate HandledUpTo(r: Reading, s: Server, i: nat) {
    i <= |r.data| && Shaped(s) && forall u: bool :: HandledDef(r, s, i, u)
  }

  /** The server once everything read is handled. */
  ghost predicate Handled(r: Reading, s: Server) {
    Shaped(r.start) && AllKnown(Frames(r.data)) && s == OnRequests(r.start, r.socket, r.time, Frames(r.data))
  }

  lemma HandledNone(r: Reading)
    requires Shaped(r.start) && AllKnown(Frames(r.data))
    ensures HandledUpTo(r, r.start, 0)
  {
    assert r.data[0..] == r.data;
    forall u: bool ensures HandledDef(r, r.start, 0, u) {}
  }

  lemma HandledOneDef(r: Reading, s: Server, i: nat)
    requires HandledDef(r, s, i, true) && i + FRAME <= |r.data|
    ensures var f := Decode(r.data[i..i + FRAME]);
      && Known(f)
      && var s' := OnRequest(s, r.socket, r.time, f);
      HandledDef(r, s', i + FRAME, true) && (s'.fatal ==> Handled(r, s'))
  {
    NextRecord(r.data, i);
    var f, rest := Decode(r.data[i..i + FRAME]), Frames(r.data[i + FRAME..]);
    assert ([f] + rest)[0] == f && ([f] + rest)[1..] == rest;
    assert forall k | 0 <= k < |rest| :: rest[k] == ([f] + rest)[k + 1];
    var s' := OnRequest(s, r.socket, r.time, f);
    if s'.fatal { FatalStays(s', r.socket, r.time, rest); }
  }

  lemma HandledOne(r: Reading, s: Server, i: nat)
    requires HandledUpTo(r, s, i) && i + FRAME <= |r.data|
    ensures var f := Decode(r.data[i..i + FRAME]);
      && Known(f)
      && var s' := OnRequest(s, r.socket, r.time, f);
      HandledUpTo(r, s', i + FRAME) && (s'.fatal ==> Handled(r, s'))
  {
    assert HandledDef(r, s, i, true);
    HandledOneDef(r, s, i);
    var s', j := OnRequest(s, r.socket, r.time, Decode(r.data[i..i + FRAME])), i + FRAME;
    forall u: bool ensures HandledDef(r, s', j, u) { assert HandledDef(r, s', j, true); }
  }

  lemma HandledAll(r: Reading, s: Server, i: nat)
    requires HandledUpTo(r, s, i) && |r.data| < i + FRAME
    ensures Handled(r, s) && r.data[i..] == Leftover(r.data)
  {
    assert HandledDef(r, s, i, true);
  }

  class OrderServer {
    var clientSocket: seq<Option<nat>>
    var incomingSeqNum: seq<nat>
    var pendingRequests: seq<Entry>
    /** What has been handed to the matching engine's queue. */
    var incomingRequests: seq<Entry>
    ghost var accepted: seq<Entry>
    ghost var fatal: bool

    ghost function Value(): Server
      reads this
    {
      Server(clientSocket, incomingSeqNum, pendingRequests, accepted, incomingRequests, fatal)
    }

    constructor ()
      ensures Value() == Start()
    {
      clientSocket := seq(ME_MAX_NUM_CLIENTS, _ => None);
      incomingSeqNum := seq(ME_MAX_NUM_CLIENTS, _ => 1);
      pendingRequests, incomingRequests, accepted, fatal := [], [], [], false;
    }

    method AddClientRequest(e: Entry) returns (ok: bool)
      modifies this`pendingRequests, this`accepted, this`fatal
      ensures Value() == Enqueued(old(Value()), e) && ok == (|old(pendingRequests)| < ME_MAX_PENDING_REQUESTS)
    {
      ok := |pendingRequests| < ME_MAX_PENDING_REQUESTS;
      if !ok {
        fatal := true;
        return;
      }
      pendingRequests := pendingRequests + [e];
      accepted := accepted + [e];
    }

    /** The body of the record loop; `ok` is false where the process ends. */
    method HandleRequest(socket: nat, time: nat, f: Frame) returns (ok: bool)
      requires Shaped(Value()) && Known(f) && !fatal
      modifies this
      ensures Value() == OnRequest(old(Value()), socket, time, f) && ok == !fatal
      ensures var c, e := f.client, Entry(time, socket, f);
        var bound := old(clientSocket)[c].None? || old(clientSocket)[c] == Some(socket);
        var next := bound && f.seqNum == old(incomingSeqNum)[c];
        && clientSocket == (if old(clientSocket)[c].None? then old(clientSocket)[c := Some(socket)]
                            else old(clientSocket))
        && incomingSeqNum == (if next then old(incomingSeqNum)[c := f.seqNum + 1] else old(incomingSeqNum))
        && accepted == old(accepted) + (if next && ok then [e] else [])
        && pendingRequests == old(pendingRequests) + (if next && ok then [e] else [])
        && incomingRequests == old(incomingRequests)
        && (!ok <==> next && |old(pendingRequests)| >= ME_MAX_PENDING_REQUESTS)
    {
      var c := f.client;
      if clientSocket[c].None? { clientSocket := clientSocket[c := Some(socket)]; }
      if clientSocket[c] != Some(socket) { return true; }
      if f.seqNum != incomingSeqNum[c] { return true; }
      incomingSeqNum := incomingSeqNum[c := incomingSeqNum[c] + 1];
      ok := AddClientRequest(Entry(time, socket, f));
    }

    /** One pass of the record loop. */
    method TakeRecord(socket: TCPSocket, time: nat, i: nat, ghost r: Reading) returns (ok: bool)
      requires socket.Valid() && socket.Data() == r.data && r.socket == socket.fd && r.time == time && !fatal
      requires i + FRAME <= socket.nextRcvValidIndex && HandledUpTo(r, Value(), i)
      modifies this
      ensures HandledUpTo(r, Value(), i + FRAME) && ok == !fatal
      ensures !ok ==> Handled(r, Value())
    {
      var f := Decode(socket.rcvBuffer[i..i + FRAME]);
      SliceOfPrefix(socket.rcvBuffer[..], socket.nextRcvValidIndex, i, i + FRAME);
      assert socket.rcvBuffer[i..i + FRAME] == socket.rcvBuffer[..][i..i + FRAME];
      HandledOne(r, Value(), i);
      ok := HandleRequest(socket.fd, time, f);
    }

    /**
     order_server.cpp:10-51: every complete record in the buffer is handled in order and the rest of the bytes, less
     than one record, moves to the front; the move never overlaps its source.
     */
    method RecvCallback(socket: TCPSocket, time: nat) returns (ok: bool)
      requires Shaped(Value()) && socket.Valid() && AllKnown(Frames(socket.Data())) && !fatal
      modifies this, socket`nextRcvValidIndex, socket.rcvBuffer
      ensures Value() == OnRequests(old(Value()), socket.fd, time, old(Frames(socket.Data()))) && ok == !fatal
      ensures socket.Valid() && (ok ==> socket.Data() == Leftover(old(socket.Data())))
    {
      ghost var r := Reading(Value(), socket.fd, time, socket.Data());
      HandledNone(r);
      if socket.nextRcvValidIndex < FRAME {
        HandledAll(r, Value(), 0);
        return true;
      }
      var i := 0;
      while i + FRAME <= socket.nextRcvValidIndex
        invariant |r.data| == socket.nextRcvValidIndex && socket.Valid() && socket.Data() == r.data
        invariant (i + FRAME <= |r.data| || i >= FRAME) && !fatal && HandledUpTo(r, Value(), i)
      {
        ok := TakeRecord(socket, time, i, r);
        if !ok { return; }
        i := i + FRAME;
      }
      HandledAll(r, Value(), i);
      socket.Compact(i);
      ok := true;
    }

    /** What goes out is a sorted permutation of what was pending. */
    method SequenceAndPublish() returns (ghost out: seq<Entry>)
      modifies this`pendingRequests, this`incomingRequests
      ensures SortOf(old(pendingRequests), out) && Value() == Publish(old(Value()), out)
    {
      if pendingRequests == [] {
        out := [];
        return;
      }
      var sorted := Sort(pendingRequests);
      var i := 0;
      while i < |sorted|
        invariant i <= |sorted| && incomingRequests == old(incomingRequests) + sorted[..i]
      {
        incomingRequests := incomingRequests + [sorted[i]];
        i := i + 1;
      }
      pendingRequests, out := [], sorted;
      assert sorted[..i] == sorted;
    }
  }

  // ---- every run ---------------------------------------------------------------------------------

  datatype Step = Receive(socket: nat, time: nat, frames: seq<Frame>) | Sequence(out: seq<Entry>)

  ghost predicate Enabled(s: Server, step: Step) {
    match step
    case Receive(_, _, frames) => AllKnown(frames)
    case Sequence(out) => SortOf(s.pending, out)
  }

  ghost function Next(s: Server, step: Step): (s': Server)
    requires Shaped(s) && Enabled(s, step)
    ensures Shaped(s')
  {
    match step
    case Receive(socket, time, frames) => OnRequests(s, socket, time, frames)
    case Sequence(out) => Publish(s, out)
  }

  function Mine(s: seq<Entry>, c: nat): seq<Entry> { Pick(s, OfClient(c)) }

  /** Numbered 1, 2, 3, ... */
  ghost predicate Counted(es: seq<Entry>) {
    forall i | 0 <= i < |es| :: es[i].frame.seqNum == i + 1
  }

  /** A client's accepted requests are numbered from 1 without a gap and all came from its socket. */
  ghost predicate SessionOk(s: Server, c: nat)
    requires Shaped(s) && c < ME_MAX_NUM_CLIENTS
  {
    && Counted(Mine(s.accepted, c))
    && (!s.fatal ==> s.expected[c] == |Mine(s.accepted, c)| + 1)
    && (forall e | e in Mine(s.accepted, c) :: s.sockets[c] == Some(e.socket))
  }

  /** What was accepted is published or pending, nothing twice and nothing else. */
  ghost predicate Inv(s: Server) {
    && Shaped(s)
    && (forall c: nat | c < ME_MAX_NUM_CLIENTS :: SessionOk(s, c))
    && multiset(s.published) + multiset(s.pending) == multiset(s.accepted)
    && |s.pending| <= ME_MAX_PENDING_REQUESTS
  }

  lemma MineAppend(s: seq<Entry>, e: Entry, c: nat)
    ensures Mine(s + [e], c) == Mine(s, c) + if e.frame.client == c then [e] else []
  {
    PickAppend(s, [e], OfClient(c));
    PickOne(e, OfClient(c));
  }

  lemma UnboundIsSilent(s: Server, c: nat)
    requires Shaped(s) && c < ME_MAX_NUM_CLIENTS && SessionOk(s, c) && s.sockets[c].None?
    ensures Mine(s.accepted, c) == []
  {
    SomeFirst(Mine(s.accepted, c));
  }

  lemma SomeFirst(es: seq<Entry>)
    ensures es == [] || es[0] in es
  {}

  lemma BindKeeps(s: Server, socket: nat, b: nat, c: nat)
    requires Shaped(s) && b < ME_MAX_NUM_CLIENTS && c < ME_MAX_NUM_CLIENTS && SessionOk(s, c)
    ensures SessionOk(Bound(s, b, socket), c)
  {
    if s.sockets[c].None? { UnboundIsSilent(s, c); }
  }

  /** `s` is already bound; the request is the next of its client. */
  lemma AcceptKeeps(s: Server, e: Entry, c: nat)
    requires Shaped(s) && c < ME_MAX_NUM_CLIENTS && SessionOk(s, c) && !s.fatal && Known(e.frame)
    requires s.sockets[e.frame.client] == Some(e.socket) && e.frame.seqNum == s.expected[e.frame.client]
    ensures SessionOk(Enqueued(s.(expected := s.expected[e.frame.client := e.frame.seqNum + 1]), e), c)
  {
    MineAppend(s.accepted, e, c);
  }

  lemma RequestKeeps(s: Server, socket: nat, time: nat, f: Frame)
    requires Inv(s) && Known(f)
    ensures Inv(OnRequest(s, socket, time, f))
  {
    var s', b := OnRequest(s, socket, time, f), Bound(s, f.client, socket);
    forall c: nat | c < ME_MAX_NUM_CLIENTS ensures SessionOk(s', c) {
      assert SessionOk(s, c);
      BindKeeps(s, socket, f.client, c);
      if !s.fatal && b.sockets[f.client] == Some(socket) && f.seqNum == b.expected[f.client] {
        AcceptKeeps(b, Entry(time, socket, f), c);
      }
    }
  }

  lemma {:induction false} RequestsKeep(s: Server, socket: nat, time: nat, fs: seq<Frame>)
    requires Inv(s) && AllKnown(fs)
    ensures Inv(OnRequests(s, socket, time, fs))
    decreases |fs|
  {
    if fs != [] {
      RequestKeeps(s, socket, time, fs[0]);
      RequestsKeep(OnRequest(s, socket, time, fs[0]), socket, time, fs[1..]);
    }
  }

  lemma PublishKeeps(s: Server, out: seq<Entry>)
    requires Inv(s) && SortOf(s.pending, out)
    ensures Inv(Publish(s, out))
  {
    forall c: nat | c < ME_MAX_NUM_CLIENTS ensures SessionOk(Publish(s, out), c) { assert SessionOk(s, c); }
  }

  ghost predicate CanRun(s: Server, steps: seq<Step>)
    requires Shaped(s)
    decreases |steps|
  {
    steps == [] || (Enabled(s, steps[0]) && CanRun(Next(s, steps[0]), steps[1..]))
  }

  ghost function After(s: Server, steps: seq<Step>): (s': Server)
    requires Shaped(s) && CanRun(s, steps)
    ensures Shaped(s')
    decreases |steps|
  {
    if steps == [] then s else After(Next(s, steps[0]), steps[1..])
  }

  lemma NextKeeps(s: Server, step: Step)
    requires Inv(s) && Enabled(s, step)
    ensures Inv(Next(s, step))
  {
    match step
    case Receive(socket, time, frames) => RequestsKeep(s, socket, time, frames);
    case Sequence(out) => PublishKeeps(s, out);
  }

  lemma {:induction false} RunKeeps(s: Server, steps: seq<Step>)
    requires Inv(s) && CanRun(s, steps)
    ensures Inv(After(s, steps))
    decreases |steps|
  {
    if steps != [] {
      NextKeeps(s, steps[0]);
      RunKeeps(Next(s, steps[0]), steps[1..]);
    }
  }

  /**
   In every run each client's accepted requests carry the numbers 1, 2, 3, ... and come from one socket, and the
   requests published or pending are exactly the accepted ones, whatever the sort does with ties.
   */
  lemma IngressOrder(steps: seq<Step>, c: nat)
    requires CanRun(Start(), steps) && c < ME_MAX_NUM_CLIENTS
    ensures var s := After(Start(), steps);
      && Counted(Mine(s.accepted, c))
      && (forall e, e' | e in Mine(s.accepted, c) && e' in Mine(s.accepted, c) :: e.socket == e'.socket)
      && multiset(s.published) + multiset(s.pending) == multiset(s.accepted)
  {
    RunKeeps(Start(), steps);
    assert SessionOk(After(Start(), steps), c);
  }

  // ---- whose requests get in ---------------------------------------------------------------------

  /** The requests of one read, as they would be queued. */
  function Entries(socket: nat, time: nat, fs: seq<Frame>): (es: seq<Entry>)
    ensures |es| == |fs| && forall i | 0 <= i < |fs| :: es[i] == Entry(time, socket, fs[i])
  {
    seq(|fs|, i requires 0 <= i < |fs| => Entry(time, socket, fs[i]))
  }

  /** What a client has sent in one step. */
  function ArrivedIn(step: Step, c: nat): seq<Entry> {
    match step
    case Receive(socket, time, frames) => Mine(Entries(socket, time, frames), c)
    case Sequence(_) => []
  }

  /** Everything a client has sent over a run, in order of arrival. */
  function Arrived(steps: seq<Step>, c: nat): seq<Entry> {
    if steps == [] then [] else ArrivedIn(steps[0], c) + Arrived(steps[1..], c)
  }

  ghost predicate SessionDef(es: seq<Entry>, socket: nat, n: nat, u: bool) {
    forall i | 0 <= i < |es| :: es[i].socket == socket && es[i].frame.seqNum == n + i
  }

  /** All on one socket, numbered from `n`; folded (see `Types`). */
  ghost predicate Session(es: seq<Entry>, socket: nat, n: nat) {
    forall u: bool :: SessionDef(es, socket, n, u)
  }

  /** What the client must do next for its request to be taken. */
  ghost predicate Expects(s: Server, c: nat, socket: nat, n: nat)
    requires Shaped(s) && c < ME_MAX_NUM_CLIENTS
  {
    (s.sockets[c].None? || s.sockets[c] == Some(socket)) && s.expected[c] == n
  }

  lemma FatalBefore(s: Server, socket: nat, time: nat, fs: seq<Frame>)
    requires Shaped(s) && AllKnown(fs) && s.fatal
    ensures OnRequests(s, socket, time, fs).fatal
  {
    FatalStays(s, socket, time, fs);
  }

  /** One request of anybody; the client's own is its next. */
  lemma RequestTaken(s: Server, socket: nat, time: nat, f: Frame, c: nat, own: nat, n: nat)
    requires Shaped(s) && Known(f) && c < ME_MAX_NUM_CLIENTS && Expects(s, c, own, n)
    requires f.client == c ==> socket == own && f.seqNum == n
    requires !OnRequest(s, socket, time, f).fatal
    ensures var s' := OnRequest(s, socket, time, f);
      && Expects(s', c, own, n + if f.client == c then 1 else 0)
      && Mine(s'.accepted, c) == Mine(s.accepted, c) + if f.client == c then [Entry(time, socket, f)] else []
  {
    MineAppend(s.accepted, Entry(time, socket, f), c);
  }

  lemma FirstOfMine(socket: nat, time: nat, fs: seq<Frame>, c: nat)
    requires fs != []
    ensures Mine(Entries(socket, time, fs), c)
            == (if fs[0].client == c then [Entry(time, socket, fs[0])] else [])
               + Mine(Entries(socket, time, fs[1..]), c)
  {
    var es := Entries(socket, time, fs);
    assert es[1..] == Entries(socket, time, fs[1..]) && es[0] == Entry(time, socket, fs[0]);
  }

  /** The entry of a read's first request, if the client sent it. */
  function FirstMine(socket: nat, time: nat, fs: seq<Frame>, c: nat): seq<Entry>
    requires fs != []
  {
    if fs[0].client == c then [Entry(time, socket, fs[0])] else []
  }

  lemma FirstTaken(s: Server, socket: nat, time: nat, fs: seq<Frame>, c: nat, own: nat, n: nat)
    requires Shaped(s) && AllKnown(fs) && c < ME_MAX_NUM_CLIENTS && Expects(s, c, own, n) && fs != []
    requires Session(Mine(Entries(socket, time, fs), c), own, n) && !OnRequests(s, socket, time, fs).fatal
    ensures var s1, first := OnRequest(s, socket, time, fs[0]), FirstMine(socket, time, fs, c);
      && Expects(s1, c, own, n + |first|) && Mine(s1.accepted, c) == Mine(s.accepted, c) + first
      && Session(Mine(Entries(socket, time, fs[1..]), c), own, n + |first|)
      && Mine(Entries(socket, time, fs), c) == first + Mine(Entries(socket, time, fs[1..]), c)
  {
    var s1, first := OnRequest(s, socket, time, fs[0]), FirstMine(socket, time, fs, c);
    if s1.fatal { FatalBefore(s1, socket, time, fs[1..]); }
    FirstOfMine(socket, time, fs, c);
    SessionSplits(first, Mine(Entries(socket, time, fs[1..]), c), own, n);
    if fs[0].client == c { SessionOne(Entry(time, socket, fs[0]), own, n); }
    RequestTaken(s, socket, time, fs[0], c, own, n);
  }

  lemma {:induction false} RequestsTaken(s: Server, socket: nat, time: nat, fs: seq<Frame>, c: nat, own: nat, n: nat,
                                          mine: seq<Entry>)
    requires Shaped(s) && AllKnown(fs) && c < ME_MAX_NUM_CLIENTS && Expects(s, c, own, n)
    requires mine == Mine(Entries(socket, time, fs), c)
    requires Session(mine, own, n) && !OnRequests(s, socket, time, fs).fatal
    ensures var s' := OnRequests(s, socket, time, fs);
      Expects(s', c, own, n + |mine|) && Mine(s'.accepted, c) == Mine(s.accepted, c) + mine
    decreases |fs|
  {
    if fs == [] {
      assert Mine(s.accepted, c) + [] == Mine(s.accepted, c);
    } else {
      var first, rest := FirstMine(socket, time, fs, c), Mine(Entries(socket, time, fs[1..]), c);
      FirstTaken(s, socket, time, fs, c, own, n);
      var s1 := OnRequest(s, socket, time, fs[0]);
      RequestsTaken(s1, socket, time, fs[1..], c, own, n + |first|, rest);
      Joined(Mine(s.accepted, c), Mine(s1.accepted, c), Mine(OnRequests(s, socket, time, fs).accepted, c), first, rest,
             mine);
    }
  }

  lemma SliceOfPrefix(bs: seq<Byte>, n: nat, i: nat, j: nat)
    requires i <= j <= n <= |bs|
    ensures bs[i..j] == bs[..n][i..j]
  {}

  /** Two stretches join: `acc`, then `a` up to `mid`, then `b` up to `end`. */
  lemma Joined(acc: seq<Entry>, mid: seq<Entry>, end: seq<Entry>, a: seq<Entry>, b: seq<Entry>, all: seq<Entry>)
    requires mid == acc + a && end == mid + b && all == a + b
    ensures end == acc + all
  {}

  lemma SessionSplits(a: seq<Entry>, b: seq<Entry>, socket: nat, n: nat)
    requires Session(a + b, socket, n)
    ensures Session(a, socket, n) && Session(b, socket, n + |a|)
  {
    assert SessionDef(a + b, socket, n, true);
    forall u: bool ensures SessionDef(a, socket, n, u) {
      assert forall i | 0 <= i < |a| :: (a + b)[i] == a[i];
    }
    var m := n + |a|;
    forall u: bool ensures SessionDef(b, socket, m, u) {
      assert forall i | 0 <= i < |b| :: (a + b)[|a| + i] == b[i];
    }
  }

  lemma SessionOne(e: Entry, socket: nat, n: nat)
    requires Session([e], socket, n)
    ensures e.socket == socket && e.frame.seqNum == n
  {
    assert SessionDef([e], socket, n, true);
    assert [e][0] == e;
  }

  lemma StepFatal(s: Server, step: Step)
    requires Shaped(s) && Enabled(s, step) && s.fatal
    ensures Next(s, step).fatal
  {
    if step.Receive? { FatalBefore(s, step.socket, step.time, step.frames); }
  }

  lemma {:induction false} RunFatal(s: Server, steps: seq<Step>)
    requires Shaped(s) && CanRun(s, steps) && s.fatal
    ensures After(s, steps).fatal
    decreases |steps|
  {
    if steps != [] {
      StepFatal(s, steps[0]);
      RunFatal(Next(s, steps[0]), steps[1..]);
    }
  }

  lemma StepTakes(s: Server, step: Step, c: nat, own: nat, n: nat)
    requires Shaped(s) && Enabled(s, step) && c < ME_MAX_NUM_CLIENTS && Expects(s, c, own, n)
    requires Session(ArrivedIn(step, c), own, n) && !Next(s, step).fatal
    ensures var s', mine := Next(s, step), ArrivedIn(step, c);
      Expects(s', c, own, n + |mine|) && Mine(s'.accepted, c) == Mine(s.accepted, c) + mine
  {
    match step
    case Receive(socket, time, frames) => RequestsTaken(s, socket, time, frames, c, own, n, ArrivedIn(step, c));
    case Sequence(_) => assert Mine(s.accepted, c) + [] == Mine(s.accepted, c);
  }

  lemma AliveAfterFirst(s: Server, steps: seq<Step>)
    requires Shaped(s) && CanRun(s, steps) && steps != [] && !After(s, steps).fatal
    ensures !Next(s, steps[0]).fatal
  {
    if Next(s, steps[0]).fatal { RunFatal(Next(s, steps[0]), steps[1..]); }
  }

  lemma FirstArrived(steps: seq<Step>, c: nat, own: nat, n: nat, mine: seq<Entry>, rest: seq<Entry>)
    requires steps != [] && Session(Arrived(steps, c), own, n)
    requires mine == ArrivedIn(steps[0], c) && rest == Arrived(steps[1..], c)
    ensures Session(mine, own, n) && Session(rest, own, n + |mine|) && Arrived(steps, c) == mine + rest
  {
    SessionSplits(mine, rest, own, n);
  }

  /** A run from `before` accepted requests of the client to `after` of them. */
  lemma {:induction false} RunTakes(s: Server, steps: seq<Step>, c: nat, own: nat, n: nat, sent: seq<Entry>,
                                     before: seq<Entry>, after: seq<Entry>)
    requires Shaped(s) && CanRun(s, steps) && c < ME_MAX_NUM_CLIENTS && Expects(s, c, own, n)
    requires sent == Arrived(steps, c) && Session(sent, own, n) && !After(s, steps).fatal
    requires before == Mine(s.accepted, c) && after == Mine(After(s, steps).accepted, c)
    ensures after == before + sent
    decreases |steps|
  {
    if steps != [] {
      var s1, mine, rest := Next(s, steps[0]), ArrivedIn(steps[0], c), Arrived(steps[1..], c);
      AliveAfterFirst(s, steps);
      FirstArrived(steps, c, own, n, mine, rest);
      StepTakes(s, steps[0], c, own, n);
      var mid := Mine(s1.accepted, c);
      RunTakes(s1, steps[1..], c, own, n + |mine|, rest, mid, after);
      Joined(before, mid, after, mine, rest, sent);
    }
  }

  /**
   A client that numbers its requests 1, 2, 3, ... on one socket gets every one of them accepted, in order, whatever
   the other clients send, in every run the server survives.
   */
  lemma {:induction false} HonestSessionTaken(steps: seq<Step>, c: nat, socket: nat)
    requires CanRun(Start(), steps) && c < ME_MAX_NUM_CLIENTS
    requires Session(Arrived(steps, c), socket, 1) && !After(Start(), steps).fatal
    ensures Mine(After(Start(), steps).accepted, c) == Arrived(steps, c)
  {
    var sent := Arrived(steps, c);
    RunTakes(Start(), steps, c, socket, 1, sent, [], Mine(After(Start(), steps).accepted, c));
    assert [] + sent == sent;
  }

  // ---- a client's order reaches the engine ------------------------------------------------------

  /** Every batch finds the client's pending requests at rising receive times. */
  ghost predicate Spaced(s: Server, steps: seq<Step>, c: nat)
    requires Shaped(s) && CanRun(s, steps)
    decreases |steps|
  {
    steps == [] ||
    (&& (steps[0].Sequence? ==> StrictlyByTime(Mine(s.pending, c)))
     && Spaced(Next(s, steps[0]), steps[1..], c))
  }

  /** The engine has, or will get, the client's requests in the order they were accepted. */
  ghost predicate InOrder(s: Server, c: nat) {
    Mine(s.published, c) + Mine(s.pending, c) == Mine(s.accepted, c)
  }

  lemma EnqueuedInOrder(s: Server, e: Entry, c: nat)
    requires InOrder(s, c)
    ensures InOrder(Enqueued(s, e), c)
  {
    MineAppend(s.accepted, e, c);
    MineAppend(s.pending, e, c);
    var mine := if e.frame.client == c then [e] else [];
    Joined(Mine(s.published, c), Mine(s.accepted, c), Mine(s.accepted + [e], c), Mine(s.pending, c), mine,
           Mine(s.pending + [e], c));
  }

  lemma RequestInOrder(s: Server, socket: nat, time: nat, f: Frame, c: nat)
    requires Shaped(s) && Known(f) && InOrder(s, c)
    ensures InOrder(OnRequest(s, socket, time, f), c)
  {
    var b := Bound(s, f.client, socket);
    EnqueuedInOrder(b.(expected := b.expected[f.client := f.seqNum + 1]), Entry(time, socket, f), c);
  }

  lemma {:induction false} RequestsInOrder(s: Server, socket: nat, time: nat, fs: seq<Frame>, c: nat)
    requires Shaped(s) && AllKnown(fs) && InOrder(s, c)
    ensures InOrder(OnRequests(s, socket, time, fs), c)
    decreases |fs|
  {
    if fs != [] {
      RequestInOrder(s, socket, time, fs[0], c);
      RequestsInOrder(OnRequest(s, socket, time, fs[0]), socket, time, fs[1..], c);
    }
  }

  lemma PublishInOrder(s: Server, out: seq<Entry>, c: nat)
    requires InOrder(s, c) && SortOf(s.pending, out) && StrictlyByTime(Mine(s.pending, c))
    ensures InOrder(Publish(s, out), c)
  {
    StrictIsKept(s.pending, out, c);
    PickAppend(s.published, out, OfClient(c));
  }

  lemma {:induction false} RunInOrder(s: Server, steps: seq<Step>, c: nat)
    requires Shaped(s) && CanRun(s, steps) && Spaced(s, steps, c) && InOrder(s, c)
    ensures InOrder(After(s, steps), c)
    decreases |steps|
  {
    if steps != [] {
      match steps[0] {
        case Receive(socket, time, frames) => RequestsInOrder(s, socket, time, frames, c);
        case Sequence(out) => PublishInOrder(s, out, c);
      }
      RunInOrder(Next(s, steps[0]), steps[1..], c);
    }
  }

  /** Then what the engine is handed from a client is numbered 1, 2, 3, ... as well. */
  lemma EngineSeesSession(steps: seq<Step>, c: nat)
    requires CanRun(Start(), steps) && c < ME_MAX_NUM_CLIENTS && Spaced(Start(), steps, c)
    ensures Counted(Mine(After(Start(), steps).published, c))
  {
    IngressOrder(steps, c);
    RunInOrder(Start(), steps, c);
    var s := After(Start(), steps);
    forall i | 0 <= i < |Mine(s.published, c)| ensures Mine(s.published, c)[i].frame.seqNum == i + 1 {
      assert Mine(s.accepted, c)[i] == Mine(s.published, c)[i];
    }
  }

  /**
   For the next batch of any run that condition is exact: the sort is bound to keep the client's order if and only if
   it holds.
   */
  lemma NextBatchKeptIff(steps: seq<Step>, c: nat)
    requires CanRun(Start(), steps) && c < ME_MAX_NUM_CLIENTS
    ensures var s := After(Start(), steps);
      (forall out | SortOf(s.pending, out) :: Mine(out, c) == Mine(s.pending, c))
          <==> StrictlyByTime(Mine(s.pending, c))
  {
    RunKeeps(Start(), steps);
    var s := After(Start(), steps);
    assert SessionOk(s, c);
    PendingDiffers(s, c);
    EverySortKeepsIff(s.pending, c);
  }

  lemma PendingDiffers(s: Server, c: nat)
    requires Inv(s) && c < ME_MAX_NUM_CLIENTS
    ensures Different(Mine(s.pending, c))
  {
    var mine, all := Mine(s.pending, c), Mine(s.accepted, c);
    assert SessionOk(s, c);
    forall i, j | 0 <= i < j < |mine| ensures mine[i] != mine[j] {
      PickCounts(s.pending, c, mine[i]);
      PickCounts(s.accepted, c, mine[i]);
      assert multiset(all)[mine[i]] >= multiset(mine)[mine[i]];
      CountedOnce(all, mine[i]);
      if mine[i] == mine[j] { TwiceCounts(mine, i, j); }
    }
  }

  lemma {:induction false} CountedOnce(es: seq<Entry>, x: Entry)
    requires Counted(es)
    ensures multiset(es)[x] <= 1
  {
    if es != [] {
      var k := |es| - 1;
      assert es == es[..k] + [es[k]];
      CountedOnce(es[..k], x);
      if es[k] == x {
        assert forall i | 0 <= i < k :: es[..k][i] != x;
        assert x !in multiset(es[..k]);
      }
    }
  }

  lemma TwiceCounts(s: seq<Entry>, i: nat, j: nat)
    requires i < j < |s| && s[i] == s[j]
    ensures multiset(s)[s[i]] >= 2
  {
    assert s == s[..j] + [s[j]] + s[j + 1..];
    assert s[i] in s[..j] by { assert s[..j][i] == s[i]; }
    assert multiset(s[..j])[s[i]] >= 1;
  }

  // ---- as written ----------------------------------------------------------------------------------

  /** What happens to one client: it sends its next request, or the server sends it a response. */
  datatype Event = Asks | Answers

  /** The one counter that order_server.cpp:32 and :94-105 share. */
  datatype Shared = Shared(counter: nat, sent: nat, refused: nat)

  /**
   The client numbers its requests 1, 2, 3, ...; every response moves the counter its next request is checked against.
   */
  function HappenAsWritten(s: Shared, e: Event): Shared {
    match e
    case Asks =>
      if s.sent + 1 == s.counter then Shared(s.counter + 1, s.sent + 1, s.refused)
      else Shared(s.counter, s.sent + 1, s.refused + 1)
    case Answers => s.(counter := s.counter + 1)
  }

  function RunAsWritten(s: Shared, es: seq<Event>): Shared
    decreases |es|
  {
    if es == [] then s else RunAsWritten(HappenAsWritten(s, es[0]), es[1..])
  }

  ghost predicate AsksAfterAnswer(es: seq<Event>) {
    exists i, j :: 0 <= i < j < |es| && es[i].Answers? && es[j].Asks?
  }

  lemma {:induction false} RefusedGrows(s: Shared, es: seq<Event>)
    ensures RunAsWritten(s, es).refused >= s.refused
    decreases |es|
  {
    if es != [] { RefusedGrows(HappenAsWritten(s, es[0]), es[1..]); }
  }

  /** Once ahead, the counter stays ahead, and the next request is refused. */
  lemma {:induction false} AheadRefuses(s: Shared, es: seq<Event>)
    requires s.counter > s.sent + 1
    ensures RunAsWritten(s, es).refused > s.refused || (forall i | 0 <= i < |es| :: es[i].Answers?)
    ensures (forall i | 0 <= i < |es| :: es[i].Answers?) ==> RunAsWritten(s, es).refused == s.refused
    decreases |es|
  {
    if es != [] {
      var s' := HappenAsWritten(s, es[0]);
      if es[0].Asks? {
        RefusedGrows(s', es[1..]);
      } else {
        AheadRefuses(s', es[1..]);
      }
    }
  }

  /**
   As written, a client that numbers its requests correctly has none refused exactly when it never asks after an
   answer.
   */
  lemma {:induction false} AsWrittenAcceptsIff(s: Shared, es: seq<Event>)
    requires s.counter == s.sent + 1
    ensures RunAsWritten(s, es).refused == s.refused <==> !AsksAfterAnswer(es)
    decreases |es|
  {
    if es != [] {
      var s', rest := HappenAsWritten(s, es[0]), es[1..];
      if es[0].Asks? {
        AsWrittenAcceptsIff(s', rest);
        if AsksAfterAnswer(es) {
          var i, j :| 0 <= i < j < |es| && es[i].Answers? && es[j].Asks?;
          assert rest[i - 1].Answers? && rest[j - 1].Asks?;
        }
        if AsksAfterAnswer(rest) {
          var i, j :| 0 <= i < j < |rest| && rest[i].Answers? && rest[j].Asks?;
          assert es[i + 1].Answers? && es[j + 1].Asks?;
        }
      } else {
        AheadRefuses(s', rest);
        if j :| 0 <= j < |rest| && rest[j].Asks? { assert es[0].Answers? && es[j + 1].Asks?; }
        if AsksAfterAnswer(es) {
          var i, j :| 0 <= i < j < |es| && es[i].Answers? && es[j].Asks?;
          assert rest[j - 1].Asks?;
        }
      }
    }
  }
}
