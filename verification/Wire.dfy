/**
 The bytes of a client session. A request travels as a packed record of 38 bytes,
 little-endian (exchange/order_server/client_request.h:12-79), and the server
 reassembles records from whatever pieces the stream arrives in
 (exchange/order_server/order_server.cpp:10-51).
 */
module Wire {

  type Byte = b: nat | b < 256

  // ---- little-endian numbers ------------------------------------------------------------

  function Pow256(n: nat): (p: nat)
    ensures p > 0
  {
    if n == 0 then 1 else 256 * Pow256(n - 1)
  }

  function Number(bs: seq<Byte>): nat {
    if bs == [] then 0 else bs[0] + 256 * Number(bs[1..])
  }

  function Bytes(x: nat, n: nat): (bs: seq<Byte>)
    ensures |bs| == n
  {
    if n == 0 then [] else [x % 256] + Bytes(x / 256, n - 1)
  }

  lemma {:induction false} NumberOfBytes(x: nat, n: nat)
    requires x < Pow256(n)
    ensures Number(Bytes(x, n)) == x
  {
    if n > 0 {
      NumberOfBytes(x / 256, n - 1);
      assert ([x % 256] + Bytes(x / 256, n - 1))[1..] == Bytes(x / 256, n - 1);
    }
  }

  lemma {:induction false} BytesOfNumber(bs: seq<Byte>)
    ensures Bytes(Number(bs), |bs|) == bs && Number(bs) < Pow256(|bs|)
  {
    if bs != [] { BytesOfNumber(bs[1..]); }
  }

  // ---- one record ---------------------------------------------------------------------------

  /** `OMClientRequest` field by field; `kind` and `side` are the raw bytes of the two enumerations. */
  datatype Frame = Frame(seqNum: nat, kind: nat, client: nat, ticker: nat, oid: nat, price: nat, qty: nat, side: nat)

  const FRAME: nat := 38

  ghost predicate Fits(f: Frame) {
    && f.seqNum < Pow256(8) && f.kind < Pow256(1) && f.client < Pow256(4) && f.ticker < Pow256(4)
    && f.oid < Pow256(8) && f.price < Pow256(8) && f.qty < Pow256(4) && f.side < Pow256(1)
  }

  function Encode(f: Frame): (bs: seq<Byte>)
    ensures |bs| == FRAME
  {
    Bytes(f.seqNum, 8) + Bytes(f.kind, 1) + Bytes(f.client, 4) + Bytes(f.ticker, 4) +
    Bytes(f.oid, 8) + Bytes(f.price, 8) + Bytes(f.qty, 4) + Bytes(f.side, 1)
  }

  function Decode(bs: seq<Byte>): Frame
    requires |bs| == FRAME
  {
    Frame(Number(bs[0..8]), Number(bs[8..9]), Number(bs[9..13]), Number(bs[13..17]),
          Number(bs[17..25]), Number(bs[25..33]), Number(bs[33..37]), Number(bs[37..38]))
  }

  lemma Slices(a: seq<Byte>, b: seq<Byte>, c: seq<Byte>, d: seq<Byte>, e: seq<Byte>, f: seq<Byte>, g: seq<Byte>,
      h: seq<Byte>)
    requires |a| == 8 && |b| == 1 && |c| == 4 && |d| == 4 && |e| == 8 && |f| == 8 && |g| == 4 && |h| == 1
    ensures var s := a + b + c + d + e + f + g + h;
      && s[0..8] == a && s[8..9] == b && s[9..13] == c && s[13..17] == d
      && s[17..25] == e && s[25..33] == f && s[33..37] == g && s[37..38] == h
  {}

  lemma DecodeEncode(f: Frame)
    requires Fits(f)
    ensures Decode(Encode(f)) == f
  {
    Slices(Bytes(f.seqNum, 8), Bytes(f.kind, 1), Bytes(f.client, 4), Bytes(f.ticker, 4),
           Bytes(f.oid, 8), Bytes(f.price, 8), Bytes(f.qty, 4), Bytes(f.side, 1));
    NumberOfBytes(f.seqNum, 8);
    NumberOfBytes(f.kind, 1);
    NumberOfBytes(f.client, 4);
    NumberOfBytes(f.ticker, 4);
    NumberOfBytes(f.oid, 8);
    NumberOfBytes(f.price, 8);
    NumberOfBytes(f.qty, 4);
    NumberOfBytes(f.side, 1);
  }

  /** No two byte strings mean the same record, and every record read fits its fields. */
  lemma EncodeDecode(bs: seq<Byte>)
    requires |bs| == FRAME
    ensures Fits(Decode(bs)) && Encode(Decode(bs)) == bs
  {
    BytesOfNumber(bs[0..8]);
    BytesOfNumber(bs[8..9]);
    BytesOfNumber(bs[9..13]);
    BytesOfNumber(bs[13..17]);
    BytesOfNumber(bs[17..25]);
    BytesOfNumber(bs[25..33]);
    BytesOfNumber(bs[33..37]);
    BytesOfNumber(bs[37..38]);
    assert bs[0..8] + bs[8..9] + bs[9..13] + bs[13..17] + bs[17..25] + bs[25..33] + bs[33..37] + bs[37..38] == bs;
  }

  /** Four bytes, the lowest first. */
  function Four(b0: Byte, b1: Byte, b2: Byte, b3: Byte): nat { b0 + 0x100 * b1 + 0x1_0000 * b2 + 0x100_0000 * b3 }

  function Eight(bs: seq<Byte>, at: nat): nat
    requires at + 8 <= |bs|
  {
    Four(bs[at], bs[at + 1], bs[at + 2], bs[at + 3])
    + 0x1_0000_0000 * Four(bs[at + 4], bs[at + 5], bs[at + 6], bs[at + 7])
  }

  lemma NumberFour(bs: seq<Byte>)
    requires |bs| == 4
    ensures Number(bs) == Four(bs[0], bs[1], bs[2], bs[3])
  {
    var b1, b2, b3 := bs[1..], bs[2..], bs[3..];
    assert b1[1..] == b2 && b2[1..] == b3 && b3[1..] == [];
    assert Number(b3) == bs[3] && Number(b2) == bs[2] + 256 * Number(b3) && Number(b1) == bs[1] + 256 * Number(b2);
  }

  lemma NumberEight(bs: seq<Byte>)
    requires |bs| == 8
    ensures Number(bs) == Eight(bs, 0)
  {
    var b1, b2, b3, b4 := bs[1..], bs[2..], bs[3..], bs[4..];
    assert b1[1..] == b2 && b2[1..] == b3 && b3[1..] == b4;
    NumberFour(b4);
    assert Number(b3) == bs[3] + 256 * Number(b4) && Number(b2) == bs[2] + 256 * Number(b3);
    assert Number(b1) == bs[1] + 256 * Number(b2);
  }

  lemma NumberOne(bs: seq<Byte>)
    requires |bs| == 1
    ensures Number(bs) == bs[0]
  {
    assert bs[1..] == [];
  }

  /** The record byte by byte: which byte holds what, and in which order. */
  lemma Layout(bs: seq<Byte>)
    requires |bs| == FRAME
    ensures var f := Decode(bs);
      && f.seqNum == Eight(bs, 0)
      && f.kind == bs[8]
      && f.client == Four(bs[9], bs[10], bs[11], bs[12])
      && f.ticker == Four(bs[13], bs[14], bs[15], bs[16])
      && f.oid == Eight(bs, 17)
      && f.price == Eight(bs, 25)
      && f.qty == Four(bs[33], bs[34], bs[35], bs[36])
      && f.side == bs[37]
  {
    NumberEight(bs[0..8]);
    NumberOne(bs[8..9]);
    NumberFour(bs[9..13]);
    NumberFour(bs[13..17]);
    NumberEight(bs[17..25]);
    NumberEight(bs[25..33]);
    NumberFour(bs[33..37]);
    NumberOne(bs[37..38]);
  }

  // ---- a stream of records -------------------------------------------------------------------

  /** The complete records at the front of a byte string. */
  function Frames(bs: seq<Byte>): seq<Frame> {
    if |bs| < FRAME then [] else [Decode(bs[..FRAME])] + Frames(bs[FRAME..])
  }

  /** What is left behind them: always less than one record. */
  function Leftover(bs: seq<Byte>): (rest: seq<Byte>)
    ensures |rest| < FRAME
  {
    if |bs| < FRAME then bs else Leftover(bs[FRAME..])
  }

  lemma {:induction false} FramesAppend(a: seq<Byte>, b: seq<Byte>)
    ensures Frames(a + b) == Frames(a) + Frames(Leftover(a) + b)
    ensures Leftover(a + b) == Leftover(Leftover(a) + b)
  {
    if |a| >= FRAME {
      FramesAppend(a[FRAME..], b);
      assert (a + b)[..FRAME] == a[..FRAME] && (a + b)[FRAME..] == a[FRAME..] + b;
      var first, more, rest := [Decode(a[..FRAME])], Frames(a[FRAME..]), Frames(Leftover(a) + b);
      assert first + (more + rest) == (first + more) + rest;
    }
  }

  datatype Fed = Fed(frames: seq<Frame>, buffer: seq<Byte>)

  /** The stream arrives in pieces; each time, the complete records are taken and the rest stays in the buffer. */
  function FeedAll(buffer: seq<Byte>, chunks: seq<seq<Byte>>): Fed
    decreases |chunks|
  {
    if chunks == [] then Fed([], buffer)
    else
      var bs := buffer + chunks[0];
      var rest := FeedAll(Leftover(bs), chunks[1..]);
      Fed(Frames(bs) + rest.frames, rest.buffer)
  }

  function Join(chunks: seq<seq<Byte>>): seq<Byte> {
    if chunks == [] then [] else chunks[0] + Join(chunks[1..])
  }

  /** Reassembly does not depend on how the stream was cut: the records and the rest are those of the whole stream. */
  lemma {:induction false} ChunkingIrrelevant(buffer: seq<Byte>, chunks: seq<seq<Byte>>)
    requires |buffer| < FRAME
    ensures FeedAll(buffer, chunks) == Fed(Frames(buffer + Join(chunks)), Leftover(buffer + Join(chunks)))
    decreases |chunks|
  {
    if chunks == [] {
      assert buffer + [] == buffer;
    } else {
      var bs := buffer + chunks[0];
      ChunkingIrrelevant(Leftover(bs), chunks[1..]);
      FramesAppend(bs, Join(chunks[1..]));
      assert buffer + Join(chunks) == bs + Join(chunks[1..]);
    }
  }

  function EncodeAll(fs: seq<Frame>): seq<Byte> {
    if fs == [] then [] else Encode(fs[0]) + EncodeAll(fs[1..])
  }

  lemma {:induction false} FramesOfEncoded(fs: seq<Frame>)
    requires forall i | 0 <= i < |fs| :: Fits(fs[i])
    ensures Frames(EncodeAll(fs)) == fs && Leftover(EncodeAll(fs)) == []
  {
    if fs != [] {
      DecodeEncode(fs[0]);
      FramesOfEncoded(fs[1..]);
      var bs := EncodeAll(fs);
      assert bs[..FRAME] == Encode(fs[0]) && bs[FRAME..] == EncodeAll(fs[1..]);
    }
  }

  /**
   Whatever a client sends, and however its bytes are cut on the way, the server takes exactly those requests in that
   order.
   */
  lemma SessionRoundTrip(fs: seq<Frame>, chunks: seq<seq<Byte>>)
    requires (forall i | 0 <= i < |fs| :: Fits(fs[i])) && Join(chunks) == EncodeAll(fs)
    ensures FeedAll([], chunks) == Fed(fs, [])
  {
    ChunkingIrrelevant([], chunks);
    FramesOfEncoded(fs);
    assert [] + Join(chunks) == Join(chunks);
  }

  // ---- the receive buffer -------------------------------------------------------------------

  /** memcpy: the two ranges must not overlap. */
  method MemCpy(a: array<Byte>, from: nat, len: nat)
    requires from + len <= a.Length && len <= from
    modifies a
    ensures a[..len] == old(a[from..from + len])
  {
    var k := 0;
    while k < len
      invariant k <= len && a[..k] == old(a[from..from + k])
      invariant forall j | len <= j < a.Length :: a[j] == old(a[j])
    {
      a[k] := a[from + k];
      k := k + 1;
    }
  }

  class TCPSocket {
    const fd: nat
    const rcvBuffer: array<Byte>
    var nextRcvValidIndex: nat

    ghost predicate Valid()
      reads this
    {
      nextRcvValidIndex <= rcvBuffer.Length
    }

    ghost function Data(): seq<Byte>
      requires Valid()
      reads this, rcvBuffer
    {
      rcvBuffer[..nextRcvValidIndex]
    }

    constructor (fd: nat, size: nat)
      ensures Valid() && Data() == [] && this.fd == fd && rcvBuffer.Length == size && fresh(rcvBuffer)
    {
      this.fd := fd;
      rcvBuffer := new Byte[size](_ => 0);
      nextRcvValidIndex := 0;
    }

    /** What the operating system delivers joins the valid bytes (common/tcp_socket.cpp:36-57). */
    method Arrive(chunk: seq<Byte>)
      requires Valid() && |chunk| <= rcvBuffer.Length - nextRcvValidIndex
      modifies this`nextRcvValidIndex, rcvBuffer
      ensures Valid() && Data() == old(Data()) + chunk
    {
      var k := 0;
      while k < |chunk|
        invariant k <= |chunk| && Valid() && nextRcvValidIndex == old(nextRcvValidIndex) + k
        invariant Data() == old(Data()) + chunk[..k]
      {
        rcvBuffer[nextRcvValidIndex] := chunk[k];
        nextRcvValidIndex := nextRcvValidIndex + 1;
        k := k + 1;
      }
      assert chunk[..k] == chunk;
    }

    /** order_server.cpp:47-50: the bytes after `i` move to the front. */
    method Compact(i: nat)
      requires Valid() && i <= nextRcvValidIndex && nextRcvValidIndex - i <= i
      modifies this`nextRcvValidIndex, rcvBuffer
      ensures Valid() && Data() == old(Data())[i..]
    {
      var len := nextRcvValidIndex - i;
      MemCpy(rcvBuffer, i, len);
      nextRcvValidIndex := len;
    }
  }
}
