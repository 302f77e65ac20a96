/** The block framing codec used on every local socket: `packetize` and
    `getFullPacket`. server/server.go and client/client.go hold identical copies
    of both; this module models them once.

    A socket is modelled as the sequence of 1024-byte blocks it delivers, one
    block per `Read` call. */
module Framing {
  import opened Common

  const BlockSize: int := 1024

  type Block = b: Bytes | |b| == BlockSize witness Zeros(BlockSize)

  /** The largest payload whose frame `getFullPacket` reads back without any of
      its 32-bit computations wrapping around. */
  const MaxPayload: int := 0x1_0000_0000 - 1028

  /** The number of zero bytes that brings `n` header-and-payload bytes up to a
      whole number of blocks: `(1024 - (n % 1024)) % 1024`. */
  function Padding(n: nat): (pad: nat)
    ensures pad < BlockSize
    ensures (n + pad) % BlockSize == 0
    ensures n % BlockSize == 0 <==> pad == 0
  {
    (BlockSize - n % BlockSize) % BlockSize
  }

  /** `packetize`: a 4-byte big-endian length (the payload length converted to
      `uint32`), the payload, then zero padding up to a multiple of 1024 bytes. */
  function Packetize(msg: Bytes): (frame: Bytes)
    ensures |frame| == 4 + |msg| + Padding(4 + |msg|)
    ensures |frame| % BlockSize == 0 && 4 + |msg| <= |frame| < 4 + |msg| + BlockSize
  {
    Be32(Wrap32(|msg|)) + msg + Zeros(Padding(4 + |msg|))
  }

  /** The layout of a frame: its header decodes to the payload length (when that
      length fits in 32 bits), the payload follows verbatim, and every byte after
      it is zero; a payload that ends exactly on a block boundary gets no
      padding. */
  lemma PacketizeLayout(msg: Bytes)
    requires |msg| < 0x1_0000_0000
    ensures var frame := Packetize(msg);
            && ReadBe32(frame[..4]) == |msg|
            && frame[4..4 + |msg|] == msg
            && (forall i :: 4 + |msg| <= i < |frame| ==> frame[i] == 0)
            && ((|msg| + 4) % BlockSize == 0 <==> |frame| == |msg| + 4)
  {
    var frame := Packetize(msg);
    assert frame[..4] == Be32(|msg|);
  }

  /** `numberOfPackets` in `getFullPacket`: the number of blocks still to read
      after the first, computed as Go computes it, with every intermediate value
      a `uint32`. For a length that fits, it is the fewest extra blocks that,
      with the first, hold the header and the payload. */
  function ExtraBlocks(len: nat): (r: nat)
    requires len < 0x1_0000_0000
    ensures r < 0x1_0000_0000
    ensures len <= MaxPayload ==> BlockSize * r < len + 4 <= BlockSize * (r + 1)
  {
    var n := Wrap32(len + 4);
    assert len <= MaxPayload ==> BlockSize * (Wrap32(Padding(n) + n) / BlockSize - 1) < len + 4 <= Wrap32(Padding(n) + n) by {
      if len <= MaxPayload {
        var total := n + Padding(n);
        assert n == len + 4;
        assert total <= 0x1_0000_0000 - BlockSize by {
          assert (0x1_0000_0000 - BlockSize) % BlockSize == 0;
        }
        assert Wrap32(total) == total;
        assert BlockSize * (total / BlockSize) == total;
      }
    }
    Wrap32(Wrap32(Padding(n) + n) / BlockSize - 1)
  }

  /** For a payload that fits, the number of extra blocks is the frame's block
      count minus the one block already read. */
  lemma ExtraBlocksOfFrame(msg: Bytes)
    requires |msg| <= MaxPayload
    ensures |Packetize(msg)| < 0x1_0000_0000
    ensures ExtraBlocks(|msg|) == |Packetize(msg)| / BlockSize - 1
  {
    var n := |msg| + 4;
    var r := ExtraBlocks(|msg|);
    var total := |Packetize(msg)|;
    var k := total / BlockSize;
    assert total == BlockSize * k;
    // Both `k` and `r + 1` count the blocks that first cover `n` bytes.
    assert BlockSize * r < n <= total < n + BlockSize <= BlockSize * (r + 2);
    assert k == r + 1;
  }

  /** For payload lengths just under 2^32 the sum `padding + len + 4` wraps to 0
      and the count wraps to 2^32 - 1: far more blocks than the frame has. */
  lemma ExtraBlocksWrapsNearLimit(len: nat)
    requires MaxPayload < len <= 0x1_0000_0000 - 5
    ensures ExtraBlocks(len) == 0x1_0000_0000 - 1
    ensures ExtraBlocks(len) > (len + 4 + Padding(len + 4)) / BlockSize - 1
  {
    var n := len + 4;
    assert Wrap32(n) == n;
    assert n + Padding(n) == 0x1_0000_0000 by {
      assert 0x1_0000_0000 - BlockSize < n < 0x1_0000_0000;
      assert 0x1_0000_0000 % BlockSize == 0;
    }
  }

  /** The i-th block read from a socket whose incoming data is `stream`. Go
      ignores the error `Read` returns, so a read past the end of the stream
      leaves the freshly zeroed buffer as it was. */
  function ReadBlock(stream: seq<Block>, i: nat): Block
  {
    if i < |stream| then stream[i] else Zeros(BlockSize)
  }

  /** The first `n` blocks read from `stream`. */
  function Reads(stream: seq<Block>, n: nat): (blocks: seq<Block>)
    ensures |blocks| == n
    ensures forall i :: 0 <= i < n ==> blocks[i] == ReadBlock(stream, i)
  {
    seq(n, (i: int) requires 0 <= i => ReadBlock(stream, i))
  }

  /** The bytes of `blocks`, in order. */
  function Concat(blocks: seq<Block>): (bytes: Bytes)
    ensures |bytes| == BlockSize * |blocks|
  {
    if blocks == [] then [] else Concat(blocks[..|blocks| - 1]) + blocks[|blocks| - 1]
  }

  /** A whole number of blocks of bytes, cut into the blocks a socket delivers. */
  function Split(bytes: Bytes): (blocks: seq<Block>)
    requires |bytes| % BlockSize == 0
    ensures |blocks| == |bytes| / BlockSize
    ensures Concat(blocks) == bytes
  {
    if bytes == [] then []
    else
      var cut := |bytes| - BlockSize;
      var blocks := Split(bytes[..cut]) + [bytes[cut..]];
      assert blocks[..|blocks| - 1] == Split(bytes[..cut]);
      blocks
  }

  /** The first block of a non-empty sequence starts its concatenation. */
  lemma {:induction false} ConcatFirst(blocks: seq<Block>)
    requires |blocks| > 0
    ensures Concat(blocks)[..BlockSize] == blocks[0]
  {
    if |blocks| > 1 {
      var init := blocks[..|blocks| - 1];
      ConcatFirst(init);
      assert Concat(blocks)[..BlockSize] == Concat(init)[..BlockSize];
    }
  }

  /** Reading one block more appends that block to the buffer. */
  lemma ReadsStep(stream: seq<Block>, n: nat)
    ensures Concat(Reads(stream, n + 1)) == Concat(Reads(stream, n)) + ReadBlock(stream, n)
  {
    assert Reads(stream, n + 1)[..n] == Reads(stream, n);
  }

  /** The slice end `len + 4` (a `uint32`) never lies past the blocks read,
      unless it wrapped below 4, where the slice panics. */
  lemma FrameEndFits(len: nat)
    requires len < 0x1_0000_0000
    requires Wrap32(len + 4) >= 4
    ensures Wrap32(len + 4) <= BlockSize * (ExtraBlocks(len) + 1)
  {
    var n := Wrap32(len + 4);
    assert n == len + 4;
    var total := n + Padding(n);
    if total < 0x1_0000_0000 {
      assert Wrap32(total) == total;
      assert total / BlockSize >= 1;
      assert BlockSize * (total / BlockSize) == total;
    } else {
      assert total == 0x1_0000_0000;
    }
  }

  /** What one `getFullPacket` call yields: the payload, and how many blocks it
      consumed from the socket. */
  datatype Frame = Frame(payload: Bytes, blocks: nat)

  /** The meaning of `getFullPacket` on a socket delivering `stream`: the length
      in the first block's header fixes how many blocks are read in all, and the
      payload is `buffer[4:len+4]` of their concatenation, with `len + 4` taken
      as a `uint32`; a slice end below 4 panics. */
  function Deframe(stream: seq<Block>): (r: Outcome<Frame>)
    ensures var len := ReadBe32(ReadBlock(stream, 0)[..4]);
            && (r.Ok? <==> len < 0x1_0000_0000 - 4)
            && (r.Ok? ==> |r.value.payload| == len && r.value.blocks == ExtraBlocks(len) + 1)
  {
    var len := ReadBe32(ReadBlock(stream, 0)[..4]);
    var count := ExtraBlocks(len) + 1;
    var end := Wrap32(len + 4);
    if end < 4 then Panic
    else
      FrameEndFits(len);
      Ok(Frame(Concat(Reads(stream, count))[4..end], count))
  }

  /** `getFullPacket`: reads one block, decodes the length, then reads and
      appends the remaining blocks one at a time. */
  method GetFullPacket(stream: seq<Block>) returns (r: Outcome<Frame>)
    ensures r == Deframe(stream)
  {
    var buffer: Bytes := ReadBlock(stream, 0);
    var len := ReadBe32(buffer[..4]);
    var remaining: nat := ExtraBlocks(len);
    var read := 1;
    assert Reads(stream, 1) == [ReadBlock(stream, 0)];
    while remaining != 0
      invariant read + remaining == ExtraBlocks(len) + 1
      invariant buffer == Concat(Reads(stream, read))
    {
      ReadsStep(stream, read);
      buffer := buffer + ReadBlock(stream, read);
      read := read + 1;
      remaining := remaining - 1;
    }
    var end := Wrap32(len + 4);
    DeframeOfBuffer(stream, buffer, read);
    if end < 4 {
      return Panic;
    }
    r := Ok(Frame(buffer[4..end], read));
  }

  /** What `getFullPacket` does with the buffer once the loop is over is what
      `Deframe` says. */
  lemma DeframeOfBuffer(stream: seq<Block>, buffer: Bytes, read: nat)
    requires var len := ReadBe32(ReadBlock(stream, 0)[..4]);
             read == ExtraBlocks(len) + 1 && buffer == Concat(Reads(stream, read))
    ensures var len := ReadBe32(ReadBlock(stream, 0)[..4]);
            var end := Wrap32(len + 4);
            && (end < 4 ==> Deframe(stream) == Panic)
            && (end >= 4 ==> end <= |buffer| && Deframe(stream) == Ok(Frame(buffer[4..end], read)))
  {
    var len := ReadBe32(ReadBlock(stream, 0)[..4]);
    if Wrap32(len + 4) >= 4 {
      FrameEndFits(len);
    }
  }

  /** A stream whose first block announces a length below 2^32 - 4 yields the
      announced number of bytes after the header. */
  lemma DeframeAnnounced(stream: seq<Block>, len: nat)
    requires ReadBe32(ReadBlock(stream, 0)[..4]) == len && len < 0x1_0000_0000 - 4
    ensures Deframe(stream) == Ok(Frame(Concat(Reads(stream, ExtraBlocks(len) + 1))[4..len + 4], ExtraBlocks(len) + 1))
  {
  }

  /** The first blocks read from `blocks + rest` are `blocks`. */
  lemma ReadsPrefix(blocks: seq<Block>, rest: seq<Block>)
    ensures Reads(blocks + rest, |blocks|) == blocks
  {
  }

  /** Framing round trip: a socket that delivers the blocks of `packetize(p)`,
      followed by anything, yields exactly `p` and consumes exactly the frame's
      blocks. */
  lemma RoundTrip(p: Bytes, rest: seq<Block>)
    requires |p| <= MaxPayload
    ensures Deframe(Split(Packetize(p)) + rest) == Ok(Frame(p, |Packetize(p)| / BlockSize))
  {
    var frame := Packetize(p);
    var blocks := Split(frame);
    var stream := blocks + rest;
    ConcatFirst(blocks);
    assert ReadBlock(stream, 0)[..4] == frame[..4];
    PacketizeLayout(p);
    DeframeAnnounced(stream, |p|);
    ExtraBlocksOfFrame(p);
    ReadsPrefix(blocks, rest);
  }

  /** A header announcing a length of 2^32 - 4 or more makes `len + 4` wrap below
      4, and `getFullPacket` panics on the slice. */
  lemma PanicsNearLimit(stream: seq<Block>)
    requires ReadBe32(ReadBlock(stream, 0)[..4]) >= 0x1_0000_0000 - 4
    ensures Deframe(stream) == Panic
  {
  }
}
