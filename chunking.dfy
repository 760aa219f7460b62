/**
 * How the send path frames a buffer into bulk packets: full packets while more
 * than one packet's worth remains, then one last packet with the rest. The
 * last packet is a full one when the size is a multiple of the packet size
 * (no zero-length packet follows it), and it is empty only when the whole
 * buffer is.
 */
module Chunking {
  import opened Usb
  import opened Descriptors

  /** The packets written for `d`, in order: at least one, none longer than a bulk packet. */
  function Chunks(d: seq<byte>): (r: seq<seq<byte>>)
    ensures |r| > 0
    ensures forall k :: 0 <= k < |r| ==> |r[k]| <= DATA_PACKET_SIZE
    decreases |d|
  {
    if |d| <= DATA_PACKET_SIZE then [d]
    else [d[..DATA_PACKET_SIZE]] + Chunks(d[DATA_PACKET_SIZE..])
  }

  /** The number of packets for `n` bytes: one for an empty buffer, else n / 64 rounded up. */
  function ChunkCount(n: nat): nat
  {
    if n == 0 then 1 else (n + DATA_PACKET_SIZE - 1) / DATA_PACKET_SIZE
  }

  /** More than one packet's worth left at `offset`: the next packet is the full one there. */
  lemma ChunksStep(d: seq<byte>, offset: nat)
    requires offset + DATA_PACKET_SIZE < |d|
    ensures Chunks(d[offset..]) == [d[offset .. offset + DATA_PACKET_SIZE]] + Chunks(d[offset + DATA_PACKET_SIZE..])
  {
    var rest := d[offset..];
    assert rest[..DATA_PACKET_SIZE] == d[offset .. offset + DATA_PACKET_SIZE];
    assert rest[DATA_PACKET_SIZE..] == d[offset + DATA_PACKET_SIZE..];
  }

  /** At most one packet's worth left: it is the last packet. */
  lemma ChunksFinal(d: seq<byte>, offset: nat)
    requires offset <= |d| <= offset + DATA_PACKET_SIZE
    ensures Chunks(d[offset..]) == [d[offset..]]
  {
  }

  /** The packets laid end to end give back the buffer, in order. */
  lemma {:induction false} ChunksConcatenate(d: seq<byte>)
    ensures Flatten(Chunks(d)) == d
    decreases |d|
  {
    if |d| <= DATA_PACKET_SIZE {
      assert Chunks(d)[1..] == [];
    } else {
      var rest := d[DATA_PACKET_SIZE..];
      ChunksConcatenate(rest);
      assert Chunks(d)[0] == d[..DATA_PACKET_SIZE];
      assert Chunks(d)[1..] == Chunks(rest);
      assert d[..DATA_PACKET_SIZE] + rest == d;
    }
  }

  /** There are ceil(size / 64) packets, and one for an empty buffer. */
  lemma {:induction false} ChunksCount(d: seq<byte>)
    ensures |Chunks(d)| == ChunkCount(|d|)
    decreases |d|
  {
    if |d| > DATA_PACKET_SIZE {
      ChunksCount(d[DATA_PACKET_SIZE..]);
    }
  }

  /** Packet k is the slice of the buffer at offset 64 * k, at most 64 bytes long. */
  lemma {:induction false} ChunkAt(d: seq<byte>, k: nat)
    requires k < |Chunks(d)|
    ensures k * DATA_PACKET_SIZE < |d| || (k == 0 && d == [])
    ensures Chunks(d)[k] == d[k * DATA_PACKET_SIZE .. Min((k + 1) * DATA_PACKET_SIZE, |d|)]
    decreases |d|
  {
    if |d| > DATA_PACKET_SIZE && k > 0 {
      var rest := d[DATA_PACKET_SIZE..];
      ChunkAt(rest, k - 1);
      assert Chunks(d)[k] == Chunks(rest)[k - 1];
      var lo, hi := (k - 1) * DATA_PACKET_SIZE, Min(k * DATA_PACKET_SIZE, |rest|);
      assert lo + DATA_PACKET_SIZE == k * DATA_PACKET_SIZE;
      assert hi + DATA_PACKET_SIZE == Min((k + 1) * DATA_PACKET_SIZE, |d|);
      assert rest[lo..hi] == d[lo + DATA_PACKET_SIZE .. hi + DATA_PACKET_SIZE];
    }
  }

  /**
   * Every packet but the last is full; the last holds between 1 and 64 bytes
   * when the buffer is not empty, and an empty buffer is sent as exactly one
   * zero-length packet.
   */
  lemma {:induction false} ChunksShape(d: seq<byte>)
    ensures forall k :: 0 <= k < |Chunks(d)| - 1 ==> |Chunks(d)[k]| == DATA_PACKET_SIZE
    ensures |d| > 0 ==> 0 < |Chunks(d)[|Chunks(d)| - 1]| <= DATA_PACKET_SIZE
    ensures |d| > 0 ==> |Chunks(d)[|Chunks(d)| - 1]| == |d| - (|Chunks(d)| - 1) * DATA_PACKET_SIZE
    ensures d == [] ==> Chunks(d) == [[]]
    decreases |d|
  {
    if |d| > DATA_PACKET_SIZE {
      var rest := d[DATA_PACKET_SIZE..];
      ChunksShape(rest);
      var r := Chunks(d);
      assert r[1..] == Chunks(rest);
      forall k | 0 <= k < |r| - 1
        ensures |r[k]| == DATA_PACKET_SIZE
      {
        if k > 0 {
          assert r[k] == Chunks(rest)[k - 1];
        }
      }
      assert r[|r| - 1] == Chunks(rest)[|Chunks(rest)| - 1];
    }
  }

  // The sizes of the three framing cases.

  /** Five bytes go out as one packet holding them. */
  lemma ShortBuffer()
    ensures Chunks([0x48, 0x45, 0x4C, 0x4C, 0x4F]) == [[0x48, 0x45, 0x4C, 0x4C, 0x4F]]
  {
  }

  /** 128 bytes go out as two full packets. */
  lemma TwoFullPackets(d: seq<byte>)
    requires |d| == 128
    ensures |Chunks(d)| == 2 && |Chunks(d)[0]| == 64 && |Chunks(d)[1]| == 64
  {
    assert Chunks(d[64..]) == [d[64..]];
  }

  /** 64 bytes go out as one full packet, with no zero-length packet after it. */
  lemma ExactPacketHasNoTerminator(d: seq<byte>)
    requires |d| == DATA_PACKET_SIZE
    ensures Chunks(d) == [d]
  {
  }
}
