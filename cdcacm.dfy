/**
 * The CDC-ACM adapter's run-time state and its three operations: registering
 * the receive callback, the receive path run when the bulk OUT endpoint has a
 * packet, and the send path that frames a buffer into bulk IN packets.
 *
 * The state is the connection flag, the single callback slot and, standing
 * for what the callbacks do, the log of callback invocations. The device
 * controller is a `Driver.Device`.
 */
module CdcAcm {
  import opened Usb
  import opened Descriptors
  import opened Chunking
  import opened Driver

  /** A receive callback, named by the function it points to. */
  type Callback = nat

  /** One invocation of the receive callback: which callback, the buffer it was handed, the length. */
  datatype Delivery = Delivery(callback: Callback, buf: seq<byte>, len: nat)

  /** The receive buffer as declared: exactly one packet, with no room for a terminator after a full one. */
  const AS_WRITTEN_RX_BUFFER_SIZE: nat := 64

  /** The receive buffer this model uses: one packet and its terminating NUL. */
  const RX_BUFFER_SIZE: nat := DATA_PACKET_SIZE + 1

  /**
   * The store `buf[len] = 0`: the buffer with a NUL at `len`, or None when
   * `len` is outside the buffer (a write out of bounds).
   */
  function StoreNul(buf: seq<byte>, len: int): (r: Option<seq<byte>>)
    ensures r.Some? <==> 0 <= len < |buf|
    ensures r.Some? ==> |r.value| == |buf| && r.value[len] == 0
    ensures r.Some? ==> forall k :: 0 <= k < |buf| && k != len ==> r.value[k] == buf[k]
  {
    if 0 <= len < |buf| then Some(buf[len := 0]) else None
  }

  /**
   * The receive path as written: a full packet is a legal read (the bulk OUT
   * endpoint has wMaxPacketSize 64 and the read asks for up to 64 bytes), and
   * terminating it stores one byte past the end of the 64-byte buffer.
   */
  lemma AsWrittenFullPacketOverflows(buf: seq<byte>, packet: seq<byte>)
    requires |buf| == AS_WRITTEN_RX_BUFFER_SIZE && |packet| == DATA_PACKET_SIZE
    ensures |ReadResult([Packet(DATA_OUT_ENDPOINT, packet)], DATA_OUT_ENDPOINT, DATA_PACKET_SIZE)| == 64
    ensures StoreNul(buf, |ReadResult([Packet(DATA_OUT_ENDPOINT, packet)], DATA_OUT_ENDPOINT, DATA_PACKET_SIZE)|) == None
  {
  }

  /** With room for the terminator, every read length the endpoint allows can be terminated in bounds. */
  lemma CorrectedNulInBounds(buf: seq<byte>, queue: seq<Packet>)
    requires |buf| == RX_BUFFER_SIZE
    ensures StoreNul(buf, |ReadResult(queue, DATA_OUT_ENDPOINT, DATA_PACKET_SIZE)|).Some?
  {
  }

  /** A delivery of `packet` to `callback`: the buffer holds the packet followed by a NUL, and the length is the packet's. */
  predicate Delivers(d: Delivery, callback: Callback, packet: seq<byte>)
  {
    && d.callback == callback
    && d.len == |packet|
    && |d.buf| == RX_BUFFER_SIZE
    && d.len < |d.buf|
    && d.buf[..d.len] == packet
    && d.buf[d.len] == 0
  }

  class Port {
    /** Set once a host has exchanged data; never cleared. */
    var isConnected: bool
    /** The single callback slot; None is a null pointer. */
    var receiveCallback: Option<Callback>
    /** Every invocation of a receive callback, in order. */
    var deliveries: seq<Delivery>
    /** The device controller. */
    const dev: Device

    /** The state before any call: not connected, no callback. */
    constructor (dev: Device)
      ensures !isConnected && receiveCallback == None && deliveries == []
      ensures this.dev == dev
    {
      isConnected := false;
      receiveCallback := None;
      deliveries := [];
      this.dev := dev;
    }

    /** Overwrites the callback slot; nothing else changes. */
    method RegisterReceiveCallback(callback: Option<Callback>)
      modifies this`receiveCallback
      ensures receiveCallback == callback
    {
      receiveCallback := callback;
    }

    /**
     * The receive path. Reads one packet from the bulk OUT endpoint, marks the
     * host connected whatever the read returned, and, when the packet is not
     * empty, terminates it with a NUL and hands it to the registered callback,
     * if any. `endpoint` is the endpoint the controller reports; the read
     * always uses the bulk OUT address.
     */
    method DataRx(endpoint: byte)
      modifies this`isConnected, this`deliveries, dev`rxQueue
      ensures isConnected
      ensures dev.rxQueue == AfterRead(old(dev.rxQueue), DATA_OUT_ENDPOINT)
      ensures var packet := ReadResult(old(dev.rxQueue), DATA_OUT_ENDPOINT, DATA_PACKET_SIZE);
              if packet != [] && old(receiveCallback).Some? then
                && |deliveries| == |old(deliveries)| + 1
                && deliveries[..|old(deliveries)|] == old(deliveries)
                && Delivers(deliveries[|old(deliveries)|], old(receiveCallback).value, packet)
              else
                deliveries == old(deliveries)
    {
      var buf := new byte[RX_BUFFER_SIZE];
      var len := dev.ReadPacket(DATA_OUT_ENDPOINT, buf, DATA_PACKET_SIZE);
      isConnected := true;
      if len != 0 {
        ghost var read := buf[..];
        buf[len] := 0;
        assert StoreNul(read, len) == Some(buf[..]);
        if receiveCallback.Some? {
          deliveries := deliveries + [Delivery(receiveCallback.value, buf[..], len)];
        }
      }
    }

    /**
     * Offers `payload` to the bulk IN endpoint until the controller accepts
     * it. The loop ends on acceptance, not on a non-zero byte count, so an
     * accepted zero-length packet is written once.
     */
    method WriteUntilAccepted(payload: seq<byte>)
      requires |payload| <= DATA_PACKET_SIZE
      modifies dev`txLog, dev`refusals, dev`busyAfter
      ensures dev.txLog == old(dev.txLog) + [Packet(DATA_IN_ENDPOINT, payload)]
    {
      var accepted := false;
      while !accepted
        invariant dev.txLog == if accepted then old(dev.txLog) + [Packet(DATA_IN_ENDPOINT, payload)] else old(dev.txLog)
        decreases if accepted then 0 else 1, dev.refusals
      {
        var count;
        accepted, count := dev.WritePacket(DATA_IN_ENDPOINT, payload);
      }
    }

    /**
     * The send path. Refuses, writing nothing, before a host is connected.
     * Otherwise writes a full packet for every 64 bytes while more than 64
     * remain, then the rest as one packet, and reports success.
     */
    method Send(data: seq<byte>, size: int) returns (sent: bool)
      requires 0 <= size <= |data|
      modifies dev`txLog, dev`refusals, dev`busyAfter
      ensures sent == isConnected
      ensures !sent ==> dev.refusals == old(dev.refusals) && dev.busyAfter == old(dev.busyAfter)
      ensures dev.txLog == old(dev.txLog) + if sent then OnEndpoint(DATA_IN_ENDPOINT, Chunks(data[..size])) else []
    {
      if !isConnected {
        return false;
      }
      ghost var d := data[..size];
      var i := 0;
      while size - i * DATA_PACKET_SIZE > DATA_PACKET_SIZE
        invariant 0 <= i && i * DATA_PACKET_SIZE <= size
        invariant old(dev.txLog) + OnEndpoint(DATA_IN_ENDPOINT, Chunks(d))
               == dev.txLog + OnEndpoint(DATA_IN_ENDPOINT, Chunks(d[i * DATA_PACKET_SIZE..]))
        decreases size - i * DATA_PACKET_SIZE
      {
        var offset := i * DATA_PACKET_SIZE;
        var chunk := data[offset .. offset + DATA_PACKET_SIZE];
        assert d[offset .. offset + DATA_PACKET_SIZE] == chunk;
        ChunksStep(d, offset);
        OnEndpointCons(DATA_IN_ENDPOINT, chunk, Chunks(d[offset + DATA_PACKET_SIZE..]));
        WriteUntilAccepted(chunk);
        assert offset + DATA_PACKET_SIZE == (i + 1) * DATA_PACKET_SIZE;
        i := i + 1;
      }
      var offset := i * DATA_PACKET_SIZE;
      assert d[offset..] == data[offset .. size];
      ChunksFinal(d, offset);
      OnEndpointCons(DATA_IN_ENDPOINT, data[offset .. size], []);
      WriteUntilAccepted(data[offset .. size]);
      return true;
    }
  }

  /**
   * What a successful send puts on the bus: only packets for the bulk IN
   * endpoint, every one within its packet size, whose payloads laid end to end
   * are the first `size` bytes of the buffer.
   */
  lemma SendReassembles(data: seq<byte>, size: nat)
    requires size <= |data|
    ensures forall k :: 0 <= k < |Chunks(data[..size])| ==>
              OnEndpoint(DATA_IN_ENDPOINT, Chunks(data[..size]))[k].endpoint == DATA_IN_ENDPOINT
    ensures forall k :: 0 <= k < |Chunks(data[..size])| ==>
              |OnEndpoint(DATA_IN_ENDPOINT, Chunks(data[..size]))[k].payload| <= DATA_PACKET_SIZE
    ensures Flatten(Payloads(OnEndpoint(DATA_IN_ENDPOINT, Chunks(data[..size])))) == data[..size]
  {
    var cs := Chunks(data[..size]);
    forall k | 0 <= k < |cs|
      ensures OnEndpoint(DATA_IN_ENDPOINT, cs)[k].endpoint == DATA_IN_ENDPOINT
      ensures |OnEndpoint(DATA_IN_ENDPOINT, cs)[k].payload| <= DATA_PACKET_SIZE
    {
      OnEndpointAt(DATA_IN_ENDPOINT, cs, k);
      ChunkAt(data[..size], k);
    }
    PayloadsOnEndpoint(DATA_IN_ENDPOINT, cs);
    ChunksConcatenate(data[..size]);
  }

  /** The retry test of the send loops as written: write again while the reported byte count is 0. */
  predicate AsWrittenRetries(count: nat)
  {
    count == 0
  }

  /**
   * As written, the last write of a send is repeated even after the
   * controller accepted it exactly when the send has size 0: then the last
   * packet is the empty one, its count is 0, and the loop never ends.
   */
  lemma AsWrittenRetriesEmptySend(data: seq<byte>, size: nat)
    requires size <= |data|
    ensures var cs := Chunks(data[..size]);
            AsWrittenRetries(WriteCount(true, cs[|cs| - 1])) <==> size == 0
  {
    ChunksShape(data[..size]);
  }

  /** A host sends "PING" to a port with a callback: the callback sees it once and the port is connected. */
  method PingScenario()
  {
    var ping: seq<byte> := [0x50, 0x49, 0x4E, 0x47];
    var dev := new Device([Packet(DATA_OUT_ENDPOINT, ping)], 0, []);
    var port := new Port(dev);
    port.RegisterReceiveCallback(Some(7));
    port.DataRx(DATA_OUT_ENDPOINT);
    assert port.isConnected;
    assert |port.deliveries| == 1;
    assert port.deliveries[0].callback == 7 && port.deliveries[0].len == 4;
    assert port.deliveries[0].buf[..4] == ping && port.deliveries[0].buf[4] == 0;
  }

  /** A zero-length packet reaches no callback, yet connects the port. */
  method EmptyPacketScenario()
  {
    var dev := new Device([Packet(DATA_OUT_ENDPOINT, [])], 0, []);
    var port := new Port(dev);
    port.RegisterReceiveCallback(Some(7));
    port.DataRx(DATA_OUT_ENDPOINT);
    assert port.isConnected && port.deliveries == [];
  }

  /**
   * Before any receive, a send fails and nothing reaches the bus; after one,
   * with the endpoint busy before the first packet and again after each one,
   * it is framed by `Chunks`.
   */
  method SendScenario(data: seq<byte>)
    requires |data| == 128
  {
    var dev := new Device([Packet(DATA_OUT_ENDPOINT, [])], 3, [2, 5]);
    var port := new Port(dev);
    var sent := port.Send(data, |data|);
    assert !sent && dev.txLog == [];
    port.DataRx(DATA_OUT_ENDPOINT);
    sent := port.Send(data, |data|);
    assert sent;
    TwoFullPackets(data);
    assert data[..|data|] == data;
    assert |dev.txLog| == 2 && dev.txLog[0].payload == Chunks(data)[0];
  }
}
