/**
 * The device controller as the adapter sees it: packets the host has sent
 * wait in a queue until read, and packets written to an IN endpoint are
 * logged once the controller accepts them. A write finds the endpoint busy
 * while the host has not yet read the previous packet: `refusals` is how many
 * more attempts will be turned away before the host reads again, and each
 * accepted packet makes the endpoint busy again for the next of the periods
 * in `busyAfter`, which the host's timing chooses. Enumeration, the FIFOs and
 * the serialisation of descriptors are not modelled.
 */
module Driver {
  import opened Usb

  /**
   * The payload the next read of `endpoint` returns: a prefix of the packet at
   * the head of the queue, as long as it or `maxLen` allows. It is empty
   * exactly when no packet for `endpoint` waits at the head, that packet is
   * empty, or nothing may be read.
   */
  function ReadResult(queue: seq<Packet>, endpoint: byte, maxLen: nat): (r: seq<byte>)
    ensures |r| <= maxLen
    ensures r == [] <==> (queue == [] || queue[0].endpoint != endpoint || queue[0].payload == [] || maxLen == 0)
    ensures r != [] ==> |r| == Min(|queue[0].payload|, maxLen) && r == queue[0].payload[..|r|]
  {
    if queue != [] && queue[0].endpoint == endpoint
    then queue[0].payload[..Min(|queue[0].payload|, maxLen)]
    else []
  }

  /** The queue after a read of `endpoint`: the packet at the head is consumed if it is for `endpoint`, the rest keep their order. */
  function AfterRead(queue: seq<Packet>, endpoint: byte): (r: seq<Packet>)
    ensures queue != [] && queue[0].endpoint == endpoint ==> queue == [queue[0]] + r
    ensures !(queue != [] && queue[0].endpoint == endpoint) ==> r == queue
  {
    if queue != [] && queue[0].endpoint == endpoint then queue[1..] else queue
  }

  /**
   * The byte count `usbd_ep_write_packet` reports for an attempt: the payload
   * length when the controller accepts it, 0 when the endpoint is busy.
   */
  function WriteCount(accepted: bool, payload: seq<byte>): (n: nat)
    ensures n <= |payload|
    ensures accepted ==> n == |payload|
    ensures n != 0 ==> accepted
  {
    if accepted then |payload| else 0
  }

  /** The packets `chunks` make on `endpoint`, in order. */
  function OnEndpoint(endpoint: byte, chunks: seq<seq<byte>>): (r: seq<Packet>)
    ensures |r| == |chunks|
  {
    if chunks == [] then [] else [Packet(endpoint, chunks[0])] + OnEndpoint(endpoint, chunks[1..])
  }

  /** The payloads of the packets, in order. */
  function Payloads(packets: seq<Packet>): (r: seq<seq<byte>>)
    ensures |r| == |packets|
    ensures forall k :: 0 <= k < |r| ==> r[k] == packets[k].payload
  {
    if packets == [] then [] else [packets[0].payload] + Payloads(packets[1..])
  }

  class Device {
    /** OUT packets from the host, oldest first, not yet read. */
    var rxQueue: seq<Packet>
    /** IN packets the controller has accepted, in the order written. */
    var txLog: seq<Packet>
    /** Write attempts that will still find the endpoint busy. */
    var refusals: nat
    /**
     * For each packet the controller will still accept, in order, the number
     * of attempts that find the endpoint busy after it, until the host has
     * read it; once these run out the host reads at once.
     */
    var busyAfter: seq<nat>

    constructor (incoming: seq<Packet>, busy: nat, periods: seq<nat>)
      ensures rxQueue == incoming && txLog == [] && refusals == busy && busyAfter == periods
    {
      rxQueue := incoming;
      txLog := [];
      refusals := busy;
      busyAfter := periods;
    }

    /**
     * Reads the next packet from `endpoint` into `buf`, at most `maxLen`
     * bytes, and returns how many bytes were copied (0 when nothing waits).
     */
    method ReadPacket(endpoint: byte, buf: array<byte>, maxLen: nat) returns (len: nat)
      requires maxLen <= buf.Length
      modifies this`rxQueue, buf
      ensures len == |ReadResult(old(rxQueue), endpoint, maxLen)| <= maxLen
      ensures buf[..len] == ReadResult(old(rxQueue), endpoint, maxLen)
      ensures buf[len..] == old(buf[len..])
      ensures rxQueue == AfterRead(old(rxQueue), endpoint)
    {
      var p := ReadResult(rxQueue, endpoint, maxLen);
      len := |p|;
      forall k | 0 <= k < len {
        buf[k] := p[k];
      }
      rxQueue := AfterRead(rxQueue, endpoint);
    }

    /**
     * Offers one packet to `endpoint`. While the endpoint is busy the attempt
     * is refused and nothing is sent; otherwise the packet is accepted and
     * keeps the endpoint busy for the next period of `busyAfter`. Both the
     * outcome and the byte count the controller reports are returned.
     */
    method WritePacket(endpoint: byte, payload: seq<byte>) returns (accepted: bool, count: nat)
      requires IsIn(endpoint) && |payload| <= FULL_SPEED_MAX_PACKET
      modifies this`txLog, this`refusals, this`busyAfter
      ensures accepted == (old(refusals) == 0)
      ensures count == WriteCount(accepted, payload)
      ensures refusals == if !accepted then old(refusals) - 1
                          else if old(busyAfter) == [] then 0 else old(busyAfter)[0]
      ensures busyAfter == if accepted && old(busyAfter) != [] then old(busyAfter)[1..] else old(busyAfter)
      ensures txLog == if accepted then old(txLog) + [Packet(endpoint, payload)] else old(txLog)
    {
      if refusals > 0 {
        refusals := refusals - 1;
        accepted := false;
      } else {
        txLog := txLog + [Packet(endpoint, payload)];
        accepted := true;
        if busyAfter != [] {
          refusals := busyAfter[0];
          busyAfter := busyAfter[1..];
        }
      }
      count := WriteCount(accepted, payload);
    }
  }

  /** A packet just accepted keeps the endpoint busy: the next write is refused until the host has read it. */
  method BusyAfterAcceptScenario()
  {
    var dev := new Device([], 0, [1]);
    var accepted, count := dev.WritePacket(0x82, [0x41]);
    assert accepted && count == 1;
    accepted, count := dev.WritePacket(0x82, [0x42]);
    assert !accepted && count == 0 && dev.txLog == [Packet(0x82, [0x41])];
    accepted, count := dev.WritePacket(0x82, [0x42]);
    assert accepted && dev.txLog == [Packet(0x82, [0x41]), Packet(0x82, [0x42])];
  }

  /** Distributes `OnEndpoint` over the first chunk. */
  lemma OnEndpointCons(endpoint: byte, chunk: seq<byte>, rest: seq<seq<byte>>)
    ensures OnEndpoint(endpoint, [chunk] + rest) == [Packet(endpoint, chunk)] + OnEndpoint(endpoint, rest)
  {
    assert ([chunk] + rest)[1..] == rest;
  }

  /** Packet k made from chunks travels on `endpoint` and carries chunk k. */
  lemma {:induction false} OnEndpointAt(endpoint: byte, chunks: seq<seq<byte>>, k: nat)
    requires k < |chunks|
    ensures OnEndpoint(endpoint, chunks)[k] == Packet(endpoint, chunks[k])
  {
    if k > 0 {
      OnEndpointAt(endpoint, chunks[1..], k - 1);
    }
  }

  /** The payloads of the packets made from chunks are the chunks. */
  lemma PayloadsOnEndpoint(endpoint: byte, chunks: seq<seq<byte>>)
    ensures Payloads(OnEndpoint(endpoint, chunks)) == chunks
  {
    forall k | 0 <= k < |chunks|
      ensures Payloads(OnEndpoint(endpoint, chunks))[k] == chunks[k]
    {
      OnEndpointAt(endpoint, chunks, k);
    }
  }
}
