# CDC-ACM virtual serial port adapter, modelled in Dafny

This project models `src/modules/cdcacm.c` of the superbitrf firmware. That file makes an
STM32F1 look like a USB CDC-ACM serial port (Abstract Control Model of the Communications
Device Class) to a host. It is built on the libopencm3 USB stack. The model covers four parts:

- **Descriptor tables**: the device, configuration, interface and endpoint descriptors of
  chapter 9 of the USB 2.0 specification, plus the four CDC functional descriptors of
  sections 5.2.3.1, 5.2.3.2, 5.2.3.3 and 5.2.3.8 of the USB CDC 1.1 class definition.
  They are immutable values (`Descriptors`, `Functional`). The functional descriptors are a packed struct
  that the communication interface points to as `extra`. The model gives its byte image, and
  implements the host's walk over that image, which follows each record's `bFunctionLength`.
  It proves the walk gives the descriptors back. Consistency predicates relate interface numbers,
  endpoint counts, endpoint addresses and packet sizes to what the rest of the file uses.
  Each table's contract states that it is well formed; lemmas relate the tables to each other.
- **Control requests** (`Control.HandleRequest`): a stateless decision for class
  requests. SetControlLineState is always acknowledged. SetLineCoding is acknowledged when at
  least a full line coding structure (7 bytes, section 6.2.12 of CDC 1.1) arrived. Everything
  else is refused.
- **Connection flag and receive path** (`CdcAcm.Port`): the flag `is_connected`, the single
  callback slot, and the receive callback. That callback reads up to 64 bytes from bulk
  endpoint 0x01, NUL-terminates them and hands them to the registered callback.
- **Chunked send** (`CdcAcm.Port.Send`, specified by `Chunking.Chunks`): the buffer is split
  into 64-byte packets for bulk endpoint 0x82. Each packet is retried until the controller
  accepts it.

The USB controller driver is an abstract `Driver.Device`:
- a queue of OUT packets the host has sent;
- a log of accepted IN packets;
- a budget of write attempts that will still find the endpoint busy;
- for each packet it will still accept, how many attempts find the endpoint busy after it,
  until the host has read it. The host's timing chooses these periods; they are finite, which
  stands for a host that eventually reads.

What the registered callback does is out of scope. The model records each call of it,
with the buffer and the length, in `Port.deliveries`.

Behaviour of the code worth stating on its own:
- A receive with a zero-length read still sets the connection flag. The flag is set at line 218,
  before the `if (len)` at line 220, so a zero-length packet connects the port but reaches no callback.
- A size that is an exact multiple of 64 ends with a full packet and no zero-length packet
  (loop condition `> 64`, line 304). A host read asking for more than was sent ends only on a
  short or zero-length packet (section 5.8.3 of the USB 2.0 specification); after a full last
  packet the code sends none, and `Chunking.ExactPacketHasNoTerminator` states what it does.
- In the model a send of size 0 writes exactly one zero-length packet. As written, that send
  does not return (the second finding below).

## Model

| member | source | states |
|---|---|---|
| `Functional.Encode` | src/modules/cdcacm.c:84-117 | the packed image of the four functional descriptors is 5 + 5 + 4 + 5 = 19 bytes, the `sizeof` used as `extralen` |
| `Functional.SplitRecords` | src/modules/cdcacm.c:133-134 | a chain walk that succeeds yields records that are each sized by their own first byte and that concatenate back to the blob |
| `Functional.SplitFlatten` | src/modules/cdcacm.c:89-117 | walking self-sized records laid end to end recovers exactly those records |
| `Functional.RoundTrip` | src/modules/cdcacm.c:84-117 | parsing the image of well-formed functional descriptors (lengths, CS_INTERFACE type, subtypes) gives them back |
| `Functional.Parse` | src/modules/cdcacm.c:133-134 | whatever the host's walk over `extra` accepts is four well-formed functional descriptors |
| `Functional.ParseSound` | src/modules/cdcacm.c:84-117 | every blob the parser accepts is exactly the image of the descriptors it yields (the converse of RoundTrip) |
| `Functional.EncodeIsFlatten` | src/modules/cdcacm.c:84-89 | the image is the four records in declaration order with no padding (the struct is packed) |
| `Descriptors.Device` | src/modules/cdcacm.c:39-54 | the device descriptor has the chapter 9 length and type, a legal endpoint 0 packet size (8, 16, 32 or 64), one configuration and the CDC class |
| `Descriptors.CommEndpoints` | src/modules/cdcacm.c:57-64 | the communication interface has one well-formed endpoint, the interrupt IN endpoint 0x83 |
| `Descriptors.DataEndpoints` | src/modules/cdcacm.c:67-81 | the data interface has two well-formed bulk endpoints of 64-byte packets: OUT 0x01 first, IN 0x82 second |
| `Descriptors.CdcAcmFunctionalDescriptors` | src/modules/cdcacm.c:89-117 | the four functional descriptors are well formed, and the data interface named by call management is the union's subordinate and differs from its controlling interface |
| `Descriptors.CommInterface` | src/modules/cdcacm.c:120-135 | interface 0, alternate 0, is CDC / ACM / AT commands, counts its one endpoint in bNumEndpoints, and its 19 `extra` bytes (`extralen`) parse back to the functional descriptors |
| `Descriptors.DataInterface` | src/modules/cdcacm.c:138-150 | interface 1, alternate 0, is data class, counts its two endpoints and has no extra bytes |
| `Descriptors.Interfaces` | src/modules/cdcacm.c:153-159 | two interfaces, each with the one alternate setting it claims, numbered by position |
| `Descriptors.Config` | src/modules/cdcacm.c:162-173 | the configuration is well formed, counts its two interfaces, has the reserved attribute bit 7 set and asks for 100 mA |
| `Descriptors.EndpointSetups` | src/modules/cdcacm.c:239-242 | three endpoints are opened, at distinct addresses with distinct non-zero endpoint numbers, each with a packet size within the full-speed limit |
| `Descriptors.PairingConsistent` | src/modules/cdcacm.c:96-143 | the union names interface 0 as controlling and interface 1 as subordinate, call management names interface 1, and these are the numbers of the communication (CDC/ACM/AT) and data interfaces |
| `Descriptors.TransferEngineConsistent` | src/modules/cdcacm.c:67-81 | the data interface declares bulk OUT 0x01 and bulk IN 0x82 with 64-byte packets, the addresses read at line 217 and written at lines 305 and 309; every endpoint opened at lines 239-242 (including interrupt 0x83 with 16 bytes) is declared with that type and size |
| `Control.HandleRequest` | src/modules/cdcacm.c:185-207 | the answer is HANDLED (1) or NOT_SUPPORTED (0); SetControlLineState is always HANDLED; SetLineCoding is HANDLED iff len >= 7; every other request is NOT_SUPPORTED |
| `Control.Stateless` | src/modules/cdcacm.c:188-192 | the answer depends only on bRequest and the length: the other SETUP fields and the payload do not change it |
| `Control.AcceptedRequests` | src/modules/cdcacm.c:192-206 | the accepted requests are exactly SetControlLineState and SetLineCoding with at least 7 bytes |
| `Control.OtherAcmRequestsRefused` | src/modules/cdcacm.c:205-206 | GetLineCoding and SendBreak are refused |
| `Chunking.Chunks` | src/modules/cdcacm.c:304-309 | a send writes at least one packet, and none longer than the 64-byte bulk packet |
| `Chunking.ChunksConcatenate` | src/modules/cdcacm.c:304-309 | the packets, laid end to end in order, are exactly the buffer |
| `Chunking.ChunksCount` | src/modules/cdcacm.c:304-309 | there are ceil(size / 64) packets for size > 0, and one for size 0 |
| `Chunking.ChunkAt` | src/modules/cdcacm.c:304-309 | packet k is `data[64k .. min(64k + 64, size)]`, so offsets go up by 64 and each offset is inside the buffer |
| `Chunking.ChunksShape` | src/modules/cdcacm.c:304-309 | every packet but the last has 64 bytes; for size > 0 the last has size - 64k bytes, between 1 and 64; size 0 gives one zero-length packet |
| `Chunking.ChunksStep` | src/modules/cdcacm.c:304-306 | while more than 64 bytes remain at an offset, the next packet is the full 64 bytes there |
| `Chunking.ChunksFinal` | src/modules/cdcacm.c:309 | once at most 64 bytes remain, they go out as the last packet |
| `Chunking.ShortBuffer` | src/modules/cdcacm.c:304-309 | "HELLO" goes out as one 5-byte packet |
| `Chunking.TwoFullPackets` | src/modules/cdcacm.c:304-309 | 128 bytes go out as two 64-byte packets |
| `Chunking.ExactPacketHasNoTerminator` | src/modules/cdcacm.c:304-309 | 64 bytes go out as one full packet, with no zero-length packet after it |
| `Driver.ReadResult` | src/modules/cdcacm.c:217 | a read returns at most the requested bytes, a prefix of the head packet as long as it or the limit allows, and is empty exactly when no packet for the endpoint waits at the head, that packet is empty, or the limit is 0 |
| `Driver.AfterRead` | src/modules/cdcacm.c:217 | a read consumes the head packet when it is for the endpoint and leaves the other packets in order; otherwise the queue is unchanged |
| `Driver.WriteCount` | src/modules/cdcacm.c:305 | the count a write reports is at most the payload length, equals it when accepted, and is non-zero only when accepted |
| `Driver.Device.ReadPacket` | src/modules/cdcacm.c:217 | the read copies the next packet of the endpoint, cut to the requested 64 bytes, and returns its length; the rest of the buffer is untouched |
| `Driver.Device.WritePacket` | src/modules/cdcacm.c:305 | a write to an IN endpoint is refused while the endpoint is busy, otherwise logged, after which the endpoint is busy again for the next period the host's timing chose; it reports the byte count (`WriteCount`) and demands a payload within the full-speed packet size |
| `Driver.OnEndpointAt` | src/modules/cdcacm.c:305 | the k-th packet sent from a chunk list travels on the given endpoint and carries chunk k |
| `Driver.PayloadsOnEndpoint` | src/modules/cdcacm.c:305-309 | the payloads of the packets sent are the chunks, in order |
| `CdcAcm.Port.constructor` | src/modules/cdcacm.c:30-36 | initially not connected, no callback registered, nothing delivered |
| `CdcAcm.Port.RegisterReceiveCallback` | src/modules/cdcacm.c:288-290 | the single slot now holds the given callback (or none); nothing else changes |
| `CdcAcm.Port.DataRx` | src/modules/cdcacm.c:212-230 | after a receive the port is connected whatever the read length (so repeating it keeps the flag set); the packet is consumed; the callback runs exactly once iff the packet is non-empty and a callback is registered, with the length and a buffer holding the packet followed by a NUL |
| `CdcAcm.Port.WriteUntilAccepted` | src/modules/cdcacm.c:305 | the retry loop ends, once the controller accepts, with the packet appended once to the bulk IN log, empty packets included |
| `CdcAcm.Port.Send` | src/modules/cdcacm.c:297-312 | not connected: returns false, writes nothing and leaves the endpoint's busy budget alone; connected: returns true and appends exactly the packets `Chunks(data[..size])` on endpoint 0x82 |
| `CdcAcm.SendReassembles` | src/modules/cdcacm.c:304-311 | everything a send writes goes to 0x82, fits 64 bytes, and the payloads concatenate to `data[..size]` |
| `CdcAcm.StoreNul` | src/modules/cdcacm.c:224 | the NUL store is in bounds iff 0 <= len < buffer size; when it is, only byte len changes, to 0 |
| `CdcAcm.AsWrittenFullPacketOverflows` | src/modules/cdcacm.c:216-224 | a 64-byte packet is a legal read, and terminating it in the declared 64-byte buffer stores out of bounds |
| `CdcAcm.AsWrittenRetriesEmptySend` | src/modules/cdcacm.c:309 | with the `== 0` test, the last write is repeated after the controller accepted it exactly when the size is 0 |
| `CdcAcm.CorrectedNulInBounds` | src/modules/cdcacm.c:216-224 | with a 65-byte buffer the NUL store is in bounds for every read the endpoint allows |

## Left out

- `cdcacm_init` (lines 252-275): clock enable, detach-pin GPIO modes and `usbd_init`. These are hardware register writes and calls into the USB stack.
- `cdcacm_run` (lines 280-282) and the registration calls in `cdcacm_set_config_callback` (lines 235-247). These are calls into libopencm3. The endpoints the callback opens are kept as data (`Descriptors.EndpointSetups`). The request filter at lines 244-246 (class requests to an interface) is not modelled: `HandleRequest` sees only requests that passed it.
- The libopencm3 internals: serialising descriptors, computing wTotalLength (left 0 at line 165), and the endpoint FIFOs. Reads and writes are the abstract `Driver.Device`.
- The strings of `usb_strings` (lines 176-180) and the commented-out debug writes (lines 221-223).
- A host that never reads. The busy-retry loops at lines 305 and 309 spin forever then. The model bounds the refusals with a finite budget and finitely many busy periods, so `Send` cannot express a call that never returns.
- CdcAcm.Port.DataRx: the callback gets a pointer, valid only during the call. The model records the buffer's contents instead. What the callback itself does (for example, calling `Send`) is not modelled. Bytes past the NUL are uninitialised in C. The model leaves them unconstrained: the contract says nothing about them.
- CdcAcm.Port.Send: requires `0 <= size <= |data|`. The C code trusts its caller for this. A negative size would hand a negative length to the driver's 16-bit parameter. With a non-negative 32-bit `size`, `i * 64` cannot overflow, so the arithmetic is on unbounded integers.
- `is_connected` is a `u8` holding 0 or 1 in C. Here it is a `bool`.
- Concurrency and interrupt context around the flag and the callback slot. The model is single-threaded.

## Findings

| source | as written | input that shows it | evidently intended | confidence | as-written member | corrected member |
|---|---|---|---|---|---|---|
| src/modules/cdcacm.c:216-224 | `char buf[64]`, read of up to 64 bytes, then `buf[len] = 0` | an OUT packet of 64 bytes: the read returns 64 and the store writes `buf[64]`, one byte past the buffer | room for the terminator after a full packet (a 65-byte buffer) | high; not executed | `CdcAcm.AsWrittenFullPacketOverflows` | `CdcAcm.Port.DataRx` |
| src/modules/cdcacm.c:309 | `while (usbd_ep_write_packet(..., size - (i * 64)) == 0);` | `cdcacm_send(data, 0)` on a connected port: the only write is the empty packet, `usbd_ep_write_packet` reports its 0 bytes on success as on a busy endpoint, so the loop repeats it and never returns | retry only while the endpoint is busy, so an accepted empty packet ends the loop | medium; not executed; rests on libopencm3 reporting the byte count written | `CdcAcm.AsWrittenRetriesEmptySend` | `CdcAcm.Port.WriteUntilAccepted` |
