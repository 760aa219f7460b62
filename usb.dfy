/**
 * Vocabulary shared by the whole model: the integer widths of USB descriptor
 * fields, the standard descriptor codes of chapter 9 of the USB 2.0
 * specification, endpoint address arithmetic, and the packets exchanged with
 * the device controller.
 */
module Usb {

  /** A `u8` field. */
  type byte = x: int | 0 <= x < 0x100

  /** A `u16` field. */
  type u16 = x: int | 0 <= x < 0x1_0000

  datatype Option<T> = None | Some(value: T)

  // Descriptor types, USB 2.0 Table 9-5.
  const DEVICE_DESCRIPTOR_TYPE: byte := 1
  const CONFIGURATION_DESCRIPTOR_TYPE: byte := 2
  const INTERFACE_DESCRIPTOR_TYPE: byte := 4
  const ENDPOINT_DESCRIPTOR_TYPE: byte := 5

  // Descriptor sizes in bytes, USB 2.0 Tables 9-8, 9-10, 9-12 and 9-13.
  const DEVICE_DESCRIPTOR_SIZE: byte := 18
  const CONFIGURATION_DESCRIPTOR_SIZE: byte := 9
  const INTERFACE_DESCRIPTOR_SIZE: byte := 9
  const ENDPOINT_DESCRIPTOR_SIZE: byte := 7

  // Class codes assigned by the USB-IF.
  const CLASS_CDC: byte := 0x02
  const CLASS_DATA: byte := 0x0A

  // Transfer types, bits 1..0 of bmAttributes, USB 2.0 Table 9-13.
  const TRANSFER_BULK: byte := 2
  const TRANSFER_INTERRUPT: byte := 3

  /** Largest wMaxPacketSize of a full-speed bulk or interrupt endpoint (USB 2.0 sections 5.7.3 and 5.8.3). */
  const FULL_SPEED_MAX_PACKET: nat := 64

  /** Bit 7 of bEndpointAddress: set for IN (device-to-host) endpoints. */
  predicate IsIn(address: byte)
  {
    address >= 0x80
  }

  /** Bits 3..0 of bEndpointAddress. */
  function EndpointNumber(address: byte): (n: nat)
    ensures n < 16
  {
    address % 16
  }

  function TransferType(attributes: byte): (t: byte)
    ensures t < 4
  {
    attributes % 4
  }

  /** The two bytes of a 16-bit field, low byte first, as USB lays out multi-byte fields. */
  function LittleEndian16(x: u16): (r: seq<byte>)
    ensures |r| == 2 && r[0] as int + 256 * r[1] as int == x
  {
    [x % 256, x / 256]
  }

  function Min(a: int, b: int): (m: int)
    ensures m <= a && m <= b && (m == a || m == b)
  {
    if a <= b then a else b
  }

  /** The bytes of several records laid end to end. */
  function Flatten(records: seq<seq<byte>>): seq<byte>
  {
    if records == [] then [] else records[0] + Flatten(records[1..])
  }

  /** One packet on the bus: the endpoint address it travels on and its payload. */
  datatype Packet = Packet(endpoint: byte, payload: seq<byte>)
}
