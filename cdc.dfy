/**
 * Codes of the USB Communications Device Class, version 1.1, used by the
 * CDC-ACM adapter.
 */
module Cdc {
  import opened Usb

  /** Communication Interface Class subclass code for the Abstract Control Model (CDC 1.1 Table 16). */
  const SUBCLASS_ACM: byte := 0x02

  /** Communication Interface Class protocol code for AT commands, V.250 (CDC 1.1 Table 17). */
  const PROTOCOL_AT: byte := 0x01

  /** bDescriptorType of a class-specific interface descriptor (CDC 1.1 Table 24). */
  const CS_INTERFACE: byte := 0x24

  // bDescriptorSubtype of the functional descriptors (CDC 1.1 Table 25).
  const SUBTYPE_HEADER: byte := 0x00
  const SUBTYPE_CALL_MANAGEMENT: byte := 0x01
  const SUBTYPE_ACM: byte := 0x02
  const SUBTYPE_UNION: byte := 0x06

  // Sizes of the functional descriptors with one subordinate interface
  // (CDC 1.1 sections 5.2.3.1, 5.2.3.2, 5.2.3.3 and 5.2.3.8).
  const HEADER_SIZE: byte := 5
  const CALL_MANAGEMENT_SIZE: byte := 5
  const ACM_SIZE: byte := 4
  const UNION_SIZE: byte := 5

  // Class-specific request codes (CDC 1.1 Table 46).
  const SET_LINE_CODING: byte := 0x20
  const GET_LINE_CODING: byte := 0x21
  const SET_CONTROL_LINE_STATE: byte := 0x22
  const SEND_BREAK: byte := 0x23

  /**
   * Size of the line coding structure carried by SetLineCoding (section 6.2.12
   * of CDC 1.1): dwDTERate (4 bytes), bCharFormat, bParityType, bDataBits.
   */
  const LINE_CODING_SIZE: nat := 4 + 1 + 1 + 1
}
