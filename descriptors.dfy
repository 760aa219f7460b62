/**
 * The static descriptor tables of the CDC-ACM adapter: one device, one
 * configuration, a communication interface with one interrupt endpoint and the
 * CDC functional descriptors, and a data interface with two bulk endpoints.
 * The tables are immutable values; their consistency is a predicate proved of
 * the constants.
 */
module Descriptors {
  import opened Usb
  import opened Cdc
  import Functional

  datatype DeviceDescriptor = DeviceDescriptor(
    bLength: byte, bDescriptorType: byte, bcdUSB: u16,
    bDeviceClass: byte, bDeviceSubClass: byte, bDeviceProtocol: byte,
    bMaxPacketSize0: byte, idVendor: u16, idProduct: u16, bcdDevice: u16,
    iManufacturer: byte, iProduct: byte, iSerialNumber: byte,
    bNumConfigurations: byte)

  datatype EndpointDescriptor = EndpointDescriptor(
    bLength: byte, bDescriptorType: byte, bEndpointAddress: byte,
    bmAttributes: byte, wMaxPacketSize: u16, bInterval: byte)

  /** An interface descriptor with its endpoint array and its class-specific `extra` bytes. */
  datatype InterfaceDescriptor = InterfaceDescriptor(
    bLength: byte, bDescriptorType: byte, bInterfaceNumber: byte,
    bAlternateSetting: byte, bNumEndpoints: byte, bInterfaceClass: byte,
    bInterfaceSubClass: byte, bInterfaceProtocol: byte, iInterface: byte,
    endpoint: seq<EndpointDescriptor>, extra: seq<byte>, extralen: nat)

  /** One interface of a configuration with its alternate settings. */
  datatype Interface = Interface(numAltsetting: nat, altsetting: seq<InterfaceDescriptor>)

  datatype ConfigDescriptor = ConfigDescriptor(
    bLength: byte, bDescriptorType: byte, wTotalLength: u16,
    bNumInterfaces: byte, bConfigurationValue: byte, iConfiguration: byte,
    bmAttributes: byte, bMaxPower: byte, interface: seq<Interface>)

  /** An endpoint as the set-configuration callback opens it: address, transfer type, packet size. */
  datatype EndpointSetup = EndpointSetup(address: byte, transferType: byte, maxPacketSize: nat)

  // The addresses and packet size the transfer engine uses.

  /** Bulk OUT endpoint the receive path reads. */
  const DATA_OUT_ENDPOINT: byte := 0x01
  /** Bulk IN endpoint the send path writes. */
  const DATA_IN_ENDPOINT: byte := 0x82
  /** Interrupt IN endpoint of the communication interface (never written). */
  const NOTIFICATION_ENDPOINT: byte := 0x83
  /** Packet size of the bulk endpoints, the unit of the send path's chunks and of a read. */
  const DATA_PACKET_SIZE: nat := 64

  // The constants.

  /** A CDC class device with one configuration. */
  function Device(): (d: DeviceDescriptor)
    ensures DeviceWellFormed(d) && d.bDeviceClass == CLASS_CDC
  {
    DeviceDescriptor(
      bLength := DEVICE_DESCRIPTOR_SIZE, bDescriptorType := DEVICE_DESCRIPTOR_TYPE,
      bcdUSB := 0x0200, bDeviceClass := CLASS_CDC, bDeviceSubClass := 0,
      bDeviceProtocol := 0, bMaxPacketSize0 := 64, idVendor := 0x0484,
      idProduct := 0x5741, bcdDevice := 0x0200, iManufacturer := 1,
      iProduct := 2, iSerialNumber := 3, bNumConfigurations := 1)
  }

  /** The communication interface's notification endpoint: interrupt IN. */
  function CommEndpoints(): (r: seq<EndpointDescriptor>)
    ensures |r| == 1 && EndpointWellFormed(r[0])
    ensures r[0].bEndpointAddress == NOTIFICATION_ENDPOINT && IsIn(r[0].bEndpointAddress)
    ensures TransferType(r[0].bmAttributes) == TRANSFER_INTERRUPT
  {
    [EndpointDescriptor(
       bLength := ENDPOINT_DESCRIPTOR_SIZE, bDescriptorType := ENDPOINT_DESCRIPTOR_TYPE,
       bEndpointAddress := 0x83, bmAttributes := TRANSFER_INTERRUPT,
       wMaxPacketSize := 16, bInterval := 255)]
  }

  /** The data interface's endpoints: bulk OUT for the receive path, then bulk IN for the send path. */
  function DataEndpoints(): (r: seq<EndpointDescriptor>)
    ensures |r| == 2 && EndpointWellFormed(r[0]) && EndpointWellFormed(r[1])
    ensures r[0].bEndpointAddress == DATA_OUT_ENDPOINT && !IsIn(r[0].bEndpointAddress)
    ensures r[1].bEndpointAddress == DATA_IN_ENDPOINT && IsIn(r[1].bEndpointAddress)
    ensures forall e :: 0 <= e < |r| ==>
              TransferType(r[e].bmAttributes) == TRANSFER_BULK && r[e].wMaxPacketSize == DATA_PACKET_SIZE
  {
    [EndpointDescriptor(
       bLength := ENDPOINT_DESCRIPTOR_SIZE, bDescriptorType := ENDPOINT_DESCRIPTOR_TYPE,
       bEndpointAddress := 0x01, bmAttributes := TRANSFER_BULK,
       wMaxPacketSize := 64, bInterval := 1),
     EndpointDescriptor(
       bLength := ENDPOINT_DESCRIPTOR_SIZE, bDescriptorType := ENDPOINT_DESCRIPTOR_TYPE,
       bEndpointAddress := 0x82, bmAttributes := TRANSFER_BULK,
       wMaxPacketSize := 64, bInterval := 1)]
  }

  /**
   * Well formed, and the data interface named by call management is the
   * union's subordinate, not its controlling interface.
   */
  function CdcAcmFunctionalDescriptors(): (f: Functional.FunctionalDescriptors)
    ensures Functional.WellFormed(f)
    ensures f.callManagement.bDataInterface == f.cdcUnion.bSubordinateInterface0 != f.cdcUnion.bControlInterface
  {
    Functional.FunctionalDescriptors(
      header := Functional.HeaderDescriptor(
        bFunctionLength := HEADER_SIZE, bDescriptorType := CS_INTERFACE,
        bDescriptorSubtype := SUBTYPE_HEADER, bcdCDC := 0x0110),
      callManagement := Functional.CallManagementDescriptor(
        bFunctionLength := CALL_MANAGEMENT_SIZE, bDescriptorType := CS_INTERFACE,
        bDescriptorSubtype := SUBTYPE_CALL_MANAGEMENT, bmCapabilities := 0,
        bDataInterface := 1),
      acm := Functional.AcmDescriptor(
        bFunctionLength := ACM_SIZE, bDescriptorType := CS_INTERFACE,
        bDescriptorSubtype := SUBTYPE_ACM, bmCapabilities := 0),
      cdcUnion := Functional.UnionDescriptor(
        bFunctionLength := UNION_SIZE, bDescriptorType := CS_INTERFACE,
        bDescriptorSubtype := SUBTYPE_UNION, bControlInterface := 0,
        bSubordinateInterface0 := 1))
  }

  /**
   * Interface 0, CDC / ACM / AT commands, with the notification endpoint; its
   * 19 extra bytes are the functional descriptors as a host parses them.
   */
  function CommInterface(): (r: seq<InterfaceDescriptor>)
    ensures |r| == 1 && InterfaceWellFormed(r[0], 0, 0) && r[0].endpoint == CommEndpoints()
    ensures r[0].bInterfaceClass == CLASS_CDC && r[0].bInterfaceSubClass == SUBCLASS_ACM
    ensures r[0].bInterfaceProtocol == PROTOCOL_AT
    ensures r[0].extralen == 19 && Functional.Parse(r[0].extra) == Some(CdcAcmFunctionalDescriptors())
  {
    var extra := Functional.Encode(CdcAcmFunctionalDescriptors());
    Functional.RoundTrip(CdcAcmFunctionalDescriptors());
    [InterfaceDescriptor(
       bLength := INTERFACE_DESCRIPTOR_SIZE, bDescriptorType := INTERFACE_DESCRIPTOR_TYPE,
       bInterfaceNumber := 0, bAlternateSetting := 0, bNumEndpoints := 1,
       bInterfaceClass := CLASS_CDC, bInterfaceSubClass := SUBCLASS_ACM,
       bInterfaceProtocol := PROTOCOL_AT, iInterface := 0,
       endpoint := CommEndpoints(), extra := extra, extralen := |extra|)]
  }

  /** Interface 1, data class, with the two bulk endpoints and no extra bytes. */
  function DataInterface(): (r: seq<InterfaceDescriptor>)
    ensures |r| == 1 && InterfaceWellFormed(r[0], 1, 0) && r[0].endpoint == DataEndpoints()
    ensures r[0].bInterfaceClass == CLASS_DATA && r[0].extra == []
  {
    [InterfaceDescriptor(
       bLength := INTERFACE_DESCRIPTOR_SIZE, bDescriptorType := INTERFACE_DESCRIPTOR_TYPE,
       bInterfaceNumber := 1, bAlternateSetting := 0, bNumEndpoints := 2,
       bInterfaceClass := CLASS_DATA, bInterfaceSubClass := 0,
       bInterfaceProtocol := 0, iInterface := 0,
       endpoint := DataEndpoints(), extra := [], extralen := 0)]
  }

  /** The communication interface then the data interface, each numbered by its index. */
  function Interfaces(): (r: seq<Interface>)
    ensures |r| == 2 && InterfacesNumbered(r)
    ensures r[0].altsetting == CommInterface() && r[1].altsetting == DataInterface()
  {
    [Interface(numAltsetting := 1, altsetting := CommInterface()),
     Interface(numAltsetting := 1, altsetting := DataInterface())]
  }

  /** wTotalLength is left 0 here; the controller computes it when it serialises the configuration. */
  function Config(): (c: ConfigDescriptor)
    ensures ConfigWellFormed(c) && c.bNumInterfaces == 2 && c.interface == Interfaces()
    ensures c.bmAttributes >= 0x80  // bit 7 is reserved and must be one (USB 2.0 Table 9-10)
    ensures 2 * c.bMaxPower == 100  // in 2 mA units: 100 mA
  {
    ConfigDescriptor(
      bLength := CONFIGURATION_DESCRIPTOR_SIZE, bDescriptorType := CONFIGURATION_DESCRIPTOR_TYPE,
      wTotalLength := 0, bNumInterfaces := 2, bConfigurationValue := 1,
      iConfiguration := 0, bmAttributes := 0x80, bMaxPower := 0x32,
      interface := Interfaces())
  }

  /** The endpoints the set-configuration callback opens. */
  function EndpointSetups(): (r: seq<EndpointSetup>)
    ensures |r| == 3
    ensures forall s, t :: 0 <= s < t < |r| ==>
              r[s].address != r[t].address && EndpointNumber(r[s].address) != EndpointNumber(r[t].address)
    ensures forall s :: 0 <= s < |r| ==>
              EndpointNumber(r[s].address) != 0 && 0 < r[s].maxPacketSize <= FULL_SPEED_MAX_PACKET
  {
    [EndpointSetup(DATA_OUT_ENDPOINT, TRANSFER_BULK, DATA_PACKET_SIZE),
     EndpointSetup(DATA_IN_ENDPOINT, TRANSFER_BULK, DATA_PACKET_SIZE),
     EndpointSetup(NOTIFICATION_ENDPOINT, TRANSFER_INTERRUPT, 16)]
  }

  // Well-formedness of each record (USB 2.0 chapter 9).

  predicate DeviceWellFormed(d: DeviceDescriptor)
  {
    && d.bLength == DEVICE_DESCRIPTOR_SIZE
    && d.bDescriptorType == DEVICE_DESCRIPTOR_TYPE
    && d.bMaxPacketSize0 in {8, 16, 32, 64}
    && d.bNumConfigurations == 1
  }

  predicate EndpointWellFormed(e: EndpointDescriptor)
  {
    && e.bLength == ENDPOINT_DESCRIPTOR_SIZE
    && e.bDescriptorType == ENDPOINT_DESCRIPTOR_TYPE
    && EndpointNumber(e.bEndpointAddress) != 0
    && TransferType(e.bmAttributes) in {TRANSFER_BULK, TRANSFER_INTERRUPT}
    && 0 < e.wMaxPacketSize <= FULL_SPEED_MAX_PACKET
  }

  /** bNumEndpoints counts the endpoint array and extralen the extra bytes. */
  predicate InterfaceWellFormed(i: InterfaceDescriptor, number: nat, alternate: nat)
  {
    && i.bLength == INTERFACE_DESCRIPTOR_SIZE
    && i.bDescriptorType == INTERFACE_DESCRIPTOR_TYPE
    && i.bInterfaceNumber == number
    && i.bAlternateSetting == alternate
    && i.bNumEndpoints == |i.endpoint|
    && i.extralen == |i.extra|
    && forall e :: 0 <= e < |i.endpoint| ==> EndpointWellFormed(i.endpoint[e])
  }

  /**
   * bNumInterfaces counts the interface array, interfaces are numbered by
   * their index from 0 (USB 2.0 section 9.6.5), and every interface has the
   * number of alternate settings it claims.
   */
  predicate ConfigWellFormed(c: ConfigDescriptor)
  {
    && c.bLength == CONFIGURATION_DESCRIPTOR_SIZE
    && c.bDescriptorType == CONFIGURATION_DESCRIPTOR_TYPE
    && c.bNumInterfaces == |c.interface|
    && InterfacesNumbered(c.interface)
  }

  /** Every interface has the alternate settings it claims, each well formed and numbered by position. */
  predicate InterfacesNumbered(interfaces: seq<Interface>)
  {
    forall k :: 0 <= k < |interfaces| ==>
      && interfaces[k].numAltsetting == |interfaces[k].altsetting| > 0
      && forall a :: 0 <= a < |interfaces[k].altsetting| ==>
           InterfaceWellFormed(interfaces[k].altsetting[a], k, a)
  }

  /**
   * The CDC pairing: interface 0 is the ACM communication interface whose
   * functional descriptors parse, whose union names it as the controlling
   * interface and interface 1 as subordinate, and whose call management names
   * interface 1 as the data interface; interface 1 is a data class interface.
   */
  predicate CdcPairing(c: ConfigDescriptor)
  {
    && |c.interface| == 2
    && |c.interface[0].altsetting| > 0
    && |c.interface[1].altsetting| > 0
    && var comm := c.interface[0].altsetting[0];
       var data := c.interface[1].altsetting[0];
       && comm.bInterfaceClass == CLASS_CDC
       && comm.bInterfaceSubClass == SUBCLASS_ACM
       && comm.bInterfaceProtocol == PROTOCOL_AT
       && data.bInterfaceClass == CLASS_DATA
       && match Functional.Parse(comm.extra)
          case None => false
          case Some(f) =>
            && f.cdcUnion.bControlInterface == comm.bInterfaceNumber
            && f.cdcUnion.bSubordinateInterface0 == data.bInterfaceNumber
            && f.callManagement.bDataInterface == data.bInterfaceNumber
  }

  /** Some endpoint of the list carries the address, transfer type and packet size of the setup. */
  predicate Declares(endpoints: seq<EndpointDescriptor>, s: EndpointSetup)
  {
    exists e :: 0 <= e < |endpoints| &&
      endpoints[e].bEndpointAddress == s.address &&
      TransferType(endpoints[e].bmAttributes) == s.transferType &&
      endpoints[e].wMaxPacketSize == s.maxPacketSize
  }

  /**
   * What the transfer engine assumes of the data interface: a bulk OUT
   * endpoint at the address the receive path reads and a bulk IN endpoint at
   * the address the send path writes, both of the chunk size; and every
   * endpoint the set-configuration callback opens is declared as opened.
   */
  predicate MatchesTransferEngine(c: ConfigDescriptor)
  {
    && |c.interface| == 2
    && |c.interface[0].altsetting| > 0
    && |c.interface[1].altsetting| > 0
    && !IsIn(DATA_OUT_ENDPOINT) && IsIn(DATA_IN_ENDPOINT) && IsIn(NOTIFICATION_ENDPOINT)
    && DATA_PACKET_SIZE <= FULL_SPEED_MAX_PACKET
    && var comm := c.interface[0].altsetting[0];
       var data := c.interface[1].altsetting[0];
       && Declares(data.endpoint, EndpointSetup(DATA_OUT_ENDPOINT, TRANSFER_BULK, DATA_PACKET_SIZE))
       && Declares(data.endpoint, EndpointSetup(DATA_IN_ENDPOINT, TRANSFER_BULK, DATA_PACKET_SIZE))
       && forall s :: 0 <= s < |EndpointSetups()| ==>
            Declares(comm.endpoint + data.endpoint, EndpointSetups()[s])
  }

  // The tables, taken together, are what the rest of the adapter relies on.

  lemma PairingConsistent()
    ensures CdcPairing(Config())
    ensures CdcAcmFunctionalDescriptors().cdcUnion.bControlInterface == CommInterface()[0].bInterfaceNumber == 0
    ensures CdcAcmFunctionalDescriptors().cdcUnion.bSubordinateInterface0 == DataInterface()[0].bInterfaceNumber == 1
    ensures CdcAcmFunctionalDescriptors().callManagement.bDataInterface == DataInterface()[0].bInterfaceNumber
  {
  }

  lemma TransferEngineConsistent()
    ensures MatchesTransferEngine(Config())
  {
    var comm := CommEndpoints();
    var data := DataEndpoints();
    assert Declares(data, EndpointSetups()[0]) by { assert data[0].bEndpointAddress == DATA_OUT_ENDPOINT; }
    assert Declares(data, EndpointSetups()[1]) by { assert data[1].bEndpointAddress == DATA_IN_ENDPOINT; }
    assert (comm + data)[0] == comm[0];
    assert (comm + data)[1] == data[0];
    assert (comm + data)[2] == data[1];
    assert Declares(comm + data, EndpointSetups()[0]);
    assert Declares(comm + data, EndpointSetups()[1]);
    assert Declares(comm + data, EndpointSetups()[2]);
  }
}
