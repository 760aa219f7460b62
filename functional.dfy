/**
 * The four CDC functional descriptors that follow the communication interface
 * descriptor (header, call management, abstract control management and union),
 * their packed byte layout, and the chain walk a host performs on that layout:
 * every record starts with bFunctionLength, its own size in bytes.
 */
module Functional {
  import opened Usb
  import opened Cdc

  datatype HeaderDescriptor = HeaderDescriptor(
    bFunctionLength: byte, bDescriptorType: byte, bDescriptorSubtype: byte,
    bcdCDC: u16)

  datatype CallManagementDescriptor = CallManagementDescriptor(
    bFunctionLength: byte, bDescriptorType: byte, bDescriptorSubtype: byte,
    bmCapabilities: byte, bDataInterface: byte)

  datatype AcmDescriptor = AcmDescriptor(
    bFunctionLength: byte, bDescriptorType: byte, bDescriptorSubtype: byte,
    bmCapabilities: byte)

  datatype UnionDescriptor = UnionDescriptor(
    bFunctionLength: byte, bDescriptorType: byte, bDescriptorSubtype: byte,
    bControlInterface: byte, bSubordinateInterface0: byte)

  /** The packed struct of the four descriptors, in the order they are declared. */
  datatype FunctionalDescriptors = FunctionalDescriptors(
    header: HeaderDescriptor, callManagement: CallManagementDescriptor,
    acm: AcmDescriptor, cdcUnion: UnionDescriptor)

  /**
   * Each descriptor names its own size as bFunctionLength, is tagged as a
   * class-specific interface descriptor and carries its own subtype.
   */
  predicate WellFormed(f: FunctionalDescriptors)
  {
    && f.header == f.header.(bFunctionLength := HEADER_SIZE, bDescriptorType := CS_INTERFACE, bDescriptorSubtype := SUBTYPE_HEADER)
    && f.callManagement == f.callManagement.(bFunctionLength := CALL_MANAGEMENT_SIZE, bDescriptorType := CS_INTERFACE, bDescriptorSubtype := SUBTYPE_CALL_MANAGEMENT)
    && f.acm == f.acm.(bFunctionLength := ACM_SIZE, bDescriptorType := CS_INTERFACE, bDescriptorSubtype := SUBTYPE_ACM)
    && f.cdcUnion == f.cdcUnion.(bFunctionLength := UNION_SIZE, bDescriptorType := CS_INTERFACE, bDescriptorSubtype := SUBTYPE_UNION)
  }

  // Packed layouts, fields in declaration order, 16-bit fields low byte first.

  function EncodeHeader(h: HeaderDescriptor): (r: seq<byte>)
    ensures |r| == HEADER_SIZE as nat
  {
    [h.bFunctionLength, h.bDescriptorType, h.bDescriptorSubtype] + LittleEndian16(h.bcdCDC)
  }

  function EncodeCallManagement(c: CallManagementDescriptor): (r: seq<byte>)
    ensures |r| == CALL_MANAGEMENT_SIZE as nat
  {
    [c.bFunctionLength, c.bDescriptorType, c.bDescriptorSubtype, c.bmCapabilities, c.bDataInterface]
  }

  function EncodeAcm(a: AcmDescriptor): (r: seq<byte>)
    ensures |r| == ACM_SIZE as nat
  {
    [a.bFunctionLength, a.bDescriptorType, a.bDescriptorSubtype, a.bmCapabilities]
  }

  function EncodeUnion(u: UnionDescriptor): (r: seq<byte>)
    ensures |r| == UNION_SIZE as nat
  {
    [u.bFunctionLength, u.bDescriptorType, u.bDescriptorSubtype, u.bControlInterface, u.bSubordinateInterface0]
  }

  /** The records of the packed struct; `Flatten` of them is its memory image. */
  function Records(f: FunctionalDescriptors): seq<seq<byte>>
  {
    [EncodeHeader(f.header), EncodeCallManagement(f.callManagement), EncodeAcm(f.acm), EncodeUnion(f.cdcUnion)]
  }

  /** The memory image of the packed struct, which the interface descriptor points to as `extra`. */
  function Encode(f: FunctionalDescriptors): (r: seq<byte>)
    ensures |r| == (HEADER_SIZE + CALL_MANAGEMENT_SIZE + ACM_SIZE + UNION_SIZE) as nat
  {
    EncodeHeader(f.header) + EncodeCallManagement(f.callManagement) + EncodeAcm(f.acm) + EncodeUnion(f.cdcUnion)
  }

  lemma EncodeIsFlatten(f: FunctionalDescriptors)
    ensures Flatten(Records(f)) == Encode(f)
  {
    var rs := Records(f);
    assert rs[1..] == [rs[1], rs[2], rs[3]];
    assert [rs[1], rs[2], rs[3]][1..] == [rs[2], rs[3]];
    assert [rs[2], rs[3]][1..] == [rs[3]];
    assert Flatten([rs[3]]) == rs[3];
    assert Flatten([rs[2], rs[3]]) == rs[2] + rs[3];
    assert Flatten([rs[1], rs[2], rs[3]]) == rs[1] + rs[2] + rs[3];
  }

  /** A record of the chain: non-empty and sized by its own first byte. */
  predicate SelfSized(record: seq<byte>)
  {
    |record| > 0 && record[0] == |record|
  }

  /**
   * Splits a blob into the records of a chain by following bFunctionLength;
   * None when a length is zero or runs past the end of the blob.
   */
  function SplitRecords(b: seq<byte>): (r: Option<seq<seq<byte>>>)
    ensures r.Some? ==> Flatten(r.value) == b
    ensures r.Some? ==> forall k :: 0 <= k < |r.value| ==> SelfSized(r.value[k])
    decreases |b|
  {
    if b == [] then Some([])
    else if b[0] == 0 || b[0] > |b| then None
    else
      match SplitRecords(b[b[0]..])
      case None => None
      case Some(rest) =>
        assert b[..b[0]] + b[b[0]..] == b;
        Some([b[..b[0]]] + rest)
  }

  function DecodeHeader(r: seq<byte>): Option<HeaderDescriptor>
  {
    if |r| == HEADER_SIZE as nat && r[1] == CS_INTERFACE && r[2] == SUBTYPE_HEADER
    then Some(HeaderDescriptor(r[0], r[1], r[2], r[3] as int + 256 * r[4] as int))
    else None
  }

  function DecodeCallManagement(r: seq<byte>): Option<CallManagementDescriptor>
  {
    if |r| == CALL_MANAGEMENT_SIZE as nat && r[1] == CS_INTERFACE && r[2] == SUBTYPE_CALL_MANAGEMENT
    then Some(CallManagementDescriptor(r[0], r[1], r[2], r[3], r[4]))
    else None
  }

  function DecodeAcm(r: seq<byte>): Option<AcmDescriptor>
  {
    if |r| == ACM_SIZE as nat && r[1] == CS_INTERFACE && r[2] == SUBTYPE_ACM
    then Some(AcmDescriptor(r[0], r[1], r[2], r[3]))
    else None
  }

  function DecodeUnion(r: seq<byte>): Option<UnionDescriptor>
  {
    if |r| == UNION_SIZE as nat && r[1] == CS_INTERFACE && r[2] == SUBTYPE_UNION
    then Some(UnionDescriptor(r[0], r[1], r[2], r[3], r[4]))
    else None
  }

  /**
   * How a host reads the class-specific blob: walk the chain and expect the
   * header, call management, ACM and union descriptors, in that order.
   */
  function Parse(b: seq<byte>): (r: Option<FunctionalDescriptors>)
    ensures r.Some? ==> WellFormed(r.value)
  {
    match SplitRecords(b)
    case None => None
    case Some(rs) =>
      if |rs| != 4 then None
      else
        match (DecodeHeader(rs[0]), DecodeCallManagement(rs[1]), DecodeAcm(rs[2]), DecodeUnion(rs[3]))
        case (Some(h), Some(c), Some(a), Some(u)) => Some(FunctionalDescriptors(h, c, a, u))
        case _ => None
  }

  /** A self-sized record at the front of a blob is split off as the first record. */
  lemma SplitRecordsCons(record: seq<byte>, rest: seq<byte>)
    requires SelfSized(record)
    ensures SplitRecords(record + rest) ==
            match SplitRecords(rest)
            case None => None
            case Some(rs) => Some([record] + rs)
  {
    var b := record + rest;
    assert b[0] == |record|;
    assert b[..b[0]] == record;
    assert b[b[0]..] == rest;
  }

  /** The chain walk recovers exactly the records that were laid end to end. */
  lemma {:induction false} SplitFlatten(records: seq<seq<byte>>)
    requires forall k :: 0 <= k < |records| ==> SelfSized(records[k])
    ensures SplitRecords(Flatten(records)) == Some(records)
  {
    if records != [] {
      SplitFlatten(records[1..]);
      SplitRecordsCons(records[0], Flatten(records[1..]));
      assert [records[0]] + records[1..] == records;
    }
  }

  /** Parsing the memory image of well-formed descriptors gives them back. */
  lemma RoundTrip(f: FunctionalDescriptors)
    requires WellFormed(f)
    ensures Parse(Encode(f)) == Some(f)
  {
    SplitFlatten(Records(f));
    EncodeIsFlatten(f);
  }

  /** Every blob the host accepts is the memory image of well-formed descriptors. */
  lemma ParseSound(b: seq<byte>)
    requires Parse(b).Some?
    ensures Encode(Parse(b).value) == b
  {
    var rs := SplitRecords(b).value;
    var f := Parse(b).value;
    assert SelfSized(rs[0]) && SelfSized(rs[1]) && SelfSized(rs[2]) && SelfSized(rs[3]);
    assert EncodeHeader(f.header) == rs[0];
    assert EncodeCallManagement(f.callManagement) == rs[1];
    assert EncodeAcm(f.acm) == rs[2];
    assert EncodeUnion(f.cdcUnion) == rs[3];
    assert Records(f) == rs;
    EncodeIsFlatten(f);
  }
}
