/**
 * The handler for class-specific requests addressed to the communication
 * interface. It keeps no state: its answer is a function of the request code
 * and the length of the data stage.
 */
module Control {
  import opened Usb
  import opened Cdc

  /** The eight-byte SETUP packet of a control transfer (USB 2.0 Table 9-2). */
  datatype SetupData = SetupData(bmRequestType: byte, bRequest: byte, wValue: u16, wIndex: u16, wLength: u16)

  // Answers to the device controller.
  const NOT_SUPPORTED: int := 0
  const HANDLED: int := 1

  /**
   * Decides a class request. `data` and `len` are the data stage the
   * controller collected. SetControlLineState is acknowledged whatever its
   * length and payload, although the ACM descriptor does not advertise it,
   * because host drivers fail without it. SetLineCoding is acknowledged when
   * the data stage holds a whole line coding structure; its contents are not
   * applied. Every other request is refused.
   */
  function HandleRequest(req: SetupData, data: seq<byte>, len: u16): (r: int)
    ensures r == HANDLED || r == NOT_SUPPORTED
    ensures req.bRequest == SET_CONTROL_LINE_STATE ==> r == HANDLED
    ensures req.bRequest == SET_LINE_CODING ==> (r == HANDLED <==> len as nat >= LINE_CODING_SIZE)
    ensures req.bRequest != SET_CONTROL_LINE_STATE && req.bRequest != SET_LINE_CODING ==> r == NOT_SUPPORTED
  {
    if req.bRequest == SET_CONTROL_LINE_STATE then
      HANDLED
    else if req.bRequest == SET_LINE_CODING then
      if len as nat < LINE_CODING_SIZE then NOT_SUPPORTED else HANDLED
    else
      NOT_SUPPORTED
  }

  /** The answer depends on the request code and the length only, not on the payload or the other SETUP fields. */
  lemma Stateless(req1: SetupData, req2: SetupData, data1: seq<byte>, data2: seq<byte>, len: u16)
    requires req1.bRequest == req2.bRequest
    ensures HandleRequest(req1, data1, len) == HandleRequest(req2, data2, len)
  {
  }

  /** The requests it acknowledges are exactly SetControlLineState, and SetLineCoding with a full structure. */
  lemma AcceptedRequests(req: SetupData, data: seq<byte>, len: u16)
    ensures HandleRequest(req, data, len) == HANDLED <==>
              req.bRequest == SET_CONTROL_LINE_STATE ||
              (req.bRequest == SET_LINE_CODING && len as nat >= 7)
  {
  }

  /** GetLineCoding and SendBreak are refused, so a host cannot read back a line coding. */
  lemma OtherAcmRequestsRefused(req: SetupData, data: seq<byte>, len: u16)
    requires req.bRequest == GET_LINE_CODING || req.bRequest == SEND_BREAK
    ensures HandleRequest(req, data, len) == NOT_SUPPORTED
  {
  }
}
