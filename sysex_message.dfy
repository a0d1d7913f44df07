/**
 * The synchronous SysEx exchange of src/device/sysexmessage.go. A message is
 * a request frame paired with the handler that validates and decodes the one
 * response frame the device sends back. The MIDI port is an oracle `Link`
 * that yields that response frame for a request, or a driver failure.
 */
module Device {
  import opened Wrappers
  import opened Configuration

  datatype Error =
    /** A response handler rejected a frame of this length. */
    | BadLength(response: string, length: nat)
    /** `sceneDumpMessage` was given scene data of the wrong length (a panic in the source). */
    | BadSceneDataLength(length: nat)
    /** The MIDI driver could not open the port for sending or could not send (a panic in `Send`). */
    | DriverFailure

  /** What a response handler returns: raw bytes, processed payload, error. */
  datatype Reply = Reply(rawData: seq<Byte>, processedData: seq<Byte>, err: Option<Error>)

  datatype SysExMessage = SysExMessage(request: seq<Byte>, responseHandler: seq<Byte> -> Reply)

  /** The next inbound SysEx frame after a request was written, or a driver failure. */
  datatype Exchange = Delivered(frame: seq<Byte>) | DriverFailed

  type Link = seq<Byte> -> Exchange

  /** The reply of a handler that rejects a frame of the wrong length. */
  function Rejected(response: string, length: nat): Reply
  {
    Reply([], [], Some(BadLength(response, length)))
  }

  /**
   * The handler shape shared by the informational replies: a frame of the
   * expected length is handed back raw with no payload, any other frame is
   * rejected.
   */
  function EchoOfLength(response: string, expected: nat, bytes: seq<Byte>): (reply: Reply)
    ensures reply.err == None <==> |bytes| == expected
    ensures reply.err == None ==> reply.rawData == bytes && reply.processedData == []
    ensures reply.err != None ==> reply == Rejected(response, |bytes|)
  {
    if |bytes| != expected then Rejected(response, |bytes|) else Reply(bytes, [], None)
  }

  /**
   * Writes the request, waits for one response frame, hands it to the
   * handler. Only a driver failure is a failure; a frame the handler rejects
   * is a reply carrying the handler's error.
   */
  function Send(message: SysExMessage, link: Link): (r: Result<Reply, Error>)
    ensures r.Failure? <==> link(message.request).DriverFailed?
    ensures r.Failure? ==> r.error == DriverFailure
    ensures r.Success? ==> r.value == message.responseHandler(link(message.request).frame)
  {
    match link(message.request)
    case DriverFailed => Failure(DriverFailure)
    case Delivered(frame) => Success(message.responseHandler(frame))
  }

  /**
   * A complete SysEx frame: 0xF0, data bytes whose bit 7 is clear, 0xF7.
   */
  predicate IsSysExFrame(frame: seq<Byte>)
  {
    && |frame| >= 2
    && frame[0] == 0xF0
    && frame[|frame| - 1] == 0xF7
    && forall i :: 0 < i < |frame| - 1 ==> frame[i] < 0x80
  }
}
