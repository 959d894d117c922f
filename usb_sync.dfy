/**
 * USB HotSync bring-up (sync/src/usb-sync-server.ts): the per-family device
 * initializers that discover the HotSync endpoints, and the byte-stream
 * adapter that maps writes and reads onto bulk transfers.
 *
 * The WebUSB device is replaced by an object that answers its k-th transfer
 * with a fixed reply and records every transfer it is asked to perform.
 */
module UsbSync {
  import opened Wrappers
  import opened FieldCodec
  import opened UsbLayouts

  datatype UsbTransferStatus = TransferOk | Stall | Babble

  /** A transfer's completion: its status and, for in-transfers, the data if any. */
  datatype TransferReply = TransferReply(status: UsbTransferStatus, data: Option<seq<Byte>>)

  /** A vendor control-in request addressed to an endpoint. */
  datatype ControlSetup = ControlSetup(request: UsbControlRequestType, index: nat, value: nat)

  datatype Transfer =
    | ControlIn(setup: ControlSetup, length: nat)
    | BulkIn(endpoint: nat, length: nat)
    | BulkOut(endpoint: nat, data: seq<Byte>)

  class UsbDevice {
    /** The device's reply to the k-th transfer it performs. */
    const replies: nat -> TransferReply
    /** Every transfer performed so far, in order. */
    var log: seq<Transfer>

    constructor (replies: nat -> TransferReply)
      ensures this.replies == replies && log == []
    {
      this.replies := replies;
      log := [];
    }

    /** The reply the next transfer will get. */
    function NextReply(): TransferReply
      reads this
    {
      replies(|log|)
    }

    method ControlTransferIn(setup: ControlSetup, length: nat) returns (r: TransferReply)
      modifies this
      ensures log == old(log) + [ControlIn(setup, length)]
      ensures r == old(NextReply())
    {
      r := replies(|log|);
      log := log + [ControlIn(setup, length)];
    }

    method TransferIn(endpoint: nat, length: nat) returns (r: TransferReply)
      modifies this
      ensures log == old(log) + [BulkIn(endpoint, length)]
      ensures r == old(NextReply())
    {
      r := replies(|log|);
      log := log + [BulkIn(endpoint, length)];
    }

    method TransferOut(endpoint: nat, data: seq<Byte>) returns (status: UsbTransferStatus)
      modifies this
      ensures log == old(log) + [BulkOut(endpoint, data)]
      ensures status == old(NextReply()).status
    {
      status := replies(|log|).status;
      log := log + [BulkOut(endpoint, data)];
    }
  }

  /** Endpoint numbers for one connection, as returned by an initializer. */
  datatype UsbConnectionConfig = UsbConnectionConfig(
    device: UsbDevice,
    interruptEndpoint: nat,
    inEndpoint: nat,
    outEndpoint: nat)

  /** Device families, each with its own initialization routine. */
  datatype UsbInitType = InitNone | InitGeneric | InitVisor | InitSonyClie | InitTapwave

  datatype InitError =
    | ControlTransferFailed(request: UsbControlRequestType, status: UsbTransferStatus)
    | NoData(request: UsbControlRequestType)
    | MalformedData(request: UsbControlRequestType, cause: CodecError)
    | NoHotSyncPort(response: GetConnectionInfoResponse)

  // ---------------------------------------------------------------------------
  // HotSync port selection.

  /** The entries `ports.slice(0, numPorts)` keeps: at most the table's size. */
  function ConsideredPorts(r: GetConnectionInfoResponse): (ps: seq<ConnectionPortInfo>)
    ensures |ps| <= r.numPorts && |ps| <= |r.ports|
    ensures |ps| == r.numPorts || |ps| == |r.ports|
    ensures ps == r.ports[..|ps|]
  {
    r.ports[..if r.numPorts < |r.ports| then r.numPorts else |r.ports|]
  }

  /** The position of the first HotSync entry, if any. */
  function FirstHotSyncIndex(ps: seq<ConnectionPortInfo>): (r: Option<nat>)
    ensures r.Some? ==> r.value < |ps| && ps[r.value].functionType == FUNCTION_HOTSYNC
    ensures r.Some? ==> forall j :: 0 <= j < r.value ==> ps[j].functionType != FUNCTION_HOTSYNC
    ensures r.None? ==> forall j :: 0 <= j < |ps| ==> ps[j].functionType != FUNCTION_HOTSYNC
  {
    if ps == [] then None
    else if ps[0].functionType == FUNCTION_HOTSYNC then Some(0)
    else match FirstHotSyncIndex(ps[1..])
      case None => None
      case Some(i) => Some(i + 1)
  }

  /** The first in-use port whose function is HotSync. */
  function FindHotSyncPort(r: GetConnectionInfoResponse): (p: Option<ConnectionPortInfo>)
    ensures p.Some? ==> p.value.functionType == FUNCTION_HOTSYNC
    ensures p.Some? ==> exists i :: 0 <= i < |ConsideredPorts(r)| && r.ports[i] == p.value
                                    && forall j :: 0 <= j < i ==> r.ports[j].functionType != FUNCTION_HOTSYNC
    ensures p.None? <==> forall i :: 0 <= i < |ConsideredPorts(r)| ==> r.ports[i].functionType != FUNCTION_HOTSYNC
  {
    var ps := ConsideredPorts(r);
    match FirstHotSyncIndex(ps)
    case None => None
    case Some(i) => Some(ps[i])
  }

  // ---------------------------------------------------------------------------
  // The GENERIC initializer, described as a function of the device's replies.

  const ConnectionInfoSetup: ControlSetup := ControlSetup(GET_CONNECTION_INFO, 0, 0)
  const NumBytesAvailableSetup: ControlSetup := ControlSetup(GET_NUM_BYTES_AVAILABLE, 0, 0)
  /** The reply size asked of GET_NUM_BYTES_AVAILABLE. */
  const NUM_BYTES_AVAILABLE_LENGTH: nat := 2

  /**
   * The connection-info query: the HotSync port it reports, or why there is
   * none. `NoData` stands for the TypeError that dereferencing the missing
   * data throws; the source makes no explicit check.
   */
  function ConnectionInfoStep(reply: TransferReply): Result<ConnectionPortInfo, InitError> {
    if reply.status != TransferOk then Err(ControlTransferFailed(GET_CONNECTION_INFO, reply.status))
    else if reply.data.None? then Err(NoData(GET_CONNECTION_INFO))
    else
      var decoded := DeserializeConnectionInfo(reply.data.value);
      if decoded.Err? then Err(MalformedData(GET_CONNECTION_INFO, decoded.error))
      else
        var port := FindHotSyncPort(decoded.value.0);
        if port.None? then Err(NoHotSyncPort(decoded.value.0)) else Ok(port.value)
  }

  /** The byte-availability query: its value is read and then not used. */
  function NumBytesAvailableStep(reply: TransferReply): Result<U16, InitError> {
    if reply.status != TransferOk then Err(ControlTransferFailed(GET_NUM_BYTES_AVAILABLE, reply.status))
    else if reply.data.None? then Err(NoData(GET_NUM_BYTES_AVAILABLE))
    else
      var count := DecodeU16LE(reply.data.value, 0);
      if count.Err? then Err(MalformedData(GET_NUM_BYTES_AVAILABLE, count.error)) else Ok(count.value.0)
  }

  /** The configuration GENERIC returns, given the replies to its two queries. */
  function GenericInitOutcome(device: UsbDevice, infoReply: TransferReply, countReply: TransferReply)
    : Result<UsbConnectionConfig, InitError>
  {
    var port := ConnectionInfoStep(infoReply);
    if port.Err? then Err(port.error)
    else
      var count := NumBytesAvailableStep(countReply);
      if count.Err? then Err(count.error)
      else Ok(UsbConnectionConfig(device, 0, port.value.portNumber, port.value.portNumber))
  }

  /** The transfers GENERIC performs: the second query only once a HotSync port was found. */
  function GenericInitTransfers(infoReply: TransferReply): seq<Transfer> {
    [ControlIn(ConnectionInfoSetup, ConnectionInfoSerializedLength(NewConnectionInfoResponse))]
    + if ConnectionInfoStep(infoReply).Ok? then [ControlIn(NumBytesAvailableSetup, NUM_BYTES_AVAILABLE_LENGTH)] else []
  }

  /** The reply to GET_NUM_BYTES_AVAILABLE is acceptable: status ok and two bytes of data. */
  predicate CountReplyAccepted(reply: TransferReply) {
    reply.status == TransferOk && reply.data.Some? && |reply.data.value| >= 2
  }

  /**
   * GENERIC succeeds exactly when both queries succeed, the connection info
   * decodes and an in-use port is HotSync; the result then uses that port's
   * number as both the in- and out-endpoint, and interrupt endpoint 0.
   */
  lemma GenericInitSucceeds(device: UsbDevice, infoReply: TransferReply, countReply: TransferReply)
    ensures GenericInitOutcome(device, infoReply, countReply).Ok? <==>
      && infoReply.status == TransferOk && infoReply.data.Some?
      && |infoReply.data.value| >= 6
      && FindHotSyncPort(DeserializeConnectionInfo(infoReply.data.value).value.0).Some?
      && CountReplyAccepted(countReply)
    ensures GenericInitOutcome(device, infoReply, countReply).Ok? ==>
      var port := FindHotSyncPort(DeserializeConnectionInfo(infoReply.data.value).value.0).value;
      GenericInitOutcome(device, infoReply, countReply) == Ok(UsbConnectionConfig(device, 0, port.portNumber, port.portNumber))
  {
  }

  /** The value of the byte count never affects the outcome. */
  lemma GenericInitIgnoresByteCount(device: UsbDevice, infoReply: TransferReply, countReply: TransferReply, countReply': TransferReply)
    requires CountReplyAccepted(countReply) && CountReplyAccepted(countReply')
    ensures GenericInitOutcome(device, infoReply, countReply) == GenericInitOutcome(device, infoReply, countReply')
  {
  }

  /**
   * On the wire GENERIC issues GET_CONNECTION_INFO (code 0x03) for six bytes,
   * then, once a HotSync port is found, GET_NUM_BYTES_AVAILABLE (code 0x01)
   * for two; both with index 0 and value 0.
   */
  lemma GenericInitRequestCodes(infoReply: TransferReply)
    ensures var ts := GenericInitTransfers(infoReply);
      && (|ts| == 2 <==> ConnectionInfoStep(infoReply).Ok?) && 1 <= |ts| <= 2
      && (forall t | t in ts :: t.ControlIn? && t.setup.index == 0 && t.setup.value == 0)
      && RequestCode(ts[0].setup.request) == 0x03 && ts[0].length == 6
      && (|ts| == 2 ==> RequestCode(ts[1].setup.request) == 0x01 && ts[1].length == 2)
  {
  }

  /** A failed control transfer aborts with that request's status. */
  lemma GenericInitTransferFailures(device: UsbDevice, infoReply: TransferReply, countReply: TransferReply)
    ensures infoReply.status != TransferOk ==>
      GenericInitOutcome(device, infoReply, countReply) == Err(ControlTransferFailed(GET_CONNECTION_INFO, infoReply.status))
      && GenericInitTransfers(infoReply) == [ControlIn(ConnectionInfoSetup, 6)]
    ensures ConnectionInfoStep(infoReply).Ok? && countReply.status != TransferOk ==>
      GenericInitOutcome(device, infoReply, countReply) == Err(ControlTransferFailed(GET_NUM_BYTES_AVAILABLE, countReply.status))
    ensures ConnectionInfoStep(infoReply).Ok? && countReply.status == TransferOk && countReply.data.None? ==>
      GenericInitOutcome(device, infoReply, countReply) == Err(NoData(GET_NUM_BYTES_AVAILABLE))
  {
  }

  /** Port 0 a debugger, port 1 HotSync with number 2: GENERIC picks endpoint 2 for both directions. */
  lemma GenericInitPicksSecondPort(device: UsbDevice)
    ensures GenericInitOutcome(
              device,
              TransferReply(TransferOk, Some([2, 0, FUNCTION_DEBUGGER, 1, FUNCTION_HOTSYNC, 2])),
              TransferReply(TransferOk, Some([1, 0])))
            == Ok(UsbConnectionConfig(device, 0, 2, 2))
  {
    var b: seq<Byte> := [2, 0, FUNCTION_DEBUGGER, 1, FUNCTION_HOTSYNC, 2];
    var resp := GetConnectionInfoResponse(2, [ConnectionPortInfo(FUNCTION_DEBUGGER, 1), ConnectionPortInfo(FUNCTION_HOTSYNC, 2)]);
    ConnectionInfoLayout(resp);
    assert SerializeConnectionInfo(resp) + [] == b;
    ConnectionInfoRoundTrip(resp, []);
    assert FirstHotSyncIndex(ConsideredPorts(resp)) == Some(1);
  }

  /** With numPorts 0 a HotSync entry in the table is not considered: discovery fails. */
  lemma GenericInitNoPortsInUse(device: UsbDevice, countReply: TransferReply)
    ensures GenericInitOutcome(
              device,
              TransferReply(TransferOk, Some([0, 0, FUNCTION_HOTSYNC, 1, FUNCTION_HOTSYNC, 2])),
              countReply).Err?
  {
    var b: seq<Byte> := [0, 0, FUNCTION_HOTSYNC, 1, FUNCTION_HOTSYNC, 2];
    var resp := GetConnectionInfoResponse(0, [ConnectionPortInfo(FUNCTION_HOTSYNC, 1), ConnectionPortInfo(FUNCTION_HOTSYNC, 2)]);
    ConnectionInfoLayout(resp);
    assert SerializeConnectionInfo(resp) + [] == b;
    ConnectionInfoRoundTrip(resp, []);
  }

  // ---------------------------------------------------------------------------
  // The initializers themselves.

  /** GENERIC: query connection info, pick the HotSync port, then query the byte count. */
  method GenericInit(device: UsbDevice) returns (r: Result<UsbConnectionConfig, InitError>)
    modifies device
    ensures device.log == old(device.log) + GenericInitTransfers(old(device.NextReply()))
    ensures r == GenericInitOutcome(device, device.replies(|old(device.log)|), device.replies(|old(device.log)| + 1))
  {
    ghost var n := |device.log|;
    var config := UsbConnectionConfig(device, 0, 0, 0);
    var response := NewConnectionInfoResponse;
    var result1 := device.ControlTransferIn(ConnectionInfoSetup, ConnectionInfoSerializedLength(response));
    if result1.status != TransferOk {
      return Err(ControlTransferFailed(GET_CONNECTION_INFO, result1.status));
    }
    if result1.data.None? {
      return Err(NoData(GET_CONNECTION_INFO));
    }
    var decoded := DeserializeConnectionInfo(result1.data.value);
    if decoded.Err? {
      return Err(MalformedData(GET_CONNECTION_INFO, decoded.error));
    }
    response := decoded.value.0;
    var portInfo := FindHotSyncPort(response);
    if portInfo.None? {
      return Err(NoHotSyncPort(response));
    }
    config := config.(interruptEndpoint := 0);
    config := config.(inEndpoint := portInfo.value.portNumber);
    config := config.(outEndpoint := portInfo.value.portNumber);

    var result3 := device.ControlTransferIn(NumBytesAvailableSetup, NUM_BYTES_AVAILABLE_LENGTH);
    assert result3 == device.replies(n + 1);
    if result3.status != TransferOk {
      return Err(ControlTransferFailed(GET_NUM_BYTES_AVAILABLE, result3.status));
    }
    if result3.data.None? {
      return Err(NoData(GET_NUM_BYTES_AVAILABLE));
    }
    var count := DecodeU16LE(result3.data.value, 0);
    if count.Err? {
      return Err(MalformedData(GET_NUM_BYTES_AVAILABLE, count.error));
    }
    return Ok(config);
  }

  /** The initializer table: GENERIC discovers endpoints, every other family gets all zeros. */
  method InitDevice(initType: UsbInitType, device: UsbDevice) returns (r: Result<UsbConnectionConfig, InitError>)
    modifies device
    ensures initType != InitGeneric ==>
      r == Ok(UsbConnectionConfig(device, 0, 0, 0)) && device.log == old(device.log)
    ensures initType == InitGeneric ==>
      && device.log == old(device.log) + GenericInitTransfers(old(device.NextReply()))
      && r == GenericInitOutcome(device, device.replies(|old(device.log)|), device.replies(|old(device.log)| + 1))
  {
    match initType
    case InitGeneric =>
      r := GenericInit(device);
    case InitNone =>
      r := Ok(UsbConnectionConfig(device, 0, 0, 0));
    case InitVisor =>
      r := Ok(UsbConnectionConfig(device, 0, 0, 0));
    case InitSonyClie =>
      r := Ok(UsbConnectionConfig(device, 0, 0, 0));
    case InitTapwave =>
      r := Ok(UsbConnectionConfig(device, 0, 0, 0));
  }

  // ---------------------------------------------------------------------------
  // The byte-stream adapter.

  datatype Encoding = BufferEncoding | TextEncoding(name: string)

  /** What a writer hands the stream: a Buffer, or any other value. */
  datatype Chunk = BufferChunk(bytes: seq<Byte>) | OtherChunk

  datatype StreamError =
    | UnsupportedEncoding(encoding: Encoding)
    | WriteFailed(status: UsbTransferStatus)
    | ReadFailed(status: UsbTransferStatus)

  class UsbConnectionStream {
    const config: UsbConnectionConfig
    /** The chunks pushed to the readable side, in order. */
    var pushed: seq<seq<Byte>>
    /** The error the stream was destroyed with, if it was. */
    var destroyedWith: Option<StreamError>

    constructor (config: UsbConnectionConfig)
      ensures this.config == config && pushed == [] && destroyedWith == None
    {
      this.config := config;
      pushed := [];
      destroyedWith := None;
    }

    /**
     * One write is one bulk-out transfer on the out-endpoint; the result is
     * what the write callback receives (None for success).
     */
    method Write(chunk: Chunk, encoding: Encoding) returns (err: Option<StreamError>)
      modifies config.device
      ensures encoding != BufferEncoding || !chunk.BufferChunk? ==>
        err == Some(UnsupportedEncoding(encoding)) && config.device.log == old(config.device.log)
      ensures encoding == BufferEncoding && chunk.BufferChunk? ==>
        && config.device.log == old(config.device.log) + [BulkOut(config.outEndpoint, chunk.bytes)]
        && var status := old(config.device.NextReply()).status;
           err == if status == TransferOk then None else Some(WriteFailed(status))
    {
      if encoding != BufferEncoding || !chunk.BufferChunk? {
        return Some(UnsupportedEncoding(encoding));
      }
      var status := config.device.TransferOut(config.outEndpoint, chunk.bytes);
      if status == TransferOk {
        err := None;
      } else {
        err := Some(WriteFailed(status));
      }
    }

    /**
     * One read is one bulk-in transfer of `size` bytes on the in-endpoint:
     * success pushes the data (an empty chunk when there is none), failure
     * destroys the stream.
     */
    method Read(size: nat)
      modifies this, config.device
      ensures config.device.log == old(config.device.log) + [BulkIn(config.inEndpoint, size)]
      ensures var reply := old(config.device.NextReply());
        if reply.status == TransferOk then
          && pushed == old(pushed) + [if reply.data.Some? then reply.data.value else []]
          && destroyedWith == old(destroyedWith)
        else
          && pushed == old(pushed)
          && destroyedWith == Some(ReadFailed(reply.status))
    {
      var result := config.device.TransferIn(config.inEndpoint, size);
      if result.status == TransferOk {
        pushed := pushed + [if result.data.Some? then result.data.value else []];
      } else {
        destroyedWith := Some(ReadFailed(result.status));
      }
    }
  }
}
