/**
 * Wire layouts of the Palm OS vendor USB control requests and of their
 * responses (sync/src/usb-sync-server.ts). Every layout is a fixed-size
 * little-endian record whose fields are written and read in declared order.
 */
module UsbLayouts {
  import opened Wrappers
  import opened FieldCodec

  /** Vendor control requests understood by Palm OS devices. */
  datatype UsbControlRequestType =
    | GET_NUM_BYTES_AVAILABLE
    | CLOSE_NOTIFICATION
    | GET_CONNECTION_INFO
    | GET_EXT_CONNECTION_INFO

  /** The `bRequest` code of each request. */
  function RequestCode(t: UsbControlRequestType): (c: Byte)
    ensures 0x01 <= c <= 0x04
  {
    match t
    case GET_NUM_BYTES_AVAILABLE => 0x01
    case CLOSE_NOTIFICATION => 0x02
    case GET_CONNECTION_INFO => 0x03
    case GET_EXT_CONNECTION_INFO => 0x04
  }

  /** Distinct requests go out with distinct codes. */
  lemma RequestCodeInjective(s: UsbControlRequestType, t: UsbControlRequestType)
    ensures RequestCode(s) == RequestCode(t) <==> s == t
  {
  }

  // Port function types of a GetConnectionInfoResponse. The field is kept as
  // the raw byte the device sent, so undocumented codes survive decoding.
  const FUNCTION_GENERIC: Byte := 0x00
  const FUNCTION_DEBUGGER: Byte := 0x01
  const FUNCTION_HOTSYNC: Byte := 0x02
  const FUNCTION_CONSOLE: Byte := 0x03
  const FUNCTION_REMOTE_FS: Byte := 0x04

  // ---------------------------------------------------------------------------
  // GetConnectionInfoResponse: numPorts (u16le), then the ports table, each
  // entry (functionType u8, portNumber u8).

  datatype ConnectionPortInfo = ConnectionPortInfo(functionType: Byte, portNumber: Byte)

  datatype GetConnectionInfoResponse = GetConnectionInfoResponse(numPorts: U16, ports: seq<ConnectionPortInfo>)

  /** The number of entries in a ports table; a fresh response holds this many. */
  const PORT_TABLE_SIZE: nat := 2

  /** A freshly constructed response: no ports in use, two GENERIC entries. */
  const NewConnectionInfoResponse: GetConnectionInfoResponse :=
    GetConnectionInfoResponse(0, [ConnectionPortInfo(FUNCTION_GENERIC, 0), ConnectionPortInfo(FUNCTION_GENERIC, 0)])

  function SerializeConnectionPort(p: ConnectionPortInfo): seq<Byte> {
    EncodeU8(p.functionType) + EncodeU8(p.portNumber)
  }

  function SerializeConnectionPorts(ps: seq<ConnectionPortInfo>): (r: seq<Byte>)
    ensures |r| == 2 * |ps|
    ensures forall i :: 0 <= i < |ps| ==> r[2 * i] == ps[i].functionType && r[2 * i + 1] == ps[i].portNumber
  {
    if ps == [] then [] else SerializeConnectionPort(ps[0]) + SerializeConnectionPorts(ps[1..])
  }

  function SerializeConnectionInfo(r: GetConnectionInfoResponse): seq<Byte> {
    EncodeU16LE(r.numPorts) + SerializeConnectionPorts(r.ports)
  }

  /** The buffer size to request, computed from the shape of the value alone. */
  function ConnectionInfoSerializedLength(r: GetConnectionInfoResponse): (n: nat)
    ensures n == |SerializeConnectionInfo(r)|
  {
    2 + 2 * |r.ports|
  }

  /** One table entry; an entry that does not fit is a truncation error. */
  function DeserializeConnectionPort(b: seq<Byte>, at: nat): Result<(ConnectionPortInfo, nat), CodecError> {
    if |b| < at + 2 then Err(Truncated(at, 2, |b|))
    else
      var functionType := DecodeU8(b, at).value;
      var portNumber := DecodeU8(b, functionType.1).value;
      Ok((ConnectionPortInfo(functionType.0, portNumber.0), portNumber.1))
  }

  /** Reads `count` consecutive port entries starting at `at`. */
  function DeserializeConnectionPorts(b: seq<Byte>, at: nat, count: nat): (r: Result<(seq<ConnectionPortInfo>, nat), CodecError>)
    requires at <= |b|
    ensures r.Ok? <==> at + 2 * count <= |b|
    ensures r.Ok? ==> |r.value.0| == count && r.value.1 == at + 2 * count
    decreases count
  {
    if count == 0 then Ok(([], at))
    else
      var p := DeserializeConnectionPort(b, at);
      if p.Err? then Err(p.error) else
      var rest := DeserializeConnectionPorts(b, p.value.1, count - 1);
      if rest.Err? then Err(rest.error) else
      Ok(([p.value.0] + rest.value.0, rest.value.1))
  }

  /**
   * Deserializing into a fresh response: the result always has a two-entry
   * ports table and consumes six bytes; a shorter buffer is a truncation error.
   */
  function DeserializeConnectionInfo(b: seq<Byte>): (r: Result<(GetConnectionInfoResponse, nat), CodecError>)
    ensures r.Ok? <==> |b| >= ConnectionInfoSerializedLength(NewConnectionInfoResponse)
    ensures r.Ok? ==> |r.value.0.ports| == PORT_TABLE_SIZE && r.value.1 == 6
  {
    var numPorts := DecodeU16LE(b, 0);
    if numPorts.Err? then Err(numPorts.error) else
    var ports := DeserializeConnectionPorts(b, numPorts.value.1, |NewConnectionInfoResponse.ports|);
    if ports.Err? then Err(ports.error) else
    Ok((GetConnectionInfoResponse(numPorts.value.0, ports.value.0), ports.value.1))
  }

  /** The exact bytes of a response with a two-entry table: six of them. */
  lemma ConnectionInfoLayout(r: GetConnectionInfoResponse)
    requires |r.ports| == PORT_TABLE_SIZE
    ensures SerializeConnectionInfo(r) ==
      [r.numPorts % 0x100, r.numPorts / 0x100,
       r.ports[0].functionType, r.ports[0].portNumber,
       r.ports[1].functionType, r.ports[1].portNumber]
    ensures ConnectionInfoSerializedLength(r) == 6
  {
    var s := SerializeConnectionInfo(r);
    assert s[2 + 2 * 0] == r.ports[0].functionType && s[2 + 2 * 1 + 1] == r.ports[1].portNumber;
  }

  lemma {:induction false} DecodeEncodeConnectionPorts(b: seq<Byte>, at: nat, ps: seq<ConnectionPortInfo>)
    requires at + 2 * |ps| <= |b| && b[at..at + 2 * |ps|] == SerializeConnectionPorts(ps)
    ensures DeserializeConnectionPorts(b, at, |ps|) == Ok((ps, at + 2 * |ps|))
    decreases |ps|
  {
    if ps != [] {
      assert b[at] == ps[0].functionType && b[at + 1] == ps[0].portNumber;
      var tail := ps[1..];
      assert b[at + 2..at + 2 + 2 * |tail|] == SerializeConnectionPorts(tail) by {
        forall i | 0 <= i < 2 * |tail|
          ensures b[at + 2 + i] == SerializeConnectionPorts(tail)[i]
        {
          assert b[at + 2 + i] == SerializeConnectionPorts(ps)[2 + i];
        }
      }
      DecodeEncodeConnectionPorts(b, at + 2, tail);
      assert [ps[0]] + tail == ps;
    }
  }

  lemma {:induction false} EncodeDecodeConnectionPorts(b: seq<Byte>, at: nat, count: nat)
    requires at + 2 * count <= |b|
    ensures SerializeConnectionPorts(DeserializeConnectionPorts(b, at, count).value.0) == b[at..at + 2 * count]
    decreases count
  {
    if count > 0 {
      EncodeDecodeConnectionPorts(b, at + 2, count - 1);
      var ps := DeserializeConnectionPorts(b, at, count).value.0;
      assert ps[1..] == DeserializeConnectionPorts(b, at + 2, count - 1).value.0;
      assert b[at..at + 2 * count] == [b[at], b[at + 1]] + b[at + 2..at + 2 + 2 * (count - 1)];
    }
  }

  /** Encoding a response with a two-entry table and decoding the result gives it back. */
  lemma ConnectionInfoRoundTrip(r: GetConnectionInfoResponse, trailing: seq<Byte>)
    requires |r.ports| == PORT_TABLE_SIZE
    ensures DeserializeConnectionInfo(SerializeConnectionInfo(r) + trailing) == Ok((r, 6))
  {
    var b := SerializeConnectionInfo(r) + trailing;
    assert b[0..2] == EncodeU16LE(r.numPorts);
    DecodeEncodeU16LE(b, 0, r.numPorts);
    assert b[2..2 + 2 * |r.ports|] == SerializeConnectionPorts(r.ports);
    DecodeEncodeConnectionPorts(b, 2, r.ports);
  }

  /** Decoding a buffer of at least six bytes and re-encoding reproduces its first six bytes. */
  lemma ConnectionInfoBytesRoundTrip(b: seq<Byte>)
    requires |b| >= 6
    ensures DeserializeConnectionInfo(b).Ok?
    ensures SerializeConnectionInfo(DeserializeConnectionInfo(b).value.0) == b[..6]
  {
    var v := DeserializeConnectionInfo(b).value.0;
    EncodeDecodeConnectionPorts(b, 2, 2);
    assert b[..6] == b[0..2] + b[2..2 + 2 * 2];
  }

  // ---------------------------------------------------------------------------
  // GetExtConnectionInfoResponse: numPorts (u8), hasDifferentEndpoints (u8),
  // padding (u16le), then the ports table, each entry (type: 4 bytes,
  // portNumber u8, endpoints u8, padding u16le).

  type Nibble = x: int | 0 <= x < 0x10

  /** A four-byte creator ID, kept as the bytes on the wire. */
  type CreatorId = s: seq<Byte> | |s| == 4 witness [0, 0, 0, 0]

  /** In- and out-endpoint numbers packed into one byte, in-endpoint in the high nibble. */
  datatype ExtConnectionEndpoints = ExtConnectionEndpoints(inEndpoint: Nibble, outEndpoint: Nibble)

  function PackEndpoints(e: ExtConnectionEndpoints): (b: Byte)
    ensures b / 0x10 == e.inEndpoint && b % 0x10 == e.outEndpoint
  {
    e.inEndpoint * 0x10 + e.outEndpoint
  }

  function UnpackEndpoints(b: Byte): (e: ExtConnectionEndpoints)
    ensures e.inEndpoint * 0x10 + e.outEndpoint == b
  {
    ExtConnectionEndpoints(b / 0x10, b % 0x10)
  }

  lemma UnpackPackEndpoints(e: ExtConnectionEndpoints)
    ensures UnpackEndpoints(PackEndpoints(e)) == e
  {
  }

  lemma PackUnpackEndpoints(b: Byte)
    ensures PackEndpoints(UnpackEndpoints(b)) == b
  {
  }

  datatype ExtConnectionPortInfo = ExtConnectionPortInfo(
    portType: CreatorId,
    portNumber: Byte,
    endpoints: ExtConnectionEndpoints,
    padding1: U16)

  datatype GetExtConnectionInfoResponse = GetExtConnectionInfoResponse(
    numPorts: Byte,
    hasDifferentEndpoints: Byte,
    padding1: U16,
    ports: seq<ExtConnectionPortInfo>)

  /** 'AAAA', the creator ID a fresh port entry starts with. */
  const DEFAULT_PORT_TYPE: CreatorId := [0x41, 0x41, 0x41, 0x41]

  const NewExtConnectionPortInfo: ExtConnectionPortInfo :=
    ExtConnectionPortInfo(DEFAULT_PORT_TYPE, 0, ExtConnectionEndpoints(0, 0), 0)

  const NewExtConnectionInfoResponse: GetExtConnectionInfoResponse :=
    GetExtConnectionInfoResponse(0, 0, 0, [NewExtConnectionPortInfo, NewExtConnectionPortInfo])

  function SerializeExtPort(p: ExtConnectionPortInfo): (r: seq<Byte>)
    ensures |r| == 8
  {
    p.portType + EncodeU8(p.portNumber) + EncodeU8(PackEndpoints(p.endpoints)) + EncodeU16LE(p.padding1)
  }

  function SerializeExtPorts(ps: seq<ExtConnectionPortInfo>): (r: seq<Byte>)
    ensures |r| == 8 * |ps|
  {
    if ps == [] then [] else SerializeExtPort(ps[0]) + SerializeExtPorts(ps[1..])
  }

  function SerializeExtConnectionInfo(r: GetExtConnectionInfoResponse): seq<Byte> {
    EncodeU8(r.numPorts) + EncodeU8(r.hasDifferentEndpoints) + EncodeU16LE(r.padding1) + SerializeExtPorts(r.ports)
  }

  function ExtConnectionInfoSerializedLength(r: GetExtConnectionInfoResponse): (n: nat)
    ensures n == |SerializeExtConnectionInfo(r)|
  {
    4 + 8 * |r.ports|
  }

  function DeserializeExtPort(b: seq<Byte>, at: nat): (r: Result<(ExtConnectionPortInfo, nat), CodecError>)
    ensures r.Ok? <==> at + 8 <= |b|
    ensures r.Ok? ==> r.value.1 == at + 8
  {
    if |b| < at + 8 then Err(Truncated(at, 8, |b|))
    else
      var portType := DecodeBytes(b, at, 4).value;
      var portNumber := DecodeU8(b, portType.1).value;
      var endpoints := DecodeU8(b, portNumber.1).value;
      var padding1 := DecodeU16LE(b, endpoints.1).value;
      Ok((ExtConnectionPortInfo(portType.0, portNumber.0, UnpackEndpoints(endpoints.0), padding1.0), padding1.1))
  }

  function DeserializeExtPorts(b: seq<Byte>, at: nat, count: nat): (r: Result<(seq<ExtConnectionPortInfo>, nat), CodecError>)
    requires at <= |b|
    ensures r.Ok? <==> at + 8 * count <= |b|
    ensures r.Ok? ==> |r.value.0| == count && r.value.1 == at + 8 * count
    decreases count
  {
    if count == 0 then Ok(([], at))
    else
      var p := DeserializeExtPort(b, at);
      if p.Err? then Err(p.error) else
      var rest := DeserializeExtPorts(b, p.value.1, count - 1);
      if rest.Err? then Err(rest.error) else
      Ok(([p.value.0] + rest.value.0, rest.value.1))
  }

  /**
   * Deserializing into a fresh response: a two-entry ports table, twenty
   * bytes consumed; a shorter buffer is a truncation error.
   */
  function DeserializeExtConnectionInfo(b: seq<Byte>): (r: Result<(GetExtConnectionInfoResponse, nat), CodecError>)
    ensures r.Ok? <==> |b| >= ExtConnectionInfoSerializedLength(NewExtConnectionInfoResponse)
    ensures r.Ok? ==> |r.value.0.ports| == PORT_TABLE_SIZE && r.value.1 == 20
  {
    var numPorts := DecodeU8(b, 0);
    if numPorts.Err? then Err(numPorts.error) else
    var hasDifferentEndpoints := DecodeU8(b, numPorts.value.1);
    if hasDifferentEndpoints.Err? then Err(hasDifferentEndpoints.error) else
    var padding1 := DecodeU16LE(b, hasDifferentEndpoints.value.1);
    if padding1.Err? then Err(padding1.error) else
    var ports := DeserializeExtPorts(b, padding1.value.1, |NewExtConnectionInfoResponse.ports|);
    if ports.Err? then Err(ports.error) else
    Ok((GetExtConnectionInfoResponse(numPorts.value.0, hasDifferentEndpoints.value.0, padding1.value.0, ports.value.0),
        ports.value.1))
  }

  /** The exact bytes of one port entry of the extended response. */
  lemma ExtPortLayout(p: ExtConnectionPortInfo)
    ensures SerializeExtPort(p) ==
      p.portType + [p.portNumber, p.endpoints.inEndpoint * 0x10 + p.endpoints.outEndpoint,
                    p.padding1 % 0x100, p.padding1 / 0x100]
  {
  }

  /** The extended response with a two-entry table is twenty bytes: header, then the two entries. */
  lemma ExtConnectionInfoLayout(r: GetExtConnectionInfoResponse)
    requires |r.ports| == PORT_TABLE_SIZE
    ensures SerializeExtConnectionInfo(r) ==
      [r.numPorts, r.hasDifferentEndpoints, r.padding1 % 0x100, r.padding1 / 0x100]
      + SerializeExtPort(r.ports[0]) + SerializeExtPort(r.ports[1])
    ensures ExtConnectionInfoSerializedLength(r) == 20
  {
    assert r.ports[1..] == [r.ports[1]] && r.ports[1..][1..] == [];
    assert SerializeExtPorts(r.ports) == SerializeExtPort(r.ports[0]) + SerializeExtPorts([r.ports[1]]);
    assert SerializeExtPorts([r.ports[1]]) == SerializeExtPort(r.ports[1]) + SerializeExtPorts([]);
  }

  /** One entry of the extended table read field by field. */
  lemma ExtPortFields(b: seq<Byte>, at: nat)
    requires at + 8 <= |b|
    ensures DeserializeExtPort(b, at) ==
      Ok((ExtConnectionPortInfo(b[at..at + 4], b[at + 4], UnpackEndpoints(b[at + 5]), DecodeU16LE(b, at + 6).value.0), at + 8))
  {
    assert DecodeBytes(b, at, 4) == Ok((b[at..at + 4], at + 4));
    assert DecodeU8(b, at + 4) == Ok((b[at + 4], at + 5));
    assert DecodeU8(b, at + 5) == Ok((b[at + 5], at + 6));
    assert DecodeU16LE(b, at + 6).Ok? && DecodeU16LE(b, at + 6).value.1 == at + 8;
  }

  /** A non-empty run of extended entries is its first entry followed by the rest. */
  lemma ExtPortsUnfold(b: seq<Byte>, at: nat, count: nat)
    requires 0 < count && at + 8 * count <= |b|
    ensures DeserializeExtPorts(b, at, count) ==
      Ok(([DeserializeExtPort(b, at).value.0] + DeserializeExtPorts(b, at + 8, count - 1).value.0, at + 8 * count))
  {
  }

  lemma DecodeEncodeExtPort(b: seq<Byte>, at: nat, p: ExtConnectionPortInfo)
    requires at + 8 <= |b| && b[at..at + 8] == SerializeExtPort(p)
    ensures DeserializeExtPort(b, at) == Ok((p, at + 8))
  {
    var s := SerializeExtPort(p);
    assert b[at..at + 4] == s[..4] == p.portType;
    assert b[at + 4] == s[4] && b[at + 5] == s[5];
    assert b[at + 6..at + 8] == s[6..8] == EncodeU16LE(p.padding1);
    DecodeEncodeU16LE(b, at + 6, p.padding1);
    UnpackPackEndpoints(p.endpoints);
    ExtPortFields(b, at);
  }

  lemma EncodeDecodeExtPort(b: seq<Byte>, at: nat)
    requires at + 8 <= |b|
    ensures SerializeExtPort(DeserializeExtPort(b, at).value.0) == b[at..at + 8]
  {
    ExtPortFields(b, at);
    PackUnpackEndpoints(b[at + 5]);
    assert b[at..at + 8] == b[at..at + 4] + [b[at + 4]] + [b[at + 5]] + b[at + 6..at + 8];
  }

  lemma {:induction false} DecodeEncodeExtPorts(b: seq<Byte>, at: nat, ps: seq<ExtConnectionPortInfo>)
    requires at + 8 * |ps| <= |b| && b[at..at + 8 * |ps|] == SerializeExtPorts(ps)
    ensures DeserializeExtPorts(b, at, |ps|) == Ok((ps, at + 8 * |ps|))
    decreases |ps|
  {
    if ps != [] {
      var tail := ps[1..];
      var head, rest := SerializeExtPort(ps[0]), SerializeExtPorts(tail);
      assert SerializeExtPorts(ps) == head + rest;
      assert b[at..at + 8] == head by {
        assert b[at..at + 8] == b[at..at + 8 * |ps|][..8];
      }
      assert b[at + 8..at + 8 + 8 * |tail|] == rest by {
        assert b[at + 8..at + 8 + 8 * |tail|] == b[at..at + 8 * |ps|][8..];
      }
      DecodeEncodeExtPort(b, at, ps[0]);
      DecodeEncodeExtPorts(b, at + 8, tail);
      ExtPortsUnfold(b, at, |ps|);
      assert [ps[0]] + tail == ps;
    }
  }

  lemma {:induction false} EncodeDecodeExtPorts(b: seq<Byte>, at: nat, count: nat)
    requires at + 8 * count <= |b|
    ensures SerializeExtPorts(DeserializeExtPorts(b, at, count).value.0) == b[at..at + 8 * count]
    decreases count
  {
    if count > 0 {
      var ps := DeserializeExtPorts(b, at, count).value.0;
      assert ps[0] == DeserializeExtPort(b, at).value.0 && ps[1..] == DeserializeExtPorts(b, at + 8, count - 1).value.0 by {
        ExtPortsUnfold(b, at, count);
      }
      calc {
        SerializeExtPorts(ps);
        SerializeExtPort(ps[0]) + SerializeExtPorts(ps[1..]);
        { EncodeDecodeExtPort(b, at); EncodeDecodeExtPorts(b, at + 8, count - 1); }
        b[at..at + 8] + b[at + 8..at + 8 + 8 * (count - 1)];
        b[at..at + 8 * count];
      }
    }
  }

  /** What a successful decode of the extended response is made of, field by field. */
  lemma ExtConnectionInfoFields(b: seq<Byte>)
    requires |b| >= 20
    ensures DeserializeExtConnectionInfo(b) ==
      Ok((GetExtConnectionInfoResponse(b[0], b[1], DecodeU16LE(b, 2).value.0, DeserializeExtPorts(b, 4, 2).value.0), 20))
  {
    assert DecodeU8(b, 0) == Ok((b[0], 1));
    assert DecodeU8(b, 1) == Ok((b[1], 2));
    assert DecodeU16LE(b, 2).Ok? && DecodeU16LE(b, 2).value.1 == 4;
    assert DeserializeExtPorts(b, 4, 2).Ok?;
  }

  /** Encoding an extended response with a two-entry table and decoding it gives it back. */
  lemma ExtConnectionInfoRoundTrip(r: GetExtConnectionInfoResponse, trailing: seq<Byte>)
    requires |r.ports| == PORT_TABLE_SIZE
    ensures DeserializeExtConnectionInfo(SerializeExtConnectionInfo(r) + trailing) == Ok((r, 20))
  {
    var b := SerializeExtConnectionInfo(r) + trailing;
    assert b[0] == r.numPorts && b[1] == r.hasDifferentEndpoints;
    assert b[2..4] == EncodeU16LE(r.padding1);
    DecodeEncodeU16LE(b, 2, r.padding1);
    assert b[4..4 + 8 * |r.ports|] == SerializeExtPorts(r.ports);
    DecodeEncodeExtPorts(b, 4, r.ports);
    ExtConnectionInfoFields(b);
  }

  /** Splits the first twenty bytes into the header fields and the ports table. */
  lemma ExtConnectionInfoSplit(b: seq<Byte>, padding1: seq<Byte>, ports: seq<Byte>)
    requires |b| >= 20 && padding1 == b[2..4] && ports == b[4..20]
    ensures [b[0]] + [b[1]] + padding1 + ports == b[..20]
  {
  }

  /** Decoding at least twenty bytes and re-encoding reproduces the first twenty. */
  lemma ExtConnectionInfoBytesRoundTrip(b: seq<Byte>)
    requires |b| >= 20
    ensures DeserializeExtConnectionInfo(b).Ok?
    ensures SerializeExtConnectionInfo(DeserializeExtConnectionInfo(b).value.0) == b[..20]
  {
    ExtConnectionInfoFields(b);
    EncodeDecodeExtPorts(b, 4, 2);
    var padding1, ports := DecodeU16LE(b, 2).value.0, DeserializeExtPorts(b, 4, 2).value.0;
    ExtConnectionInfoSplit(b, EncodeU16LE(padding1), SerializeExtPorts(ports));
  }
}
