# palm-sync: USB bring-up and the serial sync server, in Dafny

This project models two parts of palm-sync, a HotSync implementation for Palm OS devices.

**USB bring-up** (`sync/src/usb-sync-server.ts`):

- the vendor control requests a Palm OS device understands;
- the wire layouts of the two connection-info responses (`GetConnectionInfoResponse` and `GetExtConnectionInfoResponse` with their port entries and packed endpoint byte) as encoders and decoders;
- the per-family initializer table `USB_INIT_FNS`, where the GENERIC initializer queries the device, picks the first in-use HotSync port and queries the byte count;
- the `UsbConnectionStream` adapter, which turns each write into one bulk-out transfer and each read into one bulk-in transfer.

The WebUSB device is a class, `UsbSync.UsbDevice`. It answers its k-th transfer with a fixed reply (`replies(k)`) and appends every transfer to a log. The initializer and the stream are methods over that device. They are proved against specification functions of the replies (`GenericInitOutcome`, `GenericInitTransfers`).

**Serial sync server** (`src/serial-sync-server.ts`):

- `SerialSyncServer` is a class holding the serial port and a trace of everything the server does: 'connect', baud-rate updates, the handshake, start, the conduit, end, 'disconnect', and closing the port.
- `start` and `stop` are methods, and so is `onConnection`, which runs one session step by step.
- `run` is the accept loop. It ignores a session's failure and keeps going while the port is open.
- What the handshake, start, conduit and end return is a parameter (`StepOutcomes`). What happens between sessions (another session, a `stop()`, the port closing by itself) comes from a script (`Attempt`).

Modules:

- `Wrappers`: Option and Result.
- `FieldCodec`: u8, u16le and fixed-byte fields read at a cursor.
- `UsbLayouts`: the response layouts.
- `UsbSync`: the device, the initializers and the stream.
- `SerialSync`: the serial server.

### A session ends at its first failing step

`onConnection` (src/serial-sync-server.ts:63-79) has no try/finally. When the handshake, `start()` or the conduit throws, neither `end()` nor 'disconnect' happens. When `end()` throws, there is no 'disconnect'. `SessionEvents` stops at the first failing step.

## Model

| member | source | states |
|---|---|---|
| UsbLayouts.RequestCode | sync/src/usb-sync-server.ts:33-51 | every vendor request has a code between 0x01 and 0x04 |
| UsbLayouts.RequestCodeInjective | sync/src/usb-sync-server.ts:33-51 | two requests share a code exactly when they are the same request |
| FieldCodec.EncodeU16LE | sync/src/usb-sync-server.ts:69-70 | a u16 field is two bytes, low byte first, and they recombine to the value |
| FieldCodec.DecodeU8 | sync/src/usb-sync-server.ts:56-57 | a u8 read succeeds exactly when a byte remains; the value re-encodes to that byte and the cursor advances by one |
| FieldCodec.DecodeEncodeU8 | sync/src/usb-sync-server.ts:56-57 | reading back an encoded byte gives the value |
| FieldCodec.DecodeU16LE | sync/src/usb-sync-server.ts:270 | a u16le read succeeds exactly when two bytes remain; the value re-encodes to those two bytes and the cursor advances by two |
| FieldCodec.DecodeEncodeBytes | sync/src/usb-sync-server.ts:82-83 | a fixed run of bytes read back at the position it was placed gives the run, whatever bytes precede or follow it |
| FieldCodec.DecodeEncodeU16LE | sync/src/usb-sync-server.ts:69-70 | reading back an encoded u16 gives the value |
| UsbLayouts.SerializeConnectionPorts | sync/src/usb-sync-server.ts:128-134 | each port entry is two bytes: function type, then port number, in table order |
| UsbLayouts.ConnectionInfoSerializedLength | sync/src/usb-sync-server.ts:202 | the buffer size requested equals the length of the encoding |
| UsbLayouts.DeserializeConnectionPorts | sync/src/usb-sync-server.ts:113-116 | reading count entries succeeds exactly when 2·count bytes remain; it gives count entries and advances the cursor by 2·count |
| UsbLayouts.DeserializeConnectionInfo | sync/src/usb-sync-server.ts:107-117 | decoding into a fresh response succeeds exactly when the buffer holds at least its 6-byte size; the result has a two-entry table, and 6 bytes are consumed |
| UsbLayouts.ConnectionInfoLayout | sync/src/usb-sync-server.ts:107-134 | the exact six bytes of a response: numPorts little-endian, then (functionType, portNumber) twice |
| UsbLayouts.DecodeEncodeConnectionPorts | sync/src/usb-sync-server.ts:113-116 | decoding the encoding of any port table gives the table back |
| UsbLayouts.EncodeDecodeConnectionPorts | sync/src/usb-sync-server.ts:113-116 | re-encoding decoded entries reproduces the bytes read |
| UsbLayouts.ConnectionInfoRoundTrip | sync/src/usb-sync-server.ts:107-117 | decoding an encoded response gives the response back, whatever bytes follow it |
| UsbLayouts.ConnectionInfoBytesRoundTrip | sync/src/usb-sync-server.ts:107-117 | any buffer of 6 or more bytes decodes, and re-encoding gives its first 6 bytes |
| UsbLayouts.PackEndpoints | sync/src/usb-sync-server.ts:97-105 | the packed byte carries the in-endpoint in its high nibble and the out-endpoint in its low nibble |
| UsbLayouts.UnpackEndpoints | sync/src/usb-sync-server.ts:97-105 | the two unpacked nibbles recombine to the byte |
| UsbLayouts.UnpackPackEndpoints | sync/src/usb-sync-server.ts:97-105 | unpacking a packed endpoint pair gives the pair |
| UsbLayouts.PackUnpackEndpoints | sync/src/usb-sync-server.ts:97-105 | packing an unpacked byte gives the byte |
| UsbLayouts.SerializeExtPort | sync/src/usb-sync-server.ts:79-95 | an extended port entry is 8 bytes |
| UsbLayouts.SerializeExtPorts | sync/src/usb-sync-server.ts:72-76 | an extended ports table is 8 bytes per entry |
| UsbLayouts.ExtConnectionInfoSerializedLength | sync/src/usb-sync-server.ts:53-77 | the size of an extended response equals the length of its encoding |
| UsbLayouts.DeserializeExtPort | sync/src/usb-sync-server.ts:79-95 | an extended entry decodes exactly when 8 bytes remain, and it consumes 8 |
| UsbLayouts.DeserializeExtPorts | sync/src/usb-sync-server.ts:72-76 | reading count extended entries succeeds exactly when 8·count bytes remain; it gives count entries |
| UsbLayouts.DeserializeExtConnectionInfo | sync/src/usb-sync-server.ts:53-77 | decoding into a fresh extended response succeeds exactly when 20 bytes are present; the result has a two-entry table, and 20 bytes are consumed |
| UsbLayouts.ExtPortLayout | sync/src/usb-sync-server.ts:79-105 | the exact bytes of an extended entry: creator ID, port number, packed endpoints, padding little-endian |
| UsbLayouts.ExtConnectionInfoLayout | sync/src/usb-sync-server.ts:53-77 | the exact 20 bytes of an extended response with a two-entry table |
| UsbLayouts.DecodeEncodeExtPort | sync/src/usb-sync-server.ts:79-105 | decoding an encoded extended entry gives it back |
| UsbLayouts.EncodeDecodeExtPort | sync/src/usb-sync-server.ts:79-105 | re-encoding a decoded extended entry reproduces its 8 bytes |
| UsbLayouts.DecodeEncodeExtPorts | sync/src/usb-sync-server.ts:72-76 | decoding the encoding of any extended table gives it back |
| UsbLayouts.EncodeDecodeExtPorts | sync/src/usb-sync-server.ts:72-76 | re-encoding decoded extended entries reproduces the bytes read |
| UsbLayouts.ExtConnectionInfoRoundTrip | sync/src/usb-sync-server.ts:53-77 | decoding an encoded extended response gives it back, whatever bytes follow it |
| UsbLayouts.ExtConnectionInfoBytesRoundTrip | sync/src/usb-sync-server.ts:53-77 | any buffer of 20 or more bytes decodes, and re-encoding gives its first 20 bytes |
| UsbSync.UsbDevice.ControlTransferIn | sync/src/usb-sync-server.ts:194-203 | a control-in transfer is logged and gets the device's next reply |
| UsbSync.UsbDevice.TransferIn | sync/src/usb-sync-server.ts:331-334 | a bulk-in transfer is logged and gets the device's next reply |
| UsbSync.UsbDevice.TransferOut | sync/src/usb-sync-server.ts:319-322 | a bulk-out transfer is logged and gets the next reply's status |
| UsbSync.ConsideredPorts | sync/src/usb-sync-server.ts:209-210 | `slice(0, numPorts)` keeps the first min(numPorts, table size) entries |
| UsbSync.FirstHotSyncIndex | sync/src/usb-sync-server.ts:211-213 | the index found is a HotSync entry with no HotSync entry before it; none is found exactly when there is no HotSync entry |
| UsbSync.FindHotSyncPort | sync/src/usb-sync-server.ts:209-214 | the port found is the first HotSync entry among the in-use ones; there is none exactly when no in-use entry is HotSync |
| UsbSync.GenericInitSucceeds | sync/src/usb-sync-server.ts:184-273 | GENERIC succeeds exactly when both transfers are ok and carry data, the info is at least 6 bytes with an in-use HotSync port, and the count has 2 bytes; the config is then (interrupt 0, in = out = that port's number) |
| UsbSync.GenericInitIgnoresByteCount | sync/src/usb-sync-server.ts:248-270 | the value of an accepted byte count never changes the outcome |
| UsbSync.GenericInitRequestCodes | sync/src/usb-sync-server.ts:194-203 | GENERIC first issues request code 0x03 for 6 bytes. Exactly when a HotSync port was found, it then issues code 0x01 for 2 bytes. Both have index 0 and value 0 |
| UsbSync.GenericInitTransferFailures | sync/src/usb-sync-server.ts:204-269 | a failed info transfer aborts with its status after one transfer; a failed or empty count transfer aborts with that request's error |
| UsbSync.GenericInitPicksSecondPort | sync/src/usb-sync-server.ts:209-222 | a table of [debugger port 1, HotSync port 2] with two ports in use yields endpoints (0, 2, 2) |
| UsbSync.GenericInitNoPortsInUse | sync/src/usb-sync-server.ts:209-219 | with numPorts 0, HotSync entries in the table are ignored and initialization fails |
| UsbSync.GenericInit | sync/src/usb-sync-server.ts:184-273 | performs exactly `GenericInitTransfers` of the replies and returns `GenericInitOutcome` of the two replies |
| UsbSync.InitDevice | sync/src/usb-sync-server.ts:173-298 | NONE, VISOR, SONY_CLIE and TAPWAVE return all-zero endpoints without any transfer; GENERIC behaves as `GenericInit` |
| UsbSync.UsbConnectionStream.Write | sync/src/usb-sync-server.ts:310-328 | a non-buffer chunk or encoding is refused without a transfer; otherwise exactly one bulk-out of the chunk on the out-endpoint, whose failure status becomes the callback error |
| UsbSync.UsbConnectionStream.Read | sync/src/usb-sync-server.ts:330-342 | exactly one bulk-in of `size` on the in-endpoint; ok pushes its data, or an empty chunk when there is none; any other status destroys the stream and pushes nothing |
| SerialSync.HandshakeUsesPadpAtHighRate | src/serial-sync-server.ts:97-104 | every session's handshake runs over a PADP stream on the raw stream and offers 115200 baud |
| SerialSync.SessionEventsByOutcome | src/serial-sync-server.ts:63-79 | the events of a session, spelled out for each step at which it can end |
| SerialSync.SuccessfulSessionEvents | src/serial-sync-server.ts:63-79 | a fully successful session with a port emits connect, 9600, handshake, 115200, start, conduit, end, disconnect, and throws nothing |
| SerialSync.FailedHandshakeEvents | src/serial-sync-server.ts:63-71 | after a failed handshake there is no rate switch, no start, no conduit, no end and no 'disconnect', and the session throws the handshake failure |
| SerialSync.RateSwitchFollowsHandshake | src/serial-sync-server.ts:67-71 | 115200 is set only with a port present, only after a handshake that returned, right after it, and 9600 was set before that handshake |
| SerialSync.SessionEventsCarryConnection | src/serial-sync-server.ts:64-78 | 'connect', start, the conduit, end and 'disconnect' all carry the connection created over the session's raw stream |
| SerialSync.SessionConnectsOnce | src/serial-sync-server.ts:63-65 | every session emits 'connect' exactly once |
| SerialSync.SessionsBeforeStop | src/serial-sync-server.ts:81-89 | the sessions run are exactly the attempts before the first stop or port loss |
| SerialSync.StopsWithinScript | src/serial-sync-server.ts:81-89 | a script that ends the loop ends it at an attempt inside the script |
| SerialSync.RateAfterLastSession | src/serial-sync-server.ts:67-71 | the rate the loop leaves the port at is the one set by the last session: 115200 if its handshake returned, else 9600. With no session the rate is unchanged |
| SerialSync.RunAcceptsEverySession | src/serial-sync-server.ts:81-89 | the loop runs one session per arriving connection until the port goes, whatever the sessions throw |
| SerialSync.SerialSyncServer.constructor | src/serial-sync-server.ts:23-33 | a new server has no port and an empty trace |
| SerialSync.SerialSyncServer.Start | src/serial-sync-server.ts:35-52 | a second start fails and leaves the port alone; otherwise a fresh open port on the device at 9600 |
| SerialSync.SerialSyncServer.Stop | src/serial-sync-server.ts:54-61 | without a port nothing happens; otherwise the port is closed, the close is traced and the server forgets the port |
| SerialSync.SerialSyncServer.UpdateBaudRate | src/serial-sync-server.ts:67 | `serialPort?.update`: sets the rate and traces it only when there is a port |
| SerialSync.SerialSyncServer.OnConnection | src/serial-sync-server.ts:63-79 | appends exactly `SessionEvents` for the outcomes and throws `SessionResult`; the port stays open, at 115200 after a completed handshake and at 9600 otherwise |
| SerialSync.SerialSyncServer.Run | src/serial-sync-server.ts:81-89 | over an open port, it appends `RunEvents` of the script and runs `SessionsBeforeStop` sessions. Afterwards the port is closed and at `RateAfterSessions`. It is forgotten exactly when the loop ended on `stop()`; when the port closed by itself, `serialPort` still holds it. Without an open port, nothing changes: trace, port and rate stay as they were |

## Left out

- `waitForDevice` (usb-sync-server.ts:137-157) is left out. It polls WebUSB's device list on a 100 ms timer, so it depends on the host's device enumeration and a clock.
- The `require.main === module` demo blocks of both files are left out. So are the commented-out GET_EXT_CONNECTION_INFO query (lines 224-246) and sync/src/tests/list-db-test.ts. The DLP requests those blocks issue are not part of this model.
- The CMP handshake, PADP framing and the DLP connection (`doCmpHandshake`, `PadpStream`, `SyncConnection.start`/`end`) are not part of this model. Their results are the `StepOutcomes` parameter, and the handshake is recorded with its stream and rate.
- The encoding of `SString.ofLength(4)` is not modelled. The creator ID is kept as its four raw bytes, with no text decoding or padding.
- UsbLayouts.PackEndpoints: the serio bitfield order is not part of this model. The first-declared field, `inEndpoint`, is taken to be the high nibble.
- A reply to GET_CONNECTION_INFO without data is `InitError.NoData`. The source makes no such check: `result1.data!.buffer` (line 207) throws a TypeError instead. Both abort initialization.
- SerialSync.SerialSyncServer.OnConnection: the port stays open because the handshake, `start()`, the conduit and `end()` are taken to leave the raw stream alone. In `run()` that raw stream is the serial port itself (src/serial-sync-server.ts:84). A session whose `end()` closes the port is the script `Incoming(o), PortLost`.
- The serio error raised for a short buffer is not modelled. It becomes `CodecError.Truncated`. This includes `SUInt16LE.from` at line 270 on fewer than two bytes, which throws even though its value is only logged.
- WebUSB's and Node's asynchrony is not modelled: promises, the Duplex stream's internal buffering, and back-pressure. Each await is one step in order.
- SerialSync.SerialSyncServer.UpdateBaudRate: `serialPort?.update(...)` at lines 67 and 71 is not awaited, so the real rate change completes some time later. The model applies it at once, in call order.
- SerialSync.SerialSyncServer.Stop: `await pEvent(serialPort, 'close')` (line 59) needs the port to emit 'close'. For a port already closed by itself, the model assumes SerialPort still lets `stop()` complete. That is library behaviour the source does not show.
- `destroy` is recorded as the stream's error, not as Node's teardown of the stream.
- The `push` return value, and `_read` being called again, are left out.
- In `start`, the SerialPort open callback throws an open error and otherwise calls `run()`, asynchronously. The model opens the port and leaves the call to `Run` to the caller. An open error is not modelled.
- SerialSync.SerialSyncServer.Run: `stop()` and the port closing by itself are concurrent with the loop, so they are a script of attempts. The script must contain a stop or a port loss (`EventuallyStops`). A loop the environment never ends is not modelled.
- Logging (`console.log`, `debug`), the `EventEmitter` listeners and the exception messages are left out. The events 'connect', start, the conduit, end and 'disconnect' carry the connection, and the handshake carries its stream and rate. Nothing else of their arguments is recorded.
- `SerialSyncServer.syncFn` is not modelled as code. Its result is the `syncOk` outcome.

