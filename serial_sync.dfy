/**
 * The serial sync server (src/serial-sync-server.ts): a started/stopped
 * server over one serial port, the fixed sequence of steps of one HotSync
 * session, and the accept loop that survives failed sessions.
 *
 * The handshake, the framing set-up, the conduit and the tear-down are
 * performed by code outside this model; each is an abstract step whose
 * success or failure is given. What the server does is recorded in a trace
 * of events, in order.
 */
module SerialSync {
  import opened Wrappers

  /** The rate a port is opened at and every handshake starts at. */
  const DEFAULT_BAUD_RATE: nat := 9600
  /** The rate the serial connection offers during the handshake. */
  const HANDSHAKE_TARGET_RATE: nat := 115200

  /** The raw duplex stream a session runs over: the serial port at `path`. */
  datatype RawStream = SerialPortStream(path: string)

  /** The framing stream a serial connection builds over its raw stream. */
  datatype DlpStream = PadpStream(raw: RawStream)

  datatype SerialSyncConnection = SerialSyncConnection(rawStream: RawStream, dlpStream: DlpStream)

  /** A new serial connection frames its raw stream with PADP. */
  function NewSerialSyncConnection(rawStream: RawStream): SerialSyncConnection {
    SerialSyncConnection(rawStream, PadpStream(rawStream))
  }

  /** The rate `doHandshake` offers: always the high rate. */
  function HandshakeTargetRate(c: SerialSyncConnection): nat {
    HANDSHAKE_TARGET_RATE
  }

  datatype Event =
    | Connect(connection: SerialSyncConnection)
    | SetBaudRate(rate: nat)
    | Handshake(stream: DlpStream, targetRate: nat)
    | StartConnection(connection: SerialSyncConnection)
    | RunSyncFn(connection: SerialSyncConnection)
    | EndConnection(connection: SerialSyncConnection)
    | Disconnect(connection: SerialSyncConnection)
    | ClosePort

  /** Whether each externally performed step of a session returns normally. */
  datatype StepOutcomes = StepOutcomes(handshakeOk: bool, startOk: bool, syncOk: bool, endOk: bool)

  datatype SessionFailure = HandshakeFailed | StartFailed | SyncFnFailed | EndFailed

  datatype ServerError = AlreadyStarted

  /** `serialPort?.update(...)`: a rate change happens only while there is a port. */
  function RateChange(portPresent: bool, rate: nat): seq<Event> {
    if portPresent then [SetBaudRate(rate)] else []
  }

  /**
   * The events of one session, in order. A step that throws ends the
   * session: nothing after it happens.
   */
  function SessionEvents(portPresent: bool, c: SerialSyncConnection, o: StepOutcomes): seq<Event> {
    HandshakeEvents(portPresent, c) + if o.handshakeOk then AfterHandshake(portPresent, c, o) else []
  }

  /** Up to and including the handshake: these happen in every session. */
  function HandshakeEvents(portPresent: bool, c: SerialSyncConnection): seq<Event> {
    [Connect(c)] + RateChange(portPresent, DEFAULT_BAUD_RATE) + [Handshake(c.dlpStream, HandshakeTargetRate(c))]
  }

  function AfterHandshake(portPresent: bool, c: SerialSyncConnection, o: StepOutcomes): seq<Event> {
    RateChange(portPresent, HANDSHAKE_TARGET_RATE) + [StartConnection(c)] + if o.startOk then AfterStart(c, o) else []
  }

  function AfterStart(c: SerialSyncConnection, o: StepOutcomes): seq<Event> {
    [RunSyncFn(c)] + if o.syncOk then AfterSyncFn(c, o) else []
  }

  function AfterSyncFn(c: SerialSyncConnection, o: StepOutcomes): seq<Event> {
    [EndConnection(c)] + if o.endOk then [Disconnect(c)] else []
  }

  /** The exception a session ends with, if any. */
  function SessionResult(o: StepOutcomes): Option<SessionFailure> {
    if !o.handshakeOk then Some(HandshakeFailed)
    else if !o.startOk then Some(StartFailed)
    else if !o.syncOk then Some(SyncFnFailed)
    else if !o.endOk then Some(EndFailed)
    else None
  }

  /** Concatenation is associative; stated once so that trace bookkeeping stays cheap. */
  lemma AppendAssoc(a: seq<Event>, b: seq<Event>, c: seq<Event>)
    ensures a + b + c == a + (b + c)
  {
  }

  /** The events of a session, spelled out by the step at which it ends. */
  lemma SessionEventsByOutcome(portPresent: bool, c: SerialSyncConnection, o: StepOutcomes)
    ensures var hs := HandshakeEvents(portPresent, c);
      var st := hs + RateChange(portPresent, HANDSHAKE_TARGET_RATE) + [StartConnection(c)];
      && (!o.handshakeOk ==> SessionEvents(portPresent, c, o) == hs)
      && (o.handshakeOk && !o.startOk ==> SessionEvents(portPresent, c, o) == st)
      && (o.handshakeOk && o.startOk && !o.syncOk ==> SessionEvents(portPresent, c, o) == st + [RunSyncFn(c)])
      && (o.handshakeOk && o.startOk && o.syncOk && !o.endOk ==>
            SessionEvents(portPresent, c, o) == st + [RunSyncFn(c)] + [EndConnection(c)])
      && (o.handshakeOk && o.startOk && o.syncOk && o.endOk ==>
            SessionEvents(portPresent, c, o) == st + [RunSyncFn(c)] + [EndConnection(c)] + [Disconnect(c)])
  {
    var hs := HandshakeEvents(portPresent, c);
    var rc := RateChange(portPresent, HANDSHAKE_TARGET_RATE);
    if o.handshakeOk && o.startOk {
      var st := hs + rc + [StartConnection(c)];
      assert SessionEvents(portPresent, c, o) == st + AfterStart(c, o);
      if o.syncOk {
        assert AfterStart(c, o) == [RunSyncFn(c)] + AfterSyncFn(c, o);
      }
    }
  }

  /** A session in which every step succeeds emits exactly these eight events. */
  lemma SuccessfulSessionEvents(c: SerialSyncConnection, o: StepOutcomes)
    requires o.handshakeOk && o.startOk && o.syncOk && o.endOk
    ensures SessionEvents(true, c, o) ==
      [Connect(c), SetBaudRate(DEFAULT_BAUD_RATE), Handshake(c.dlpStream, HANDSHAKE_TARGET_RATE),
       SetBaudRate(HANDSHAKE_TARGET_RATE), StartConnection(c), RunSyncFn(c), EndConnection(c), Disconnect(c)]
    ensures SessionResult(o) == None
  {
  }

  /**
   * 'connect', start, the conduit, end and 'disconnect' all concern the
   * session's own connection: the one created over the raw stream.
   */
  lemma SessionEventsCarryConnection(rawStream: RawStream, portPresent: bool, o: StepOutcomes)
    ensures var c := NewSerialSyncConnection(rawStream);
      forall e | e in SessionEvents(portPresent, c, o) ::
        (e.Connect? || e.StartConnection? || e.RunSyncFn? || e.EndConnection? || e.Disconnect?) ==> e.connection == c
  {
  }

  /** A failed handshake: no rate switch, and none of the later steps or 'disconnect'. */
  lemma FailedHandshakeEvents(portPresent: bool, c: SerialSyncConnection, o: StepOutcomes)
    requires !o.handshakeOk
    ensures SessionEvents(portPresent, c, o) ==
      [Connect(c)] + RateChange(portPresent, DEFAULT_BAUD_RATE) + [Handshake(c.dlpStream, HANDSHAKE_TARGET_RATE)]
    ensures SetBaudRate(HANDSHAKE_TARGET_RATE) !in SessionEvents(portPresent, c, o)
    ensures forall e | e in SessionEvents(portPresent, c, o) ::
      !e.StartConnection? && !e.RunSyncFn? && !e.EndConnection? && !e.Disconnect?
    ensures SessionResult(o) == Some(HandshakeFailed)
  {
  }

  /**
   * Rate ordering: the default rate is set before the handshake, and the
   * high rate is set only after a handshake that returned normally,
   * immediately after it.
   */
  lemma RateSwitchFollowsHandshake(portPresent: bool, c: SerialSyncConnection, o: StepOutcomes, i: nat)
    requires i < |SessionEvents(portPresent, c, o)|
    requires SessionEvents(portPresent, c, o)[i] == SetBaudRate(HANDSHAKE_TARGET_RATE)
    ensures o.handshakeOk && portPresent && i == 3
    ensures SessionEvents(portPresent, c, o)[1] == SetBaudRate(DEFAULT_BAUD_RATE)
    ensures SessionEvents(portPresent, c, o)[2] == Handshake(c.dlpStream, HANDSHAKE_TARGET_RATE)
  {
  }

  /** Every session runs its handshake over the connection's PADP stream, offering the high rate. */
  lemma HandshakeUsesPadpAtHighRate(rawStream: RawStream, portPresent: bool, o: StepOutcomes)
    ensures var c := NewSerialSyncConnection(rawStream);
      Handshake(PadpStream(rawStream), HANDSHAKE_TARGET_RATE) in SessionEvents(portPresent, c, o)
  {
    var c := NewSerialSyncConnection(rawStream);
    var ev := SessionEvents(portPresent, c, o);
    assert ev[|RateChange(portPresent, DEFAULT_BAUD_RATE)| + 1] == Handshake(PadpStream(rawStream), HANDSHAKE_TARGET_RATE);
  }

  // ---------------------------------------------------------------------------
  // The accept loop.

  /**
   * What happens next while the server runs: a session arrives, `stop()` is
   * called, or the port closes by itself.
   */
  datatype Attempt = Incoming(o: StepOutcomes) | StopRequested | PortLost

  /** The script ends the loop: some attempt is not a session. */
  predicate EventuallyStops(script: seq<Attempt>) {
    exists k :: 0 <= k < |script| && !script[k].Incoming?
  }

  /** The events `run` produces over an open port, up to the first non-session attempt. */
  function RunEvents(rawStream: RawStream, script: seq<Attempt>): seq<Event>
    decreases |script|
  {
    if script == [] then []
    else match script[0]
      case Incoming(o) => SessionEvents(true, NewSerialSyncConnection(rawStream), o) + RunEvents(rawStream, script[1..])
      case StopRequested => [ClosePort]
      case PortLost => []
  }

  /** The number of sessions run before the loop ends. */
  function SessionsBeforeStop(script: seq<Attempt>): (n: nat)
    ensures n <= |script|
    ensures forall k :: 0 <= k < n ==> script[k].Incoming?
    ensures n < |script| ==> !script[n].Incoming?
  {
    if script == [] || !script[0].Incoming? then 0 else 1 + SessionsBeforeStop(script[1..])
  }

  /** A script that ends the loop ends it within the script. */
  lemma StopsWithinScript(script: seq<Attempt>)
    requires EventuallyStops(script)
    ensures SessionsBeforeStop(script) < |script|
  {
    var k :| 0 <= k < |script| && !script[k].Incoming?;
  }

  /** The rate a session leaves an open port at: high once the handshake has returned. */
  function SessionRate(o: StepOutcomes): nat {
    if o.handshakeOk then HANDSHAKE_TARGET_RATE else DEFAULT_BAUD_RATE
  }

  /** The port's rate after the sessions `run` performs, starting at `rate`. */
  function RateAfterSessions(rate: nat, script: seq<Attempt>): nat
    decreases |script|
  {
    if script == [] || !script[0].Incoming? then rate
    else RateAfterSessions(SessionRate(script[0].o), script[1..])
  }

  /** The last session before the loop ends sets the final rate; with none, the rate is unchanged. */
  lemma {:induction false} RateAfterLastSession(rate: nat, script: seq<Attempt>)
    ensures var n := SessionsBeforeStop(script);
      RateAfterSessions(rate, script) == if n == 0 then rate else SessionRate(script[n - 1].o)
    decreases |script|
  {
    if script != [] && script[0].Incoming? {
      RateAfterLastSession(SessionRate(script[0].o), script[1..]);
      var n := SessionsBeforeStop(script[1..]);
      if n > 0 {
        assert script[1..][n - 1] == script[n];
      }
    }
  }

  /** Bookkeeping for the loop: one step of `RateAfterSessions` at position `i`. */
  lemma RateAfterPrefix(rate: nat, script: seq<Attempt>, i: nat)
    requires i < |script|
    ensures RateAfterSessions(rate, script[i..]) ==
      if script[i].Incoming? then RateAfterSessions(SessionRate(script[i].o), script[i + 1..]) else rate
  {
    assert script[i..][1..] == script[i + 1..];
  }

  function CountConnects(ev: seq<Event>): nat {
    if ev == [] then 0 else (if ev[0].Connect? then 1 else 0) + CountConnects(ev[1..])
  }

  lemma {:induction false} CountConnectsAppend(a: seq<Event>, b: seq<Event>)
    ensures CountConnects(a + b) == CountConnects(a) + CountConnects(b)
    decreases |a|
  {
    if a == [] {
      assert a + b == b;
    } else {
      assert (a + b)[1..] == a[1..] + b;
      CountConnectsAppend(a[1..], b);
    }
  }

  lemma SessionConnectsOnce(portPresent: bool, c: SerialSyncConnection, o: StepOutcomes)
    ensures CountConnects(SessionEvents(portPresent, c, o)) == 1
  {
    var rest := SessionEvents(portPresent, c, o)[|HandshakeEvents(portPresent, c)|..];
    var rc := RateChange(portPresent, DEFAULT_BAUD_RATE);
    CountConnectsAppend(HandshakeEvents(portPresent, c), rest);
    CountConnectsAppend([Connect(c)] + rc, [Handshake(c.dlpStream, HandshakeTargetRate(c))]);
    CountConnectsAppend([Connect(c)], rc);
    NoConnects(rc);
    NoConnects(rest);
  }

  lemma {:induction false} NoConnects(ev: seq<Event>)
    requires forall e :: e in ev ==> !e.Connect?
    ensures CountConnects(ev) == 0
    decreases |ev|
  {
    if ev != [] {
      assert forall e :: e in ev[1..] ==> e in ev;
      NoConnects(ev[1..]);
    }
  }

  /**
   * A failing session never stops the loop: every session that arrives
   * before the port is stopped or lost is accepted, whatever its outcome.
   */
  lemma {:induction false} RunAcceptsEverySession(rawStream: RawStream, script: seq<Attempt>)
    ensures CountConnects(RunEvents(rawStream, script)) == SessionsBeforeStop(script)
    decreases |script|
  {
    if script != [] {
      match script[0]
      case Incoming(o) =>
        var c := NewSerialSyncConnection(rawStream);
        CountConnectsAppend(SessionEvents(true, c, o), RunEvents(rawStream, script[1..]));
        SessionConnectsOnce(true, c, o);
        RunAcceptsEverySession(rawStream, script[1..]);
      case StopRequested =>
        assert CountConnects([ClosePort]) == CountConnects([]);
      case PortLost =>
    }
  }

  // ---------------------------------------------------------------------------
  // The server object.

  class SerialPort {
    const path: string
    var baudRate: nat
    var isOpen: bool

    /** A port opened at `baudRate`. */
    constructor (path: string, baudRate: nat)
      ensures this.path == path && this.baudRate == baudRate && isOpen
    {
      this.path := path;
      this.baudRate := baudRate;
      isOpen := true;
    }
  }

  class SerialSyncServer {
    /** Path of the serial device to listen on. */
    const device: string
    var serialPort: SerialPort?
    /** Everything the server has done, in order. */
    var trace: seq<Event>

    constructor (device: string)
      ensures this.device == device && serialPort == null && trace == []
    {
      this.device := device;
      serialPort := null;
      trace := [];
    }

    /** Opens the port at the default rate; a second start fails and leaves the port alone. */
    method Start() returns (err: Option<ServerError>)
      modifies this
      ensures trace == old(trace)
      ensures old(serialPort) != null ==> err == Some(AlreadyStarted) && serialPort == old(serialPort)
      ensures old(serialPort) == null ==>
        && err == None && serialPort != null && fresh(serialPort)
        && serialPort.path == device && serialPort.baudRate == DEFAULT_BAUD_RATE && serialPort.isOpen
    {
      if serialPort != null {
        return Some(AlreadyStarted);
      }
      serialPort := new SerialPort(device, DEFAULT_BAUD_RATE);
      err := None;
    }

    /** Closes the port and forgets it; without a port it does nothing. */
    method Stop()
      modifies this, serialPort
      ensures old(serialPort) == null ==> serialPort == null && trace == old(trace)
      ensures old(serialPort) != null ==>
        && serialPort == null && !old(serialPort).isOpen
        && old(serialPort).baudRate == old(serialPort.baudRate)
        && trace == old(trace) + [ClosePort]
    {
      if serialPort == null {
        return;
      }
      serialPort.isOpen := false;
      trace := trace + [ClosePort];
      serialPort := null;
    }

    method UpdateBaudRate(rate: nat)
      modifies this, serialPort
      ensures serialPort == old(serialPort)
      ensures trace == old(trace) + RateChange(serialPort != null, rate)
      ensures serialPort != null ==> serialPort.baudRate == rate && serialPort.isOpen == old(serialPort.isOpen)
    {
      if serialPort != null {
        serialPort.baudRate := rate;
        trace := trace + [SetBaudRate(rate)];
      }
    }

    /**
     * One session over `rawStream`: connect, default rate, handshake, high
     * rate, start, conduit, end, disconnect. The first step that fails ends
     * the session with its exception.
     */
    method OnConnection(rawStream: RawStream, o: StepOutcomes) returns (failure: Option<SessionFailure>)
      modifies this, serialPort
      ensures serialPort == old(serialPort)
      ensures trace == old(trace) + SessionEvents(old(serialPort) != null, NewSerialSyncConnection(rawStream), o)
      ensures failure == SessionResult(o)
      ensures serialPort != null ==>
        && serialPort.isOpen == old(serialPort.isOpen)
        && serialPort.baudRate == SessionRate(o)
    {
      var connection := NewSerialSyncConnection(rawStream);
      ghost var present, t0 := serialPort != null, trace;
      // `ev` holds the events of this session so far: trace == t0 + ev throughout.
      trace := trace + [Connect(connection)];
      ghost var ev := [Connect(connection)];
      UpdateBaudRate(DEFAULT_BAUD_RATE);
      AppendAssoc(t0, ev, RateChange(present, DEFAULT_BAUD_RATE));
      ev := ev + RateChange(present, DEFAULT_BAUD_RATE);
      trace := trace + [Handshake(connection.dlpStream, HandshakeTargetRate(connection))];
      AppendAssoc(t0, ev, [Handshake(connection.dlpStream, HandshakeTargetRate(connection))]);
      ev := ev + [Handshake(connection.dlpStream, HandshakeTargetRate(connection))];
      SessionEventsByOutcome(present, connection, o);
      if !o.handshakeOk {
        return Some(HandshakeFailed);
      }
      UpdateBaudRate(HANDSHAKE_TARGET_RATE);
      AppendAssoc(t0, ev, RateChange(present, HANDSHAKE_TARGET_RATE));
      ev := ev + RateChange(present, HANDSHAKE_TARGET_RATE);
      trace := trace + [StartConnection(connection)];
      AppendAssoc(t0, ev, [StartConnection(connection)]);
      ev := ev + [StartConnection(connection)];
      if !o.startOk {
        return Some(StartFailed);
      }
      trace := trace + [RunSyncFn(connection)];
      AppendAssoc(t0, ev, [RunSyncFn(connection)]);
      ev := ev + [RunSyncFn(connection)];
      if !o.syncOk {
        return Some(SyncFnFailed);
      }
      trace := trace + [EndConnection(connection)];
      AppendAssoc(t0, ev, [EndConnection(connection)]);
      ev := ev + [EndConnection(connection)];
      if !o.endOk {
        return Some(EndFailed);
      }
      trace := trace + [Disconnect(connection)];
      AppendAssoc(t0, ev, [Disconnect(connection)]);
      ev := ev + [Disconnect(connection)];
      failure := None;
    }

    /**
     * The accept loop: while the port exists and is open, run a session and
     * ignore whatever it throws. `script` says what happens between checks.
     */
    method Run(script: seq<Attempt>) returns (sessions: nat)
      requires EventuallyStops(script)
      modifies this, serialPort
      ensures old(serialPort) == null || !old(serialPort.isOpen) ==>
        && trace == old(trace) && sessions == 0 && serialPort == old(serialPort)
        && (serialPort != null ==> serialPort.baudRate == old(serialPort.baudRate) && !serialPort.isOpen)
      ensures old(serialPort) != null && old(serialPort.isOpen) ==>
        && trace == old(trace) + RunEvents(SerialPortStream(old(serialPort).path), script)
        && sessions == SessionsBeforeStop(script)
        && (serialPort == null <==>
              SessionsBeforeStop(script) < |script| && script[SessionsBeforeStop(script)] == StopRequested)
        && (serialPort != null ==> serialPort == old(serialPort))
        && !old(serialPort).isOpen
        && old(serialPort).baudRate == RateAfterSessions(old(serialPort.baudRate), script)
    {
      ghost var port := serialPort;
      ghost var wasOpen := serialPort != null && serialPort.isOpen;
      ghost var raw := if port != null then SerialPortStream(port.path) else SerialPortStream("");
      ghost var rate0 := if port != null then port.baudRate else 0;
      var i := 0;
      sessions := 0;
      while serialPort != null && serialPort.isOpen
        invariant 0 <= i <= |script|
        invariant serialPort == null || serialPort == port
        invariant !wasOpen ==> i == 0 && trace == old(trace) && sessions == 0 && serialPort == port
        invariant !wasOpen && port != null ==> port.baudRate == rate0 && !port.isOpen
        invariant wasOpen && serialPort != null && serialPort.isOpen ==>
          && (forall k :: 0 <= k < i ==> script[k].Incoming?)
          && sessions == i
          && old(trace) + RunEvents(raw, script) == trace + RunEvents(raw, script[i..])
          && RateAfterSessions(rate0, script) == RateAfterSessions(port.baudRate, script[i..])
        invariant wasOpen && !(serialPort != null && serialPort.isOpen) ==>
          && trace == old(trace) + RunEvents(raw, script)
          && sessions == SessionsBeforeStop(script)
          && (serialPort == null <==> sessions < |script| && script[sessions] == StopRequested)
          && port != null && !port.isOpen && port.baudRate == RateAfterSessions(rate0, script)
        decreases |script| - i
      {
        RunPrefix(raw, script, i);
        RateAfterPrefix(port.baudRate, script, i);
        match script[i] {
          case Incoming(o) =>
            AppendAssoc(trace, SessionEvents(true, NewSerialSyncConnection(raw), o), RunEvents(raw, script[i + 1..]));
            var ignored := OnConnection(SerialPortStream(serialPort.path), o);
            sessions := sessions + 1;
          case StopRequested =>
            Stop();
          case PortLost =>
            serialPort.isOpen := false;
        }
        i := i + 1;
      }
    }
  }

  /**
   * Bookkeeping for the loop: when the first `i` attempts were sessions and
   * attempt `i` is not past the end, `RunEvents` of the rest starts with it.
   */
  lemma RunPrefix(raw: RawStream, script: seq<Attempt>, i: nat)
    requires EventuallyStops(script)
    requires i <= |script| && forall k :: 0 <= k < i ==> script[k].Incoming?
    ensures i < |script|
    ensures !script[i].Incoming? ==> SessionsBeforeStop(script) == i
    ensures script[i..] != [] && RunEvents(raw, script[i..]) ==
      match script[i]
      case Incoming(o) => SessionEvents(true, NewSerialSyncConnection(raw), o) + RunEvents(raw, script[i + 1..])
      case StopRequested => [ClosePort]
      case PortLost => []
  {
    assert script[i..][1..] == script[i + 1..];
    if !script[i].Incoming? {
      SessionsAtFirstStop(script, i);
    }
  }

  lemma {:induction false} SessionsAtFirstStop(script: seq<Attempt>, i: nat)
    requires i < |script| && !script[i].Incoming?
    requires forall k :: 0 <= k < i ==> script[k].Incoming?
    ensures SessionsBeforeStop(script) == i
    decreases i
  {
    if i > 0 {
      SessionsAtFirstStop(script[1..], i - 1);
    }
  }
}
