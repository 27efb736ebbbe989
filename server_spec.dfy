/**
  The orchestration state of the JACK server as one value, and one pure
  transition function per server operation. Each function follows the order
  of the calls in common/JackServer.cpp; the results of the calls the server
  makes on its collaborators (drivers, engine, control channel, driver loader)
  are parameters.
*/
module ServerSpec {
  import opened Wrappers
  import opened Drivers
  import opened Graph

  /** Calls the server issues on the engine, the engine control and the clock. */
  datatype Call =
    | NotifyBufferSize(frames: nat)
    | NotifyFreewheel(onoff: bool)
    | NotifyXRun(refnum: int)
    | NotifyGraphReorder
    | ClientDeactivate(refnum: int)
    | ClientExternalClose(refnum: int)
    | InitFrameTime          // engine control: restart the frame-time clock
    | InitTime               // process clock initialisation at the end of Open

  /** The notification kinds Notify dispatches on; every other kind is `OtherKind`. */
  datatype NotifyKind = GraphOrderCallback | XRunCallback | OtherKind(code: int)

  /**
    The engine together with the graph manager and the engine control it runs
    over: whether it is open, the buffer size in force, the live connection
    table, and the calls the server has issued to the three of them and to
    the clock, in order.
  */
  datatype Engine = Engine(
    isOpen: bool,
    bufferSize: nat,                    // engine control's buffer size
    connections: set<Connection>,       // the graph manager's connection table
    calls: seq<Call>)

  datatype ServerState = ServerState(
    channelOpen: bool,                  // control channel
    engine: Engine,
    moduleLoaded: bool,                 // driver module resolved by the loader
    audio: Option<Driver>,              // None until the module's factory succeeded
    freewheelDriver: Driver,
    loopbackDriver: Driver,
    loopback: int,                      // loopback channel count
    freewheel: bool,                    // freewheel mode flag
    connectionState: set<Connection>)   // the saved connection table

  /** A new state and the status code the operation returns. */
  datatype Reply = Reply(next: ServerState, result: int)

  /** The state right after the server object is constructed. */
  function Initial(loopback: int, bufferSize: nat): (s: ServerState) {
    ServerState(false, Engine(false, bufferSize, {}, []), false, None,
                Constructed(), Constructed(), loopback, false, {})
  }

  /** The engine after the server issued `c` to it. */
  function Issued(e: Engine, c: Call): (r: Engine) {
    e.(calls := e.calls + [c])
  }

  // ---------------------------------------------------------------- Open

  /** What the driver module's factory hands back: a driver, opened. */
  datatype LoadedDriver = LoadedDriver(bufferSize: nat, fixedSize: bool, refnum: int)

  /** The result of each stage of Open, as the collaborators report it. */
  datatype OpenOutcomes = OpenOutcomes(
    channel: int,                 // fails when < 0
    engine: int,                  // fails when != 0
    moduleLoaded: bool,           // the loader found the module
    driver: Option<LoadedDriver>, // None when the factory returned NULL
    freewheelOpen: int,           // fails when != 0
    loopbackOpen: int,            // fails when != 0
    audioAttach: int,             // fails when != 0
    loopbackAttach: int)          // fails when != 0; asked only when loopback > 0

  /** The slaves Open gives the Audio driver. */
  function ExpectedSlaves(loopback: int): (r: seq<DriverKind>) {
    (if loopback > 0 then [Loopback] else []) + [Freewheel]
  }

  /**
    Open: each stage aborts with -1 on failure, and what earlier stages did is
    kept (no rollback). The first half acquires the channel, the engine, the
    driver module, the Audio driver and the Freewheel and Loopback drivers;
    the second attaches the drivers and wires the Master and Slave roles.
  */
  function OpenSpec(s: ServerState, o: OpenOutcomes): (r: Reply) {
    var acquired := AcquireSpec(s, o);
    if acquired.result != 0 then acquired else AttachSpec(acquired.next, o)
  }

  /**
    The opened Audio driver writes its buffer size into the engine control,
    and the Freewheel driver opens with that size.
  */
  function AcquireSpec(s: ServerState, o: OpenOutcomes): (r: Reply)
    ensures r.result == 0 ==> r.next.audio.Some?
  {
    if o.channel < 0 then Reply(s, -1) else
    var s1 := s.(channelOpen := true);
    if o.engine != 0 then Reply(s1, -1) else
    var s2 := s1.(engine := s1.engine.(isOpen := true));
    if !o.moduleLoaded then Reply(s2.(moduleLoaded := false), -1) else
    var s3 := s2.(moduleLoaded := true);
    if o.driver.None? then Reply(s3.(audio := None), -1) else
    var d := o.driver.value;
    var s4 := s3.(audio := Some(Constructed().(isOpen := true, bufferSize := d.bufferSize,
                                               fixedSize := d.fixedSize, refnum := d.refnum)),
                  engine := s3.engine.(bufferSize := d.bufferSize));
    if o.freewheelOpen != 0 then Reply(s4, -1) else
    var s5 := s4.(freewheelDriver := s4.freewheelDriver.(isOpen := true, bufferSize := s4.engine.bufferSize));
    if o.loopbackOpen != 0 then Reply(s5, -1) else
    Reply(s5.(loopbackDriver := s5.loopbackDriver.(isOpen := true, bufferSize := s5.engine.bufferSize)), 0)
  }

  /** The Loopback driver is attached and made a slave only when its channel count is positive. */
  function AttachSpec(s: ServerState, o: OpenOutcomes): (r: Reply)
    requires s.audio.Some?
  {
    if o.audioAttach != 0 then Reply(s, -1) else
    var a := s.audio.value.(isAttached := true);
    if s.loopback > 0 && o.loopbackAttach != 0 then Reply(s.(audio := Some(a)), -1) else
    Reply(s.(loopbackDriver := if s.loopback > 0 then s.loopbackDriver.(isAttached := true) else s.loopbackDriver,
             freewheelDriver := s.freewheelDriver.(isMaster := false),
             audio := Some(a.(isMaster := true, slaves := a.slaves + ExpectedSlaves(s.loopback))),
             engine := Issued(s.engine, InitTime)), 0)
  }

  // --------------------------------------------------------------- Close

  /**
    What each teardown call of Close reports. Closing the control channel
    reports nothing.
  */
  datatype CloseOutcomes = CloseOutcomes(
    audioDetach: int,
    loopbackDetach: int,          // asked only when loopback > 0
    audioClose: int,
    freewheelClose: int,
    loopbackClose: int,
    engineClose: int)

  /**
    Close: every step is attempted whatever the previous ones reported, and
    the result is 0 in any case. Each driver and the engine change only when
    their own call reports 0. The Loopback driver is detached only when its
    channel count is positive, but it is closed in any case.
  */
  function CloseSpec(s: ServerState, o: CloseOutcomes): (r: Reply)
    requires s.audio.Some?
  {
    var a := s.audio.value.Detached(o.audioDetach).Closed(o.audioClose);
    var lb := if s.loopback > 0 then s.loopbackDriver.Detached(o.loopbackDetach) else s.loopbackDriver;
    Reply(s.(channelOpen := false,
             audio := Some(a),
             freewheelDriver := s.freewheelDriver.Closed(o.freewheelClose),
             loopbackDriver := lb.Closed(o.loopbackClose),
             engine := if o.engineClose == 0 then s.engine.(isOpen := false) else s.engine), 0)
  }

  // --------------------------------------------------------- Start, Stop

  /** Start always targets the Audio driver, in freewheel mode too. */
  function StartSpec(s: ServerState, startResult: int): (r: Reply)
    requires s.audio.Some?
  {
    Reply(s.(engine := Issued(s.engine, InitFrameTime), audio := Some(s.audio.value.Started(startResult))),
          startResult)
  }

  function StopSpec(s: ServerState, stopResult: int): (r: Reply)
    requires s.audio.Some?
  {
    Reply(s.(audio := Some(s.audio.value.Stopped(stopResult))), stopResult)
  }

  // ------------------------------------------------------- SetBufferSize

  /** What the Audio driver reports to the three calls SetBufferSize makes on it. */
  datatype ResizeOutcomes = ResizeOutcomes(stop: int, resize: int, start: int)

  /**
    SetBufferSize: early exit for an unchanged size and for a fixed-size
    driver; otherwise stop Audio, resize it, bring Freewheel to the size
    that is now in force (the new one, or back to the old one when Audio
    refused), and restart Audio. A successful Audio resize also writes the
    new size into the engine control.
  */
  function SetBufferSizeSpec(s: ServerState, frames: nat, o: ResizeOutcomes): (r: Reply)
    requires s.audio.Some?
  {
    var current := s.engine.bufferSize;
    if current == frames then Reply(s, 0)
    else if s.audio.value.fixedSize then Reply(s, -1)
    else
      var stopped := s.audio.value.Stopped(o.stop);
      if o.stop != 0 then Reply(s.(audio := Some(stopped)), -1)
      else if o.resize == 0 then
        Reply(s.(audio := Some(stopped.(bufferSize := frames).Started(o.start)),
                 freewheelDriver := s.freewheelDriver.(bufferSize := frames),
                 engine := Issued(Issued(s.engine.(bufferSize := frames), NotifyBufferSize(frames)), InitFrameTime)),
              o.start)
      else
        Reply(s.(audio := Some(stopped.Started(o.start)),
                 freewheelDriver := s.freewheelDriver.(bufferSize := current),
                 engine := Issued(s.engine, InitFrameTime)), o.start)
  }

  // -------------------------------------------------------- SetFreewheel

  /**
    SetFreewheel: a request matching the current mode is refused. Entering
    saves the table, cuts the Audio driver's client out of it and makes the
    Freewheel driver Master; leaving restores the saved table and takes the
    Master role back from the Freewheel driver. `stopResult` is what the
    driver being stopped reports, `startResult` what the one being started
    reports.
  */
  function SetFreewheelSpec(s: ServerState, onoff: bool, stopResult: int, startResult: int): (r: Reply)
    requires s.audio.Some?
  {
    if s.freewheel then
      if onoff then Reply(s, -1)
      else
        Reply(s.(freewheel := false,
                 freewheelDriver := s.freewheelDriver.Stopped(stopResult).(isMaster := false),
                 engine := Issued(Issued(s.engine.(connections := s.connectionState), NotifyFreewheel(false)), InitFrameTime),
                 audio := Some(s.audio.value.Started(startResult))), startResult)
    else
      if onoff then
        Reply(s.(freewheel := true,
                 audio := Some(s.audio.value.Stopped(stopResult)),
                 connectionState := s.engine.connections,
                 engine := Issued(s.engine.(connections := DisconnectAllPorts(s.engine.connections, s.audio.value.refnum)),
                                  NotifyFreewheel(true)),
                 freewheelDriver := s.freewheelDriver.(isMaster := true).Started(startResult)), startResult)
      else Reply(s, -1)
  }

  // ------------------------------------------------- Notify, ClientKill

  /** Notify forwards only the graph-order and xrun kinds to the engine. */
  function NotifySpec(s: ServerState, refnum: int, kind: NotifyKind, value: int): (t: ServerState) {
    match kind
    case GraphOrderCallback => s.(engine := Issued(s.engine, NotifyGraphReorder))
    case XRunCallback => s.(engine := Issued(s.engine, NotifyXRun(refnum)))
    case OtherKind(_) => s
  }

  /** ClientKill deactivates, then closes, whatever the deactivation reported. */
  function ClientKillSpec(s: ServerState, refnum: int): (t: ServerState) {
    s.(engine := Issued(Issued(s.engine, ClientDeactivate(refnum)), ClientExternalClose(refnum)))
  }

  // ------------------------------------------------------ the invariant

  /** Engine control, Audio driver and Freewheel driver hold the same buffer size. */
  predicate SizesAgree(s: ServerState)
    requires s.audio.Some?
  {
    s.audio.value.bufferSize == s.engine.bufferSize && s.freewheelDriver.bufferSize == s.engine.bufferSize
  }

  /**
    What a successful Open establishes and every later operation keeps: the
    Audio driver keeps the Master role and its slaves, the Freewheel driver is
    Master exactly in freewheel mode, and the three buffer sizes agree.
  */
  predicate Valid(s: ServerState) {
    && s.audio.Some?
    && s.audio.value.isMaster
    && s.audio.value.slaves == ExpectedSlaves(s.loopback)
    && s.freewheelDriver.isMaster == s.freewheel
    && SizesAgree(s)
  }

  // ------------------------------------------ sequences of operations

  /**
    The control-plane operations that can follow a successful Open, plus
    `GraphChange`: a change of the connection table made by clients through
    the engine, which the server does not control.
  */
  datatype Op =
    | StartOp(startResult: int)
    | StopOp(stopResult: int)
    | SetBufferSizeOp(frames: nat, resize: ResizeOutcomes)
    | SetFreewheelOp(onoff: bool, stopResult: int, startResult: int)
    | NotifyOp(refnum: int, kind: NotifyKind, value: int)
    | ClientKillOp(refnum: int)
    | GraphChange(table: set<Connection>)

  function Step(s: ServerState, op: Op): (r: ServerState)
    requires s.audio.Some?
    ensures r.audio.Some?
  {
    match op
    case StartOp(res) => StartSpec(s, res).next
    case StopOp(res) => StopSpec(s, res).next
    case SetBufferSizeOp(frames, o) => SetBufferSizeSpec(s, frames, o).next
    case SetFreewheelOp(onoff, stop, start) => SetFreewheelSpec(s, onoff, stop, start).next
    case NotifyOp(refnum, kind, value) => NotifySpec(s, refnum, kind, value)
    case ClientKillOp(refnum) => ClientKillSpec(s, refnum)
    case GraphChange(table) => s.(engine := s.engine.(connections := table))
  }

  function Run(s: ServerState, ops: seq<Op>): (r: ServerState)
    requires s.audio.Some?
    ensures r.audio.Some?
    decreases |ops|
  {
    if ops == [] then s else Run(Step(s, ops[0]), ops[1..])
  }
}
