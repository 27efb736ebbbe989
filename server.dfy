/**
  The JACK server object of common/JackServer.cpp. Its fields are the state
  the server updates in place; each method issues its steps in the order of
  the C++ code and is proved to leave the state its transition function in
  ServerSpec describes. Results of the calls on collaborators are parameters.
*/
module Server {
  import opened Wrappers
  import opened Drivers
  import opened Graph
  import opened ServerSpec

  /** jack_status_t is a bit mask; JackFailure is its overall-failure bit. */
  const JackFailure: bv32 := 0x01

  /**
    What the internal client's Open reports: its result code, the status bits
    it sets in the (cleared) status word, and the refnum its client got.
  */
  datatype ClientOpen = ClientOpen(result: int, status: bv32, refnum: int)

  class JackServer {
    var channelOpen: bool
    var engine: Engine
    var moduleLoaded: bool
    var audio: Option<Driver>
    var freewheelDriver: Driver
    var loopbackDriver: Driver
    var loopback: int
    var freewheel: bool
    var connectionState: set<Connection>

    /** The abstract value of the server. */
    ghost function State(): ServerState
      reads this
    {
      ServerState(channelOpen, engine, moduleLoaded, audio, freewheelDriver, loopbackDriver,
                  loopback, freewheel, connectionState)
    }

    /** `bufferSize` is the engine control's buffer size before any driver opens. */
    constructor (loopback: int, bufferSize: nat)
      ensures State() == Initial(loopback, bufferSize)
    {
      channelOpen := false;
      engine := Engine(false, bufferSize, {}, []);
      moduleLoaded := false;
      audio := None;
      freewheelDriver := Constructed();
      loopbackDriver := Constructed();
      this.loopback := loopback;
      freewheel := false;
      connectionState := {};
    }

    /**
      Each stage aborts with -1 on failure and leaves what the earlier stages
      did in place.
    */
    method Open(o: OpenOutcomes) returns (r: int)
      modifies this
      ensures State() == OpenSpec(old(State()), o).next
      ensures r == OpenSpec(old(State()), o).result
    {
      if o.channel < 0 {
        return -1;
      }
      channelOpen := true;
      if o.engine != 0 {
        return -1;
      }
      engine := engine.(isOpen := true);
      if !o.moduleLoaded {
        moduleLoaded := false;
        return -1;
      }
      moduleLoaded := true;
      if o.driver.None? {
        audio := None;
        return -1;
      }
      var d := o.driver.value;
      var a := Constructed().(isOpen := true, bufferSize := d.bufferSize,
                              fixedSize := d.fixedSize, refnum := d.refnum);
      audio := Some(a);
      engine := engine.(bufferSize := d.bufferSize);
      if o.freewheelOpen != 0 {
        return -1;
      }
      freewheelDriver := freewheelDriver.(isOpen := true, bufferSize := engine.bufferSize);
      if o.loopbackOpen != 0 {
        return -1;
      }
      loopbackDriver := loopbackDriver.(isOpen := true, bufferSize := engine.bufferSize);
      if o.audioAttach != 0 {
        return -1;
      }
      a := a.(isAttached := true);
      audio := Some(a);
      if loopback > 0 && o.loopbackAttach != 0 {
        return -1;
      }
      if loopback > 0 {
        loopbackDriver := loopbackDriver.(isAttached := true);
      }
      freewheelDriver := freewheelDriver.(isMaster := false);
      a := a.(isMaster := true);
      a := a.(slaves := a.slaves + ExpectedSlaves(loopback));
      audio := Some(a);
      engine := Issued(engine, InitTime);
      return 0;
    }

    /** Best-effort teardown: what each call reports only decides its own step. */
    method Close(o: CloseOutcomes) returns (r: int)
      requires audio.Some?
      modifies this
      ensures State() == CloseSpec(old(State()), o).next
      ensures r == 0
    {
      channelOpen := false;
      audio := Some(audio.value.Detached(o.audioDetach));
      if loopback > 0 {
        loopbackDriver := loopbackDriver.Detached(o.loopbackDetach);
      }
      audio := Some(audio.value.Closed(o.audioClose));
      freewheelDriver := freewheelDriver.Closed(o.freewheelClose);
      loopbackDriver := loopbackDriver.Closed(o.loopbackClose);
      if o.engineClose == 0 {
        engine := engine.(isOpen := false);
      }
      return 0;
    }

    /**
      Both overloads of InternalClientLoad: they differ only in the form of
      the initialisation data handed to the client wrapper, which the server
      does not inspect. `init` is what the wrapper's Init reports, `open` what
      its Open reports, `inStatus` the caller's status word. The server's own
      state is not touched.
    */
    method InternalClientLoad(init: int, open: ClientOpen, inStatus: bv32)
      returns (r: int, intRef: int, status: bv32)
      ensures r == 0 || r == -1
      ensures r == 0 <==> init >= 0 && open.result >= 0
      ensures r == -1 ==> intRef == 0 && status & JackFailure != 0
      ensures init < 0 ==> status == inStatus | JackFailure
      ensures init >= 0 && open.result < 0 ==> status == open.status | JackFailure
      ensures r == 0 ==> intRef == open.refnum && status == open.status
    {
      if init < 0 {
        status := inStatus | JackFailure;
        intRef := 0;
        return -1, intRef, status;
      }
      r, intRef, status := InternalClientLoadAux(open);
    }

    /**
      Opens a client whose wrapper was initialised: the status word is cleared
      before Open fills it in; on failure the refnum is 0 and the failure bit
      is added to what Open reported.
    */
    method InternalClientLoadAux(open: ClientOpen) returns (r: int, intRef: int, status: bv32)
      ensures r == 0 || r == -1
      ensures r == 0 <==> open.result >= 0
      ensures r == -1 ==> intRef == 0 && status == open.status | JackFailure && status & JackFailure != 0
      ensures r == 0 ==> intRef == open.refnum && status == open.status
    {
      status := open.status;  // the cleared status word, as Open fills it in
      if open.result < 0 {
        status := status | JackFailure;
        intRef := 0;
        r := -1;
      } else {
        intRef := open.refnum;
        r := 0;
      }
    }

    method Start(startResult: int) returns (r: int)
      requires audio.Some?
      modifies this
      ensures State() == StartSpec(old(State()), startResult).next
      ensures r == startResult
    {
      engine := Issued(engine, InitFrameTime);
      audio := Some(audio.value.Started(startResult));
      return startResult;
    }

    method Stop(stopResult: int) returns (r: int)
      requires audio.Some?
      modifies this
      ensures State() == StopSpec(old(State()), stopResult).next
      ensures r == stopResult
    {
      audio := Some(audio.value.Stopped(stopResult));
      return stopResult;
    }

    method SetBufferSize(frames: nat, o: ResizeOutcomes) returns (r: int)
      requires audio.Some?
      modifies this
      ensures State() == SetBufferSizeSpec(old(State()), frames, o).next
      ensures r == SetBufferSizeSpec(old(State()), frames, o).result
    {
      var current := engine.bufferSize;
      if current == frames {
        return 0;
      }
      if audio.value.fixedSize {
        return -1;
      }
      audio := Some(audio.value.Stopped(o.stop));
      if o.stop != 0 {
        return -1;
      }
      if o.resize == 0 {
        audio := Some(audio.value.(bufferSize := frames));
        engine := engine.(bufferSize := frames);
        freewheelDriver := freewheelDriver.(bufferSize := frames);
        engine := Issued(engine, NotifyBufferSize(frames));
        engine := Issued(engine, InitFrameTime);
        audio := Some(audio.value.Started(o.start));
        return o.start;
      } else {
        freewheelDriver := freewheelDriver.(bufferSize := current);
        engine := Issued(engine, InitFrameTime);
        audio := Some(audio.value.Started(o.start));
        return o.start;
      }
    }

    method SetFreewheel(onoff: bool, stopResult: int, startResult: int) returns (r: int)
      requires audio.Some?
      modifies this
      ensures State() == SetFreewheelSpec(old(State()), onoff, stopResult, startResult).next
      ensures r == SetFreewheelSpec(old(State()), onoff, stopResult, startResult).result
    {
      if freewheel {
        if onoff {
          return -1;
        }
        freewheel := false;
        freewheelDriver := freewheelDriver.Stopped(stopResult);
        engine := engine.(connections := connectionState);
        engine := Issued(engine, NotifyFreewheel(onoff));
        freewheelDriver := freewheelDriver.(isMaster := false);
        engine := Issued(engine, InitFrameTime);
        audio := Some(audio.value.Started(startResult));
        return startResult;
      } else {
        if !onoff {
          return -1;
        }
        freewheel := true;
        audio := Some(audio.value.Stopped(stopResult));
        connectionState := engine.connections;
        engine := engine.(connections := DisconnectAllPorts(engine.connections, audio.value.refnum));
        engine := Issued(engine, NotifyFreewheel(onoff));
        freewheelDriver := freewheelDriver.(isMaster := true);
        freewheelDriver := freewheelDriver.Started(startResult);
        return startResult;
      }
    }

    /** Called from the realtime thread; `value` is not used. */
    method Notify(refnum: int, kind: NotifyKind, value: int)
      modifies this
      ensures State() == NotifySpec(old(State()), refnum, kind, value)
    {
      match kind
      case GraphOrderCallback =>
        engine := Issued(engine, NotifyGraphReorder);
      case XRunCallback =>
        engine := Issued(engine, NotifyXRun(refnum));
      case OtherKind(_) =>
    }

    /** The results of both engine calls only feed the error log. */
    method ClientKill(refnum: int)
      modifies this
      ensures State() == ClientKillSpec(old(State()), refnum)
    {
      engine := Issued(engine, ClientDeactivate(refnum));
      engine := Issued(engine, ClientExternalClose(refnum));
    }
  }
}
