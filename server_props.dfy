/**
  Properties of the server's transition functions: what Open leaves behind at
  each stage, the SetBufferSize protocol, the freewheel state machine and its
  snapshot round trip, the notification paths, and the invariant that every
  operation after a successful Open preserves.
*/
module ServerProps {
  import opened Wrappers
  import opened Drivers
  import opened Graph
  import opened ServerSpec

  // ---------------------------------------------------------------- Open

  /** Whether each stage of Open succeeds, in the order Open runs them. */
  function OpenStages(o: OpenOutcomes, loopback: int): (stages: seq<bool>) {
    [o.channel >= 0, o.engine == 0, o.moduleLoaded, o.driver.Some?, o.freewheelOpen == 0,
     o.loopbackOpen == 0, o.audioAttach == 0, loopback <= 0 || o.loopbackAttach == 0]
  }

  /** The number of stages that succeed before the first one that fails. */
  function PassedStages(stages: seq<bool>): (n: nat)
    ensures n <= |stages|
    ensures forall i :: 0 <= i < n ==> stages[i]
    ensures n < |stages| ==> !stages[n]
  {
    if stages == [] || !stages[0] then 0 else 1 + PassedStages(stages[1..])
  }

  /**
    Open on a freshly constructed server returns 0 exactly when every stage
    succeeds and -1 otherwise; the resources of the stages that succeeded
    before the failing one stay acquired (no rollback), the later ones are
    untouched; and the driver roles are wired exactly on success.
  */
  lemma OpenStagesKept(loopback: int, bufferSize: nat, o: OpenOutcomes)
    ensures var r := OpenSpec(Initial(loopback, bufferSize), o);
            var n := PassedStages(OpenStages(o, loopback));
            && (r.result == 0 <==> n == 8)
            && (r.result != 0 ==> r.result == -1)
            && (r.next.channelOpen <==> n >= 1)
            && (r.next.engine.isOpen <==> n >= 2)
            && (r.next.moduleLoaded <==> n >= 3)
            && (r.next.audio.Some? <==> n >= 4)
            && (r.next.freewheelDriver.isOpen <==> n >= 5)
            && (r.next.loopbackDriver.isOpen <==> n >= 6)
            && (r.next.audio.Some? && r.next.audio.value.isAttached <==> n >= 7)
            && (r.next.loopbackDriver.isAttached <==> n == 8 && loopback > 0)
            && (Valid(r.next) <==> n == 8)
  {
    var stages := OpenStages(o, loopback);
    var n := PassedStages(stages);
    if n == 0 {
      assert !stages[0];
    } else if n == 1 {
      assert stages[0] && !stages[1];
    } else if n == 2 {
      assert stages[0] && stages[1] && !stages[2];
    } else if n == 3 {
      assert stages[0] && stages[1] && stages[2] && !stages[3];
    } else if n == 4 {
      assert stages[0] && stages[1] && stages[2] && stages[3] && !stages[4];
    } else if n == 5 {
      assert stages[0] && stages[1] && stages[2] && stages[3] && stages[4] && !stages[5];
    } else if n == 6 {
      assert stages[0] && stages[1] && stages[2] && stages[3] && stages[4] && stages[5] && !stages[6];
    } else if n == 7 {
      assert stages[0] && stages[1] && stages[2] && stages[3] && stages[4] && stages[5] && stages[6];
      assert !stages[7];
    } else {
      assert stages[0] && stages[1] && stages[2] && stages[3] && stages[4] && stages[5] && stages[6];
      assert stages[7];
    }
  }

  /** Nothing is left open or attached. */
  predicate Released(s: ServerState)
    requires s.audio.Some?
  {
    && !s.channelOpen && !s.engine.isOpen
    && !s.audio.value.isOpen && !s.audio.value.isAttached
    && !s.freewheelDriver.isOpen
    && !s.loopbackDriver.isOpen && !s.loopbackDriver.isAttached
  }

  /** Every teardown call of Close reports 0; the Loopback detach counts only when it is asked. */
  predicate AllReport0(o: CloseOutcomes, loopback: int) {
    && o.audioDetach == 0 && (loopback <= 0 || o.loopbackDetach == 0)
    && o.audioClose == 0 && o.freewheelClose == 0 && o.loopbackClose == 0
    && o.engineClose == 0
  }

  /**
    Close is best effort: it returns 0 whatever its calls report, closes the
    channel, and each driver flag and the engine are released when their own
    call reports 0, whatever the other calls report, and stay as they were
    otherwise. Nothing but these flags changes.
  */
  lemma CloseBestEffort(s: ServerState, o: CloseOutcomes)
    requires s.audio.Some?
    ensures var c := CloseSpec(s, o);
            && c.result == 0
            && !c.next.channelOpen
            && c.next.audio.Some?
            && (c.next.audio.value.isAttached <==> s.audio.value.isAttached && o.audioDetach != 0)
            && (c.next.audio.value.isOpen <==> s.audio.value.isOpen && o.audioClose != 0)
            && (c.next.freewheelDriver.isOpen <==> s.freewheelDriver.isOpen && o.freewheelClose != 0)
            && (c.next.loopbackDriver.isAttached <==>
                  s.loopbackDriver.isAttached && (s.loopback <= 0 || o.loopbackDetach != 0))
            && (c.next.loopbackDriver.isOpen <==> s.loopbackDriver.isOpen && o.loopbackClose != 0)
            && (c.next.engine.isOpen <==> s.engine.isOpen && o.engineClose != 0)
            && c.next.audio.value.(isAttached := false, isOpen := false)
               == s.audio.value.(isAttached := false, isOpen := false)
            && c.next.freewheelDriver.(isOpen := false) == s.freewheelDriver.(isOpen := false)
            && c.next.loopbackDriver.(isAttached := false, isOpen := false)
               == s.loopbackDriver.(isAttached := false, isOpen := false)
            && c.next.engine.(isOpen := false) == s.engine.(isOpen := false)
            && c.next.(channelOpen := s.channelOpen, audio := s.audio, freewheelDriver := s.freewheelDriver,
                       loopbackDriver := s.loopbackDriver, engine := s.engine) == s
  {
  }

  /**
    After any Open that got as far as creating the Audio driver, fully
    successful or not, Close returns 0 and releases every driver, the engine
    and the channel when all its calls report 0. After a successful Open
    everything is released exactly when all its calls report 0.
  */
  lemma OpenThenCloseReleases(loopback: int, bufferSize: nat, o: OpenOutcomes, co: CloseOutcomes)
    requires OpenSpec(Initial(loopback, bufferSize), o).next.audio.Some?
    ensures var first := OpenSpec(Initial(loopback, bufferSize), o);
            var c := CloseSpec(first.next, co);
            && c.result == 0
            && (AllReport0(co, loopback) ==> Released(c.next))
            && (first.result == 0 ==> (Released(c.next) <==> AllReport0(co, loopback)))
  {
    OpenStagesKept(loopback, bufferSize, o);
    CloseBestEffort(OpenSpec(Initial(loopback, bufferSize), o).next, co);
  }

  // ------------------------------------------------------- SetBufferSize

  /** Asking for the current size returns 0 and changes nothing. */
  lemma SetBufferSizeUnchanged(s: ServerState, o: ResizeOutcomes)
    requires s.audio.Some?
    ensures SetBufferSizeSpec(s, s.engine.bufferSize, o) == Reply(s, 0)
  {
  }

  /**
    A different size on a fixed-size Audio driver, or on one that fails to
    stop, is refused with -1 and changes nothing.
  */
  lemma SetBufferSizeRefused(s: ServerState, frames: nat, o: ResizeOutcomes)
    requires s.audio.Some? && frames != s.engine.bufferSize
    requires s.audio.value.fixedSize || o.stop != 0
    ensures SetBufferSizeSpec(s, frames, o) == Reply(s, -1)
  {
  }

  /**
    When the Audio driver accepts the new size: engine control, Audio and
    Freewheel all hold it, the engine is told of it exactly once, the frame
    clock is reset, Audio runs again if its restart succeeded, and the result
    is Audio's restart result. Nothing else changes.
  */
  lemma SetBufferSizeApplied(s: ServerState, frames: nat, o: ResizeOutcomes)
    requires s.audio.Some? && frames != s.engine.bufferSize && !s.audio.value.fixedSize
    requires o.stop == 0 && o.resize == 0
    ensures var r := SetBufferSizeSpec(s, frames, o);
            && r.result == o.start
            && r.next.engine.bufferSize == frames
            && r.next.audio.Some? && SizesAgree(r.next)
            && r.next.engine.calls == s.engine.calls + [NotifyBufferSize(frames), InitFrameTime]
            && r.next.audio.value.running == (o.start == 0)
            && Unmoved(s, r.next)
  {
  }

  /**
    When the Audio driver refuses the new size: the Freewheel driver is set
    back to the size in force, no buffer-size notification is sent, Audio is
    restarted and its restart result returned. Nothing else changes.
  */
  lemma SetBufferSizeRolledBack(s: ServerState, frames: nat, o: ResizeOutcomes)
    requires s.audio.Some? && frames != s.engine.bufferSize && !s.audio.value.fixedSize
    requires o.stop == 0 && o.resize != 0
    ensures var r := SetBufferSizeSpec(s, frames, o);
            && r.result == o.start
            && r.next.engine.bufferSize == s.engine.bufferSize
            && r.next.freewheelDriver.bufferSize == s.engine.bufferSize
            && r.next.audio.Some? && r.next.audio.value.bufferSize == s.audio.value.bufferSize
            && r.next.engine.calls == s.engine.calls + [InitFrameTime]
            && r.next.audio.value.running == (o.start == 0)
            && Unmoved(s, r.next)
  {
  }

  /**
    `t` differs from `s` at most in buffer sizes, the drivers' running state
    and the call log: roles, slave lists, mode and connection tables are the same.
  */
  predicate Unmoved(s: ServerState, t: ServerState)
    requires s.audio.Some? && t.audio.Some?
  {
    && t.audio.value.(running := false, bufferSize := 0) == s.audio.value.(running := false, bufferSize := 0)
    && t.freewheelDriver.(running := false, bufferSize := 0) == s.freewheelDriver.(running := false, bufferSize := 0)
    && t.engine.(bufferSize := 0, calls := []) == s.engine.(bufferSize := 0, calls := [])
    && t.(audio := s.audio, freewheelDriver := s.freewheelDriver, engine := s.engine) == s
  }

  /**
    Whatever the Audio driver reports, SetBufferSize keeps the three sizes
    equal and moves nothing but sizes, running state and the call log.
  */
  lemma SetBufferSizeKeepsSizesAgree(s: ServerState, frames: nat, o: ResizeOutcomes)
    requires s.audio.Some? && SizesAgree(s)
    ensures var r := SetBufferSizeSpec(s, frames, o);
            r.next.audio.Some? && SizesAgree(r.next) && Unmoved(s, r.next)
  {
    if frames == s.engine.bufferSize {
      SetBufferSizeUnchanged(s, o);
    } else if s.audio.value.fixedSize || o.stop != 0 {
      SetBufferSizeRefused(s, frames, o);
    } else if o.resize == 0 {
      SetBufferSizeApplied(s, frames, o);
    } else {
      SetBufferSizeRolledBack(s, frames, o);
    }
  }

  // -------------------------------------------------------- SetFreewheel

  /** A request that matches the current mode is refused with -1 and changes nothing. */
  lemma SetFreewheelRefused(s: ServerState, stop: int, start: int)
    requires s.audio.Some?
    ensures SetFreewheelSpec(s, s.freewheel, stop, start) == Reply(s, -1)
  {
  }

  /** Entering freewheel twice in a row: the second request is refused. */
  lemma SetFreewheelNotIdempotent(s: ServerState, stop: int, start: int, stop2: int, start2: int)
    requires s.audio.Some? && !s.freewheel
    ensures var first := SetFreewheelSpec(s, true, stop, start);
            first.next.audio.Some?
            && SetFreewheelSpec(first.next, true, stop2, start2) == Reply(first.next, -1)
  {
  }

  /**
    Entering freewheel: the flag is set, the table before entry is the saved
    snapshot, every connection of the Audio driver's client and no other is
    removed, the Freewheel driver is Master, the engine is told once, Audio is
    stopped when it accepted to stop, and the result is the Freewheel
    driver's start result.
  */
  lemma SetFreewheelEnter(s: ServerState, stop: int, start: int)
    requires s.audio.Some? && !s.freewheel
    ensures var r := SetFreewheelSpec(s, true, stop, start);
            && r.result == start
            && r.next.freewheel
            && r.next.connectionState == s.engine.connections
            && (forall c :: c in r.next.engine.connections <==>
                  c in s.engine.connections && !Touches(c, s.audio.value.refnum))
            && r.next.freewheelDriver.isMaster
            && r.next.audio.Some? && r.next.audio.value.isMaster == s.audio.value.isMaster
            && (stop == 0 ==> !r.next.audio.value.running)
            && r.next.freewheelDriver.running == (start == 0 || s.freewheelDriver.running)
            && r.next.engine.calls == s.engine.calls + [NotifyFreewheel(true)]
            && Switched(s, r.next)
  {
  }

  /**
    `t` differs from `s` at most in the mode, the live and saved connection
    tables, the call log, the running state of both drivers and the Freewheel
    driver's role: sizes, slave lists, refnums, the Audio driver's role, the
    Loopback driver, the channel and the engine's open state are the same.
  */
  predicate Switched(s: ServerState, t: ServerState)
    requires s.audio.Some? && t.audio.Some?
  {
    && t.audio.value.(running := s.audio.value.running) == s.audio.value
    && t.freewheelDriver.(isMaster := s.freewheelDriver.isMaster, running := s.freewheelDriver.running)
       == s.freewheelDriver
    && t.engine.(connections := s.engine.connections, calls := s.engine.calls) == s.engine
    && t.(audio := s.audio, freewheelDriver := s.freewheelDriver, engine := s.engine,
          freewheel := s.freewheel, connectionState := s.connectionState) == s
  }

  /**
    Leaving freewheel: the flag is cleared, the saved table is back in place,
    the Freewheel driver is no longer Master, the engine is told once, the
    frame clock is reset, and the result is Audio's start result.
  */
  lemma SetFreewheelLeave(s: ServerState, stop: int, start: int)
    requires s.audio.Some? && s.freewheel
    ensures var r := SetFreewheelSpec(s, false, stop, start);
            && r.result == start
            && !r.next.freewheel
            && r.next.engine.connections == s.connectionState
            && !r.next.freewheelDriver.isMaster
            && (stop == 0 ==> !r.next.freewheelDriver.running)
            && r.next.audio.Some? && r.next.audio.value.running == (start == 0 || s.audio.value.running)
            && r.next.engine.calls == s.engine.calls + [NotifyFreewheel(false), InitFrameTime]
            && r.next.connectionState == s.connectionState
            && Switched(s, r.next)
  {
  }

  // ------------------------------------------ Start, Notify, ClientKill

  /**
    Start and Stop act on the Audio driver only, in freewheel mode too, and
    pass its result through; Start first resets the frame time.
  */
  lemma StartStopTargetAudio(s: ServerState, res: int)
    requires s.audio.Some?
    ensures var r := StartSpec(s, res);
            && r.result == res && r.next.freewheelDriver == s.freewheelDriver
            && r.next.freewheel == s.freewheel
            && r.next.audio.Some? && r.next.audio.value.running == (res == 0 || s.audio.value.running)
            && r.next.engine.calls == s.engine.calls + [InitFrameTime]
            && r.next.audio.value.(running := s.audio.value.running) == s.audio.value
            && r.next.engine.(calls := s.engine.calls) == s.engine
            && r.next.(audio := s.audio, engine := s.engine) == s
    ensures var r := StopSpec(s, res);
            && r.result == res && r.next.freewheelDriver == s.freewheelDriver
            && r.next.freewheel == s.freewheel
            && r.next.audio.Some? && r.next.audio.value.running == (res != 0 && s.audio.value.running)
            && r.next.audio.value.(running := s.audio.value.running) == s.audio.value
            && r.next.(audio := s.audio) == s
  {
  }

  /**
    Notify calls the engine only for the graph-order and xrun kinds, once,
    and every other kind changes nothing.
  */
  lemma NotifyDispatch(s: ServerState, refnum: int, kind: NotifyKind, value: int)
    ensures var t := NotifySpec(s, refnum, kind, value);
            && t.(engine := s.engine) == s
            && t.engine.(calls := s.engine.calls) == s.engine
            && (kind.OtherKind? <==> t == s)
            && (kind.GraphOrderCallback? ==> t.engine.calls == s.engine.calls + [NotifyGraphReorder])
            && (kind.XRunCallback? ==> t.engine.calls == s.engine.calls + [NotifyXRun(refnum)])
  {
  }

  /** ClientKill always issues the external close, after the deactivation. */
  lemma ClientKillAlwaysCloses(s: ServerState, refnum: int)
    ensures var t := ClientKillSpec(s, refnum);
            && t.(engine := s.engine) == s
            && t.engine.(calls := s.engine.calls) == s.engine
            && |t.engine.calls| == |s.engine.calls| + 2
            && t.engine.calls[|t.engine.calls| - 2] == ClientDeactivate(refnum)
            && t.engine.calls[|t.engine.calls| - 1] == ClientExternalClose(refnum)
  {
  }

  // --------------------------------------------------- the invariant

  /** SetFreewheel keeps the invariant, whether it is refused or not. */
  lemma SetFreewheelKeepsValid(s: ServerState, onoff: bool, stop: int, start: int)
    requires Valid(s)
    ensures Valid(SetFreewheelSpec(s, onoff, stop, start).next)
  {
    if s.freewheel == onoff {
      SetFreewheelRefused(s, stop, start);
    } else if onoff {
      SetFreewheelEnter(s, stop, start);
    } else {
      SetFreewheelLeave(s, stop, start);
    }
  }

  /** Every operation after a successful Open keeps the invariant. */
  lemma StepKeepsValid(s: ServerState, op: Op)
    requires Valid(s)
    ensures Valid(Step(s, op))
  {
    if op.StartOp? {
      StartStopTargetAudio(s, op.startResult);
    } else if op.StopOp? {
      StartStopTargetAudio(s, op.stopResult);
    } else if op.SetBufferSizeOp? {
      SetBufferSizeKeepsSizesAgree(s, op.frames, op.resize);
    } else if op.SetFreewheelOp? {
      SetFreewheelKeepsValid(s, op.onoff, op.stopResult, op.startResult);
    } else if op.NotifyOp? {
      NotifyDispatch(s, op.refnum, op.kind, op.value);
    } else if op.ClientKillOp? {
      ClientKillAlwaysCloses(s, op.refnum);
    }
  }

  /** An operation other than SetFreewheel keeps the mode and the saved snapshot. */
  lemma StepKeepsSnapshot(s: ServerState, op: Op)
    requires s.audio.Some? && !op.SetFreewheelOp?
    ensures Step(s, op).freewheel == s.freewheel
    ensures Step(s, op).connectionState == s.connectionState
  {
    match op
    case StartOp(res) => StartStopTargetAudio(s, res);
    case StopOp(res) => StartStopTargetAudio(s, res);
    case SetBufferSizeOp(frames, o) =>
      assert SetBufferSizeSpec(s, frames, o).next.connectionState == s.connectionState;
      assert SetBufferSizeSpec(s, frames, o).next.freewheel == s.freewheel;
    case NotifyOp(refnum, kind, value) => NotifyDispatch(s, refnum, kind, value);
    case ClientKillOp(refnum) => ClientKillAlwaysCloses(s, refnum);
    case GraphChange(table) =>
  }

  /** Any sequence of operations after a successful Open keeps the invariant. */
  lemma {:induction false} RunKeepsValid(s: ServerState, ops: seq<Op>)
    requires Valid(s)
    ensures Valid(Run(s, ops))
    decreases |ops|
  {
    if ops != [] {
      StepKeepsValid(s, ops[0]);
      RunKeepsValid(Step(s, ops[0]), ops[1..]);
    }
  }

  /** True when no operation of `ops` is a SetFreewheel request. */
  predicate NoFreewheelRequest(ops: seq<Op>) {
    forall i :: 0 <= i < |ops| ==> !ops[i].SetFreewheelOp?
  }

  /** Operations other than SetFreewheel keep the mode and the saved snapshot. */
  lemma {:induction false} RunKeepsSnapshot(s: ServerState, ops: seq<Op>)
    requires s.audio.Some? && NoFreewheelRequest(ops)
    ensures Run(s, ops).freewheel == s.freewheel
    ensures Run(s, ops).connectionState == s.connectionState
    decreases |ops|
  {
    if ops != [] {
      assert !ops[0].SetFreewheelOp?;
      assert NoFreewheelRequest(ops[1..]) by {
        forall i | 0 <= i < |ops| - 1 ensures !ops[1..][i].SetFreewheelOp? {
          assert ops[1..][i] == ops[i + 1];
        }
      }
      StepKeepsSnapshot(s, ops[0]);
      RunKeepsSnapshot(Step(s, ops[0]), ops[1..]);
    }
  }

  /**
    Entering freewheel, running any operations that are not SetFreewheel
    requests, and leaving freewheel gives back the connection table present
    before entry: the Freewheel driver is no longer Master and the mode is
    normal again. Changes made to the table in between are lost (`GraphChange`
    operations included), which is why the design assumes none are made.
  */
  lemma FreewheelRoundTrip(s: ServerState, ops: seq<Op>, stop1: int, start1: int, stop2: int, start2: int)
    requires Valid(s) && !s.freewheel && NoFreewheelRequest(ops)
    ensures var on := SetFreewheelSpec(s, true, stop1, start1).next;
            var mid := Run(on, ops);
            var off := SetFreewheelSpec(mid, false, stop2, start2);
            && off.result == start2
            && off.next.engine.connections == s.engine.connections
            && !off.next.freewheel
            && Valid(off.next)
  {
    var on := SetFreewheelSpec(s, true, stop1, start1).next;
    StepKeepsValid(s, SetFreewheelOp(true, stop1, start1));
    RunKeepsSnapshot(on, ops);
    RunKeepsValid(on, ops);
    var mid := Run(on, ops);
    StepKeepsValid(mid, SetFreewheelOp(false, stop2, start2));
  }
}
