# JACK server orchestration, modelled in Dafny

This project models the control plane of the JACK audio server (jack2's
`JackServer`). The server owns three drivers (Audio, Freewheel and Loopback),
an engine working over a graph manager and an engine control, and a saved
copy of the connection table. Its operations:

- `Open` brings the drivers up in stages, with no rollback, and makes Audio
  the Master with Loopback and Freewheel as its slaves.
- `Close` tears everything down.
- `Start` and `Stop` drive the Audio driver.
- `SetBufferSize` stops the Audio driver, resizes it and restarts it.
- `SetFreewheel` swaps the clock between the Audio and Freewheel drivers. It
  saves and restores the connection table around the swap.
- `InternalClientLoad` loads an in-process client and reports its status and
  reference number.
- `Notify` and `ClientKill` forward realtime events to the engine.

The collaborators' own code is not modelled. Each call the server makes on a
driver, the engine, the channel, the module loader or an internal client is
represented by the result code it reports, and these codes are parameters of
the operations. A driver call that reports 0 takes effect; any other result
leaves the driver's record unchanged.

Modules:

- `Wrappers`: `Option`.
- `Drivers`: the server's view of a driver. This is a record with its open,
  attached, Master and running flags, its buffer size, whether the size is
  fixed, its slave list and its client's reference number.
- `Graph`: connections between ports, tagged with the owning client, and
  `DisconnectAllPorts`.
- `ServerSpec`: the server's state as one value (`ServerState`) and one pure
  transition function per operation, in the order of the C++ calls. It also
  holds the invariant `Valid` and `Step`/`Run` over sequences of operations
  after `Open`.
- `ServerProps`: lemmas about those functions.
- `Server`: class `JackServer`. Its fields are the server's members, and its
  methods update them step by step in the order of the C++ code. Each method
  that changes the server is proved to leave the state that its transition
  function in `ServerSpec` describes (`State() == XSpec(old(State()), ...)`).
  `InternalClientLoad` and `InternalClientLoadAux` do not touch the server's
  fields; their contracts state their outputs directly.

The engine record groups the engine, the graph manager's connection table and
the engine control's buffer size. It also holds the ordered log of calls the
server issued to them and to the clock: buffer-size, freewheel, xrun and
graph-reorder notifications, client deactivation and external close, frame
time and clock initialisation.

## Model

| member | source | states |
|---|---|---|
| Graph.DisconnectAllPorts | common/JackServer.cpp:279 | The table left after cutting a client is a subset of the old one. It holds no connection with an end on that client's ports, and it keeps every connection that has no such end. |
| ServerProps.OpenStagesKept | common/JackServer.cpp:85-136 | Open on a fresh server returns 0 exactly when all eight stages succeed, and -1 otherwise. The resource of each stage before the first failure stays acquired, and no later one is acquired. The Loopback driver is attached only on full success with a positive loopback count. The Master/Slave wiring (`Valid`) holds exactly on full success. |
| ServerProps.CloseBestEffort | common/JackServer.cpp:138-152 | Close returns 0 whatever its calls report, and the channel is closed. Each driver's attached and open flags and the engine's open flag are released when that step's own call reports 0, whatever the other calls report. Otherwise they stay as they were. The Loopback driver is detached only with a positive loopback count. Nothing else changes. |
| ServerProps.OpenThenCloseReleases | common/JackServer.cpp:85-152 | After any Open that got as far as creating the Audio driver, whether it succeeded or not, Close returns 0. If all its teardown calls report 0, the channel, the engine and every driver are then closed and detached. After a successful Open, everything is released exactly when all those calls report 0. |
| ServerProps.SetBufferSizeUnchanged | common/JackServer.cpp:216-221 | Asking for the buffer size already in force returns 0 and leaves the whole state unchanged. |
| ServerProps.SetBufferSizeRefused | common/JackServer.cpp:223-231 | A new size on a fixed-size Audio driver, or on one whose Stop fails, returns -1 and leaves the whole state unchanged. |
| ServerProps.SetBufferSizeApplied | common/JackServer.cpp:233-237 | When Audio accepts the new size, the engine control, Audio and Freewheel all hold it. The engine is notified once and then the frame time is reset. Audio runs again exactly when its restart succeeds, and the result is that restart's result. Roles, slaves, mode and tables do not change. |
| ServerProps.SetBufferSizeRolledBack | common/JackServer.cpp:238-243 | When Audio refuses the new size, Freewheel is set back to the size in force. The engine control and Audio keep their size, and no buffer-size notification is sent. Only the frame-time reset is issued. Audio is restarted and the result is its restart result. Nothing else moves. |
| ServerProps.SetBufferSizeKeepsSizesAgree | common/JackServer.cpp:213-244 | Whatever the Audio driver reports, the engine control, Audio and Freewheel sizes still agree afterwards. Only sizes, running state and the call log change. |
| ServerProps.SetFreewheelRefused | common/JackServer.cpp:262-264 | A request that matches the current mode returns -1 and leaves the whole state unchanged. This is the case of on while freewheeling, and of off while not (lines 283-285). |
| ServerProps.SetFreewheelNotIdempotent | common/JackServer.cpp:274-285 | Entering freewheel a second time in a row is refused with -1 and changes nothing. |
| ServerProps.SetFreewheelEnter | common/JackServer.cpp:275-282 | Entering sets the flag and saves the table as it was before entry. It removes exactly the connections of the Audio driver's client. Freewheel becomes Master, and Audio is stopped if its Stop succeeded. The engine gets one freewheel notification, and the result is Freewheel's start result. Sizes, slave lists, refnums, Audio's role, the Loopback driver, the channel and the engine's open state stay as they were. |
| ServerProps.SetFreewheelLeave | common/JackServer.cpp:266-272 | Leaving clears the flag and puts the saved table back. Freewheel loses the Master role and is stopped if its Stop succeeded. The engine gets one freewheel notification, then the frame time is reset. The result is Audio's start result. The saved table, sizes, slave lists, refnums, Audio's role, the Loopback driver, the channel and the engine's open state stay as they were. |
| ServerProps.SetFreewheelKeepsValid | common/JackServer.cpp:258-287 | Whether the request is refused, enters or leaves, the invariant is kept. Audio stays Master with its slaves, Freewheel is Master exactly in freewheel mode, and the sizes agree. |
| ServerProps.StartStopTargetAudio | common/JackServer.cpp:200-211 | Start and Stop act on the Audio driver only, in freewheel mode too, and pass its result through. Start also resets the frame time. Only Audio's running state changes, plus the frame-time reset in the log for Start. |
| ServerProps.NotifyDispatch | common/JackServer.cpp:290-303 | Notify changes only the engine's call log. It appends a graph-reorder for the graph-order kind and `NotifyXRun(refnum)` for the xrun kind. Every other kind changes nothing. |
| ServerProps.ClientKillAlwaysCloses | common/JackServer.cpp:305-314 | ClientKill changes only the call log. The log ends with the deactivation and then the external close of that client, so the close is issued whatever the deactivation reported. |
| ServerProps.StepKeepsValid | common/JackServer.cpp:200-314 | Every operation after a successful Open keeps the invariant. This also holds for a change of the connection table made through the engine. |
| ServerProps.StepKeepsSnapshot | common/JackServer.cpp:200-314 | Every operation other than SetFreewheel keeps the freewheel flag and the saved table. |
| ServerProps.RunKeepsValid | common/JackServer.cpp:200-314 | Any sequence of operations after a successful Open keeps the invariant. |
| ServerProps.RunKeepsSnapshot | common/JackServer.cpp:246-287 | Any sequence of operations without a SetFreewheel request keeps the mode and the saved table. |
| ServerProps.FreewheelRoundTrip | common/JackServer.cpp:246-287 | Entering freewheel, running any operations that are not SetFreewheel requests, then leaving restores the connection table present before entry. This holds whatever the drivers report. Leaving returns Audio's start result, and the invariant holds again in normal mode. |
| Server.JackServer.constructor | common/JackServer.cpp:50-65 | A new server has nothing open, no Audio driver, freewheel off, the given loopback count, empty tables and an empty call log. |
| Server.JackServer.Open | common/JackServer.cpp:85-136 | The fields step through the stages exactly as `OpenSpec` describes, and the result is its result. A failed module load clears the module handle, and a failed driver factory clears the Audio driver, as lines 100 and 104 store NULL. |
| Server.JackServer.Close | common/JackServer.cpp:138-152 | The fields end as `CloseSpec` describes: each teardown step is attempted in order and takes effect when its own call reports 0. The result is 0. |
| Server.JackServer.InternalClientLoad | common/JackServer.cpp:154-182 | The result is 0 exactly when Init and Open both succeed, and -1 otherwise. On failure the refnum is 0 and the JackFailure bit is set. An Init failure ORs that bit into the caller's status word. An Open failure ORs it into the status word Open reported. On success the refnum is the client's and the status is what Open reported. |
| Server.JackServer.InternalClientLoadAux | common/JackServer.cpp:184-198 | The result is 0 exactly when the client's Open succeeds. The status word is cleared and then filled by Open. On failure the refnum is 0 and the status is Open's bits with JackFailure. On success the refnum is the client's. |
| Server.JackServer.Start | common/JackServer.cpp:200-205 | The frame time is reset, the Audio driver is started as `StartSpec` describes, and its result is returned. |
| Server.JackServer.Stop | common/JackServer.cpp:207-211 | The Audio driver is stopped as `StopSpec` describes, and its result is returned. |
| Server.JackServer.SetBufferSize | common/JackServer.cpp:213-244 | The fields end as `SetBufferSizeSpec` describes, and the result is its result. |
| Server.JackServer.SetFreewheel | common/JackServer.cpp:258-287 | The fields end as `SetFreewheelSpec` describes, and the result is its result. |
| Server.JackServer.Notify | common/JackServer.cpp:290-303 | The fields end as `NotifySpec` describes. |
| Server.JackServer.ClientKill | common/JackServer.cpp:305-314 | The fields end as `ClientKillSpec` describes. |

## Left out

- Driver module loading and the Audio driver's factory (`jack_load_driver`, `initialize`, `UnloadDriverModule`). These are dynamic loading, so their outcome is an Open parameter: loaded or not, and a driver or none.
- The control channel, the message buffer and logging. These are IPC and I/O; the channel is a single open/closed flag.
- The realtime thread and the synchro table. `Notify` is modelled as an ordinary sequential call, and concurrency is not modelled.
- The transport pass-throughs `ReleaseTimebase` and `SetTimebaseCallback`. They only delegate to a transport object that is not part of this model.
- Server.JackServer.Close: requires the Audio driver to exist, and so do `Start`, `Stop`, `SetBufferSize` and `SetFreewheel`. The code dereferences the Audio driver without checking it, so calling these after an Open that failed before creating the driver is a null dereference in the code, and the model does not describe it.
- The initialisation data of an internal client (object data or a parameter list, one per overload) is handed to the client wrapper and never inspected by the server, so it is not a parameter.
- Heap allocation in the constructor and destructor. The destructor is not modelled.
- windows/JackCompilerDeps_os.h: compiler macros and environment shims only.
- The internals of the graph manager's `Save`, `Restore` and `DisconnectAllPorts`. A snapshot is a copy of the connection set.
- The engine's own reaction to the calls it receives, such as removing a deactivated client from the graph. Those calls are only logged.
- The numeric codes of the notification kinds. Notify dispatches on a datatype with a graph-order kind, an xrun kind and every other kind.
- Frame-time and clock initialisation are recorded in the call log; time itself is not modelled.
- The engine control's buffer size is written by the Audio driver itself when it opens or accepts a new size. The server code never writes it, and the model writes it at those two points. The Freewheel driver's `SetBufferSize` result is ignored by the server, so it is modelled as always taking effect.
- Driver roles before Open are taken as non-Master.
- Sizes are unbounded naturals. `jack_nframes_t` is 32 bits, but the server only compares and copies sizes, so no wrap-around arises.
- The Loopback driver records the size it was opened with. Like the code, SetBufferSize does not resize it.
- Server.JackServer.InternalClientLoad: a result of 0 does not guarantee that the JackFailure bit is clear. On success the status is whatever the client's Open reported, and the code does not mask it.
- ServerProps.SetFreewheelEnter: Audio is stopped only when its Stop reports 0, because the code ignores that result. Start may restart Audio during freewheel, so "Audio is stopped" is not part of the invariant.
- ServerProps.SetFreewheelKeepsValid: the invariant does not say that exactly one driver is Master. The code never clears the Audio driver's Master role when entering freewheel, so in freewheel mode both Audio and Freewheel hold it. The model follows the code.
