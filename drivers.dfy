/**
  The server's view of a driver (a periodic clock source). The driver's own
  code is not part of this model: a call on a driver is described only by the
  result code it reports, and a call that reports 0 takes effect while any
  other result leaves the record as it was.
*/
module Drivers {

  /** The three driver instances the server owns. */
  datatype DriverKind = Audio | Freewheel | Loopback

  datatype Driver = Driver(
    isOpen: bool,                // between Open and Close
    isAttached: bool,           // between Attach and Detach
    isMaster: bool,             // the role set by SetMaster
    running: bool,              // between a successful Start and a successful Stop
    bufferSize: nat,            // frames per period
    fixedSize: bool,            // IsFixedBufferSize()
    slaves: seq<DriverKind>,    // drivers added with AddSlave, in order
    refnum: int)                // reference number of the driver's own client
  {
    /** The record after Stop() reported `result`. */
    function Stopped(result: int): (d: Driver) {
      if result == 0 then this.(running := false) else this
    }

    /** The record after Start() reported `result`. */
    function Started(result: int): (d: Driver) {
      if result == 0 then this.(running := true) else this
    }

    /** The record after Detach() reported `result`. */
    function Detached(result: int): (d: Driver) {
      if result == 0 then this.(isAttached := false) else this
    }

    /** The record after Close() reported `result`. */
    function Closed(result: int): (d: Driver) {
      if result == 0 then this.(isOpen := false) else this
    }
  }

  /** A driver object that has been constructed but not opened yet. */
  function Constructed(): (d: Driver) {
    Driver(false, false, false, false, 0, false, [], 0)
  }
}
