/**
  The graph manager's connection table, reduced to what the server does with
  it: disconnect every port of one client, and save or restore the whole table
  (a snapshot is a copy of the set).
*/
module Graph {

  /** A port, identified by the reference number of the client owning it. */
  datatype Port = Port(owner: int, index: nat)

  /** A connection from an output port to an input port. */
  datatype Connection = Connection(src: Port, dst: Port)

  /** True when one end of `c` is a port of client `refnum`. */
  predicate Touches(c: Connection, refnum: int) {
    c.src.owner == refnum || c.dst.owner == refnum
  }

  /**
    The table after DisconnectAllPorts(refnum): every connection with an end
    on a port of that client is gone, every other connection stays.
  */
  function DisconnectAllPorts(table: set<Connection>, refnum: int): (r: set<Connection>)
    ensures r <= table
    ensures forall c :: c in r ==> !Touches(c, refnum)
    ensures forall c :: c in table && !Touches(c, refnum) ==> c in r
  {
    set c | c in table && !Touches(c, refnum)
  }
}
