/** The public port pool of the server (crates/server/src/port_mgr.rs). */
module Ports {
  import opened Wrappers

  /** A TCP port, as the source's 16-bit unsigned integer. */
  type Port = p: nat | p < 0x1_0000

  /** The inclusive bounds of the managed range. */
  datatype Range = Range(start: Port, end: Port)

  predicate InRange(r: Range, p: Port) {
    r.start <= p <= r.end
  }

  function All(r: Range): set<Port> {
    set p: Port | r.start <= p <= r.end && InRange(r, p)
  }

  /** What a random acquisition may answer: any free port, `None` exactly when there is none. */
  predicate MayAcquire(available: set<Port>, answer: Option<Port>) {
    match answer
    case Some(p) => p in available
    case None => available == {}
  }

  /** What a request for one given port answers. */
  function Specific(r: Range, available: set<Port>, p: Port): Option<Port> {
    if InRange(r, p) && p in available then Some(p) else None
  }

  /** The pool once `answer` has been handed out. */
  function AfterAcquire(available: set<Port>, answer: Option<Port>): set<Port> {
    if answer.Some? then available - {answer.value} else available
  }

  /** The pool once `p` has been given back; nothing checks that `p` was held. */
  function AfterRelease(r: Range, available: set<Port>, p: Port): set<Port> {
    if InRange(r, p) then available + {p} else available
  }

  class PortManager {
    var available: set<Port>
    const range: Range

    ghost predicate Valid()
      reads this
    {
      available <= All(range)
    }

    constructor (start: Port, end: Port)
      ensures Valid() && range == Range(start, end) && available == All(range)
    {
      range := Range(start, end);
      available := All(Range(start, end));
    }

    method Acquire() returns (chosen: Option<Port>)
      requires Valid()
      modifies this
      ensures Valid()
      ensures MayAcquire(old(available), chosen)
      ensures available == AfterAcquire(old(available), chosen)
    {
      if available == {} {
        chosen := None;
      } else {
        var p :| p in available;
        available := available - {p};
        chosen := Some(p);
      }
    }

    method AcquireSpecific(port: Port) returns (taken: Option<Port>)
      requires Valid()
      modifies this
      ensures Valid()
      ensures taken == Specific(range, old(available), port)
      ensures available == AfterAcquire(old(available), taken)
    {
      if !InRange(range, port) {
        return None;
      }
      if port in available {
        available := available - {port};
        taken := Some(port);
      } else {
        taken := None;
      }
    }

    method Release(port: Port)
      requires Valid()
      modifies this
      ensures Valid()
      ensures available == AfterRelease(range, old(available), port)
    {
      if !InRange(range, port) {
        return;
      }
      available := available + {port};
    }

    /** What is still free; with what has been handed out it makes up the range. */
    method AvailableCount() returns (n: nat)
      requires Valid()
      ensures n + |All(range) - available| == |All(range)|
    {
      n := |available|;
      assert All(range) == available + (All(range) - available);
    }
  }
}
