/**
 * The single exchange slot through which the enlisting connection wrapper
 * hands its driver connection to the XA resource adapter and gets the
 * branch's Xid back. In the source the slot is a static field guarded by a
 * lock; here the lock is left out and the slot is an object both sides share.
 */
module Handoff {
  import opened Xa
  import Jdbc

  /** The slot holds nothing, a driver connection, or an Xid. */
  datatype Slot = Empty | HoldsConnection(connection: Jdbc.Connection) | HoldsXid(xid: Xid)

  /** What the adapter's connection function yields: a connection, null, or a failed cast. */
  datatype Fetched = Got(connection: Jdbc.Connection) | Null | CastFailure

  class HandoffSlot {
    var slot: Slot

    constructor ()
      ensures slot == Empty
    {
      slot := Empty;
    }

    /**
     * The adapter's connection function: yields the connection the slot
     * holds (null when it is empty, a failed cast when it holds an Xid)
     * and, on every path, leaves the given Xid in the slot.
     */
    method Connection(x: Xid) returns (r: Fetched)
      modifies this`slot
      ensures slot == HoldsXid(x)
      ensures old(slot).Empty? ==> r == Null
      ensures old(slot).HoldsConnection? ==> r == Got(old(slot).connection)
      ensures old(slot).HoldsXid? ==> r == CastFailure
    {
      r := match slot
        case Empty => Null
        case HoldsConnection(c) => Got(c)
        case HoldsXid(_) => CastFailure;
      slot := HoldsXid(x);
    }
  }
}
