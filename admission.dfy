/** The connection admission counter of the accept loop (src/socket_server/mod.rs:59-88): a
    connection is admitted only while fewer than the maximum are active, and each handler gives
    its slot back when it ends, however it ends. */
module Admission {
  class ConnectionCounter {
    const maxConnections: nat
    var active: nat
    /** The handlers still running, each known by the ticket it was admitted with. */
    ghost var live: set<nat>
    ghost var issued: nat

    ghost predicate Valid()
      reads this
    {
      active == |live| && active <= maxConnections && forall t :: t in live ==> t < issued
    }

    constructor (maxConnections: nat)
      ensures Valid() && this.maxConnections == maxConnections
      ensures active == 0 && live == {}
    {
      this.maxConnections := maxConnections;
      active := 0;
      live := {};
      issued := 0;
    }

    /** One accepted connection: rejected (and dropped) at the maximum, otherwise counted. */
    method Accept() returns (admitted: bool, ghost ticket: nat)
      requires Valid()
      modifies this
      ensures Valid()
      ensures admitted <==> old(active) < maxConnections
      ensures !admitted ==> active == old(active) && live == old(live)
      ensures admitted ==> active == old(active) + 1 && ticket !in old(live) && live == old(live) + {ticket}
    {
      if active >= maxConnections {
        return false, 0;
      }
      ticket := issued;
      live := live + {ticket};
      issued := issued + 1;
      active := active + 1;
      admitted := true;
    }

    /** A handler ending, with `Ok` or with an error: its slot is released. The subtraction cannot
        wrap, since the handler's own admission is still counted. */
    method Release(ghost ticket: nat) returns (remaining: nat)
      requires Valid() && ticket in live
      modifies this
      ensures Valid()
      ensures active == old(active) - 1 && remaining == active
      ensures live == old(live) - {ticket}
    {
      live := live - {ticket};
      active := active - 1;
      remaining := active;
    }
  }
}
