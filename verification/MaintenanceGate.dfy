// The readers/drainer gate: mutations exclude each other from maintenance, and one drainer
// at a time holds a lease once earlier mutations have settled (or were forced past).

module MaintenanceGates {
  import opened Prelude

  datatype Lease = Lease(id: nat, force: bool)

  datatype Gate = Gate(draining: bool, active: int, lease: Option<Lease>)

  function Enter(g: Gate): Option<Gate> {
    if g.draining then None else Some(g.(active := g.active + 1))
  }

  function Exit(g: Gate): Gate {
    g.(active := g.active - 1)
  }

  /** One wake-up of the first wait of `drain`. */
  function BeginDrain(g: Gate): Option<Gate> {
    if g.draining then None else Some(g.(draining := true))
  }

  /** One wake-up of the second wait of `drain`. */
  function Grant(g: Gate, lease: Lease): Option<Gate> {
    if g.active != 0 && !lease.force then None else Some(g.(lease := Some(lease)))
  }

  function EndDrain(g: Gate): Gate {
    g.(draining := false, lease := None)
  }

  predicate Authorized(g: Gate, lease: Lease) {
    g.lease == Some(lease) && g.draining && (g.active == 0 || lease.force)
  }

  /** `ServiceMaintenanceGate`: each method is one critical section of its condition. */
  class ServiceMaintenanceGate {
    var draining: bool
    var active: int
    var lease: Option<Lease>
    var issued: nat

    function State(): Gate
      reads this
    {
      Gate(draining, active, lease)
    }

    constructor ()
      ensures State() == Gate(false, 0, None)
    {
      draining, active, lease, issued := false, 0, None, 0;
    }

    /** Entering a mutation; refused while draining. */
    method EnterMutation() returns (entered: bool)
      modifies this`active
      ensures match Enter(old(State()))
              case None => !entered && State() == old(State())
              case Some(g) => entered && State() == g
      ensures entered <==> !draining
      ensures active == old(active) + if entered then 1 else 0
    {
      entered := !draining;
      if entered {
        active := active + 1;
      }
    }

    /** Leaving a mutation; `sound` is the underflow assertion. */
    method ExitMutation() returns (sound: bool)
      modifies this`active
      ensures State() == Exit(old(State())) && active == old(active) - 1
      ensures sound <==> old(active) > 0
    {
      active := active - 1;
      sound := active >= 0;
    }

    method TryBeginDrain() returns (begun: bool)
      modifies this`draining
      ensures match BeginDrain(old(State()))
              case None => !begun && State() == old(State())
              case Some(g) => begun && State() == g
      ensures draining && (begun <==> !old(draining))
    {
      begun := !draining;
      draining := true;
    }

    method TryGrant(force: bool) returns (granted: Option<Lease>)
      modifies this`lease, this`issued
      ensures match Grant(old(State()), Lease(old(issued), force))
              case None => granted.None? && State() == old(State())
              case Some(g) => granted == Some(Lease(old(issued), force)) && State() == g
      ensures granted.Some? <==> active == 0 || force
      ensures granted.Some? ==> lease == granted && granted.value == Lease(old(issued), force)
      ensures issued >= old(issued) && (granted.Some? ==> issued > granted.value.id)
    {
      if active != 0 && !force {
        return None;
      }
      lease := Some(Lease(issued, force));
      granted := lease;
      issued := issued + 1;
    }

    method FinishDrain(mine: Lease)
      modifies this`draining, this`lease
      ensures lease == (if old(lease) == Some(mine) then None else old(lease))
      ensures old(lease) == Some(mine) ==> State() == EndDrain(old(State()))
      ensures !draining && !Authorized(State(), mine)
    {
      if lease == Some(mine) {
        lease := None;
      }
      draining := false;
    }

    /** `authorize`: exactly the live lease of a drained gate passes. */
    method Authorize(candidate: Lease) returns (ok: bool)
      ensures ok <==> Authorized(State(), candidate)
      ensures ok <==> lease == Some(candidate) && draining && (active == 0 || candidate.force)
    {
      ok := lease == Some(candidate) && draining && (active == 0 || candidate.force);
    }
  }
}
