// Stopping or restarting the service: the decision taken under a drain lease, its result
// contract, and what the lease guarantees between the inventory and the termination.

module Maintenance {
  import opened Prelude
  import opened Ordering
  import opened MaintenanceGates
  import opened Gateway
  import opened GatewayDrain
  import opened JsonRpcFrames
  import opened ThreadInventory

  datatype Action = Stop | Restart

  datatype Status = Refused | Completed

  datatype Impact = Impact(activeNames: seq<string>, idleNames: seq<string>)

  datatype MaintenanceResult =
    MaintenanceResult(action: Action, status: Status, forced: bool, listener: Option<string>,
                      inventory: Option<seq<Item>>, workers: Option<Impact>, unavailable: Option<string>)

  const UPSTREAM_UNAVAILABLE := "upstream_inventory_unavailable"

  /** `WorkerImpact`: sorted, unique, non-empty, disjoint. */
  ghost predicate ValidImpact(impact: Impact) {
    && Ascending(impact.activeNames, StringKey) && Ascending(impact.idleNames, StringKey)
    && (forall n <- impact.activeNames + impact.idleNames :: n != "")
    && (forall n <- impact.activeNames :: n !in impact.idleNames)
  }

  /** The `MaintenanceResult` contract, clause by clause (the listener's own syntax apart). */
  ghost predicate ValidResult(r: MaintenanceResult) {
    && (r.listener.Some? ==> r.listener.value != "")
    && (r.action == Stop <==> r.listener.None?)
    && (if r.unavailable.None?
        then r.inventory.Some? && ValidInventory(r.inventory.value) && r.workers.Some? && ValidImpact(r.workers.value)
        else && r.unavailable.value == UPSTREAM_UNAVAILABLE
             && r.inventory.None? && r.workers.None?
             && (r.status == Completed ==> r.forced))
    && (r.status == Refused ==> !r.forced && (r.unavailable.None? ==> |r.inventory.value| > 0))
    && (r.status == Completed && r.unavailable.None? && |r.inventory.value| > 0 ==> r.forced)
  }

  /** What `_maintain` observes under its lease, in the order it looks. */
  datatype Observed = Observed(mutations: bool, stopping: bool, inventory: Option<seq<Item>>, names: set<string>)

  datatype Decision = Decision(terminate: bool, result: MaintenanceResult)

  function ActiveNames(items: seq<Item>): set<string> {
    set i | 0 <= i < |items| && items[i].worker.Some? :: items[i].worker.value
  }

  ghost function Sorted(names: set<string>): seq<string> {
    StringKeysInjective(names);
    Ordered(names, StringKey)
  }

  ghost function ImpactOf(o: Observed): Impact
    requires o.inventory.Some?
  {
    Impact(Sorted(ActiveNames(o.inventory.value)), Sorted(o.names - ActiveNames(o.inventory.value)))
  }

  ghost function Decide(action: Action, listener: Option<string>, force: bool, o: Observed): Decision {
    if force && o.mutations then
      Decision(true, MaintenanceResult(action, Completed, true, listener, None, None, Some(UPSTREAM_UNAVAILABLE)))
    else if o.stopping then
      Decision(true, MaintenanceResult(action, Completed, force, listener, Some([]),
                                       Some(Impact([], Sorted(o.names))), None))
    else if o.inventory.None? then
      Decision(force, MaintenanceResult(action, if force then Completed else Refused, force, listener,
                                        None, None, Some(UPSTREAM_UNAVAILABLE)))
    else if o.inventory.value != [] && !force then
      Decision(false, MaintenanceResult(action, Refused, false, listener, o.inventory, Some(ImpactOf(o)), None))
    else
      Decision(true, MaintenanceResult(action, Completed, force, listener, o.inventory, Some(ImpactOf(o)), None))
  }

  ghost predicate ValidObserved(o: Observed) {
    && "" !in o.names
    && (o.inventory.Some? ==> ValidInventory(o.inventory.value))
  }

  lemma SortedNames(names: set<string>)
    ensures Ascending(Sorted(names), StringKey) && forall n :: n in Sorted(names) <==> n in names
  {}

  lemma ImpactIsValid(o: Observed)
    requires ValidObserved(o) && o.inventory.Some?
    ensures ValidImpact(ImpactOf(o))
  {
    var active := ActiveNames(o.inventory.value);
    SortedNames(active);
    SortedNames(o.names - active);
    forall n | n in active ensures n != "" {
      var i :| 0 <= i < |o.inventory.value| && o.inventory.value[i].worker == Some(n);
      assert ValidItem(o.inventory.value[i]);
    }
  }

  /** Whatever is observed, the result meets its contract; a refusal terminates nothing, and
      outside the already-stopping path an unforced completion terminated over an inventory
      that was available and empty. */
  lemma DecisionIsSound(action: Action, listener: Option<string>, force: bool, o: Observed)
    requires ValidObserved(o)
    requires (action == Stop <==> listener.None?) && listener != Some("")
    ensures ValidResult(Decide(action, listener, force, o).result)
    ensures Decide(action, listener, force, o).terminate <==> Decide(action, listener, force, o).result.status == Completed
    ensures !force && !o.stopping ==>
              (Decide(action, listener, force, o).terminate <==> o.inventory == Some([]))
  {
    SortedNames(o.names);
    if o.inventory.Some? {
      ImpactIsValid(o);
    }
  }

  /** Everything a caller learns. Forced maintenance always terminates; unforced, only when the
      service was already stopping or the inventory was available and empty. The inventory goes
      unreported when a forced run had mutations in flight or it could not be read, and then no
      names are reported either; otherwise the active names are those on the inventory and the
      idle ones all others. */
  lemma DecisionIsExact(action: Action, listener: Option<string>, force: bool, o: Observed)
    ensures var d := Decide(action, listener, force, o);
            && d.result.action == action && d.result.listener == listener && d.result.forced == force
            && (d.terminate <==> force || o.stopping || o.inventory == Some([]))
            && d.result.status == (if d.terminate then Completed else Refused)
    ensures var r := Decide(action, listener, force, o).result;
            && r.inventory == (if force && o.mutations then None else if o.stopping then Some([]) else o.inventory)
            && r.unavailable == (if r.inventory.None? then Some("upstream_inventory_unavailable") else None)
            && (r.workers.Some? <==> r.inventory.Some?)
    ensures var r := Decide(action, listener, force, o).result;
            r.workers.Some? ==>
              && Ascending(r.workers.value.activeNames, StringKey) && Ascending(r.workers.value.idleNames, StringKey)
              && (forall n :: n in r.workers.value.activeNames <==>
                    exists i :: 0 <= i < |r.inventory.value| && r.inventory.value[i].worker == Some(n))
              && (forall n :: n in r.workers.value.idleNames <==> n in o.names && n !in r.workers.value.activeNames)
  {
    SortedNames(o.names);
    if o.inventory.Some? {
      SortedNames(ActiveNames(o.inventory.value));
      SortedNames(o.names - ActiveNames(o.inventory.value));
    }
  }

  // ---- the coordinator ----

  datatype TerminationError = Denied | Incomplete

  /** The lifecycle capability: termination happens only under an authorised lease. */
  class Lifecycle {
    const gate: ServiceMaintenanceGate
    var terminations: nat

    constructor (gate: ServiceMaintenanceGate)
      ensures this.gate == gate && terminations == 0
    {
      this.gate, terminations := gate, 0;
    }

    /** `torn` is whether tearing the owned resources down succeeds. */
    method TerminateOwned(lease: Lease, torn: bool) returns (r: Result<(), TerminationError>)
      modifies this`terminations
      ensures Authorized(gate.State(), lease) <==> terminations == old(terminations) + 1
      ensures !Authorized(gate.State(), lease) ==> terminations == old(terminations) && r == Err(Denied)
      ensures Authorized(gate.State(), lease) ==> r == if torn then Ok(()) else Err(Incomplete)
    {
      var allowed := gate.Authorize(lease);
      if !allowed {
        return Err(Denied);
      }
      terminations := terminations + 1;
      r := if torn then Ok(()) else Err(Incomplete);
    }
  }

  class MaintenanceCoordinator {
    const lifecycle: Lifecycle

    constructor (lifecycle: Lifecycle)
      ensures this.lifecycle == lifecycle
    {
      this.lifecycle := lifecycle;
    }

    method Names(o: Observed) returns (impact: Impact)
      requires o.inventory.Some?
      ensures impact == ImpactOf(o)
    {
      var active := ActiveNames(o.inventory.value);
      StringKeysInjective(active);
      StringKeysInjective(o.names - active);
      var a := SortSet(active, StringKey);
      var b := SortSet(o.names - active, StringKey);
      impact := Impact(a, b);
    }

    /** The body of `_maintain` under its live lease: terminates at most once, exactly when the
        decision says so, and returns the decision's result unless the teardown is incomplete. */
    method Maintain(action: Action, listener: Option<string>, force: bool, lease: Lease, o: Observed, torn: bool)
      returns (r: Result<MaintenanceResult, TerminationError>)
      requires Authorized(lifecycle.gate.State(), lease) && lease.force == force
      modifies lifecycle`terminations
      ensures var d := Decide(action, listener, force, o);
              && lifecycle.terminations == old(lifecycle.terminations) + (if d.terminate then 1 else 0)
              && r == if d.terminate && !torn then Err(Incomplete) else Ok(d.result)
    {
      var done: Result<(), TerminationError> := Ok(());
      if force && o.mutations {
        done := lifecycle.TerminateOwned(lease, torn);
        return if done.Err? then Err(done.error)
               else Ok(MaintenanceResult(action, Completed, true, listener, None, None, Some(UPSTREAM_UNAVAILABLE)));
      }
      if o.stopping {
        StringKeysInjective(o.names);
        var names := SortSet(o.names, StringKey);
        done := lifecycle.TerminateOwned(lease, torn);
        return if done.Err? then Err(done.error)
               else Ok(MaintenanceResult(action, Completed, force, listener, Some([]), Some(Impact([], names)), None));
      }
      if o.inventory.None? {
        if force {
          done := lifecycle.TerminateOwned(lease, torn);
        }
        return if done.Err? then Err(done.error)
               else Ok(MaintenanceResult(action, if force then Completed else Refused, force, listener,
                                         None, None, Some(UPSTREAM_UNAVAILABLE)));
      }
      var impact := Names(o);
      if o.inventory.value != [] && !force {
        return Ok(MaintenanceResult(action, Refused, false, listener, o.inventory, Some(impact), None));
      }
      done := lifecycle.TerminateOwned(lease, torn);
      r := if done.Err? then Err(done.error)
           else Ok(MaintenanceResult(action, Completed, force, listener, o.inventory, Some(impact), None));
    }
  }

  // ---- from the lease to the termination, interleaved ----

  /** The gateway, the pages listed so far, the inventory made of them, and whether the owned
      resources have been terminated. */
  datatype Held = Held(gateway: Sys, responses: Responses, inventory: Option<seq<Item>>, terminated: bool)

  /** What happens while the coordinator holds its lease: steps of the gateway's threads, and the
      coordinator's own: another page, the finished inventory, the termination. */
  datatype Move =
    | Gateway(step: Step)
    | Page(response: Option<Json>)
    | Inventory(items: seq<Item>)
    | Terminate(action: Action, listener: Option<string>, names: set<string>)

  /** What `list_active_threads` returns of these responses. */
  ghost predicate Reported(items: seq<Item>, responses: Responses) {
    exists pages: nat, kept, replies, records ::
      ReportedFrom(items, responses, pages, kept, replies, records)
  }

  ghost predicate ReportedFrom(items: seq<Item>, responses: Responses, pages: nat, kept: seq<Entry>,
                               replies: Replies, records: map<string, Registered>) {
    && Readable(responses, pages, replies) && FirstOccurrences(kept, AllActive(responses, pages))
    && InventoryOf(items, kept, replies, records)
  }

  ghost predicate Possible(h: Held, lease: Lease, move: Move) {
    match move
    case Gateway(step) => step != DrainEnd && Enabled(h.gateway, step) && Gentle(h.gateway, step)
    case Page(_) => h.inventory.None? && !h.terminated
    case Inventory(items) => h.inventory.None? && !h.terminated && Reported(items, h.responses)
    case Terminate(action, listener, names) =>
      && !h.terminated && Authorized(h.gateway.gate, lease)
      && Decide(action, listener, false, Observed(h.gateway.gate.active != 0, false, h.inventory, names)).terminate
  }

  ghost function Moved(h: Held, lease: Lease, move: Move): Held
    requires Possible(h, lease, move)
  {
    match move
    case Gateway(step) => h.(gateway := Apply(h.gateway, step))
    case Page(response) => h.(responses := h.responses + [response])
    case Inventory(items) => h.(inventory := Some(items))
    case Terminate(_, _, _) => h.(terminated := true)
  }

  ghost predicate Maintains(h: Held, lease: Lease, moves: seq<Move>, end: Held)
    decreases |moves|
  {
    if moves == [] then h == end
    else Possible(h, lease, moves[0]) && Maintains(Moved(h, lease, moves[0]), lease, moves[1..], end)
  }

  ghost predicate UnderLease(s: Sys, lease: Lease, granted: nat) {
    && s.gate.lease == Some(lease) && s.gate.draining && s.waiting.None? && s.granted == granted
    && exists owner :: Safe(s, owner)
  }

  ghost predicate Sound(h: Held, lease: Lease, granted: nat) {
    && UnderLease(h.gateway, lease, granted)
    && (h.inventory.Some? ==> Reported(h.inventory.value, h.responses))
    && (h.terminated ==> h.inventory == Some([]))
  }

  lemma GatewayKeepsLease(s: Sys, step: Step, lease: Lease, granted: nat)
    requires UnderLease(s, lease, granted) && Enabled(s, step) && Gentle(s, step) && step != DrainEnd
    ensures UnderLease(Apply(s, step), lease, granted)
  {
    var owner :| Safe(s, owner);
    StepSafe(s, owner, step);
    LeaseStep(s, step);
  }

  lemma LeaseStep(s: Sys, step: Step)
    requires Enabled(s, step) && step != DrainEnd && s.gate.lease.Some? && s.gate.draining && s.waiting.None?
    ensures Apply(s, step).gate.lease == s.gate.lease && Apply(s, step).gate.draining
    ensures Apply(s, step).waiting.None? && Apply(s, step).granted == s.granted
  {}

  lemma {:induction false} MaintainsSound(h: Held, lease: Lease, moves: seq<Move>, end: Held, granted: nat)
    requires Sound(h, lease, granted) && Maintains(h, lease, moves, end)
    ensures Sound(end, lease, granted)
    decreases |moves|
  {
    if moves != [] {
      if moves[0].Gateway? {
        GatewayKeepsLease(h.gateway, moves[0].step, lease, granted);
      }
      MaintainsSound(Moved(h, lease, moves[0]), lease, moves[1..], end, granted);
    }
  }

  lemma LeaseHolds(prefix: seq<Step>, before: Sys)
    requires Run(INIT, prefix, before) && GentleRun(INIT, prefix)
    requires before.gate.lease.Some? && !before.gate.lease.value.force
    ensures UnderLease(before, before.gate.lease.value, before.sent)
  {
    InitSafe();
    var owner := RunSafe(INIT, map[], prefix, before);
  }

  /** Unforced maintenance over every interleaving of the gateway's threads with its own paging:
      from the grant on, for as long as the lease is not given back, it stays authorised, no
      mutation is in flight, and not one request outside the allow-list is sent. */
  lemma NothingSentUnderLease(prefix: seq<Step>, before: Sys, moves: seq<Move>, end: Held)
    requires Run(INIT, prefix, before) && GentleRun(INIT, prefix)
    requires before.gate.lease.Some? && !before.gate.lease.value.force
    requires Maintains(Held(before, [], None, false), before.gate.lease.value, moves, end)
    ensures Authorized(end.gateway.gate, before.gate.lease.value)
    ensures end.gateway.sent == before.sent && end.gateway.gate.active == 0 && end.gateway.broker == {}
    ensures Sound(end, before.gate.lease.value, before.sent)
  {
    LeaseHolds(prefix, before);
    MaintainsSound(Held(before, [], None, false), before.gate.lease.value, moves, end, before.sent);
    var owner :| Safe(end.gateway, owner);
    NoBroker(end.gateway, owner);
  }

  lemma NobodyActive(responses: Responses)
    requires Reported([], responses)
    ensures exists pages: nat :: Complete(responses, pages) &&
              forall id, p: nat, k: nat :: !ThreadOnPage(responses, pages, p, k, id)
  {
    var pages: nat, kept, replies, records :| ReportedFrom([], responses, pages, kept, replies, records);
    forall id, p: nat, k: nat ensures !ThreadOnPage(responses, pages, p, k, id) {
      ActiveOnPages(responses, pages, id);
      InventoryIds(responses, pages, kept, [], replies, records, id);
    }
  }

  /** The whole claim for an unforced stop or restart outside the already-stopping path, over one
      run that interleaves it with everything else: once it has terminated, the pages it read in
      that run are a complete listing with no active thread on any of them, and between the grant
      and the termination nothing outside the allow-list was sent. */
  lemma UnforcedMaintenanceIsSafe(prefix: seq<Step>, before: Sys, moves: seq<Move>, end: Held)
    requires Run(INIT, prefix, before) && GentleRun(INIT, prefix)
    requires before.gate.lease.Some? && !before.gate.lease.value.force
    requires Maintains(Held(before, [], None, false), before.gate.lease.value, moves, end)
    requires end.terminated
    ensures exists pages: nat :: Complete(end.responses, pages) &&
              forall id, p: nat, k: nat :: !ThreadOnPage(end.responses, pages, p, k, id)
    ensures end.gateway.sent == before.sent && end.gateway.gate.active == 0 && end.gateway.broker == {}
  {
    NothingSentUnderLease(prefix, before, moves, end);
    NobodyActive(end.responses);
  }
}
