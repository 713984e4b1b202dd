// Disturbed resolutions and the restarts after them: which states a run and its rollback can
// leave, what restarts that are themselves stopped make of them, and exactly when the registry,
// callbacks and ledger can end up mixed or stuck.

module MigrationRollback {
  import opened Prelude
  import opened Ordering
  import opened LegacyStores
  import opened MigrationPlan
  import opened MigrationSoundness
  import opened MigrationCommit
  import opened MigrationResolve
  import opened MigrationRecovery

  ghost predicate Starts(d: Disk, sources: seq<Source>, res: Resolution) {
    ValidDisk(d) && d.intent.None? && ValidSources(sources) && Decide(d, sources, res).Proceed?
  }

  // ---- the states a run leaves ----

  /** The disk when a rollback has made `i` publishes over a commit that had made `m`. */
  ghost function Midway(d: Disk, res: Resolution, plan: Plan, ledger: Ledger, m: nat, i: nat): Disk
    requires ValidDisk(d) && d.ledger.Some?
  {
    Prefix(Prefix(d.(intent := Some(res)), plan, ledger, m), RollbackPlan(d), d.ledger.value, i)
  }

  function Least(a: nat, b: nat): nat {
    if a < b then a else b
  }

  lemma RollBackStates(d: Disk, e: Disk, stop: Stop)
    requires ValidDisk(d) && d.ledger.Some? && d.intent.None?
    ensures var r := RollBack(d, e, stop);
            if stop.rollback > 3 && Bound(d.callbacks)
            then r == ResolveRun(Prefix(e, RollbackPlan(d), d.ledger.value, 3).(intent := None), RolledBack)
            else r.disk == Prefix(e, RollbackPlan(d), d.ledger.value, Least(stop.rollback, Limit(RollbackPlan(d))))
                 && r.outcome != RolledBack
  {
    ValidRegistryElems(d.registry);
    RecordKeysInjective(Elems(d.registry));
    UniqueListingIsRegistry(RollbackPlan(d).records, Elems(d.registry));
    CommitReachesPrefix(e, RollbackPlan(d), d.ledger.value, stop.rollback);
  }

  /** How far the forward commit of a run gets. */
  ghost function Reached(plan: Plan, stop: Stop): nat
    requires stop.after > 0
  {
    Least(stop.after - 1, Limit(plan))
  }

  /** The run ends with the intent removed because nothing disturbed it. */
  ghost predicate Undisturbed(plan: Plan, stop: Stop) {
    Bound(plan.callbacks) && stop.after > |plan.artifacts| + 4
  }

  /** An exception reaches the handler: one is injected, or `replace_snapshot` raises. */
  ghost predicate Excepted(plan: Plan, stop: Stop) {
    !Undisturbed(plan, stop) && (stop.raises || (!Bound(plan.callbacks) && stop.after > Limit(plan) + 1))
  }

  lemma ExecuteStates(d: Disk, res: Resolution, plan: Plan, ledger: Ledger, selected: Record, stop: Stop)
    requires ValidDisk(d) && d.ledger.Some? && Committable(d, plan) && stop.after > 0
    ensures var e := Prefix(d.(intent := Some(res)), plan, ledger, Reached(plan, stop));
            Execute(d, res, plan, ledger, selected, stop)
            == if Undisturbed(plan, stop) then ResolveRun(e.(intent := None), Resolved(selected))
               else if Excepted(plan, stop) then RollBack(d, e, stop)
               else ResolveRun(e, Interrupted)
  {
    CommitReachesPrefix(d.(intent := Some(res)), plan, ledger, stop.after - 1);
  }

  /** Every run stops in a forward state, in a rollback state, or undisturbed. */
  lemma RunStates(d: Disk, sources: seq<Source>, res: Resolution, stop: Stop)
    requires Starts(d, sources, res) && stop.after > 0
    ensures var p := Decide(d, sources, res);
            var e := Prefix(d.(intent := Some(res)), p.plan, p.ledger, Reached(p.plan, stop));
            Resolve(d, sources, res, stop)
            == if Undisturbed(p.plan, stop) then ResolveRun(e.(intent := None), Resolved(p.selected))
               else if Excepted(p.plan, stop) then RollBack(d, e, stop)
               else ResolveRun(e, Interrupted)
  {
    ForwardRedecides(d, sources, res, 0);
    var p := Decide(d, sources, res);
    ExecuteStates(d, res, p.plan, p.ledger, p.selected, stop);
  }

  /** How far the rollback of a disturbed run gets; a completed one removes the intent. */
  ghost function Undone(d: Disk, plan: Plan, stop: Stop): nat
    requires ValidDisk(d) && d.ledger.Some? && stop.after > 0
  {
    if Excepted(plan, stop) then Least(stop.rollback, Limit(RollbackPlan(d))) else 0
  }

  ghost predicate RollsBack(d: Disk, plan: Plan, stop: Stop) {
    Excepted(plan, stop) && stop.rollback > 3 && Bound(d.callbacks)
  }

  /** A disturbed run that neither finishes nor rolls back leaves a midway disk. */
  lemma DisturbedRunIsMidway(d: Disk, sources: seq<Source>, res: Resolution, stop: Stop)
    requires Starts(d, sources, res) && stop.after > 0
    requires var p := Decide(d, sources, res); !Undisturbed(p.plan, stop) && !RollsBack(d, p.plan, stop)
    ensures var p := Decide(d, sources, res);
            Resolve(d, sources, res, stop).disk
            == Midway(d, res, p.plan, p.ledger, Reached(p.plan, stop), Undone(d, p.plan, stop))
  {
    var p := Decide(d, sources, res);
    RunStates(d, sources, res, stop);
    var e := Prefix(d.(intent := Some(res)), p.plan, p.ledger, Reached(p.plan, stop));
    if Excepted(p.plan, stop) {
      RollBackStates(d, e, stop);
    }
  }

  lemma SortedRegistryUnchanged(d: Disk)
    requires ValidDisk(d) && d.ledger.Some?
    ensures Elems(RollbackPlan(d).records) == Elems(d.registry)
    ensures RollbackPlan(d).records == d.registry <==> Ascending(d.registry, RecordKey)
  {
    ValidRegistryElems(d.registry);
    RecordKeysInjective(Elems(d.registry));
    if Ascending(d.registry, RecordKey) {
      ListingUnique(d.registry, RollbackPlan(d).records, Elems(d.registry), RecordKey);
    }
  }

  /** A failed attempt whose rollback completes leaves the callbacks, the ledger and the
      registry's records as they were; the registry file is byte-for-byte the old one
      exactly when it was already in key order. */
  lemma RollbackRestores(d: Disk, sources: seq<Source>, res: Resolution, stop: Stop)
    requires Starts(d, sources, res) && Resolve(d, sources, res, stop).outcome == RolledBack
    ensures var e := Resolve(d, sources, res, stop).disk;
            && e.intent.None? && e.callbacks == d.callbacks && e.ledger == d.ledger
            && Elems(e.registry) == Elems(d.registry)
            && (e.registry == d.registry <==> Ascending(d.registry, RecordKey))
            && (forall id | id in d.artifacts :: id in e.artifacts && e.artifacts[id] == d.artifacts[id])
  {
    var s, original, k := ProceedParts(d, sources, res);
    var p := Decide(d, sources, res);
    ChosenPlanCommittable(d, s, original, k, res);
    RunStates(d, sources, res, stop);
    var m := Reached(p.plan, stop);
    RollBackStates(d, Prefix(d.(intent := Some(res)), p.plan, p.ledger, m), stop);
    SortedRegistryUnchanged(d);
    ArtifactsStay(d, p.plan, if m < |p.plan.artifacts| then p.plan.artifacts[..m] else p.plan.artifacts);
  }

  lemma ArtifactsStay(d: Disk, plan: Plan, done: seq<Artifact>)
    requires Committable(d, plan) && done <= plan.artifacts
    ensures forall id | id in d.artifacts ::
              id in Published(d.artifacts, done) && Published(d.artifacts, done)[id] == d.artifacts[id]
  {
    forall id | id in d.artifacts
      ensures id in Published(d.artifacts, done) && Published(d.artifacts, done)[id] == d.artifacts[id]
    {
      PublishedLookup(d.artifacts, done, id);
      forall a | a in done && a.eventId == id ensures a.completion == d.artifacts[id] {
        assert a in plan.artifacts;
      }
    }
  }

  // ---- restarts from a disk that still has the old ledger ----

  /** The intent is on disk, the ledger is old, and the stores only gained what the plan adds. */
  ghost predicate InFlight(d: Disk, res: Resolution, plan: Plan, e: Disk) {
    e.intent == Some(res) && Underway(d, plan, e)
  }

  /** The new registry, callbacks and ledger, with or without the intent. */
  ghost predicate Arrived(res: Resolution, plan: Plan, ledger: Ledger, e: Disk) {
    NewTriple(plan, ledger, e) && (e.intent.None? || e.intent == Some(res))
  }

  lemma PrefixUnderway(d: Disk, plan: Plan, ledger: Ledger, e: Disk, j: nat)
    requires Underway(d, plan, e) && Committable(e, plan) && Elems(d.registry) <= Elems(plan.records)
    requires j <= |plan.artifacts| + 2
    ensures Underway(d, plan, Prefix(e, plan, ledger, j))
  {
    PrefixKeepsCommittable(e, plan, ledger, j);
  }

  lemma MidwayInFlight(d: Disk, sources: seq<Source>, res: Resolution, m: nat, i: nat)
    requires Starts(d, sources, res)
    requires i <= 3 && (m < |Decide(d, sources, res).plan.artifacts| + 3 || i == 3)
    ensures var p := Decide(d, sources, res); InFlight(d, res, p.plan, Midway(d, res, p.plan, p.ledger, m, i))
  {
    var s, original, k := ProceedParts(d, sources, res);
    var p := Decide(d, sources, res);
    ChosenPlanCommittable(d, s, original, k, res);
    PrefixKeepsCommittable(d.(intent := Some(res)), p.plan, p.ledger, m);
  }

  lemma InFlightRedecides(d: Disk, sources: seq<Source>, res: Resolution, e: Disk)
    requires Starts(d, sources, res) && InFlight(d, res, Decide(d, sources, res).plan, e)
    ensures ValidDisk(e) && e.ledger == d.ledger && SameDecision(Decide(d, sources, res), Decide(e, sources, res))
    ensures var p := Decide(d, sources, res); Committable(e, p.plan) && Elems(d.registry) <= Elems(p.plan.records)
  {
    var s, original, k := ProceedParts(d, sources, res);
    ChosenPlanCommittable(d, s, original, k, res);
    RedecideIsSame(d, e, s, original, k, res);
  }

  /** One restart from there: it stays in flight until the ledger is replaced, which an unbound
      plan never lets it do. */
  lemma RestartInFlight(d: Disk, sources: seq<Source>, res: Resolution, e: Disk, b: nat)
    requires Starts(d, sources, res) && InFlight(d, res, Decide(d, sources, res).plan, e)
    ensures ValidDisk(e)
    ensures var p := Decide(d, sources, res);
            var n := |p.plan.artifacts|;
            var f := Recover(e, sources, b);
            if Bound(p.plan.callbacks) && b > n + 3
            then NewTriple(p.plan, p.ledger, f) && f.intent == if b > n + 4 then None else Some(res)
            else InFlight(d, res, p.plan, f)
  {
    InFlightRedecides(d, sources, res, e);
    var p := Decide(d, sources, res);
    if b > 0 {
      var stop := Stop(b, false, 0);
      ExecuteStates(e, res, p.plan, p.ledger, p.selected, stop);
      if Reached(p.plan, stop) <= |p.plan.artifacts| + 2 {
        PrefixUnderway(d, p.plan, p.ledger, e, Reached(p.plan, stop));
      }
    }
  }

  /** With the new ledger and the record in place, a restart only removes the intent. */
  lemma RestartArrived(d: Disk, sources: seq<Source>, res: Resolution, e: Disk, b: nat)
    requires Starts(d, sources, res)
    requires var p := Decide(d, sources, res); Arrived(res, p.plan, p.ledger, e)
    ensures ValidDisk(e) && Recover(e, sources, b) == if b > 0 then e.(intent := None) else e
  {
    var s, original, k := ProceedParts(d, sources, res);
    ChosenPlanCommittable(d, s, original, k, res);
    LedgerKnowsResolution(d, e, sources, res);
  }

  lemma {:induction false} RestartsArrived(d: Disk, sources: seq<Source>, res: Resolution, e: Disk, bs: seq<nat>, end: Disk)
    requires Starts(d, sources, res) && RestartsLead(e, sources, bs, end)
    requires var p := Decide(d, sources, res); Arrived(res, p.plan, p.ledger, e)
    ensures var p := Decide(d, sources, res); Arrived(res, p.plan, p.ledger, end)
    decreases |bs|
  {
    if bs != [] {
      RestartArrived(d, sources, res, e, bs[0]);
      RestartsArrived(d, sources, res, Recover(e, sources, bs[0]), bs[1..], end);
    }
  }

  /** Any restarts from there, each stopped anywhere. */
  lemma {:induction false} RestartsInFlight(d: Disk, sources: seq<Source>, res: Resolution, e: Disk, bs: seq<nat>, end: Disk)
    requires Starts(d, sources, res) && RestartsLead(e, sources, bs, end)
    requires InFlight(d, res, Decide(d, sources, res).plan, e)
    ensures var p := Decide(d, sources, res);
            InFlight(d, res, p.plan, end) || (Bound(p.plan.callbacks) && Arrived(res, p.plan, p.ledger, end))
    decreases |bs|
  {
    if bs != [] {
      var p := Decide(d, sources, res);
      RestartInFlight(d, sources, res, e, bs[0]);
      var f := Recover(e, sources, bs[0]);
      if InFlight(d, res, p.plan, f) {
        RestartsInFlight(d, sources, res, f, bs[1..], end);
      } else {
        RestartsArrived(d, sources, res, f, bs[1..], end);
      }
    }
  }

  // ---- a rollback begun after the new ledger was written ----

  /** The rollback restored the registry, or it and the callbacks, but not the ledger. */
  ghost predicate Astray(plan: Plan, m: nat, i: nat) {
    m == |plan.artifacts| + 3 && 1 <= i <= 2
  }

  lemma RegistryUnchangedBySelected(d: Disk, s: Source, original: Record, k: Candidate, res: Resolution)
    requires ValidDisk(d) && d.ledger.Some? && ChosenFrom(d, s, original, k, res)
    requires DecideChosen(d, s, original, k, res).selected in d.registry
    ensures DecideChosen(d, s, original, k, res).plan.records == RollbackPlan(d).records
  {
    var p := DecideChosen(d, s, original, k, res);
    ChosenRecordsUnique(d.registry, p.selected);
    assert Elems(d.registry) + {p.selected} == Elems(d.registry);
  }

  lemma AstrayDisk(d: Disk, sources: seq<Source>, res: Resolution, i: nat)
    requires Starts(d, sources, res) && 1 <= i <= 2
    ensures var p := Decide(d, sources, res);
            var e := Midway(d, res, p.plan, p.ledger, |p.plan.artifacts| + 3, i);
            && e.registry == RollbackPlan(d).records && e.ledger == Some(p.ledger) && e.intent == Some(res)
            && e.callbacks == (if i == 1 then p.plan.callbacks else d.callbacks)
            && (p.selected in e.registry <==> p.selected in d.registry)
            && (p.selected in d.registry ==> e.registry == p.plan.records)
            && p.ledger != d.ledger.value
  {
    var s, original, k := ProceedParts(d, sources, res);
    var p := Decide(d, sources, res);
    ChosenPlanCommittable(d, s, original, k, res);
    if p.selected in d.registry {
      RegistryUnchangedBySelected(d, s, original, k, res);
    }
    assert |p.ledger.resolutions| == |d.ledger.value.resolutions| + 1;
  }

  lemma RestartAstray(d: Disk, sources: seq<Source>, res: Resolution, i: nat, intent: Option<Resolution>, b: nat)
    requires Starts(d, sources, res) && 1 <= i <= 2 && (intent.None? || intent == Some(res))
    ensures var p := Decide(d, sources, res);
            var e := Midway(d, res, p.plan, p.ledger, |p.plan.artifacts| + 3, i).(intent := intent);
            && ValidDisk(e)
            && Recover(e, sources, b) == if b > 0 && p.selected in d.registry then e.(intent := None) else e
  {
    var s, original, k := ProceedParts(d, sources, res);
    var p := Decide(d, sources, res);
    ChosenPlanCommittable(d, s, original, k, res);
    AstrayDisk(d, sources, res, i);
    LedgerKnowsResolution(d, Midway(d, res, p.plan, p.ledger, |p.plan.artifacts| + 3, i).(intent := intent), sources, res);
  }

  /** Restarts never touch such a disk, except that they remove the intent when the chosen
      record was in the registry all along. */
  lemma {:induction false} RestartsAstray(d: Disk, sources: seq<Source>, res: Resolution, i: nat, intent: Option<Resolution>,
                                          bs: seq<nat>, end: Disk)
    requires Starts(d, sources, res) && 1 <= i <= 2 && (intent.None? || intent == Some(res))
    requires var p := Decide(d, sources, res);
             RestartsLead(Midway(d, res, p.plan, p.ledger, |p.plan.artifacts| + 3, i).(intent := intent), sources, bs, end)
    ensures var p := Decide(d, sources, res);
            var e := Midway(d, res, p.plan, p.ledger, |p.plan.artifacts| + 3, i).(intent := intent);
            end == e || (p.selected in d.registry && end == e.(intent := None))
    decreases |bs|
  {
    if bs != [] {
      RestartAstray(d, sources, res, i, intent, bs[0]);
      var next := if bs[0] > 0 && Decide(d, sources, res).selected in d.registry then None else intent;
      RestartsAstray(d, sources, res, i, next, bs[1..], end);
    }
  }

  // ---- the results ----

  /** Exactly when a rollback cut short is repaired: the ledger file was still old (or is old
      again), or nothing was rolled back yet, or the chosen record was in the registry all along
      and the callbacks on disk are the new ones. */
  ghost predicate Replayable(d: Disk, plan: Plan, selected: Record, m: nat, i: nat) {
    || m < |plan.artifacts| + 3
    || i == 0 || i == 3
    || (selected in d.registry && (i == 1 || d.callbacks == plan.callbacks))
  }

  /** A commit that made `m` publishes and a rollback of it that made `i`, then any restarts,
      each stopped anywhere: the next undisturbed restart reaches the new registry, callbacks
      and ledger with no intent left if and only if the state is replayable. */
  lemma CutShortRollback(d: Disk, sources: seq<Source>, res: Resolution, m: nat, i: nat, bs: seq<nat>, mid: Disk, b: nat)
    requires Starts(d, sources, res)
    requires var p := Decide(d, sources, res);
             && Bound(p.plan.callbacks) && b > |p.plan.artifacts| + 4
             && m <= |p.plan.artifacts| + 3 && i <= 3
             && RestartsLead(Midway(d, res, p.plan, p.ledger, m, i), sources, bs, mid)
    ensures var p := Decide(d, sources, res);
            && ValidDisk(mid)
            && (Replayable(d, p.plan, p.selected, m, i) <==>
                  NewTriple(p.plan, p.ledger, Recover(mid, sources, b)) && Recover(mid, sources, b).intent.None?)
  {
    var p := Decide(d, sources, res);
    var e := Midway(d, res, p.plan, p.ledger, m, i);
    if Astray(p.plan, m, i) {
      AstrayDisk(d, sources, res, i);
      assert e == e.(intent := Some(res));
      RestartsAstray(d, sources, res, i, Some(res), bs, mid);
      RestartAstray(d, sources, res, i, mid.intent, b);
    } else if m < |p.plan.artifacts| + 3 || i == 3 {
      MidwayInFlight(d, sources, res, m, i);
      RestartsInFlight(d, sources, res, e, bs, mid);
      if InFlight(d, res, p.plan, mid) {
        RestartInFlight(d, sources, res, mid, b);
      } else {
        RestartArrived(d, sources, res, mid, b);
      }
    } else {
      RestartsArrived(d, sources, res, e, bs, mid);
      RestartArrived(d, sources, res, mid, b);
    }
  }

  /** All old (up to registry order), or all new. */
  ghost predicate Whole(d: Disk, plan: Plan, ledger: Ledger, e: Disk)
    requires ValidDisk(d) && d.ledger.Some?
  {
    OldTriple(d, e) || OldTriple(d.(registry := RollbackPlan(d).records), e) || NewTriple(plan, ledger, e)
  }

  /** The one way to a mix: an exception after the ledger was replaced, a rollback cut short
      right after it restored the callbacks, and a chosen record that was in the registry before,
      so that a restart takes the resolution for finished. */
  ghost predicate Mixes(d: Disk, plan: Plan, selected: Record, stop: Stop) {
    && Bound(plan.callbacks) && Bound(d.callbacks)
    && stop.after == |plan.artifacts| + 4 && stop.raises && stop.rollback == 2
    && selected in d.registry && d.callbacks != plan.callbacks
  }

  /** No mix without an intent, over any run however disturbed and any restarts after it however
      stopped: once no intent is on disk, the registry, callbacks and ledger are all old or all
      new if and only if the run was not that one. */
  lemma NoMixWithoutIntent(d: Disk, sources: seq<Source>, res: Resolution, stop: Stop, bs: seq<nat>, end: Disk)
    requires Starts(d, sources, res)
    requires RestartsLead(Resolve(d, sources, res, stop).disk, sources, bs, end) && end.intent.None?
    ensures var p := Decide(d, sources, res);
            Whole(d, p.plan, p.ledger, end) <==> !Mixes(d, p.plan, p.selected, stop)
  {
    var p := Decide(d, sources, res);
    var e := Resolve(d, sources, res, stop).disk;
    if stop.after == 0 {
      RestartsIdle(e, sources, bs, end);
    } else if Undisturbed(p.plan, stop) || RollsBack(d, p.plan, stop) {
      RunStates(d, sources, res, stop);
      RollBackStates(d, Prefix(d.(intent := Some(res)), p.plan, p.ledger, Reached(p.plan, stop)), stop);
      RestartsIdle(e, sources, bs, end);
    } else {
      DisturbedRunIsMidway(d, sources, res, stop);
      MidwayEnds(d, sources, res, Reached(p.plan, stop), Undone(d, p.plan, stop), bs, end);
    }
  }

  lemma {:induction false} RestartsIdle(e: Disk, sources: seq<Source>, bs: seq<nat>, end: Disk)
    requires ValidSources(sources) && e.intent.None? && RestartsLead(e, sources, bs, end)
    ensures end == e
    decreases |bs|
  {
    if bs != [] {
      RestartsIdle(e, sources, bs[1..], end);
    }
  }

  /** From a midway disk to a disk without intent. */
  lemma MidwayEnds(d: Disk, sources: seq<Source>, res: Resolution, m: nat, i: nat, bs: seq<nat>, end: Disk)
    requires Starts(d, sources, res) && end.intent.None? && i <= 3
    requires var p := Decide(d, sources, res);
             m <= |p.plan.artifacts| + 3 && RestartsLead(Midway(d, res, p.plan, p.ledger, m, i), sources, bs, end)
    ensures var p := Decide(d, sources, res);
            Whole(d, p.plan, p.ledger, end) <==>
              !(m == |p.plan.artifacts| + 3 && i == 2 && p.selected in d.registry && d.callbacks != p.plan.callbacks)
  {
    var p := Decide(d, sources, res);
    var e := Midway(d, res, p.plan, p.ledger, m, i);
    if Astray(p.plan, m, i) {
      AstrayDisk(d, sources, res, i);
      assert e == e.(intent := Some(res));
      RestartsAstray(d, sources, res, i, Some(res), bs, end);
    } else if m < |p.plan.artifacts| + 3 || i == 3 {
      MidwayInFlight(d, sources, res, m, i);
      RestartsInFlight(d, sources, res, e, bs, end);
    } else {
      RestartsArrived(d, sources, res, e, bs, end);
    }
  }

  /** With an unbound event a crash is never repaired: restarts, however many and wherever each
      is stopped, only come back to disks with the intent and the old ledger. */
  lemma UnboundReplayNeverCompletes(d: Disk, sources: seq<Source>, res: Resolution, j: nat, bs: seq<nat>, end: Disk)
    requires Starts(d, sources, res)
    requires var p := Decide(d, sources, res);
             && !Bound(p.plan.callbacks) && 1 <= j <= |p.plan.artifacts| + 2
             && RestartsLead(Resolve(d, sources, res, Stop(j, false, 0)).disk, sources, bs, end)
    ensures var p := Decide(d, sources, res);
            InFlight(d, res, p.plan, end) && end.intent == Some(res) && end.ledger == d.ledger
  {
    var p := Decide(d, sources, res);
    UnboundRunIsMidway(d, sources, res, j);
    MidwayInFlight(d, sources, res, j - 1, 0);
    RestartsInFlight(d, sources, res, Midway(d, res, p.plan, p.ledger, j - 1, 0), bs, end);
  }

  lemma UnboundRunIsMidway(d: Disk, sources: seq<Source>, res: Resolution, j: nat)
    requires Starts(d, sources, res)
    requires var p := Decide(d, sources, res); !Bound(p.plan.callbacks) && 1 <= j <= |p.plan.artifacts| + 2
    ensures var p := Decide(d, sources, res);
            Resolve(d, sources, res, Stop(j, false, 0)).disk == Midway(d, res, p.plan, p.ledger, j - 1, 0)
  {
    DisturbedRunIsMidway(d, sources, res, Stop(j, false, 0));
  }
}
