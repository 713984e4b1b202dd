// The migrator as it runs: durable fields replaced one publish at a time.

module LegacyMigrators {
  import opened Prelude
  import opened Ordering
  import opened LegacyStores
  import opened MigrationPlan
  import opened MigrationLedger
  import opened MigrationPlanner
  import opened MigrationCommit
  import opened MigrationImport
  import opened MigrationResolve

  /** The duplicate check of `replace_all`: three sets compared with the record count. */
  method DuplicateFree(rs: seq<Record>) returns (ok: bool)
    ensures ok <==> ValidRegistry(rs)
  {
    var sessions, threads, names := {}, {}, {};
    for i := 0 to |rs|
      invariant ValidRegistry(rs[..i])
      invariant sessions == set j | 0 <= j < i :: rs[j].sessionId
      invariant threads == set j | 0 <= j < i :: rs[j].threadId
      invariant names == set j | 0 <= j < i && rs[j].name.Some? :: rs[j].name.value
    {
      if rs[i].sessionId in sessions || rs[i].threadId in threads || (rs[i].name.Some? && rs[i].name.value in names) {
        var j :| 0 <= j < i && Share(rs[j], rs[i]);
        return false;
      }
      sessions, threads := sessions + {rs[i].sessionId}, threads + {rs[i].threadId};
      names := if rs[i].name.Some? then names + {rs[i].name.value} else names;
    }
    assert rs[..|rs|] == rs;
    return true;
  }

  /** The first check that refuses a choice, in the order they are made. */
  method Obstacle(d: Disk, s: Source, original: Record, k: Candidate, selected: Record) returns (o: Option<Refusal>)
    requires ValidDisk(d) && d.ledger.Some? && ValidSource(s)
    ensures forall res | selected == original.(name := Some(TargetName(res))) ::
              var p := DecideChosen(d, s, original, k, res);
              && (o.Some? <==> p.Refuse?)
              && (o.Some? ==> p == Refuse(o.value))
  {
    if !Agrees(d.registry, selected) {
      return Some(RegistryConflict);
    }
    if !OwnEventsProject(s, original, selected) {
      return Some(ProjectionFailed);
    }
    var callbacks := CallbacksWith(d.callbacks, s, original, selected);
    if !UniqueBindings(callbacks.bindings) || !UniqueEntries(callbacks.outbox) {
      return Some(CallbackCollision);
    }
    var files := OwnArtifacts(s, original, selected);
    if exists a | a in files :: a.eventId in d.artifacts && d.artifacts[a.eventId] != a.completion {
      return Some(ArtifactMismatch);
    }
    return if Resolvable(d.ledger.value.status.sources, k) then None else Some(LedgerMismatch);
  }

  /** The choice behind one resolution, computed. */
  method ChoosePlan(d: Disk, s: Source, original: Record, k: Candidate, res: Resolution) returns (p: Decision)
    requires ValidDisk(d) && d.ledger.Some? && ValidSource(s)
    ensures p == DecideChosen(d, s, original, k, res)
  {
    var selected := original.(name := Some(TargetName(res)));
    var o := Obstacle(d, s, original, k, selected);
    if o.Some? {
      return Refuse(o.value);
    }
    var next := ResolveStatus(d.ledger.value.status, k, res.asName.Some?);
    OwnArtifactKeysInjective(s, original, selected);
    p := BuildPlan(d, selected, CallbacksWith(d.callbacks, s, original, selected),
                   OwnArtifacts(s, original, selected), next.value, res);
  }

  method BuildPlan(d: Disk, selected: Record, callbacks: Callbacks, files: set<Artifact>, status: Status, res: Resolution)
    returns (p: Decision)
    requires ValidDisk(d) && d.ledger.Some? && Agrees(d.registry, selected) && Injective(files, ArtifactKey)
    ensures Injective(Elems(d.registry) + {selected}, RecordKey)
    ensures p == Proceed(Plan(status, Ordered(Elems(d.registry) + {selected}, RecordKey), callbacks, Ordered(files, ArtifactKey)),
                         Ledger(status, d.ledger.value.resolutions + [res]), RollbackPlan(d), selected)
  {
    ChosenRecordsUnique(d.registry, selected);
    var records := SortSet(Elems(d.registry) + {selected}, RecordKey);
    var current := SortSet(Elems(d.registry), RecordKey);
    var artifacts := SortSet(files, ArtifactKey);
    p := Proceed(Plan(status, records, callbacks, artifacts), Ledger(status, d.ledger.value.resolutions + [res]),
                 Plan(d.ledger.value.status, current, d.callbacks, []), selected);
  }

  method DecideResolution(d: Disk, sources: seq<Source>, res: Resolution) returns (p: Decision)
    requires ValidDisk(d) && forall s | s in sources :: ValidSource(s)
    ensures p == Decide(d, sources, res)
  {
    if d.intent.Some? && d.intent.value != res {
      return Refuse(RecoveryRequired);
    }
    if d.ledger.None? {
      return Refuse(LedgerMissing);
    }
    if res in d.ledger.value.resolutions {
      return Finished(d.registry, res);
    }
    var cs := d.ledger.value.status.conflicts;
    var conflict := FindConflict(cs, res.name);
    if conflict.None? {
      return if FindConflict(cs, TargetName(res)).Some? then Refuse(NameConflicted) else Finished(d.registry, res);
    }
    var ks := OnThread(conflict.value.candidates, res.threadId);
    if |ks| != 1 {
      return Refuse(AmbiguousThread);
    }
    var source := FindSource(sources, ks[0].path, ks[0].digest);
    if source.None? {
      return Refuse(SourceChanged);
    }
    var original := FindOriginal(source.value.records, ks[0].sessionId, ks[0].threadId);
    if original.None? {
      return Refuse(CandidateMissing);
    }
    FindSourceSound(sources, ks[0].path, ks[0].digest);
    p := ChoosePlan(d, source.value, original.value, ks[0], res);
  }

  lemma ProceedRollsBack(d: Disk, sources: seq<Source>, res: Resolution)
    requires ValidDisk(d) && (forall s | s in sources :: ValidSource(s)) && Decide(d, sources, res).Proceed?
    ensures d.ledger.Some? && Decide(d, sources, res).rollback == RollbackPlan(d)
  {}

  class LegacyMigrator {
    var registry: seq<Record>
    var callbacks: Callbacks
    var artifacts: map<string, Completion>
    var ledger: Option<Ledger>
    var intent: Option<Resolution>

    function View(): Disk
      reads this
    {
      Disk(registry, callbacks, artifacts, ledger, intent)
    }

    /** `publish_artifact`: inserts, or verifies the file already there. */
    method PublishArtifact(a: Artifact) returns (ok: bool)
      modifies this`artifacts
      ensures ok <==> !(a.eventId in old(artifacts) && old(artifacts)[a.eventId] != a.completion)
      ensures artifacts == if ok then old(artifacts)[a.eventId := a.completion] else old(artifacts)
    {
      ok := true;
      if a.eventId in artifacts {
        ok := artifacts[a.eventId] == a.completion;
      } else {
        artifacts := artifacts[a.eventId := a.completion];
      }
    }

    /** `publish_snapshot`: the whole registry or nothing. */
    method PublishRegistry(rs: seq<Record>) returns (ok: bool)
      modifies this`registry
      ensures ok <==> ValidRegistry(rs)
      ensures registry == if ok then rs else old(registry)
    {
      ok := DuplicateFree(rs);
      if ok {
        registry := rs;
      }
    }

    /** `replace_snapshot`: refused when an outbox session is unbound. */
    method ReplaceCallbacks(c: Callbacks) returns (ok: bool)
      modifies this`callbacks
      ensures ok <==> Bound(c)
      ensures callbacks == if ok then c else old(callbacks)
    {
      ok := Bound(c);
      if ok {
        callbacks := c;
      }
    }

    /** `_commit`, stopped after `budget` publishes. */
    method Commit(plan: Plan, next: Ledger, budget: nat) returns (outcome: CommitOutcome)
      modifies this
      ensures Run(View(), outcome) == CommitFrom(old(View()), plan, next, 0, budget)
    {
      var left, n := budget, |plan.artifacts|;
      for i := 0 to n
        invariant CommitFrom(View(), plan, next, i, left) == CommitFrom(old(View()), plan, next, 0, budget)
      {
        if left == 0 {
          return Crashed;
        }
        var ok := PublishArtifact(plan.artifacts[i]);
        if !ok {
          return Failed;
        }
        left := left - 1;
      }
      if left == 0 {
        return Crashed;
      }
      var ok := PublishRegistry(plan.records);
      if !ok {
        return Failed;
      }
      left := left - 1;
      assert CommitFrom(View(), plan, next, n + 1, left) == CommitFrom(old(View()), plan, next, 0, budget);
      if left == 0 {
        return Crashed;
      }
      ok := ReplaceCallbacks(plan.callbacks);
      if !ok {
        return Failed;
      }
      left := left - 1;
      assert CommitFrom(View(), plan, next, n + 2, left) == CommitFrom(old(View()), plan, next, 0, budget);
      if left == 0 {
        return Crashed;
      }
      ledger := Some(next);
      return Done;
    }

    /** `resolve`, disturbed as `stop` says. */
    method Resolve(sources: seq<Source>, res: Resolution, stop: Stop) returns (outcome: ResolveOutcome)
      requires ValidDisk(View()) && forall s | s in sources :: ValidSource(s)
      modifies this
      ensures ResolveRun(View(), outcome) == MigrationResolve.Resolve(old(View()), sources, res, stop)
    {
      var decision := DecideResolution(View(), sources, res);
      match decision
      case Refuse(_) => return Refused;
      case Already(record) =>
        if intent.None? {
          return Resolved(record);
        }
        if stop.after == 0 {
          return Interrupted;
        }
        intent := None;
        return Resolved(record);
      case Proceed(plan, next, rollback, selected) =>
        ProceedRollsBack(View(), sources, res);
        outcome := Execute(res, plan, next, rollback, selected, stop);
    }

    /** The transaction of `resolve`, once the plan is known. */
    method Execute(res: Resolution, plan: Plan, next: Ledger, rollback: Plan, selected: Record, stop: Stop)
      returns (outcome: ResolveOutcome)
      requires ValidDisk(View()) && ledger.Some? && rollback == RollbackPlan(View())
      modifies this
      ensures ResolveRun(View(), outcome) == MigrationResolve.Execute(old(View()), res, plan, next, selected, stop)
    {
      if stop.after == 0 {
        return Interrupted;
      }
      ghost var d := View();
      var recovering, before := intent.Some?, ledger;
      intent := Some(res);
      var forward := Commit(plan, next, stop.after - 1);
      if forward == Done && stop.after > |plan.artifacts| + 4 {
        intent := None;
        return Resolved(selected);
      }
      if forward != Failed && !stop.raises {
        return Interrupted;
      }
      assert MigrationResolve.Execute(d, res, plan, next, selected, stop) == MigrationResolve.RollBack(d, View(), stop);
      if recovering {
        return Raised;
      }
      outcome := RollBack(rollback, before.value, stop);
    }

    /** The handler's commit of the rollback plan. */
    method RollBack(rollback: Plan, before: Ledger, stop: Stop) returns (outcome: ResolveOutcome)
      modifies this
      ensures var r := CommitFrom(old(View()), rollback, before, 0, stop.rollback);
              if r.outcome == Done && stop.rollback > 3
              then View() == r.disk.(intent := None) && outcome == RolledBack
              else View() == r.disk && outcome == if r.outcome == Failed then Raised else Interrupted
    {
      var back := Commit(rollback, before, stop.rollback);
      if back == Done && stop.rollback > 3 {
        intent := None;
        return RolledBack;
      }
      return if back == Failed then Raised else Interrupted;
    }

    /** `scan_and_apply` when no resolution is pending, stopped after `budget` publishes. */
    method ScanAndApply(sources: seq<Source>, budget: nat) returns (outcome: CommitOutcome)
      requires ValidDisk(View()) && intent.None?
      requires DistinctPaths(sources) && forall s | s in sources :: ValidSource(s)
      modifies this
      ensures WellFormed(Elems(sources))
      ensures Run(View(), outcome) == Import(old(View()), Elems(sources), budget)
    {
      DistinctPathsWellFormed(sources);
      if ledger.Some? {
        return Done;
      }
      var plan := PlanMerge(sources, TargetOf(View()));
      if plan.Err? {
        return Failed;
      }
      outcome := Commit(plan.value, Ledger(plan.value.status, []), budget);
    }
  }
}
