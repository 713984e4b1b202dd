// A resolution that is still to be replayed, while others go on writing: the dispatcher the
// callback store, and live sessions the registry, from a memory that a failed `resolve` left
// stale. Exactly when the replay may still proceed, and what it reaches.

module MigrationInterference {
  import opened Prelude
  import opened LegacyStores
  import opened MigrationPlan
  import opened MigrationCommit
  import opened MigrationResolve
  import opened MigrationRecovery
  import opened MigrationRollback
  import CallbackOutbox
  import CallbackStores
  import SessionRegistries

  /** What the chosen record brings in is absent from the store or there unchanged. */
  ghost predicate OwnUnchanged(s: Source, original: Record, selected: Record, c: Callbacks) {
    && (forall b, x | b in OwnBindings(s, original) && x in c.bindings && b.sessionId == x.sessionId :: b == x)
    && (forall e, x | e in OwnEntries(s, original, selected) && x in c.outbox && e.eventId == x.eventId :: e == x)
  }

  lemma OwnUnique(s: Source, original: Record, selected: Record)
    requires ValidSource(s) && selected.sessionId == original.sessionId
    ensures UniqueBindings(OwnBindings(s, original)) && UniqueEntries(OwnEntries(s, original, selected))
  {
    forall a, b | a in OwnEntries(s, original, selected) && b in OwnEntries(s, original, selected) && a.eventId == b.eventId
      ensures a == b
    {
      var p :| p in OwnProjected(s, original, selected) && p.entry == a;
      var q :| q in OwnProjected(s, original, selected) && q.entry == b;
      OwnEntryOrigin(s, original, selected, p);
      OwnEntryOrigin(s, original, selected, q);
    }
  }

  lemma MergeableExactly(s: Source, original: Record, selected: Record, c: Callbacks)
    requires ValidSource(s) && selected.sessionId == original.sessionId && ValidCallbacks(c)
    ensures var m := CallbacksWith(c, s, original, selected);
            UniqueBindings(m.bindings) && UniqueEntries(m.outbox) <==> OwnUnchanged(s, original, selected, c)
  {
    OwnUnique(s, original, selected);
  }

  /** The disk a replay finds, its registry and callback store written by others since. */
  function Rewritten(e: Disk, rs: seq<Record>, c: Callbacks): Disk {
    e.(registry := rs, callbacks := c)
  }

  /** With the ledger still old, a replay may proceed if and only if no record clashes with the
      chosen one and nobody changed its binding or an event of it since the commit published them. */
  lemma ReplayProceedsExactly(d: Disk, sources: seq<Source>, res: Resolution, e: Disk, rs: seq<Record>, c: Callbacks)
    returns (s: Source, original: Record)
    requires Starts(d, sources, res) && InFlight(d, res, Decide(d, sources, res).plan, e)
    requires ValidRegistry(rs) && ValidCallbacks(c)
    ensures ValidDisk(Rewritten(e, rs, c)) && ValidSource(s)
    ensures var p, q := Decide(d, sources, res), Decide(Rewritten(e, rs, c), sources, res);
            && p.plan.callbacks == CallbacksWith(d.callbacks, s, original, p.selected)
            && (q.Proceed? <==> Agrees(rs, p.selected) && OwnUnchanged(s, original, p.selected, c))
            && (!q.Proceed? ==> q == Refuse(if Agrees(rs, p.selected) then CallbackCollision else RegistryConflict))
            && (q.Proceed? ==>
                  && q.selected == p.selected && q.ledger == p.ledger && q.plan.artifacts == p.plan.artifacts
                  && q.plan.callbacks == CallbacksWith(c, s, original, p.selected)
                  && forall r :: r in q.plan.records <==> r in rs || r == p.selected)
  {
    var k;
    s, original, k := ProceedParts(d, sources, res);
    ChosenPlanCommittable(d, s, original, k, res);
    RedecideIsSame(d, e, s, original, k, res);
    MergeableExactly(s, original, Decide(d, sources, res).selected, c);
    ChosenOverRewrite(e, s, original, k, res, rs, c);
  }

  lemma ChosenOverRewrite(e: Disk, s: Source, original: Record, k: Candidate, res: Resolution, rs: seq<Record>, c: Callbacks)
    requires ValidDisk(e) && e.ledger.Some? && ChosenFrom(e, s, original, k, res)
    requires ValidRegistry(rs) && ValidCallbacks(c)
    ensures ValidDisk(Rewritten(e, rs, c))
    ensures var p, q := DecideChosen(e, s, original, k, res), DecideChosen(Rewritten(e, rs, c), s, original, k, res);
            var m := CallbacksWith(c, s, original, p.selected);
            && (q.Proceed? <==> Agrees(rs, p.selected) && UniqueBindings(m.bindings) && UniqueEntries(m.outbox))
            && (!q.Proceed? ==> q == Refuse(if Agrees(rs, p.selected) then CallbackCollision else RegistryConflict))
            && (q.Proceed? ==>
                  && q.selected == p.selected && q.ledger == p.ledger && q.plan.artifacts == p.plan.artifacts
                  && q.plan.callbacks == m
                  && forall r :: r in q.plan.records <==> r in rs || r == p.selected)
  {
    var f := Rewritten(e, rs, c);
    if DecideChosen(f, s, original, k, res).Proceed? {
      ChosenPlanCommittable(f, s, original, k, res);
    }
  }

  /** Restarts from a disk they refuse leave it as it is. */
  lemma {:induction false} RestartsRefused(e: Disk, sources: seq<Source>, bs: seq<nat>, end: Disk)
    requires ValidDisk(e) && ValidSources(sources) && e.intent.Some? && Decide(e, sources, e.intent.value).Refuse?
    requires RestartsLead(e, sources, bs, end)
    ensures end == e
    decreases |bs|
  {
    if bs != [] {
      RestartsRefused(e, sources, bs[1..], end);
    }
  }

  /** What restarts make of such a disk: if the replay may proceed, one that is not stopped adds
      the chosen record to the registry as it is now and its callbacks to the store as it is now,
      with the new ledger and no intent left; if not, nothing ever changes. */
  lemma ReplayAfterRewrite(d: Disk, sources: seq<Source>, res: Resolution, e: Disk, rs: seq<Record>, c: Callbacks,
                           bs: seq<nat>, mid: Disk, b: nat)
    requires Starts(d, sources, res) && InFlight(d, res, Decide(d, sources, res).plan, e)
    requires ValidRegistry(rs) && ValidCallbacks(c) && RestartsLead(Rewritten(e, rs, c), sources, bs, mid)
    requires b > |Decide(d, sources, res).plan.artifacts| + 4
    requires var q := Decide(Rewritten(e, rs, c), sources, res); q.Proceed? ==> Bound(q.plan.callbacks)
    ensures ValidDisk(mid) && ValidDisk(Rewritten(e, rs, c))
    ensures var q := Decide(Rewritten(e, rs, c), sources, res);
            if q.Proceed?
            then Recover(mid, sources, b).intent.None? && NewTriple(q.plan, q.ledger, Recover(mid, sources, b))
            else mid == Rewritten(e, rs, c) == Recover(mid, sources, b)
  {
    var f := Rewritten(e, rs, c);
    var s, original := ReplayProceedsExactly(d, sources, res, e, rs, c);
    var q := Decide(f, sources, res);
    if q.Proceed? {
      StartOver(f, sources, res);
      CrashThenReplayCompletes(f.(intent := None), sources, res, 1, bs, mid, b);
    } else {
      RestartsRefused(f, sources, bs, mid);
    }
  }

  /** A disk with its intent is that disk without it, one publish into the resolution. */
  lemma StartOver(f: Disk, sources: seq<Source>, res: Resolution)
    requires ValidDisk(f) && ValidSources(sources) && f.intent == Some(res) && Decide(f, sources, res).Proceed?
    requires Bound(Decide(f, sources, res).plan.callbacks)
    ensures Starts(f.(intent := None), sources, res)
    ensures SameDecision(Decide(f, sources, res), Decide(f.(intent := None), sources, res))
    ensures Resolve(f.(intent := None), sources, res, Stop(1, false, 0)).disk == f
  {
    var d := f.(intent := None);
    var s, original, k := ProceedParts(f, sources, res);
    ForwardFromForward(d, sources, res, 0, 1);
    var p := Decide(d, sources, res);
    assert Forward(d, res, p.plan, p.ledger, 1) == d.(intent := Some(res)) == f;
  }

  // ---- the dispatcher ----

  ghost predicate Performed(s: CallbackOutbox.Store, ops: seq<CallbackOutbox.Op>, end: CallbackOutbox.Store)
    decreases |ops|
  {
    if ops == [] then end == s
    else CallbackOutbox.Perform(s, ops[0]).Ok? && Performed(CallbackOutbox.Perform(s, ops[0]).value, ops[1..], end)
  }

  /** An attempt at the event is recorded, delivered or failed. */
  predicate Attempts(op: CallbackOutbox.Op, id: string) {
    (op.FailedOp? || op.WrittenOp?) && op.id == id
  }

  /** Past `x`: more attempts, or written. */
  predicate Past(s: CallbackOutbox.Store, x: Entry) {
    x.eventId in s.outbox && (s.outbox[x.eventId].attempts > x.attempts || s.outbox[x.eventId].state == Written)
  }

  predicate AtLeast(s: CallbackOutbox.Store, x: Entry) {
    x.eventId in s.outbox && s.outbox[x.eventId].attempts >= x.attempts
  }

  lemma AttemptGoesPast(s: CallbackOutbox.Store, op: CallbackOutbox.Op, x: Entry)
    requires CallbackOutbox.Sound(s) && AtLeast(s, x) && Attempts(op, x.eventId) && CallbackOutbox.Perform(s, op).Ok?
    ensures Past(CallbackOutbox.Perform(s, op).value, x)
  {}

  /** Over a run of operations that records an attempt, the entry is past what it was. */
  lemma {:induction false} AttemptedIsPast(s: CallbackOutbox.Store, ops: seq<CallbackOutbox.Op>, end: CallbackOutbox.Store, x: Entry)
    requires CallbackOutbox.Sound(s) && AtLeast(s, x) && Performed(s, ops, end)
    ensures CallbackOutbox.Sound(end)
    ensures Past(s, x) || (exists op <- ops :: Attempts(op, x.eventId)) ==> Past(end, x)
    decreases |ops|
  {
    if ops != [] {
      var next := CallbackOutbox.Perform(s, ops[0]).value;
      CallbackOutbox.PerformGrows(s, ops[0]);
      if Attempts(ops[0], x.eventId) {
        AttemptGoesPast(s, ops[0], x);
      }
      AttemptedIsPast(next, ops[1..], end, x);
      assert forall op | op in ops :: op == ops[0] || op in ops[1..];
    }
  }

  lemma SoundSnapshotIsValid(s: CallbackOutbox.Store)
    requires CallbackOutbox.Sound(s)
    ensures ValidCallbacks(CallbackStores.SnapshotOf(s))
  {}

  /** Once a pending event that the resolution brings in is in the store, any run of operations
      on the store in which an attempt at it is recorded makes every restart, and every later
      one, a refusal that changes nothing. */
  lemma DeliveryBlocksReplay(d: Disk, sources: seq<Source>, res: Resolution, e: Disk,
                             before: CallbackOutbox.Store, ops: seq<CallbackOutbox.Op>, after: CallbackOutbox.Store, x: Entry,
                             bs: seq<nat>, end: Disk)
    requires Starts(d, sources, res) && InFlight(d, res, Decide(d, sources, res).plan, e)
    requires x in e.callbacks.outbox && x !in d.callbacks.outbox && x.state == Pending
    requires CallbackStores.StoreFor(before, e.callbacks) && CallbackOutbox.Sound(before)
    requires Performed(before, ops, after) && exists op <- ops :: Attempts(op, x.eventId)
    requires RestartsLead(Rewritten(e, e.registry, CallbackStores.SnapshotOf(after)), sources, bs, end)
    ensures ValidDisk(end) && Decide(end, sources, res) == Refuse(CallbackCollision)
    ensures end == Rewritten(e, e.registry, CallbackStores.SnapshotOf(after))
  {
    var c := CallbackStores.SnapshotOf(after);
    var y := AttemptedEntry(before, e.callbacks, ops, after, x);
    InFlightRedecides(d, sources, res, e);
    ChangedEntryRefuses(d, sources, res, e, c, x, y);
    RestartsRefused(Rewritten(e, e.registry, c), sources, bs, end);
  }

  lemma AttemptedEntry(before: CallbackOutbox.Store, c: Callbacks, ops: seq<CallbackOutbox.Op>, after: CallbackOutbox.Store, x: Entry)
    returns (y: Entry)
    requires CallbackStores.StoreFor(before, c) && CallbackOutbox.Sound(before) && x in c.outbox && x.state == Pending
    requires Performed(before, ops, after) && exists op <- ops :: Attempts(op, x.eventId)
    ensures ValidCallbacks(CallbackStores.SnapshotOf(after))
    ensures y in CallbackStores.SnapshotOf(after).outbox && y.eventId == x.eventId && y != x
  {
    assert before.outbox[x.eventId] == x;
    AttemptedIsPast(before, ops, after, x);
    SoundSnapshotIsValid(after);
    y := after.outbox[x.eventId];
  }

  lemma ChangedEntryRefuses(d: Disk, sources: seq<Source>, res: Resolution, e: Disk, c: Callbacks, x: Entry, y: Entry)
    requires Starts(d, sources, res) && InFlight(d, res, Decide(d, sources, res).plan, e) && ValidRegistry(e.registry)
    requires x in e.callbacks.outbox && x !in d.callbacks.outbox
    requires ValidCallbacks(c) && y in c.outbox && y.eventId == x.eventId && y != x
    ensures ValidDisk(Rewritten(e, e.registry, c))
    ensures Decide(Rewritten(e, e.registry, c), sources, res) == Refuse(CallbackCollision)
  {
    var s, original := ReplayProceedsExactly(d, sources, res, e, e.registry, c);
    assert x in OwnEntries(s, original, Decide(d, sources, res).selected);
    InFlightAgrees(d, sources, res, e);
  }

  lemma InFlightAgrees(d: Disk, sources: seq<Source>, res: Resolution, e: Disk)
    requires Starts(d, sources, res) && InFlight(d, res, Decide(d, sources, res).plan, e)
    ensures Agrees(e.registry, Decide(d, sources, res).selected)
  {
    var s, original, k := ProceedParts(d, sources, res);
    ChosenPlanCommittable(d, s, original, k, res);
    RedecideIsSame(d, e, s, original, k, res);
  }

  // ---- the stale registry ----

  /** What recognises a finished resolution: the name and the thread. */
  predicate Bears(r: Record, res: Resolution) {
    r.name == Some(TargetName(res)) && r.threadId == res.threadId
  }

  predicate Present(rs: seq<Record>, res: Resolution) {
    exists r <- rs :: Bears(r, res)
  }

  lemma FinishedExactly(rs: seq<Record>, res: Resolution)
    requires ValidRegistry(rs)
    ensures Finished(rs, res).Already? <==> Present(rs, res)
    ensures !Finished(rs, res).Already? ==> Finished(rs, res) == Refuse(NotFound)
  {
    if r :| r in rs && r.name == Some(TargetName(res)) {
      NamedOnce(rs, r, TargetName(res));
      assert forall x | x in rs && Bears(x, res) :: x in NamedRecords(rs, TargetName(res)) by {
        forall x | x in rs && Bears(x, res) ensures x in NamedRecords(rs, TargetName(res)) {
          NamedOnce(rs, x, TargetName(res));
        }
      }
    } else if rs != [] {
      NamedOnce(rs, rs[0].(name := Some(TargetName(res))), TargetName(res));
    }
  }

  /** With the new ledger on disk, restarts remove the intent if and only if some record bears the
      resolution's name and thread; they change nothing else. */
  lemma RestartOverNewLedger(d: Disk, sources: seq<Source>, res: Resolution, e: Disk, rs: seq<Record>, b: nat)
    requires Starts(d, sources, res) && ValidDisk(e) && e.ledger == Some(Decide(d, sources, res).ledger)
    requires e.intent.None? || e.intent == Some(res)
    requires ValidRegistry(rs)
    ensures var f := e.(registry := rs);
            ValidDisk(f) && Recover(f, sources, b) == if b > 0 && Present(rs, res) then f.(intent := None) else f
  {
    FinishedDecision(d, sources, res, e.(registry := rs));
    FinishedExactly(rs, res);
  }

  lemma FinishedDecision(d: Disk, sources: seq<Source>, res: Resolution, f: Disk)
    requires Starts(d, sources, res) && ValidDisk(f) && f.ledger == Some(Decide(d, sources, res).ledger)
    requires f.intent.None? || f.intent == Some(res)
    ensures Decide(f, sources, res) == Finished(f.registry, res)
  {
    var s, original, k := ProceedParts(d, sources, res);
    assert res in Decide(d, sources, res).ledger.resolutions;
  }

  lemma {:induction false} RestartsOverNewLedger(d: Disk, sources: seq<Source>, res: Resolution, e: Disk, rs: seq<Record>,
                                                 bs: seq<nat>, end: Disk)
    requires Starts(d, sources, res) && ValidDisk(e) && e.ledger == Some(Decide(d, sources, res).ledger)
    requires e.intent.None? || e.intent == Some(res)
    requires ValidRegistry(rs) && RestartsLead(e.(registry := rs), sources, bs, end)
    ensures end == e.(registry := rs) || (Present(rs, res) && end == e.(registry := rs, intent := None))
    decreases |bs|
  {
    if bs != [] {
      RestartOverNewLedger(d, sources, res, e, rs, bs[0]);
      var intent := if bs[0] > 0 && Present(rs, res) then None else e.intent;
      RestartsOverNewLedger(d, sources, res, e.(intent := intent), rs, bs[1..], end);
    }
  }

  /** Some accepted creation bears the resolution's name and thread. */
  ghost predicate Created(rs: seq<Record>, ops: seq<SessionRegistries.Op>, res: Resolution)
    decreases |ops|
  {
    ops != [] &&
    ((ops[0].CreateOp? && !SessionRegistries.Taken(rs, ops[0].record) && Bears(ops[0].record, res))
     || Created(SessionRegistries.After(rs, ops[0]), ops[1..], res))
  }

  lemma StepPresent(rs: seq<Record>, op: SessionRegistries.Op, res: Resolution)
    requires ValidRegistry(rs)
    ensures ValidRegistry(SessionRegistries.After(rs, op))
    ensures Present(SessionRegistries.After(rs, op), res) <==>
              Present(rs, res) || (op.CreateOp? && !SessionRegistries.Taken(rs, op.record) && Bears(op.record, res))
  {
    match op {
      case CreateOp(r) => SessionRegistries.CreateKeepsValid(rs, r);
      case AnnotateOp(session, model, effort, now) =>
        SessionRegistries.AnnotateKeepsValid(rs, session, model, effort, now);
        SessionRegistries.AnnotateKeepsIdentities(rs, session, model, effort, now);
        var out := SessionRegistries.AnnotateIn(rs, session, model, effort, now);
        assert forall i | 0 <= i < |rs| :: Bears(out[i], res) <==> Bears(rs[i], res);
    }
  }

  lemma {:induction false} PresentAfter(rs: seq<Record>, ops: seq<SessionRegistries.Op>, res: Resolution)
    requires ValidRegistry(rs)
    ensures ValidRegistry(SessionRegistries.AfterAll(rs, ops))
    ensures Present(SessionRegistries.AfterAll(rs, ops), res) <==> Present(rs, res) || Created(rs, ops, res)
    decreases |ops|
  {
    if ops != [] {
      StepPresent(rs, ops[0], res);
      PresentAfter(SessionRegistries.After(rs, ops[0]), ops[1..], res);
    }
  }

  lemma PresentBefore(d: Disk, sources: seq<Source>, res: Resolution)
    requires Starts(d, sources, res)
    ensures Present(d.registry, res) <==> Decide(d, sources, res).selected in d.registry
  {
    var s, original, k := ProceedParts(d, sources, res);
    var selected := Decide(d, sources, res).selected;
    assert Bears(selected, res);
    forall r | r in d.registry && Bears(r, res) ensures r == selected {
      assert !Clash(r, selected);
    }
  }

  /** A live resolution raised after it wrote its ledger, so the process kept the registry it had
      before in memory, and creations and annotations of live sessions rewrote the file from it.
      Restarts take the resolution for finished if and only if the chosen record was in the
      registry before or a session was created under its name and thread; otherwise the record is
      gone and the intent stays for good. */
  lemma StaleRegistryExact(d: Disk, sources: seq<Source>, res: Resolution, e: Disk, ops: seq<SessionRegistries.Op>,
                           bs: seq<nat>, end: Disk)
    requires Starts(d, sources, res) && ValidDisk(e)
    requires e.ledger == Some(Decide(d, sources, res).ledger) && e.intent == Some(res)
    requires RestartsLead(e.(registry := SessionRegistries.AfterAll(d.registry, ops)), sources, bs, end)
    ensures var p := Decide(d, sources, res);
            var rs := SessionRegistries.AfterAll(d.registry, ops);
            && end.registry == rs && end.callbacks == e.callbacks && end.ledger == e.ledger
            && ValidDisk(end)
            && (Recover(end, sources, 1).intent.None? <==> p.selected in d.registry || Created(d.registry, ops, res))
            && (!(p.selected in d.registry || Created(d.registry, ops, res)) ==> p.selected !in rs && end.intent == Some(res))
  {
    var rs := SessionRegistries.AfterAll(d.registry, ops);
    PresentAfter(d.registry, ops, res);
    PresentBefore(d, sources, res);
    RestartsOverNewLedger(d, sources, res, e, rs, bs, end);
    RestartOverNewLedger(d, sources, res, e.(intent := end.intent), rs, 1);
    SelectedBears(d, sources, res);
  }

  lemma SelectedBears(d: Disk, sources: seq<Source>, res: Resolution)
    requires Starts(d, sources, res)
    ensures Bears(Decide(d, sources, res).selected, res)
  {
    var s, original, k := ProceedParts(d, sources, res);
  }
}
