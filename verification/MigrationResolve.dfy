// Live conflict resolution: a write-ahead intent, the four commit stages, and either the
// removal of the intent or a rollback.

module MigrationResolve {
  import opened Prelude
  import opened Ordering
  import opened LegacyStores
  import opened CallbackProjection
  import opened MigrationPlan
  import opened MigrationLedger
  import opened MigrationCommit

  datatype Refusal =
    | RecoveryRequired
    | LedgerMissing
    | NotFound
    | NameConflicted
    | AmbiguousThread
    | SourceChanged
    | CandidateMissing
    | RegistryConflict
    | ProjectionFailed
    | CallbackCollision
    | ArtifactMismatch
    | LedgerMismatch

  datatype Decision =
    | Refuse(reason: Refusal)
    | Already(record: Record)
    | Proceed(plan: Plan, ledger: Ledger, rollback: Plan, selected: Record)

  function TargetName(res: Resolution): string {
    if res.asName.Some? then res.asName.value else res.name
  }

  function FindConflict(cs: seq<Conflict>, name: string): Option<Conflict> {
    if cs == [] then None
    else if cs[0].name == name then Some(cs[0])
    else FindConflict(cs[1..], name)
  }

  function FindSource(ss: seq<Source>, path: string, digest: string): Option<Source> {
    if ss == [] then None
    else if ss[0].path == path && ss[0].digest == digest then Some(ss[0])
    else FindSource(ss[1..], path, digest)
  }

  function FindOriginal(rs: seq<Record>, sid: string, tid: string): Option<Record> {
    if rs == [] then None
    else if rs[0].sessionId == sid && rs[0].threadId == tid then Some(rs[0])
    else FindOriginal(rs[1..], sid, tid)
  }

  function NamedRecords(rs: seq<Record>, name: string): seq<Record> {
    if rs == [] then []
    else (if rs[0].name == Some(name) then [rs[0]] else []) + NamedRecords(rs[1..], name)
  }

  function OnThread(ks: seq<Candidate>, tid: string): seq<Candidate> {
    if ks == [] then []
    else (if ks[0].threadId == tid then [ks[0]] else []) + OnThread(ks[1..], tid)
  }

  // ---- the callbacks of the chosen record ----

  function OwnBindings(s: Source, original: Record): set<Binding> {
    set b | b in s.bindings && b.sessionId == original.sessionId
  }

  predicate OwnEventsProject(s: Source, original: Record, selected: Record) {
    forall e | e in s.outbox && e.sessionId == original.sessionId ::
      ProjectEntry(e, original, s.files, selected).Ok?
  }

  function OwnProjected(s: Source, original: Record, selected: Record): set<Projected> {
    set e | e in s.outbox && e.sessionId == original.sessionId && ProjectEntry(e, original, s.files, selected).Ok? ::
      ProjectEntry(e, original, s.files, selected).value
  }

  function OwnEntries(s: Source, original: Record, selected: Record): set<Entry> {
    set p | p in OwnProjected(s, original, selected) :: p.entry
  }

  function OwnArtifacts(s: Source, original: Record, selected: Record): set<Artifact> {
    set p | p in OwnProjected(s, original, selected) && p.artifact.Some? :: p.artifact.value
  }

  function CallbacksWith(c: Callbacks, s: Source, original: Record, selected: Record): Callbacks {
    Callbacks(c.bindings + OwnBindings(s, original), c.outbox + OwnEntries(s, original, selected))
  }

  lemma OwnEntryOrigin(s: Source, original: Record, selected: Record, p: Projected)
    requires ValidSource(s) && p in OwnProjected(s, original, selected) && selected.sessionId == original.sessionId
    ensures ValidEntry(p.entry)
    ensures p.artifact.Some? ==> p.artifact == ArtifactOf(p.entry) && p.artifact.value.eventId == p.entry.eventId
    ensures exists e :: e in s.outbox && e.eventId == p.entry.eventId
                        && ProjectEntry(e, original, s.files, selected) == Ok(p)
  {}

  lemma OwnArtifactKeysInjective(s: Source, original: Record, selected: Record)
    requires ValidSource(s) && selected.sessionId == original.sessionId
    ensures Injective(OwnArtifacts(s, original, selected), ArtifactKey)
  {}

  // ---- the decision ----

  predicate Agrees(rs: seq<Record>, selected: Record) {
    forall m | m in rs :: !Clash(m, selected)
  }

  lemma ChosenRecordsUnique(rs: seq<Record>, selected: Record)
    requires ValidRegistry(rs) && Agrees(rs, selected)
    ensures UniqueRecords(Elems(rs) + {selected}) && UniqueRecords(Elems(rs))
    ensures Injective(Elems(rs) + {selected}, RecordKey) && Injective(Elems(rs), RecordKey)
  {}

  ghost function RollbackPlan(d: Disk): Plan
    requires ValidDisk(d) && d.ledger.Some?
  {
    ValidRegistryElems(d.registry);
    RecordKeysInjective(Elems(d.registry));
    Plan(d.ledger.value.status, Ordered(Elems(d.registry), RecordKey), d.callbacks, [])
  }

  /** Once candidate, source and original record are known. */
  ghost function DecideChosen(d: Disk, s: Source, original: Record, k: Candidate, res: Resolution): Decision
    requires ValidDisk(d) && d.ledger.Some? && ValidSource(s)
  {
    var selected := original.(name := Some(TargetName(res)));
    if !Agrees(d.registry, selected) then Refuse(RegistryConflict)
    else if !OwnEventsProject(s, original, selected) then Refuse(ProjectionFailed)
    else
      var callbacks := CallbacksWith(d.callbacks, s, original, selected);
      if !UniqueBindings(callbacks.bindings) || !UniqueEntries(callbacks.outbox) then Refuse(CallbackCollision)
      else if exists a :: a in OwnArtifacts(s, original, selected) && a.eventId in d.artifacts && d.artifacts[a.eventId] != a.completion then
        Refuse(ArtifactMismatch)
      else if !Resolvable(d.ledger.value.status.sources, k) then Refuse(LedgerMismatch)
      else
        ChosenRecordsUnique(d.registry, selected);
        OwnArtifactKeysInjective(s, original, selected);
        var status := StatusAfter(d.ledger.value.status, k, res.asName.Some?);
        Proceed(Plan(status, Ordered(Elems(d.registry) + {selected}, RecordKey), callbacks,
                     Ordered(OwnArtifacts(s, original, selected), ArtifactKey)),
                Ledger(status, d.ledger.value.resolutions + [res]), RollbackPlan(d), selected)
  }

  ghost function DecideOpen(d: Disk, sources: seq<Source>, c: Conflict, res: Resolution): Decision
    requires ValidDisk(d) && d.ledger.Some? && forall s | s in sources :: ValidSource(s)
  {
    var ks := OnThread(c.candidates, res.threadId);
    if |ks| != 1 then Refuse(AmbiguousThread)
    else
      match FindSource(sources, ks[0].path, ks[0].digest)
      case None => Refuse(SourceChanged)
      case Some(s) =>
        FindSourceSound(sources, ks[0].path, ks[0].digest);
        match FindOriginal(s.records, ks[0].sessionId, ks[0].threadId)
        case None => Refuse(CandidateMissing)
        case Some(original) => DecideChosen(d, s, original, ks[0], res)
  }

  lemma {:induction false} FindSourceSound(ss: seq<Source>, path: string, digest: string)
    ensures FindSource(ss, path, digest).Some? ==> FindSource(ss, path, digest).value in ss
  {
    if ss != [] {
      FindSourceSound(ss[1..], path, digest);
    }
  }

  /** A finished resolution is recognised by the record that carries its name and thread. */
  function Finished(rs: seq<Record>, res: Resolution): Decision {
    var ms := NamedRecords(rs, TargetName(res));
    if |ms| == 1 && ms[0].threadId == res.threadId then Already(ms[0]) else Refuse(NotFound)
  }

  ghost function Decide(d: Disk, sources: seq<Source>, res: Resolution): Decision
    requires ValidDisk(d) && forall s | s in sources :: ValidSource(s)
  {
    if d.intent.Some? && d.intent.value != res then Refuse(RecoveryRequired)
    else if d.ledger.None? then Refuse(LedgerMissing)
    else if res in d.ledger.value.resolutions then Finished(d.registry, res)
    else
      var cs := d.ledger.value.status.conflicts;
      match FindConflict(cs, res.name)
      case Some(c) => DecideOpen(d, sources, c, res)
      case None =>
        if FindConflict(cs, TargetName(res)).Some? then Refuse(NameConflicted)
        else Finished(d.registry, res)
  }

  // ---- the run ----

  datatype ResolveOutcome = Refused | Resolved(record: Record) | RolledBack | Interrupted | Raised

  datatype ResolveRun = ResolveRun(disk: Disk, outcome: ResolveOutcome)

  /** How a run is disturbed: after `after` publishes it stops, by a crash or by an
      exception; a rollback is itself cut short after `rollback` publishes. */
  datatype Stop = Stop(after: nat, raises: bool, rollback: nat)

  /** The handler of an exception raised inside `_commit`. */
  ghost function RollBack(d: Disk, e: Disk, stop: Stop): ResolveRun
    requires ValidDisk(d) && d.ledger.Some?
  {
    if d.intent.Some? then ResolveRun(e, Raised)
    else
      var r := CommitFrom(e, RollbackPlan(d), d.ledger.value, 0, stop.rollback);
      if r.outcome == Done && stop.rollback > 3 then ResolveRun(r.disk.(intent := None), RolledBack)
      else if r.outcome == Failed then ResolveRun(r.disk, Raised)
      else ResolveRun(r.disk, Interrupted)
  }

  /** The transaction once the plan is known: intent, commit, removal of the intent. */
  ghost function Execute(d: Disk, res: Resolution, plan: Plan, ledger: Ledger, selected: Record, stop: Stop): ResolveRun
    requires ValidDisk(d) && d.ledger.Some?
  {
    if stop.after == 0 then ResolveRun(d, Interrupted)
    else
      var c := CommitFrom(d.(intent := Some(res)), plan, ledger, 0, stop.after - 1);
      if c.outcome == Done && stop.after > |plan.artifacts| + 4 then
        ResolveRun(c.disk.(intent := None), Resolved(selected))
      else if c.outcome == Failed || stop.raises then RollBack(d, c.disk, stop)
      else ResolveRun(c.disk, Interrupted)
  }

  ghost function Resolve(d: Disk, sources: seq<Source>, res: Resolution, stop: Stop): ResolveRun
    requires ValidDisk(d) && forall s | s in sources :: ValidSource(s)
  {
    match Decide(d, sources, res)
    case Refuse(_) => ResolveRun(d, Refused)
    case Already(record) =>
      if d.intent.None? then ResolveRun(d, Resolved(record))
      else if stop.after == 0 then ResolveRun(d, Interrupted)
      else ResolveRun(d.(intent := None), Resolved(record))
    case Proceed(plan, ledger, _, selected) => Execute(d, res, plan, ledger, selected, stop)
  }
}
