// Legacy callback entries are re-projected under the worker identity they will have in
// the global registry before they are imported.

module CallbackProjection {
  import opened Prelude
  import opened LegacyStores

  datatype Fault =
    | BindingWithoutRecord
    | EventWithoutRecord
    | WorkerMismatch
    | PolicyIncomplete
    | InvalidTerminalPayload
    | ArtifactUnreadable
    | ArtifactDigestMismatch
    | UnsafeArtifactId
    | UnnamedRegistryConflict
    | UnnamedCallbackConflict
    | ArtifactCollision
    | BindingCollision
    | EventCollision

  datatype Projected = Projected(entry: Entry, artifact: Option<Artifact>)

  predicate WorkerMatches(w: Worker, r: Record) {
    && Some(w.name) == r.name
    && w.sessionId == r.sessionId
    && w.threadId == r.threadId
    && w.cwd == r.profile.cwd
    && Some(w.model) == r.profile.model
    && Some(w.effort) == r.profile.effort
    && w.tier == r.profile.tier
    && Some(w.access) == r.profile.access
  }

  function WorkerOf(r: Record): Result<Worker, Fault> {
    if r.name.None? || r.profile.model.None? || r.profile.effort.None? || r.profile.access.None? then
      Err(PolicyIncomplete)
    else
      Ok(Worker(r.name.value, r.sessionId, r.threadId, r.profile.cwd, r.profile.tier,
                r.profile.model.value, r.profile.effort.value, r.profile.access.value))
  }

  predicate SafeId(id: string) {
    id != "" && forall c | c in id ::
      'a' <= c <= 'z' || 'A' <= c <= 'Z' || '0' <= c <= '9' || c == '.' || c == '_' || c == '-'
  }

  function GlobalArtifactPath(eventId: string): string {
    "callback-artifacts/" + eventId + ".json"
  }

  function ProjectCompletion(c: Completion, record: Record, projection: Record): Result<Completion, Fault> {
    if !WorkerMatches(c.worker, record) then Err(WorkerMismatch)
    else
      match WorkerOf(projection)
      case Err(f) => Err(f)
      case Ok(w) => Ok(c.(worker := w))
  }

  function ReadArtifact(artifact: ArtifactRef, files: map<string, Completion>,
                        record: Record, projection: Record): Result<Completion, Fault> {
    if artifact.path !in files then Err(ArtifactUnreadable)
    else if Sha256(files[artifact.path]) != artifact.digest then Err(ArtifactDigestMismatch)
    else ProjectCompletion(files[artifact.path], record, projection)
  }

  function ProjectPayload(e: Event, record: Record, files: map<string, Completion>,
                          projection: Record): Result<(Payload, Option<Artifact>), Fault> {
    match e.payload
    case Message(_) => Ok((e.payload, None))
    case Malformed => Err(InvalidTerminalPayload)
    case Inline(c) =>
      (match ProjectCompletion(c, record, projection)
       case Err(f) => Err(f)
       case Ok(c') => Ok((Inline(c'), None)))
    case Reference(turnId, artifact) =>
      match ReadArtifact(artifact, files, record, projection)
      case Err(f) => Err(f)
      case Ok(c) =>
        if !SafeId(e.eventId) then Err(UnsafeArtifactId)
        else Ok((Reference(turnId, ArtifactRef(GlobalArtifactPath(e.eventId), Sha256(c))),
                 Some(Artifact(e.eventId, c))))
  }

  function ProjectEntry(entry: Entry, record: Record, files: map<string, Completion>,
                        projection: Record): Result<Projected, Fault> {
    if entry.event.None? then Ok(Projected(entry, None))
    else
      var event := entry.event.value;
      if !WorkerMatches(event.worker, record) then Err(WorkerMismatch)
      else
        match WorkerOf(projection)
        case Err(f) => Err(f)
        case Ok(worker) =>
          match ProjectPayload(event, record, files, projection)
          case Err(f) => Err(f)
          case Ok(p) =>
            Ok(Projected(entry.(event := Some(event.(worker := worker, payload := p.0))), p.1))
  }

  /** The artifact an entry refers to, read off the entry alone. */
  function ArtifactOf(entry: Entry): Option<Artifact> {
    if entry.event.Some? && entry.event.value.payload.Reference? then
      Some(Artifact(entry.event.value.eventId, entry.event.value.payload.artifact.digest.content))
    else None
  }

  /** Every worker identity an entry carries. */
  function Identities(entry: Entry): set<Worker> {
    if entry.event.None? then {}
    else
      {entry.event.value.worker} +
      match entry.event.value.payload
      case Inline(c) => {c.worker}
      case Reference(_, artifact) => {artifact.digest.content.worker}
      case _ => {}
  }

  /** Projection rewrites identities and nothing else: delivery state, ids and bodies stay,
      every embedded worker becomes the projected record, and the artifact that has to be
      published is the one the projected entry refers to. */
  lemma ProjectionRewritesIdentity(entry: Entry, record: Record, files: map<string, Completion>,
                                   projection: Record, p: Projected)
    requires ProjectEntry(entry, record, files, projection) == Ok(p)
    requires entry.event.Some? ==> projection.sessionId == record.sessionId
    requires ValidEntry(entry)
    ensures ValidEntry(p.entry)
    ensures p.entry.eventId == entry.eventId && p.entry.sessionId == entry.sessionId
    ensures p.entry.state == entry.state && p.entry.attempts == entry.attempts
    ensures p.entry.lastError == entry.lastError
    ensures forall w | w in Identities(p.entry) :: WorkerMatches(w, projection)
    ensures entry.event.None? ==> p.artifact.None?
    ensures entry.event.Some? ==> p.artifact == ArtifactOf(p.entry)
  {}

  /** The worker is that record's, whole: its name, ids, directory and policy. */
  predicate Portrays(w: Worker, r: Record) {
    && r.name == Some(w.name) && (r.sessionId, r.threadId, r.profile.cwd, r.profile.tier) == (w.sessionId, w.threadId, w.cwd, w.tier)
    && (r.profile.model, r.profile.effort, r.profile.access) == (Some(w.model), Some(w.effort), Some(w.access))
  }

  /** A file of the store that is what the reference says it is. */
  predicate Intact(artifact: ArtifactRef, files: map<string, Completion>) {
    artifact.path in files && files[artifact.path] == artifact.digest.content
  }

  /** When an event can be projected: the record it goes to is complete, every worker in it is the
      record it comes from, its payload has a known shape, and a file it refers to is intact and
      can be published under its id. */
  predicate Projects(e: Event, record: Record, files: map<string, Completion>, projection: Record) {
    && projection.name.Some? && projection.profile.model.Some?
    && projection.profile.effort.Some? && projection.profile.access.Some?
    && Portrays(e.worker, record)
    && match e.payload
       case Message(_) => true
       case Malformed => false
       case Inline(c) => Portrays(c.worker, record)
       case Reference(_, artifact) =>
         Intact(artifact, files) && Portrays(artifact.digest.content.worker, record) && SafeId(e.eventId)
  }

  lemma ProjectedWorker(r: Record)
    ensures WorkerOf(r).Ok? <==>
              r.name.Some? && r.profile.model.Some? && r.profile.effort.Some? && r.profile.access.Some?
    ensures WorkerOf(r).Ok? ==> Portrays(WorkerOf(r).value, r)
  {}

  /** Projection succeeds exactly then; an entry without an event needs no projecting. */
  lemma ProjectionSucceedsExactly(entry: Entry, record: Record, files: map<string, Completion>, projection: Record)
    ensures ProjectEntry(entry, record, files, projection).Ok? <==>
              entry.event.None? || Projects(entry.event.value, record, files, projection)
  {
    ProjectedWorker(projection);
  }

  /** Apart from the workers nothing of an event changes: its time and priority, its message, the
      turn and body of its result; a result in a file stays one, now the global file of that id. */
  predicate SameContent(a: Event, b: Event) {
    && a.eventId == b.eventId && a.emittedAt == b.emittedAt && a.priority == b.priority
    && match a.payload
       case Message(_) => b.payload == a.payload
       case Malformed => false
       case Inline(c) =>
         b.payload.Inline? && b.payload.completion.turnId == c.turnId && b.payload.completion.body == c.body
       case Reference(turn, artifact) =>
         && b.payload.Reference? && b.payload.turnId == turn
         && b.payload.artifact.path == "callback-artifacts/" + a.eventId + ".json"
         && b.payload.artifact.digest.content.turnId == artifact.digest.content.turnId
         && b.payload.artifact.digest.content.body == artifact.digest.content.body
  }

  lemma ProjectionKeepsContent(entry: Entry, record: Record, files: map<string, Completion>, projection: Record, p: Projected)
    requires ProjectEntry(entry, record, files, projection) == Ok(p)
    ensures entry.event.None? ==> p.entry == entry
    ensures entry.event.Some? ==> p.entry.event.Some? && SameContent(entry.event.value, p.entry.event.value)
    ensures entry.event.Some? ==> Portrays(p.entry.event.value.worker, projection)
  {
    ProjectedWorker(projection);
  }

  /** Under the unchanged record an inline entry is left exactly as it was. */
  lemma ProjectionOntoItself(entry: Entry, record: Record, files: map<string, Completion>, p: Projected)
    requires ProjectEntry(entry, record, files, record) == Ok(p)
    ensures p.artifact.None? ==> p.entry == entry
    ensures p.artifact.Some? ==>
              p.artifact.value.completion == entry.event.value.payload.artifact.digest.content
  {}
}
