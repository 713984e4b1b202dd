// The values a migration reads and publishes: registry records, callback bindings and
// outbox entries, result artifacts, and the stores that hold them.
// Canonical JSON is injective, so "equal canonical bytes" is equality of these values.

module LegacyStores {
  import opened Prelude
  import opened Ordering

  datatype Profile = Profile(cwd: string, createdAt: string, updatedAt: string,
                             model: Option<string>, effort: Option<string>,
                             tier: Option<string>, access: Option<string>)

  datatype Record = Record(sessionId: string, threadId: string, name: Option<string>,
                           profile: Profile, config: Option<string>)

  datatype Worker = Worker(name: string, sessionId: string, threadId: string, cwd: string,
                           tier: Option<string>, model: string, effort: string, access: string)

  datatype Completion = Completion(worker: Worker, turnId: string, body: string)

  /** SHA-256 taken as injective: a digest is as good as the content it was taken of. */
  datatype Digest = Sha256(content: Completion)

  datatype ArtifactRef = ArtifactRef(path: string, digest: Digest)

  /** The payload also fixes the event kind: turn_terminal, turn_terminal_reference or
      worker_message; `Malformed` is a terminal event whose payload has the wrong shape. */
  datatype Payload =
    | Inline(completion: Completion)
    | Reference(turnId: string, artifact: ArtifactRef)
    | Message(text: string)
    | Malformed

  datatype Event = Event(eventId: string, emittedAt: string, priority: string,
                         worker: Worker, payload: Payload)

  datatype EntryState = Pending | Written

  datatype Entry = Entry(eventId: string, sessionId: string, event: Option<Event>,
                         state: EntryState, attempts: nat, lastError: Option<string>)

  datatype BindingState = Enabled | Disabled | Unavailable

  datatype AttemptState = AttemptFailed | AttemptWritten

  datatype Attempt = Attempt(eventId: string, state: AttemptState, reason: Option<string>,
                             at: string, count: nat, turnId: Option<string>)

  datatype Binding = Binding(sessionId: string, state: BindingState, route: Option<string>,
                             capturedAt: string, lastAttempt: Option<Attempt>)

  /** One published result file; its path and digest follow from the two fields. */
  datatype Artifact = Artifact(eventId: string, completion: Completion)

  /** A callback snapshot: its lists are sorted by key, so they are sets with unique keys. */
  datatype Callbacks = Callbacks(bindings: set<Binding>, outbox: set<Entry>)

  datatype Source = Source(path: string, digest: string, records: seq<Record>,
                           bindings: set<Binding>, outbox: set<Entry>,
                           files: map<string, Completion>)

  /** What the global service already holds when a migration runs. */
  datatype Target = Target(records: seq<Record>, callbacks: Callbacks,
                           artifacts: map<string, Completion>)

  // ---- contracts the loaders and constructors enforce ----

  predicate Share(a: Record, b: Record) {
    a.sessionId == b.sessionId || a.threadId == b.threadId || (a.name.Some? && a.name == b.name)
  }

  predicate Clash(a: Record, b: Record) {
    a != b && Share(a, b)
  }

  ghost predicate UniqueRecords(rs: set<Record>) {
    forall a, b | a in rs && b in rs :: !Clash(a, b)
  }

  predicate UniqueBindings(bs: set<Binding>) {
    forall a, b | a in bs && b in bs && a.sessionId == b.sessionId :: a == b
  }

  predicate UniqueEntries(es: set<Entry>) {
    forall a, b | a in es && b in es && a.eventId == b.eventId :: a == b
  }

  ghost predicate NoRepeats<T(!new)>(xs: seq<T>) {
    forall i, j | 0 <= i < j < |xs| :: xs[i] != xs[j]
  }

  /** The registry check of `_decode` and `replace_all`: no identifier appears twice. */
  predicate ValidRegistry(rs: seq<Record>) {
    forall i, j | 0 <= i < j < |rs| :: !Share(rs[i], rs[j])
  }

  predicate ValidEntry(e: Entry) {
    && (e.state.Pending? ==> e.event.Some?)
    && (e.event.Some? ==> e.event.value.eventId == e.eventId
                          && e.event.value.worker.sessionId == e.sessionId)
  }

  ghost predicate ValidCallbacks(c: Callbacks) {
    && UniqueBindings(c.bindings)
    && UniqueEntries(c.outbox)
    && forall e | e in c.outbox :: ValidEntry(e)
  }

  /** `replace_snapshot` publishes only snapshots whose every outbox session is bound. */
  predicate Bound(c: Callbacks) {
    forall e | e in c.outbox :: exists b :: b in c.bindings && b.sessionId == e.sessionId
  }

  ghost predicate ValidSource(s: Source) {
    && ValidRegistry(s.records)
    && ValidCallbacks(Callbacks(s.bindings, s.outbox))
  }

  ghost predicate ValidTarget(t: Target) {
    && ValidRegistry(t.records)
    && ValidCallbacks(t.callbacks)
  }

  function Elems<T(==,!new)>(xs: seq<T>): (s: set<T>)
    ensures forall x :: x in s <==> x in xs
  {
    set x | x in xs
  }

  lemma ValidRegistryElems(rs: seq<Record>)
    requires ValidRegistry(rs)
    ensures UniqueRecords(Elems(rs)) && NoRepeats(rs)
  {}

  // ---- sort keys ----

  function NameOrEmpty(n: Option<string>): string {
    if n.Some? then n.value else ""
  }

  function RecordKey(r: Record): Key {
    Key(NameOrEmpty(r.name), r.sessionId, r.threadId, "")
  }

  function ArtifactKey(a: Artifact): Key {
    Key(a.eventId, "", "", "")
  }
}
