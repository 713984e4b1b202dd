// What a complete merge is, said without loops: which legacy records are quarantined,
// and the registry, callbacks, artifacts and ledger status that follow.

module MigrationPlan {
  import opened Prelude
  import opened Ordering
  import opened LegacyStores
  import opened CallbackProjection

  datatype Outcome = Imported | Deduplicated | Conflicted

  datatype SourceView = SourceView(path: string, digest: string, name: Option<string>,
                                   sessionId: string, threadId: string, outcome: Outcome)

  datatype Candidate = Candidate(path: string, digest: string, name: Option<string>,
                                 sessionId: string, threadId: string, profile: Profile)

  datatype Conflict = Conflict(name: string, candidates: seq<Candidate>, digests: seq<string>)

  datatype Status = Status(complete: bool, ready: bool, imported: nat, deduplicated: nat,
                           conflictCount: nat, sources: seq<SourceView>, conflicts: seq<Conflict>)

  datatype Plan = Plan(status: Status, records: seq<Record>, callbacks: Callbacks,
                       artifacts: seq<Artifact>)

  /** One legacy record together with the store it was found in. */
  datatype Item = Item(path: string, digest: string, record: Record)

  function ItemKey(i: Item): Key {
    Key(i.path, NameOrEmpty(i.record.name), i.record.sessionId, i.record.threadId)
  }

  function CandidateKey(c: Candidate): Key {
    Key(c.path, c.sessionId, c.threadId, "")
  }

  function CandidateOf(i: Item): Candidate {
    Candidate(i.path, i.digest, i.record.name, i.record.sessionId, i.record.threadId, i.record.profile)
  }

  // ---- reading the sources ----

  function FindRecord(rs: seq<Record>, sid: string): Option<Record> {
    if rs == [] then None
    else if rs[|rs| - 1].sessionId == sid then Some(rs[|rs| - 1])
    else FindRecord(rs[..|rs| - 1], sid)
  }

  function ProjectIn(s: Source, e: Entry): Result<Projected, Fault> {
    match FindRecord(s.records, e.sessionId)
    case None => Err(EventWithoutRecord)
    case Some(r) => ProjectEntry(e, r, s.files, r)
  }

  lemma ProjectInKeepsIds(s: Source, e: Entry)
    requires ValidEntry(e) && ProjectIn(s, e).Ok?
    ensures var p := ProjectIn(s, e).value;
            && p.entry.eventId == e.eventId && p.entry.sessionId == e.sessionId
            && ValidEntry(p.entry)
            && (p.artifact.Some? ==> p.artifact == ArtifactOf(p.entry) && p.artifact.value.eventId == e.eventId)
  {}

  ghost predicate WellFormed(S: set<Source>) {
    && (forall a, b | a in S && b in S && a.path == b.path :: a == b)
    && (forall s | s in S :: ValidSource(s))
  }

  ghost function AllItems(S: set<Source>): set<Item> {
    set s, r | s in S && r in s.records :: Item(s.path, s.digest, r)
  }

  ghost function AllRecords(S: set<Source>): set<Record> {
    set s, r | s in S && r in s.records :: r
  }

  ghost function AllBindings(S: set<Source>): set<Binding> {
    set s, b | s in S && b in s.bindings :: b
  }

  ghost function AllProjected(S: set<Source>): set<Projected> {
    set s, e | s in S && e in s.outbox && ProjectIn(s, e).Ok? :: ProjectIn(s, e).value
  }

  ghost function AllEntries(S: set<Source>): set<Entry> {
    set p | p in AllProjected(S) :: p.entry
  }

  /** Every binding and event belongs to a record of its own store, and every event projects. */
  ghost predicate Projectable(S: set<Source>) {
    forall s | s in S ::
      && (forall b | b in s.bindings :: FindRecord(s.records, b.sessionId).Some?)
      && (forall e | e in s.outbox :: ProjectIn(s, e).Ok?)
  }

  // ---- quarantine ----

  ghost predicate RecordDisputed(S: set<Source>, t: Target, sid: string) {
    exists r, o | r in AllRecords(S) && o in AllRecords(S) + Elems(t.records) ::
      Clash(r, o) && r.sessionId == sid
  }

  ghost predicate BindingDisputed(S: set<Source>, t: Target, sid: string) {
    exists b, o | b in AllBindings(S) && o in AllBindings(S) + t.callbacks.bindings ::
      b != o && b.sessionId == o.sessionId == sid
  }

  ghost predicate EventDisputed(S: set<Source>, t: Target, sid: string) {
    exists e, o | e in AllEntries(S) && o in AllEntries(S) + t.callbacks.outbox ::
      e != o && e.eventId == o.eventId && e.sessionId == sid
  }

  /** A session is quarantined when anything said about it is contradicted anywhere. */
  ghost predicate Quarantined(S: set<Source>, t: Target, sid: string) {
    RecordDisputed(S, t, sid) || BindingDisputed(S, t, sid) || EventDisputed(S, t, sid)
  }

  ghost predicate Selected(S: set<Source>, t: Target, sid: string) {
    && !Quarantined(S, t, sid)
    && exists r :: r in AllRecords(S) && r.sessionId == sid
  }

  ghost function SelectedRecords(S: set<Source>, t: Target): set<Record> {
    set r | r in AllRecords(S) && !Quarantined(S, t, r.sessionId)
  }

  ghost function SelectedBindings(S: set<Source>, t: Target): set<Binding> {
    set b | b in AllBindings(S) && Selected(S, t, b.sessionId)
  }

  ghost function SelectedEntries(S: set<Source>, t: Target): set<Entry> {
    set e | e in AllEntries(S) && Selected(S, t, e.sessionId)
  }

  ghost function SelectedArtifacts(S: set<Source>, t: Target): set<Artifact> {
    set p | p in AllProjected(S) && Selected(S, t, p.entry.sessionId) && p.artifact.Some? :: p.artifact.value
  }

  ghost function MergedRecords(S: set<Source>, t: Target): set<Record> {
    Elems(t.records) + SelectedRecords(S, t)
  }

  ghost function MergedCallbacks(S: set<Source>, t: Target): Callbacks {
    Callbacks(t.callbacks.bindings + SelectedBindings(S, t), t.callbacks.outbox + SelectedEntries(S, t))
  }

  ghost function ConflictNames(S: set<Source>, t: Target): set<string> {
    set r | r in AllRecords(S) && r.name.Some? && Quarantined(S, t, r.sessionId) :: r.name.value
  }

  ghost function CandidatesFor(S: set<Source>, name: string): set<Candidate> {
    set i | i in AllItems(S) && i.record.name == Some(name) :: CandidateOf(i)
  }

  ghost function DigestsOf(cs: set<Candidate>): set<string> {
    set c | c in cs :: c.digest
  }

  // ---- when planning succeeds ----

  ghost predicate NoUnnamedConflict(S: set<Source>, t: Target) {
    forall r | r in AllRecords(S) && r.name.None? :: !Quarantined(S, t, r.sessionId)
  }

  ghost predicate ArtifactsFit(S: set<Source>, t: Target) {
    forall a | a in SelectedArtifacts(S, t) && a.eventId in t.artifacts ::
      t.artifacts[a.eventId] == a.completion
  }

  ghost predicate Plannable(S: set<Source>, t: Target) {
    Projectable(S) && NoUnnamedConflict(S, t) && ArtifactsFit(S, t)
  }

  // ---- the keys are unique on the merged stores ----

  lemma RecordKeysInjective(rs: set<Record>)
    requires UniqueRecords(rs)
    ensures Injective(rs, RecordKey)
  {}

  lemma MergedRecordsUnique(S: set<Source>, t: Target)
    requires ValidTarget(t)
    ensures UniqueRecords(MergedRecords(S, t))
  {
    ValidRegistryElems(t.records);
    forall a, b | a in MergedRecords(S, t) && b in MergedRecords(S, t) ensures !Clash(a, b) {
      if a in SelectedRecords(S, t) {
        assert !RecordDisputed(S, t, a.sessionId);
      } else if b in SelectedRecords(S, t) {
        assert !RecordDisputed(S, t, b.sessionId);
        assert Clash(a, b) ==> Clash(b, a);
      }
    }
  }

  lemma MergedCallbacksValid(S: set<Source>, t: Target)
    requires WellFormed(S) && ValidTarget(t)
    ensures ValidCallbacks(MergedCallbacks(S, t))
  {
    var m := MergedCallbacks(S, t);
    forall a, b | a in m.bindings && b in m.bindings && a.sessionId == b.sessionId ensures a == b {
      assert !BindingDisputed(S, t, a.sessionId) || (a !in SelectedBindings(S, t) && b !in SelectedBindings(S, t));
    }
    forall a, b | a in m.outbox && b in m.outbox && a.eventId == b.eventId ensures a == b {
      assert a in SelectedEntries(S, t) ==> !EventDisputed(S, t, a.sessionId);
      assert b in SelectedEntries(S, t) ==> !EventDisputed(S, t, b.sessionId);
    }
    forall e | e in SelectedEntries(S, t) ensures ValidEntry(e) {
      EntryOrigin(S, e);
    }
  }

  lemma EntryOrigin(S: set<Source>, e: Entry)
    requires WellFormed(S) && e in AllEntries(S)
    ensures ValidEntry(e)
  {}

  lemma ArtifactOrigin(S: set<Source>, t: Target, a: Artifact)
    requires WellFormed(S) && a in SelectedArtifacts(S, t)
    ensures exists e :: e in SelectedEntries(S, t) && ArtifactOf(e) == Some(a) && e.eventId == a.eventId
  {}

  lemma ArtifactKeysInjective(S: set<Source>, t: Target)
    requires WellFormed(S) && ValidTarget(t)
    ensures Injective(SelectedArtifacts(S, t), ArtifactKey)
  {
    forall a, b | a in SelectedArtifacts(S, t) && b in SelectedArtifacts(S, t) && ArtifactKey(a) == ArtifactKey(b)
      ensures a == b
    {
      ArtifactOrigin(S, t, a);
      ArtifactOrigin(S, t, b);
      var e :| e in SelectedEntries(S, t) && ArtifactOf(e) == Some(a) && e.eventId == a.eventId;
      var f :| f in SelectedEntries(S, t) && ArtifactOf(f) == Some(b) && f.eventId == b.eventId;
      MergedCallbacksValid(S, t);
      assert e in MergedCallbacks(S, t).outbox && f in MergedCallbacks(S, t).outbox;
    }
  }

  lemma ItemsBySource(S: set<Source>, a: Item, b: Item)
    requires WellFormed(S) && a in AllItems(S) && b in AllItems(S)
    requires a.path == b.path && Share(a.record, b.record)
    ensures a == b
  {}

  lemma ItemKeysInjective(S: set<Source>)
    requires WellFormed(S)
    ensures Injective(AllItems(S), ItemKey)
  {}

  lemma CandidateKeysInjective(S: set<Source>, name: string)
    requires WellFormed(S)
    ensures Injective(CandidatesFor(S, name), CandidateKey)
  {}

  // ---- the plan ----

  ghost function OrderedItems(S: set<Source>): (xs: seq<Item>)
    requires WellFormed(S)
    ensures Listing(xs, AllItems(S), ItemKey)
  {
    ItemKeysInjective(S);
    Ordered(AllItems(S), ItemKey)
  }

  ghost function OutcomeAt(S: set<Source>, t: Target, xs: seq<Item>, i: nat): Outcome
    requires i < |xs|
  {
    if Quarantined(S, t, xs[i].record.sessionId) then Conflicted
    else if exists j :: 0 <= j < i && xs[j].record == xs[i].record then Deduplicated
    else Imported
  }

  ghost function ViewAt(S: set<Source>, t: Target, xs: seq<Item>, i: nat): SourceView
    requires i < |xs|
  {
    SourceView(xs[i].path, xs[i].digest, xs[i].record.name, xs[i].record.sessionId,
               xs[i].record.threadId, OutcomeAt(S, t, xs, i))
  }

  ghost function Views(S: set<Source>, t: Target): seq<SourceView>
    requires WellFormed(S)
  {
    var xs := OrderedItems(S);
    seq(|xs|, i requires 0 <= i < |xs| => ViewAt(S, t, xs, i))
  }

  function CountOutcome(vs: seq<SourceView>, o: Outcome): nat {
    if vs == [] then 0
    else CountOutcome(vs[..|vs| - 1], o) + if vs[|vs| - 1].outcome == o then 1 else 0
  }

  method CountViews(views: seq<SourceView>, o: Outcome) returns (n: nat)
    ensures n == CountOutcome(views, o)
  {
    n := 0;
    for i := 0 to |views|
      invariant n == CountOutcome(views[..i], o)
    {
      assert views[..i + 1][..i] == views[..i];
      n := n + if views[i].outcome == o then 1 else 0;
    }
    assert views[..|views|] == views;
  }

  ghost function ConflictFor(S: set<Source>, name: string): Conflict
    requires WellFormed(S)
  {
    CandidateKeysInjective(S, name);
    StringKeysInjective(DigestsOf(CandidatesFor(S, name)));
    Conflict(name, Ordered(CandidatesFor(S, name), CandidateKey),
             Ordered(DigestsOf(CandidatesFor(S, name)), StringKey))
  }

  ghost function Conflicts(S: set<Source>, t: Target): seq<Conflict>
    requires WellFormed(S)
  {
    StringKeysInjective(ConflictNames(S, t));
    var names := Ordered(ConflictNames(S, t), StringKey);
    seq(|names|, i requires 0 <= i < |names| => ConflictFor(S, names[i]))
  }

  ghost function StatusOf(S: set<Source>, t: Target): Status
    requires WellFormed(S)
  {
    var views := Views(S, t);
    Status(true, true, CountOutcome(views, Imported), CountOutcome(views, Deduplicated),
           |Conflicts(S, t)|, views, Conflicts(S, t))
  }

  ghost function PlanOf(S: set<Source>, t: Target): Plan
    requires WellFormed(S) && ValidTarget(t)
  {
    MergedRecordsUnique(S, t);
    RecordKeysInjective(MergedRecords(S, t));
    ArtifactKeysInjective(S, t);
    Plan(StatusOf(S, t), Ordered(MergedRecords(S, t), RecordKey), MergedCallbacks(S, t),
         Ordered(SelectedArtifacts(S, t), ArtifactKey))
  }
}
