// The contracts of the ledger: what a status view and each of its conflicts promise.

module MigrationContracts {
  import opened Prelude
  import opened Ordering
  import opened LegacyStores
  import opened MigrationPlan

  ghost predicate ValidConflict(c: Conflict) {
    && c.candidates != []
    && Ascending(c.candidates, CandidateKey)
    && (forall k | k in c.candidates :: k.name == Some(c.name))
    && Listing(c.digests, DigestsOf(Elems(c.candidates)), StringKey)
  }

  function ConflictKey(c: Conflict): Key {
    StringKey(c.name)
  }

  ghost predicate ValidStatus(s: Status) {
    && s.complete && s.ready
    && s.imported == CountOutcome(s.sources, Imported)
    && s.deduplicated == CountOutcome(s.sources, Deduplicated)
    && s.conflictCount == |s.conflicts|
    && Ascending(s.conflicts, ConflictKey)
    && (forall c | c in s.conflicts :: ValidConflict(c))
  }

  predicate ViewOf(v: SourceView, k: Candidate) {
    v.path == k.path && v.digest == k.digest && v.sessionId == k.sessionId && v.threadId == k.threadId
  }

  /** The view of a candidate that nobody has chosen yet. */
  predicate OpenView(v: SourceView, k: Candidate) {
    ViewOf(v, k) && v.name == k.name && v.outcome == Conflicted
  }

  ghost predicate DistinctViews(vs: seq<SourceView>) {
    forall i, j | 0 <= i < j < |vs| :: vs[i].path != vs[j].path || vs[i].sessionId != vs[j].sessionId
  }

  /** Every candidate still on offer is the candidate of one source left in conflict. */
  ghost predicate Linked(s: Status) {
    && DistinctViews(s.sources)
    && forall c, k | c in s.conflicts && k in c.candidates ::
         exists i :: 0 <= i < |s.sources| && OpenView(s.sources[i], k)
  }

  ghost predicate ValidLedger(s: Status) {
    ValidStatus(s) && Linked(s)
  }
}
