// What holds of every plan: nothing is lost, no later collision check can fire, the
// ledger contracts hold, and every source record has exactly one outcome.

module MigrationSoundness {
  import opened Prelude
  import opened Ordering
  import opened LegacyStores
  import opened CallbackProjection
  import opened MigrationPlan
  import opened MigrationContracts

  lemma UniqueListingIsRegistry(rs: seq<Record>, s: set<Record>)
    requires UniqueRecords(s) && Listing(rs, s, RecordKey)
    ensures ValidRegistry(rs)
  {
    forall i, j | 0 <= i < j < |rs| ensures !Share(rs[i], rs[j]) {
      assert rs[i] in s && rs[j] in s && !Clash(rs[i], rs[j]);
      KeyAsymmetric(RecordKey(rs[i]), RecordKey(rs[i]));
    }
  }

  /** Plan soundness, registry half: exactly the target's records and the undisputed legacy
      ones survive, and the duplicate check of `replace_all` cannot fire on them. */
  lemma PlannedRegistrySound(S: set<Source>, t: Target)
    requires WellFormed(S) && ValidTarget(t)
    ensures var P := PlanOf(S, t);
            && ValidRegistry(P.records)
            && (forall r | r in t.records :: r in P.records)
            && (forall r | r in AllRecords(S) :: !Quarantined(S, t, r.sessionId) ==> r in P.records)
            && (forall r | r in P.records :: r in t.records || r in SelectedRecords(S, t))
  {
    MergedRecordsUnique(S, t);
    RecordKeysInjective(MergedRecords(S, t));
    UniqueListingIsRegistry(PlanOf(S, t).records, MergedRecords(S, t));
  }

  /** Plan soundness, callback half: nothing of the target is lost or changed, keys stay
      unique, and an imported artifact has one owner and never overwrites another file. */
  lemma PlannedCallbacksSound(S: set<Source>, t: Target)
    requires WellFormed(S) && ValidTarget(t)
    ensures var P := PlanOf(S, t);
            && ValidCallbacks(P.callbacks)
            && t.callbacks.bindings <= P.callbacks.bindings
            && t.callbacks.outbox <= P.callbacks.outbox
            && (forall i, j | 0 <= i < j < |P.artifacts| :: P.artifacts[i].eventId != P.artifacts[j].eventId)
            && (forall a | a in P.artifacts :: exists e :: e in P.callbacks.outbox && ArtifactOf(e) == Some(a))
            && (Plannable(S, t) ==> forall a | a in P.artifacts && a.eventId in t.artifacts ::
                  t.artifacts[a.eventId] == a.completion)
  {
    var P := PlanOf(S, t);
    MergedCallbacksValid(S, t);
    ArtifactKeysInjective(S, t);
    forall i, j | 0 <= i < j < |P.artifacts| ensures P.artifacts[i].eventId != P.artifacts[j].eventId {
      KeyAsymmetric(ArtifactKey(P.artifacts[i]), ArtifactKey(P.artifacts[i]));
    }
    forall a | a in P.artifacts ensures exists e :: e in P.callbacks.outbox && ArtifactOf(e) == Some(a) {
      ArtifactOrigin(S, t, a);
    }
  }

  /** An event of a store, projected onto its own record there. */
  ghost predicate Offers(S: set<Source>, s: Source, e0: Entry, r: Record, q: Projected) {
    && s in S && e0 in s.outbox && r in s.records && r.sessionId == e0.sessionId
    && ProjectEntry(e0, r, s.files, r) == Ok(q)
  }

  lemma {:induction false} RecordFound(rs: seq<Record>, r: Record)
    requires ValidRegistry(rs) && r in rs
    ensures FindRecord(rs, r.sessionId) == Some(r)
    decreases |rs|
  {
    var n := |rs| - 1;
    if rs[n] != r {
      var i :| 0 <= i < |rs| && rs[i] == r;
      assert rs[..n][i] == r;
      RecordFound(rs[..n], r);
    }
  }

  lemma {:induction false} FoundRecord(rs: seq<Record>, sid: string)
    ensures FindRecord(rs, sid).Some? ==> FindRecord(rs, sid).value in rs && FindRecord(rs, sid).value.sessionId == sid
    decreases |rs|
  {
    if rs != [] {
      FoundRecord(rs[..|rs| - 1], sid);
    }
  }

  lemma OffersExactly(S: set<Source>, s: Source, e0: Entry, q: Projected)
    requires WellFormed(S) && s in S && e0 in s.outbox
    ensures ProjectIn(s, e0) == Ok(q) <==> exists r :: Offers(S, s, e0, r, q)
  {
    FoundRecord(s.records, e0.sessionId);
    if r :| Offers(S, s, e0, r, q) {
      RecordFound(s.records, r);
    }
    if ProjectIn(s, e0) == Ok(q) {
      assert Offers(S, s, e0, FindRecord(s.records, e0.sessionId).value, q);
    }
  }

  lemma ProjectedExactly(S: set<Source>, q: Projected)
    requires WellFormed(S)
    ensures q in AllProjected(S) <==> exists s, e0, r :: Offers(S, s, e0, r, q)
  {
    if q in AllProjected(S) {
      var s, e0 :| s in S && e0 in s.outbox && ProjectIn(s, e0).Ok? && q == ProjectIn(s, e0).value;
      OffersExactly(S, s, e0, q);
    }
    if s, e0, r :| Offers(S, s, e0, r, q) {
      OffersExactly(S, s, e0, q);
    }
  }

  lemma OfferKeepsSession(S: set<Source>, s: Source, e0: Entry, r: Record, q: Projected)
    requires WellFormed(S) && Offers(S, s, e0, r, q)
    ensures q.entry.sessionId == e0.sessionId && q.entry.eventId == e0.eventId
    ensures q.artifact == ArtifactOf(q.entry)
    ensures r in AllRecords(S)
  {
    assert ValidEntry(e0);
    ProjectionRewritesIdentity(e0, r, s.files, r, q);
  }

  /** Plan soundness, the other way: every binding and every event of an undisputed session is in
      the plan, nothing else joins the target's, and the plan publishes exactly the files those
      events refer to. */
  lemma PlannedCallbacksComplete(S: set<Source>, t: Target)
    requires WellFormed(S) && ValidTarget(t) && Projectable(S)
    ensures forall b :: b in PlanOf(S, t).callbacks.bindings <==>
              b in t.callbacks.bindings || exists s :: s in S && b in s.bindings && !Quarantined(S, t, b.sessionId)
    ensures forall e :: e in PlanOf(S, t).callbacks.outbox <==>
              e in t.callbacks.outbox
              || exists s, e0, r, q :: Offers(S, s, e0, r, q) && !Quarantined(S, t, e0.sessionId) && q.entry == e
    ensures forall a :: a in PlanOf(S, t).artifacts <==>
              exists s, e0, r, q :: Offers(S, s, e0, r, q) && !Quarantined(S, t, e0.sessionId) && q.artifact == Some(a)
  {
    BindingsTaken(S, t);
    forall e ensures e in SelectedEntries(S, t) <==>
        exists s, e0, r, q :: Offers(S, s, e0, r, q) && !Quarantined(S, t, e0.sessionId) && q.entry == e {
      EntryTaken(S, t, e);
    }
    ArtifactKeysInjective(S, t);
    forall a ensures a in SelectedArtifacts(S, t) <==>
        exists s, e0, r, q :: Offers(S, s, e0, r, q) && !Quarantined(S, t, e0.sessionId) && q.artifact == Some(a) {
      ArtifactTaken(S, t, a);
    }
  }

  lemma BindingsTaken(S: set<Source>, t: Target)
    requires Projectable(S)
    ensures forall b :: b in SelectedBindings(S, t) <==>
              exists s :: s in S && b in s.bindings && !Quarantined(S, t, b.sessionId)
  {
    forall s, b | s in S && b in s.bindings ensures exists r :: r in AllRecords(S) && r.sessionId == b.sessionId {
      FoundRecord(s.records, b.sessionId);
      assert FindRecord(s.records, b.sessionId).value in AllRecords(S);
    }
  }

  lemma EntryTaken(S: set<Source>, t: Target, e: Entry)
    requires WellFormed(S)
    ensures e in SelectedEntries(S, t) <==>
              exists s, e0, r, q :: Offers(S, s, e0, r, q) && !Quarantined(S, t, e0.sessionId) && q.entry == e
  {
    if e in SelectedEntries(S, t) {
      var q :| q in AllProjected(S) && q.entry == e;
      ProjectedExactly(S, q);
      var s, e0, r :| Offers(S, s, e0, r, q);
      OfferKeepsSession(S, s, e0, r, q);
    }
    if s, e0, r, q :| Offers(S, s, e0, r, q) && !Quarantined(S, t, e0.sessionId) && q.entry == e {
      ProjectedExactly(S, q);
      OfferKeepsSession(S, s, e0, r, q);
    }
  }

  lemma ArtifactTaken(S: set<Source>, t: Target, a: Artifact)
    requires WellFormed(S)
    ensures a in SelectedArtifacts(S, t) <==>
              exists s, e0, r, q :: Offers(S, s, e0, r, q) && !Quarantined(S, t, e0.sessionId) && q.artifact == Some(a)
  {
    if a in SelectedArtifacts(S, t) {
      var q :| q in AllProjected(S) && Selected(S, t, q.entry.sessionId) && q.artifact == Some(a);
      ProjectedExactly(S, q);
      var s, e0, r :| Offers(S, s, e0, r, q);
      OfferKeepsSession(S, s, e0, r, q);
    }
    if s, e0, r, q :| Offers(S, s, e0, r, q) && !Quarantined(S, t, e0.sessionId) && q.artifact == Some(a) {
      ProjectedExactly(S, q);
      OfferKeepsSession(S, s, e0, r, q);
    }
  }

  /** Every event a plan takes from a store that refers to a file has that file among the plan's. */
  lemma PlannedReferences(S: set<Source>, t: Target)
    requires WellFormed(S) && ValidTarget(t) && Projectable(S)
    ensures forall e, a | e in PlanOf(S, t).callbacks.outbox && e !in t.callbacks.outbox && ArtifactOf(e) == Some(a) ::
              a in PlanOf(S, t).artifacts
  {
    PlannedCallbacksComplete(S, t);
    forall e, a | e in PlanOf(S, t).callbacks.outbox && e !in t.callbacks.outbox && ArtifactOf(e) == Some(a)
      ensures a in PlanOf(S, t).artifacts
    {
      var s, e0, r, q :| Offers(S, s, e0, r, q) && !Quarantined(S, t, e0.sessionId) && q.entry == e;
      OfferKeepsSession(S, s, e0, r, q);
    }
  }

  /** The dedup and merge checks compare equal keys: among selected values and the target
      there is nothing left for them to find. */
  lemma CollisionChecksUnreachable(S: set<Source>, t: Target)
    requires WellFormed(S) && ValidTarget(t)
    ensures forall a, b | a in SelectedBindings(S, t) && b in SelectedBindings(S, t) + t.callbacks.bindings ::
              a.sessionId == b.sessionId ==> a == b
    ensures forall a, b | a in SelectedEntries(S, t) && b in SelectedEntries(S, t) + t.callbacks.outbox ::
              a.eventId == b.eventId ==> a == b
    ensures forall a, b | a in SelectedArtifacts(S, t) && b in SelectedArtifacts(S, t) ::
              a.eventId == b.eventId ==> a == b
    ensures forall a, b | a in SelectedRecords(S, t) && b in SelectedRecords(S, t) + Elems(t.records) ::
              Share(a, b) ==> a == b
  {
    MergedCallbacksValid(S, t);
    MergedRecordsUnique(S, t);
    ArtifactKeysInjective(S, t);
    forall a, b | a in SelectedArtifacts(S, t) && b in SelectedArtifacts(S, t) && a.eventId == b.eventId
      ensures a == b
    {
      assert ArtifactKey(a) == ArtifactKey(b);
    }
    var m := MergedCallbacks(S, t);
    forall a, b | a in SelectedBindings(S, t) && b in SelectedBindings(S, t) + t.callbacks.bindings && a.sessionId == b.sessionId
      ensures a == b
    {
      assert a in m.bindings && b in m.bindings;
    }
    forall a, b | a in SelectedEntries(S, t) && b in SelectedEntries(S, t) + t.callbacks.outbox && a.eventId == b.eventId
      ensures a == b
    {
      assert a in m.outbox && b in m.outbox;
    }
    forall a, b | a in SelectedRecords(S, t) && b in SelectedRecords(S, t) + Elems(t.records) && Share(a, b)
      ensures a == b
    {
      assert a in MergedRecords(S, t) && b in MergedRecords(S, t);
      assert !Clash(a, b);
    }
  }

  /** A record whose name is in conflict is itself quarantined, so the two tests that
      decide an outcome are one. */
  lemma ConflictedNameIsQuarantined(S: set<Source>, t: Target, r: Record)
    requires r in AllRecords(S) && r.name.Some? && r.name.value in ConflictNames(S, t)
    ensures Quarantined(S, t, r.sessionId)
  {
    var o :| o in AllRecords(S) && o.name.Some? && Quarantined(S, t, o.sessionId) && o.name.value == r.name.value;
    if r != o {
      assert Clash(r, o);
      assert RecordDisputed(S, t, r.sessionId);
    }
  }

  // ---- outcomes partition the source records ----

  lemma ItemRecord(S: set<Source>, i: Item)
    requires i in AllItems(S)
    ensures i.record in AllRecords(S)
  {}

  /** One view a legacy record; quarantined ones conflict; of the equal copies of a
      surviving record exactly one is imported and the rest are deduplicated. */
  lemma OutcomesPartition(S: set<Source>, t: Target)
    requires WellFormed(S)
    ensures var xs := OrderedItems(S); var vs := Views(S, t);
            && |vs| == |xs|
            && (forall i | 0 <= i < |vs| ::
                  vs[i].outcome == Conflicted <==> Quarantined(S, t, xs[i].record.sessionId))
            && (forall r | r in SelectedRecords(S, t) ::
                  exists i :: 0 <= i < |vs| && xs[i].record == r && vs[i].outcome == Imported)
            && (forall i, j | 0 <= i < |vs| && 0 <= j < |vs| ::
                  vs[i].outcome == Imported && vs[j].outcome == Imported && xs[i].record == xs[j].record ==> i == j)
            && (forall i | 0 <= i < |vs| && vs[i].outcome == Deduplicated ::
                  exists j :: 0 <= j < i && xs[j].record == xs[i].record && vs[j].outcome == Imported)
  {
    var xs, vs := OrderedItems(S), Views(S, t);
    forall r | r in SelectedRecords(S, t)
      ensures exists i :: 0 <= i < |vs| && xs[i].record == r && vs[i].outcome == Imported
    {
      var s :| s in S && r in s.records;
      var it := Item(s.path, s.digest, r);
      assert it in AllItems(S) && it in xs;
      var k :| 0 <= k < |xs| && xs[k] == it;
      var i := FirstCopy(S, t, xs, k);
      assert vs[i].outcome == Imported;
    }
    forall i | 0 <= i < |vs| && vs[i].outcome == Deduplicated
      ensures exists j :: 0 <= j < i && xs[j].record == xs[i].record && vs[j].outcome == Imported
    {
      var k :| 0 <= k < i && xs[k].record == xs[i].record;
      var j := FirstCopy(S, t, xs, k);
      assert vs[j].outcome == Imported;
    }
  }

  lemma {:induction false} FirstCopy(S: set<Source>, t: Target, xs: seq<Item>, k: nat) returns (i: nat)
    requires k < |xs| && !Quarantined(S, t, xs[k].record.sessionId)
    ensures i <= k && xs[i].record == xs[k].record && OutcomeAt(S, t, xs, i) == Imported
    decreases k
  {
    if j :| 0 <= j < k && xs[j].record == xs[k].record {
      i := FirstCopy(S, t, xs, j);
    } else {
      i := k;
    }
  }

  lemma {:induction false} CountsAddUp(vs: seq<SourceView>)
    ensures CountOutcome(vs, Imported) + CountOutcome(vs, Deduplicated) + CountOutcome(vs, Conflicted) == |vs|
  {
    if vs != [] {
      CountsAddUp(vs[..|vs| - 1]);
    }
  }

  // ---- the ledger contracts hold of every plan ----

  lemma ConflictForValid(S: set<Source>, t: Target, name: string)
    requires WellFormed(S) && name in ConflictNames(S, t)
    ensures ValidConflict(ConflictFor(S, name))
  {
    var c := ConflictFor(S, name);
    CandidateKeysInjective(S, name);
    StringKeysInjective(DigestsOf(CandidatesFor(S, name)));
    assert Elems(c.candidates) == CandidatesFor(S, name);
    var r :| r in AllRecords(S) && r.name.Some? && Quarantined(S, t, r.sessionId) && r.name.value == name;
    var s :| s in S && r in s.records;
    var it := Item(s.path, s.digest, r);
    assert it in AllItems(S) && it.record.name == Some(name);
    assert CandidateOf(it) in CandidatesFor(S, name);
    assert CandidateOf(it) in c.candidates;
  }

  lemma ViewsDistinct(S: set<Source>, t: Target)
    requires WellFormed(S)
    ensures DistinctViews(Views(S, t))
  {
    var xs, vs := OrderedItems(S), Views(S, t);
    forall i, j | 0 <= i < j < |vs| ensures vs[i].path != vs[j].path || vs[i].sessionId != vs[j].sessionId {
      if vs[i].path == vs[j].path && vs[i].sessionId == vs[j].sessionId {
        assert xs[i] in AllItems(S) && xs[j] in AllItems(S);
        ItemsBySource(S, xs[i], xs[j]);
        KeyAsymmetric(ItemKey(xs[i]), ItemKey(xs[i]));
      }
    }
  }

  lemma CandidateHasView(S: set<Source>, t: Target, name: string, k: Candidate)
    requires WellFormed(S) && name in ConflictNames(S, t) && k in CandidatesFor(S, name)
    ensures exists i :: 0 <= i < |Views(S, t)| && OpenView(Views(S, t)[i], k)
  {
    var it :| it in AllItems(S) && it.record.name == Some(name) && k == CandidateOf(it);
    ItemRecord(S, it);
    ConflictedNameIsQuarantined(S, t, it.record);
    var i := QuarantinedView(S, t, it);
  }

  lemma QuarantinedView(S: set<Source>, t: Target, it: Item) returns (i: nat)
    requires WellFormed(S) && it in AllItems(S) && Quarantined(S, t, it.record.sessionId) && it.record.name.Some?
    ensures i < |Views(S, t)| && OpenView(Views(S, t)[i], CandidateOf(it))
  {
    assert it in OrderedItems(S);
    i :| 0 <= i < |OrderedItems(S)| && OrderedItems(S)[i] == it;
  }

  /** Every plan's status meets the ledger contract, and its open candidates are exactly
      backed by conflicted sources. */
  lemma PlannedLedgerValid(S: set<Source>, t: Target)
    requires WellFormed(S)
    ensures ValidLedger(StatusOf(S, t))
  {
    var s := StatusOf(S, t);
    StringKeysInjective(ConflictNames(S, t));
    var names := Ordered(ConflictNames(S, t), StringKey);
    forall i, j | 0 <= i < j < |s.conflicts| ensures KeyLt(ConflictKey(s.conflicts[i]), ConflictKey(s.conflicts[j])) {
      assert KeyLt(StringKey(names[i]), StringKey(names[j]));
    }
    forall c | c in s.conflicts
      ensures ValidConflict(c)
      ensures forall k | k in c.candidates ::
                exists i :: 0 <= i < |s.sources| && OpenView(s.sources[i], k)
    {
      var i :| 0 <= i < |s.conflicts| && s.conflicts[i] == c;
      assert names[i] in ConflictNames(S, t);
      ConflictForValid(S, t, names[i]);
      CandidateKeysInjective(S, names[i]);
      forall k | k in c.candidates
        ensures exists i :: 0 <= i < |s.sources| && OpenView(s.sources[i], k)
      {
        CandidateHasView(S, t, names[i], k);
      }
    }
    ViewsDistinct(S, t);
  }
}
