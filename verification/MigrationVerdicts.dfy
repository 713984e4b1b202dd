// What a plan says of the stores, in their own terms: which sessions are contradicted, what the
// ledger reports of every legacy record, and which names it leaves open.

module MigrationVerdicts {
  import opened Prelude
  import opened Ordering
  import opened LegacyStores
  import opened MigrationPlan
  import opened MigrationSoundness

  // ---- contradictions ----

  ghost predicate KnownRecord(S: set<Source>, t: Target, o: Record) {
    o in t.records || exists s :: s in S && o in s.records
  }

  ghost predicate KnownBinding(S: set<Source>, t: Target, o: Binding) {
    o in t.callbacks.bindings || exists s :: s in S && o in s.bindings
  }

  ghost predicate KnownEntry(S: set<Source>, t: Target, o: Entry) {
    o in t.callbacks.outbox || exists s, e0, r, q :: Offers(S, s, e0, r, q) && q.entry == o
  }

  predicate Rivals(r: Record, o: Record) {
    o != r && (o.sessionId == r.sessionId || o.threadId == r.threadId || (r.name.Some? && o.name == r.name))
  }

  /** Another record, in any store or already global, claims the session, the thread or the name. */
  ghost predicate RecordContradicted(S: set<Source>, t: Target, sid: string) {
    exists s, r, o :: s in S && r in s.records && r.sessionId == sid && KnownRecord(S, t, o) && Rivals(r, o)
  }

  /** Another binding says something else of the session. */
  ghost predicate BindingContradicted(S: set<Source>, t: Target, sid: string) {
    exists s, b, o :: s in S && b in s.bindings && b.sessionId == sid && KnownBinding(S, t, o) && o.sessionId == sid && o != b
  }

  /** Another event has the id of one of the session's, projected, and is not the same. */
  ghost predicate EventContradicted(S: set<Source>, t: Target, sid: string) {
    exists s, e0, r, q, o ::
      Offers(S, s, e0, r, q) && e0.sessionId == sid && KnownEntry(S, t, o) && o.eventId == e0.eventId && o != q.entry
  }

  lemma KnownExactly(S: set<Source>, t: Target, o: Record)
    ensures KnownRecord(S, t, o) <==> o in AllRecords(S) + Elems(t.records)
  {}

  lemma RecordsExactly(S: set<Source>, t: Target, sid: string)
    ensures RecordDisputed(S, t, sid) <==> RecordContradicted(S, t, sid)
  {
    if RecordDisputed(S, t, sid) {
      var r, o :| r in AllRecords(S) && o in AllRecords(S) + Elems(t.records) && Clash(r, o) && r.sessionId == sid;
      KnownExactly(S, t, o);
      var s :| s in S && r in s.records;
      assert Rivals(r, o);
    }
    if RecordContradicted(S, t, sid) {
      var s, r, o :| s in S && r in s.records && r.sessionId == sid && KnownRecord(S, t, o) && Rivals(r, o);
      KnownExactly(S, t, o);
      assert r in AllRecords(S) && Clash(r, o);
    }
  }

  lemma BindingsExactly(S: set<Source>, t: Target, sid: string)
    ensures BindingDisputed(S, t, sid) <==> BindingContradicted(S, t, sid)
  {
    if BindingDisputed(S, t, sid) {
      var b, o :| b in AllBindings(S) && o in AllBindings(S) + t.callbacks.bindings && b != o && b.sessionId == o.sessionId == sid;
      var s :| s in S && b in s.bindings;
      assert KnownBinding(S, t, o);
    }
    if BindingContradicted(S, t, sid) {
      var s, b, o :| s in S && b in s.bindings && b.sessionId == sid && KnownBinding(S, t, o) && o.sessionId == sid && o != b;
      assert b in AllBindings(S) && o in AllBindings(S) + t.callbacks.bindings;
    }
  }

  lemma EntriesExactly(S: set<Source>, t: Target, o: Entry)
    requires WellFormed(S)
    ensures KnownEntry(S, t, o) <==> o in AllEntries(S) + t.callbacks.outbox
  {
    if o in AllEntries(S) {
      var q :| q in AllProjected(S) && q.entry == o;
      ProjectedExactly(S, q);
    }
    if s, e0, r, q :| Offers(S, s, e0, r, q) && q.entry == o {
      ProjectedExactly(S, q);
    }
  }

  lemma EventsExactly(S: set<Source>, t: Target, sid: string)
    requires WellFormed(S)
    ensures EventDisputed(S, t, sid) <==> EventContradicted(S, t, sid)
  {
    if EventDisputed(S, t, sid) {
      var e, o :| e in AllEntries(S) && o in AllEntries(S) + t.callbacks.outbox
        && e != o && e.eventId == o.eventId && e.sessionId == sid;
      EntriesExactly(S, t, o);
      var q :| q in AllProjected(S) && q.entry == e;
      ProjectedExactly(S, q);
      var s, e0, r :| Offers(S, s, e0, r, q);
      OfferKeepsSession(S, s, e0, r, q);
    }
    if EventContradicted(S, t, sid) {
      var s, e0, r, q, o :|
        Offers(S, s, e0, r, q) && e0.sessionId == sid && KnownEntry(S, t, o) && o.eventId == e0.eventId && o != q.entry;
      OfferKeepsSession(S, s, e0, r, q);
      ProjectedExactly(S, q);
      EntriesExactly(S, t, o);
      assert q.entry in AllEntries(S);
    }
  }

  /** A session is quarantined exactly when some store or the global service contradicts what a
      store says of it: its record, its binding or one of its events. Agreement, however often
      repeated, is no contradiction. */
  lemma QuarantinedExactly(S: set<Source>, t: Target, sid: string)
    requires WellFormed(S)
    ensures Quarantined(S, t, sid) <==>
              RecordContradicted(S, t, sid) || BindingContradicted(S, t, sid) || EventContradicted(S, t, sid)
  {
    RecordsExactly(S, t, sid);
    BindingsExactly(S, t, sid);
    EventsExactly(S, t, sid);
  }

  // ---- when planning succeeds ----

  lemma ProjectableExactly(S: set<Source>)
    requires WellFormed(S)
    ensures Projectable(S) <==>
              && (forall s, b | s in S && b in s.bindings :: exists r :: r in s.records && r.sessionId == b.sessionId)
              && (forall s, e0 | s in S && e0 in s.outbox :: exists r, q :: Offers(S, s, e0, r, q))
  {
    forall s, b | s in S && b in s.bindings
      ensures FindRecord(s.records, b.sessionId).Some? <==> exists r :: r in s.records && r.sessionId == b.sessionId
    {
      FoundRecord(s.records, b.sessionId);
      if r :| r in s.records && r.sessionId == b.sessionId {
        RecordFound(s.records, r);
      }
    }
    forall s, e0 | s in S && e0 in s.outbox
      ensures ProjectIn(s, e0).Ok? <==> exists r, q :: Offers(S, s, e0, r, q)
    {
      if ProjectIn(s, e0).Ok? {
        OffersExactly(S, s, e0, ProjectIn(s, e0).value);
      }
      if r, q :| Offers(S, s, e0, r, q) {
        OffersExactly(S, s, e0, q);
      }
    }
  }

  lemma FitExactly(S: set<Source>, t: Target)
    requires WellFormed(S)
    ensures ArtifactsFit(S, t) <==>
              forall s, e0, r, q, a |
                  Offers(S, s, e0, r, q) && !Quarantined(S, t, e0.sessionId) && q.artifact == Some(a) && a.eventId in t.artifacts ::
                t.artifacts[a.eventId] == a.completion
  {
    forall a: Artifact ensures a in SelectedArtifacts(S, t) <==>
        exists s, e0, r, q :: Offers(S, s, e0, r, q) && !Quarantined(S, t, e0.sessionId) && q.artifact == Some(a) {
      ArtifactTaken(S, t, a);
    }
  }

  /** Planning succeeds exactly when every binding and event belongs to a record of its own store,
      every event projects, no quarantined record is without a name, and no file to be published is
      there with other content. */
  lemma PlannableExactly(S: set<Source>, t: Target)
    requires WellFormed(S)
    ensures Plannable(S, t) <==>
              && (forall s, b | s in S && b in s.bindings :: exists r :: r in s.records && r.sessionId == b.sessionId)
              && (forall s, e0 | s in S && e0 in s.outbox :: exists r, q :: Offers(S, s, e0, r, q))
              && (forall s, r | s in S && r in s.records && r.name.None? :: !Quarantined(S, t, r.sessionId))
              && (forall s, e0, r, q, a |
                      Offers(S, s, e0, r, q) && !Quarantined(S, t, e0.sessionId) && q.artifact == Some(a) && a.eventId in t.artifacts ::
                    t.artifacts[a.eventId] == a.completion)
  {
    ProjectableExactly(S);
    FitExactly(S, t);
    assert NoUnnamedConflict(S, t) <==>
           forall s, r | s in S && r in s.records && r.name.None? :: !Quarantined(S, t, r.sessionId);
  }

  // ---- the views ----

  predicate Describes(v: SourceView, s: Source, r: Record) {
    v.path == s.path && v.digest == s.digest && v.name == r.name && v.sessionId == r.sessionId && v.threadId == r.threadId
  }

  lemma ViewDescribes(S: set<Source>, t: Target, i: nat) returns (s: Source, r: Record)
    requires WellFormed(S) && i < |Views(S, t)|
    ensures s in S && r in s.records && Describes(Views(S, t)[i], s, r) && r == OrderedItems(S)[i].record
  {
    var it := OrderedItems(S)[i];
    assert it in AllItems(S);
    s, r :| s in S && r in s.records && it == Item(s.path, s.digest, r);
  }

  lemma DescribedByView(S: set<Source>, t: Target, s: Source, r: Record) returns (i: nat)
    requires WellFormed(S) && s in S && r in s.records
    ensures i < |Views(S, t)| && Describes(Views(S, t)[i], s, r)
  {
    var it := Item(s.path, s.digest, r);
    assert it in AllItems(S) && it in OrderedItems(S);
    i :| 0 <= i < |OrderedItems(S)| && OrderedItems(S)[i] == it;
  }

  /** A record is reported in conflict exactly when its session is quarantined. */
  lemma ViewOutcome(S: set<Source>, t: Target, s: Source, r: Record, v: SourceView)
    requires WellFormed(S) && s in S && r in s.records && v in StatusOf(S, t).sources && Describes(v, s, r)
    ensures v.outcome == Conflicted <==> Quarantined(S, t, r.sessionId)
  {
    var i :| 0 <= i < |Views(S, t)| && Views(S, t)[i] == v;
    assert OrderedItems(S)[i] in AllItems(S);
  }

  ghost predicate ViewsOfAll(S: set<Source>, vs: seq<SourceView>) {
    && (forall v <- vs :: exists s, r :: s in S && r in s.records && Describes(v, s, r))
    && (forall s, r | s in S && r in s.records :: exists v <- vs :: Describes(v, s, r))
  }

  predicate ByPath(vs: seq<SourceView>) {
    forall i, j | 0 <= i < j < |vs| :: vs[i].path == vs[j].path || LexLt(vs[i].path, vs[j].path)
  }

  lemma ViewsDescribeAll(S: set<Source>, t: Target)
    requires WellFormed(S)
    ensures ViewsOfAll(S, Views(S, t))
  {
    var vs := Views(S, t);
    forall v | v in vs ensures exists s, r :: s in S && r in s.records && Describes(v, s, r) {
      var i :| 0 <= i < |vs| && vs[i] == v;
      var s, r := ViewDescribes(S, t, i);
    }
    forall s, r | s in S && r in s.records ensures exists v <- vs :: Describes(v, s, r) {
      var i := DescribedByView(S, t, s, r);
      assert vs[i] in vs;
    }
  }

  lemma ViewsByPath(S: set<Source>, t: Target)
    requires WellFormed(S)
    ensures ByPath(Views(S, t))
  {
    var vs, xs := Views(S, t), OrderedItems(S);
    forall i, j | 0 <= i < j < |vs| ensures vs[i].path == vs[j].path || LexLt(vs[i].path, vs[j].path) {
      assert KeyLt(ItemKey(xs[i]), ItemKey(xs[j]));
    }
  }

  /** The ledger's sources: a view of every record of every store, and of nothing else, ordered
      by store. */
  lemma ViewsExactly(S: set<Source>, t: Target)
    requires WellFormed(S)
    ensures ViewsOfAll(S, StatusOf(S, t).sources) && ByPath(StatusOf(S, t).sources)
  {
    ViewsDescribeAll(S, t);
    ViewsByPath(S, t);
    assert StatusOf(S, t).sources == Views(S, t);
  }

  /** Records are written in the order of their names, nameless ones first, and then of their
      sessions. */
  predicate ByName(rs: seq<Record>) {
    forall i, j | 0 <= i < j < |rs| :: Before(rs[i], rs[j])
  }

  predicate Before(a: Record, b: Record) {
    match (a.name, b.name)
    case (Some(m), Some(n)) => LexLt(m, n) || (m == n && (LexLt(a.sessionId, b.sessionId) || a.sessionId == b.sessionId))
    case (None, Some(n)) => n != "" || LexLt(a.sessionId, b.sessionId) || a.sessionId == b.sessionId
    case (Some(m), None) => m == "" && (LexLt(a.sessionId, b.sessionId) || a.sessionId == b.sessionId)
    case (None, None) => LexLt(a.sessionId, b.sessionId) || a.sessionId == b.sessionId
  }

  lemma PlannedByName(S: set<Source>, t: Target)
    requires WellFormed(S) && ValidTarget(t)
    ensures ByName(PlanOf(S, t).records)
  {
    MergedRecordsUnique(S, t);
    RecordKeysInjective(MergedRecords(S, t));
    var rs := PlanOf(S, t).records;
    forall i, j | 0 <= i < j < |rs| ensures Before(rs[i], rs[j]) {
      assert KeyLt(RecordKey(rs[i]), RecordKey(rs[j]));
    }
  }

  // ---- the count of imports ----

  ghost function SurvivorsUpTo(S: set<Source>, t: Target, xs: seq<Item>, k: nat): set<Record>
    requires k <= |xs|
  {
    set i | 0 <= i < k && !Quarantined(S, t, xs[i].record.sessionId) :: xs[i].record
  }

  lemma OneMore(S: set<Source>, t: Target, xs: seq<Item>, k: nat)
    requires k < |xs|
    ensures |SurvivorsUpTo(S, t, xs, k + 1)|
         == |SurvivorsUpTo(S, t, xs, k)| + if OutcomeAt(S, t, xs, k) == Imported then 1 else 0
  {
    var less, more, r := SurvivorsUpTo(S, t, xs, k), SurvivorsUpTo(S, t, xs, k + 1), xs[k].record;
    if Quarantined(S, t, r.sessionId) {
      assert more == less;
    } else {
      assert more == less + {r};
      if r in less {
        var j :| 0 <= j < k && !Quarantined(S, t, xs[j].record.sessionId) && xs[j].record == r;
        assert OutcomeAt(S, t, xs, k) == Deduplicated;
        assert more == less;
      } else {
        assert forall j | 0 <= j < k :: xs[j].record == r ==> xs[j].record in less;
        assert OutcomeAt(S, t, xs, k) == Imported;
      }
    }
  }

  lemma {:induction false} ImportedUpTo(S: set<Source>, t: Target, k: nat)
    requires WellFormed(S) && k <= |Views(S, t)|
    ensures CountOutcome(Views(S, t)[..k], Imported) == |SurvivorsUpTo(S, t, OrderedItems(S), k)|
    decreases k
  {
    if k == 0 {
      assert SurvivorsUpTo(S, t, OrderedItems(S), 0) == {};
    } else {
      ImportedUpTo(S, t, k - 1);
      OneMore(S, t, OrderedItems(S), k - 1);
      assert Views(S, t)[..k][..k - 1] == Views(S, t)[..k - 1];
    }
  }

  /** What the ledger counts as imported are the distinct records that survived, one each however
      many stores hold a copy. */
  lemma ImportedCountsRecords(S: set<Source>, t: Target)
    requires WellFormed(S)
    ensures StatusOf(S, t).imported == |set s, r | s in S && r in s.records && !Quarantined(S, t, r.sessionId) :: r|
  {
    var xs, n := OrderedItems(S), |Views(S, t)|;
    ImportedUpTo(S, t, n);
    assert Views(S, t)[..n] == Views(S, t);
    var survivors := set s, r | s in S && r in s.records && !Quarantined(S, t, r.sessionId) :: r;
    forall r ensures r in survivors <==> r in SurvivorsUpTo(S, t, xs, n) {
      if r in survivors {
        var s :| s in S && r in s.records;
        assert Item(s.path, s.digest, r) in AllItems(S);
        assert Item(s.path, s.digest, r) in xs;
      }
      if r in SurvivorsUpTo(S, t, xs, n) {
        var i :| 0 <= i < n && xs[i].record == r;
        assert xs[i] in AllItems(S);
      }
    }
    assert survivors == SurvivorsUpTo(S, t, xs, n);
  }

  // ---- the names left open ----

  lemma CandidatesExactly(S: set<Source>, name: string, k: Candidate)
    ensures k in CandidatesFor(S, name) <==>
              exists s, r :: s in S && r in s.records && r.name == Some(name)
                && k == Candidate(s.path, s.digest, Some(name), r.sessionId, r.threadId, r.profile)
  {
    if k in CandidatesFor(S, name) {
      var i :| i in AllItems(S) && i.record.name == Some(name) && k == CandidateOf(i);
      var s, r :| s in S && r in s.records && i == Item(s.path, s.digest, r);
    }
    if exists s, r :: s in S && r in s.records && r.name == Some(name)
                        && k == Candidate(s.path, s.digest, Some(name), r.sessionId, r.threadId, r.profile) {
      var s, r :| s in S && r in s.records && r.name == Some(name)
        && k == Candidate(s.path, s.digest, Some(name), r.sessionId, r.threadId, r.profile);
      assert Item(s.path, s.digest, r) in AllItems(S);
    }
  }

  lemma QuarantinedNames(S: set<Source>, t: Target, name: string)
    ensures name in ConflictNames(S, t) <==>
              exists s, r :: s in S && r in s.records && r.name == Some(name) && Quarantined(S, t, r.sessionId)
  {
    if name in ConflictNames(S, t) {
      var r :| r in AllRecords(S) && r.name.Some? && Quarantined(S, t, r.sessionId) && r.name.value == name;
      var s :| s in S && r in s.records;
    }
    if s, r :| s in S && r in s.records && r.name == Some(name) && Quarantined(S, t, r.sessionId) {
      assert r in AllRecords(S);
    }
  }

  lemma ConflictsByName(S: set<Source>, t: Target, name: string)
    requires WellFormed(S)
    ensures (exists c <- StatusOf(S, t).conflicts :: c.name == name) <==> name in ConflictNames(S, t)
    ensures forall c <- StatusOf(S, t).conflicts :: c == ConflictFor(S, c.name)
  {
    StringKeysInjective(ConflictNames(S, t));
    var names, cs := Ordered(ConflictNames(S, t), StringKey), Conflicts(S, t);
    if name in ConflictNames(S, t) {
      var i :| 0 <= i < |names| && names[i] == name;
      assert cs[i] in cs && cs[i].name == name;
    }
    if c :| c in cs && c.name == name {
      var i :| 0 <= i < |cs| && cs[i] == c;
      assert names[i] == name;
    }
  }

  /** A name is left in conflict exactly when a quarantined record bears it; its candidates are
      then all records of that name in all stores, with the digests of the stores they are in. */
  lemma ConflictsExactly(S: set<Source>, t: Target, name: string)
    requires WellFormed(S)
    ensures (exists c <- StatusOf(S, t).conflicts :: c.name == name) <==>
              exists s, r :: s in S && r in s.records && r.name == Some(name) && Quarantined(S, t, r.sessionId)
    ensures forall c, k | c in StatusOf(S, t).conflicts && c.name == name ::
              k in c.candidates <==>
                exists s, r :: s in S && r in s.records && r.name == Some(name)
                  && k == Candidate(s.path, s.digest, Some(name), r.sessionId, r.threadId, r.profile)
    ensures forall c, d | c in StatusOf(S, t).conflicts && c.name == name ::
              d in c.digests <==> exists s, r :: s in S && r in s.records && r.name == Some(name) && s.digest == d
  {
    QuarantinedNames(S, t, name);
    ConflictsByName(S, t, name);
    CandidateKeysInjective(S, name);
    forall k ensures k in ConflictFor(S, name).candidates <==>
        exists s, r :: s in S && r in s.records && r.name == Some(name)
          && k == Candidate(s.path, s.digest, Some(name), r.sessionId, r.threadId, r.profile) {
      CandidatesExactly(S, name, k);
    }
    forall d ensures d in ConflictFor(S, name).digests <==>
        exists s, r :: s in S && r in s.records && r.name == Some(name) && s.digest == d {
      DigestsExactly(S, name, d);
    }
  }

  lemma DigestsExactly(S: set<Source>, name: string, d: string)
    ensures d in DigestsOf(CandidatesFor(S, name)) <==>
              exists s, r :: s in S && r in s.records && r.name == Some(name) && s.digest == d
  {
    if d in DigestsOf(CandidatesFor(S, name)) {
      var k :| k in CandidatesFor(S, name) && k.digest == d;
      CandidatesExactly(S, name, k);
    }
    if s, r :| s in S && r in s.records && r.name == Some(name) && s.digest == d {
      var k := Candidate(s.path, s.digest, Some(name), r.sessionId, r.threadId, r.profile);
      CandidatesExactly(S, name, k);
    }
  }
}
