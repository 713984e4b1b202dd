// Two legacy stores that dispute a name, imported and then resolved: the concrete disks at which
// a rollback cut short leaves a mix behind, or a resolution that no restart can finish.

module MigrationMixing {
  import opened Prelude
  import opened Ordering
  import opened LegacyStores
  import opened MigrationPlan
  import opened MigrationContracts
  import opened MigrationLedger
  import opened MigrationCommit
  import opened MigrationImport
  import opened MigrationResolve
  import opened MigrationRecovery
  import opened MigrationRollback
  import opened MigrationInterference

  const PROFILE := Profile("/", "a", "b", None, None, None, None)

  const FIRST := Record("s1", "t1", Some("n"), PROFILE, None)

  const SECOND := Record("s2", "t2", Some("n"), PROFILE, None)

  const BINDING := Binding("s1", Disabled, None, "c", None)

  const STORE_A := Source("/a", "da", [FIRST], {BINDING}, {}, map[])

  const STORE_B := Source("/b", "db", [SECOND], {}, {}, map[])

  const STORES := {STORE_A, STORE_B}

  /** Choosing the first record for the disputed name. */
  const CHOICE := Resolution("n", "t1", None)

  const NO_CALLBACKS := Callbacks({}, {})

  /** The global service before the import, with or without the first record. */
  function Global(present: bool): Disk {
    Disk(if present then [FIRST] else [], NO_CALLBACKS, map[], None, None)
  }

  /** What the import leaves: the ledger with the conflict, and nothing of the legacy stores. */
  ghost function ImportedDisk(present: bool): Disk
    requires WellFormed(STORES)
  {
    Global(present).(ledger := Some(Ledger(StatusOf(STORES, TargetOf(Global(present))), [])))
  }

  lemma StoresWellFormed()
    ensures WellFormed(STORES)
  {}

  lemma StoreRecords()
    ensures AllRecords(STORES) == {FIRST, SECOND}
  {
    assert FIRST in STORE_A.records && SECOND in STORE_B.records && STORE_A in STORES && STORE_B in STORES;
  }

  lemma StoreItems()
    ensures AllItems(STORES) == {Item("/a", "da", FIRST), Item("/b", "db", SECOND)}
  {
    assert FIRST in STORE_A.records && SECOND in STORE_B.records && STORE_A in STORES && STORE_B in STORES;
    assert Item("/a", "da", FIRST) in AllItems(STORES) && Item("/b", "db", SECOND) in AllItems(STORES);
  }

  lemma StoreCallbacks()
    ensures AllBindings(STORES) == {BINDING} && AllProjected(STORES) == {} && AllEntries(STORES) == {}
  {
    assert BINDING in AllBindings(STORES);
  }

  lemma BothQuarantined(t: Target)
    ensures Quarantined(STORES, t, "s1") && Quarantined(STORES, t, "s2")
  {
    StoreRecords();
    assert Clash(FIRST, SECOND) && Clash(SECOND, FIRST);
    assert FIRST in AllRecords(STORES) && SECOND in AllRecords(STORES);
    assert RecordDisputed(STORES, t, "s1") && RecordDisputed(STORES, t, "s2");
  }

  lemma EveryRecordQuarantined(t: Target)
    ensures forall r <- AllRecords(STORES) :: r.name == Some("n") && Quarantined(STORES, t, r.sessionId)
  {
    StoreRecords();
    BothQuarantined(t);
  }

  lemma OnlyName(t: Target)
    ensures ConflictNames(STORES, t) == {"n"}
  {
    StoreRecords();
    EveryRecordQuarantined(t);
    assert FIRST in AllRecords(STORES);
  }

  lemma NothingSelected(t: Target)
    ensures SelectedRecords(STORES, t) == {} && SelectedBindings(STORES, t) == {}
    ensures SelectedEntries(STORES, t) == {} && SelectedArtifacts(STORES, t) == {}
  {
    StoreCallbacks();
    EveryRecordQuarantined(t);
    BothQuarantined(t);
  }

  lemma OneListing<T(!new)>(xs: seq<T>, x: T, key: T -> Key)
    requires Listing(xs, {x}, key)
    ensures xs == [x]
  {
    assert Listing([x], {x}, key);
    ListingUnique(xs, [x], {x}, key);
  }

  lemma EmptyListing<T(!new)>(xs: seq<T>, key: T -> Key)
    requires Listing(xs, {}, key)
    ensures xs == []
  {
    ListingUnique(xs, [], {}, key);
  }

  lemma StoresProject()
    ensures Projectable(STORES)
  {
    assert FindRecord(STORE_A.records, "s1") == Some(FIRST);
  }

  lemma StoresPlannable(t: Target)
    ensures Plannable(STORES, t)
  {
    StoresProject();
    EveryRecordQuarantined(t);
    NothingSelected(t);
  }

  lemma NothingMerged(t: Target)
    ensures MergedRecords(STORES, t) == Elems(t.records)
    ensures MergedCallbacks(STORES, t) == t.callbacks
  {
    NothingSelected(t);
  }

  lemma PlanShape(present: bool)
    ensures WellFormed(STORES) && ValidDisk(Global(present))
    ensures var P := PlanOf(STORES, TargetOf(Global(present)));
            && P.records == Global(present).registry && P.callbacks == NO_CALLBACKS && P.artifacts == []
            && P.status == StatusOf(STORES, TargetOf(Global(present)))
  {
    var t := TargetOf(Global(present));
    StoresWellFormed();
    NothingMerged(t);
    NothingSelected(t);
    MergedRecordsUnique(STORES, t);
    RecordKeysInjective(MergedRecords(STORES, t));
    ArtifactKeysInjective(STORES, t);
    RecordsShape(present, Ordered(MergedRecords(STORES, t), RecordKey));
    EmptyListing(Ordered(SelectedArtifacts(STORES, t), ArtifactKey), ArtifactKey);
  }

  lemma RecordsShape(present: bool, records: seq<Record>)
    requires Listing(records, Elems(Global(present).registry), RecordKey)
    ensures records == Global(present).registry
  {
    if present {
      assert Elems(Global(present).registry) == {FIRST};
      OneListing(records, FIRST, RecordKey);
    } else {
      assert Elems(Global(present).registry) == {};
      EmptyListing(records, RecordKey);
    }
  }

  /** The import of the two stores completes with exactly that disk. */
  lemma ImportLeaves(present: bool)
    ensures WellFormed(STORES) && ValidDisk(Global(present)) && ValidDisk(ImportedDisk(present))
    ensures Import(Global(present), STORES, 3) == Run(ImportedDisk(present), Done)
  {
    StoresWellFormed();
    PlanShape(present);
    StoresPlannable(TargetOf(Global(present)));
    PlanIsCommittable(STORES, Global(present));
    CommitReachesPrefix(Global(present), PlanOf(STORES, TargetOf(Global(present))), ImportLedger(STORES, Global(present)), 3);
  }

  lemma TwoCandidates()
    ensures WellFormed(STORES)
    ensures ConflictFor(STORES, "n").candidates
            == [CandidateOf(Item("/a", "da", FIRST)), CandidateOf(Item("/b", "db", SECOND))]
  {
    StoresWellFormed();
    StoreItems();
    var a, b := CandidateOf(Item("/a", "da", FIRST)), CandidateOf(Item("/b", "db", SECOND));
    CandidateKeysInjective(STORES, "n");
    assert CandidatesFor(STORES, "n") == {a, b} by {
      assert Item("/a", "da", FIRST) in AllItems(STORES) && Item("/b", "db", SECOND) in AllItems(STORES);
    }
    TwoListing(ConflictFor(STORES, "n").candidates, a, b);
  }

  lemma TwoListing(xs: seq<Candidate>, a: Candidate, b: Candidate)
    requires a.path == "/a" && b.path == "/b" && Listing(xs, {a, b}, CandidateKey)
    ensures xs == [a, b]
  {
    assert LexLt("/a", "/b");
    assert Listing([a, b], {a, b}, CandidateKey);
    ListingUnique(xs, [a, b], {a, b}, CandidateKey);
  }

  lemma OnlyConflict(t: Target)
    ensures WellFormed(STORES)
    ensures Conflicts(STORES, t) == [ConflictFor(STORES, "n")]
  {
    StoresWellFormed();
    OnlyName(t);
    StringKeysInjective(ConflictNames(STORES, t));
    OneListing(Ordered(ConflictNames(STORES, t), StringKey), "n", StringKey);
  }

  lemma AllConflicted(t: Target)
    ensures WellFormed(STORES)
    ensures forall v <- Views(STORES, t) :: v.outcome == Conflicted
  {
    StoresWellFormed();
    BothQuarantined(t);
    StoreItems();
    var xs, vs := OrderedItems(STORES), Views(STORES, t);
    forall j | 0 <= j < |vs| ensures vs[j].outcome == Conflicted {
      assert xs[j] in AllItems(STORES);
    }
  }

  lemma FirstIsViewed(t: Target) returns (i: nat)
    ensures WellFormed(STORES) && i < |Views(STORES, t)|
    ensures ViewOf(Views(STORES, t)[i], CandidateOf(Item("/a", "da", FIRST)))
  {
    StoresWellFormed();
    StoreItems();
    assert Item("/a", "da", FIRST) in OrderedItems(STORES);
    i :| 0 <= i < |OrderedItems(STORES)| && OrderedItems(STORES)[i] == Item("/a", "da", FIRST);
  }

  lemma ChoiceIsOpen(t: Target)
    ensures WellFormed(STORES) && Resolvable(StatusOf(STORES, t).sources, CandidateOf(Item("/a", "da", FIRST)))
  {
    AllConflicted(t);
    var i := FirstIsViewed(t);
    assert Views(STORES, t)[i] in Views(STORES, t);
  }

  lemma OwnCallbacks()
    ensures FIRST.(name := Some("n")) == FIRST
    ensures OwnBindings(STORE_A, FIRST) == {BINDING} && OwnProjected(STORE_A, FIRST, FIRST) == {}
    ensures OwnEntries(STORE_A, FIRST, FIRST) == {} && OwnArtifacts(STORE_A, FIRST, FIRST) == {}
    ensures CallbacksWith(NO_CALLBACKS, STORE_A, FIRST, FIRST) == Callbacks({BINDING}, {})
    ensures OwnEventsProject(STORE_A, FIRST, FIRST)
  {}

  /** Once the first candidate is chosen, nothing refuses it. */
  lemma ChosenProceeds(present: bool, d: Disk)
    requires ValidDisk(d) && d.ledger.Some? && d.callbacks == NO_CALLBACKS
    requires d.registry == Global(present).registry
    requires Resolvable(d.ledger.value.status.sources, CandidateOf(Item("/a", "da", FIRST)))
    ensures ValidSource(STORE_A)
    ensures var p := DecideChosen(d, STORE_A, FIRST, CandidateOf(Item("/a", "da", FIRST)), CHOICE);
            p.Proceed? && p.selected == FIRST && p.plan.artifacts == [] && p.plan.callbacks == Callbacks({BINDING}, {})
  {
    OwnCallbacks();
    var p := DecideChosen(d, STORE_A, FIRST, CandidateOf(Item("/a", "da", FIRST)), CHOICE);
    OwnArtifactKeysInjective(STORE_A, FIRST, FIRST);
    EmptyListing(Ordered(OwnArtifacts(STORE_A, FIRST, FIRST), ArtifactKey), ArtifactKey);
  }

  /** Deciding on the imported disk finds the conflict, its first candidate, store and record. */
  lemma ChoiceIsFirst(d: Disk, sources: seq<Source>)
    requires WellFormed(STORES) && ValidDisk(d) && sources == [STORE_A, STORE_B] && d.intent.None?
    requires d.ledger.Some? && d.ledger.value.resolutions == []
    requires d.ledger.value.status.conflicts == [ConflictFor(STORES, "n")]
    ensures ValidSources(sources)
    ensures Decide(d, sources, CHOICE) == DecideChosen(d, STORE_A, FIRST, CandidateOf(Item("/a", "da", FIRST)), CHOICE)
  {
    TwoCandidates();
    var c, k := ConflictFor(STORES, "n"), CandidateOf(Item("/a", "da", FIRST));
    assert FindConflict([c], "n") == Some(c);
    var other := CandidateOf(Item("/b", "db", SECOND));
    assert OnThread([other], "t1") == [];
    assert c.candidates[1..] == [other];
    assert OnThread(c.candidates, "t1") == [k];
    assert FindSource(sources, "/a", "da") == Some(STORE_A);
    assert FindOriginal(STORE_A.records, "s1", "t1") == Some(FIRST);
  }

  /** Resolving the imported conflict may proceed: the record to add is the first one, its one
      binding is new, and there are no artifacts. */
  lemma ChoiceProceeds(present: bool)
    ensures WellFormed(STORES)
    ensures Starts(ImportedDisk(present), [STORE_A, STORE_B], CHOICE)
    ensures var p := Decide(ImportedDisk(present), [STORE_A, STORE_B], CHOICE);
            p.selected == FIRST && p.plan.artifacts == [] && p.plan.callbacks == Callbacks({BINDING}, {})
  {
    var t := TargetOf(Global(present));
    ImportLeaves(present);
    OnlyConflict(t);
    ChoiceIsOpen(t);
    ChosenProceeds(present, ImportedDisk(present));
    ChoiceIsFirst(ImportedDisk(present), [STORE_A, STORE_B]);
  }

  /** An exception after the new ledger, and a rollback cut short after `i` publishes. */
  function CutShort(i: nat): Stop {
    Stop(4, true, i)
  }

  /** What such a run leaves. */
  lemma CutShortDisk(present: bool, i: nat) returns (m: Disk)
    requires 1 <= i <= 2
    ensures WellFormed(STORES) && Starts(ImportedDisk(present), [STORE_A, STORE_B], CHOICE)
    ensures m == Resolve(ImportedDisk(present), [STORE_A, STORE_B], CHOICE, CutShort(i)).disk
    ensures var p := Decide(ImportedDisk(present), [STORE_A, STORE_B], CHOICE);
            && p.selected == FIRST && p.plan.artifacts == [] && p.plan.callbacks == Callbacks({BINDING}, {})
            && m == Midway(ImportedDisk(present), CHOICE, p.plan, p.ledger, 3, i) && m.intent == Some(CHOICE)
  {
    ChoiceProceeds(present);
    DisturbedRunIsMidway(ImportedDisk(present), [STORE_A, STORE_B], CHOICE, CutShort(i));
    AstrayDisk(ImportedDisk(present), [STORE_A, STORE_B], CHOICE, i);
    m := Resolve(ImportedDisk(present), [STORE_A, STORE_B], CHOICE, CutShort(i)).disk;
  }

  /** The mix: with the first record in the registry before, the rollback stops right after it
      restored the callbacks, the next restart finds the resolution in the ledger and its record
      in the registry, and removes the intent over the new ledger and the old callbacks. */
  lemma MixedDisk() returns (e: Disk)
    ensures WellFormed(STORES) && Starts(ImportedDisk(true), [STORE_A, STORE_B], CHOICE)
    ensures RestartsLead(Resolve(ImportedDisk(true), [STORE_A, STORE_B], CHOICE, CutShort(2)).disk, [STORE_A, STORE_B], [1], e)
    ensures var p := Decide(ImportedDisk(true), [STORE_A, STORE_B], CHOICE);
            && e.intent.None? && !Whole(ImportedDisk(true), p.plan, p.ledger, e)
            && e.ledger == Some(p.ledger) && e.callbacks == NO_CALLBACKS
  {
    var m := CutShortDisk(true, 2);
    e := MixedAfterRestart(m);
    assert RestartsLead(e, [STORE_A, STORE_B], [], e);
    assert [1 as nat][1..] == [];
  }

  lemma MixedAfterRestart(m: Disk) returns (e: Disk)
    requires WellFormed(STORES) && Starts(ImportedDisk(true), [STORE_A, STORE_B], CHOICE) && m.intent == Some(CHOICE)
    requires var p := Decide(ImportedDisk(true), [STORE_A, STORE_B], CHOICE);
             && p.selected == FIRST && p.plan.artifacts == [] && p.plan.callbacks == Callbacks({BINDING}, {})
             && m == Midway(ImportedDisk(true), CHOICE, p.plan, p.ledger, 3, 2)
    ensures ValidDisk(m) && ValidDisk(e) && e == Recover(m, [STORE_A, STORE_B], 1)
    ensures var p := Decide(ImportedDisk(true), [STORE_A, STORE_B], CHOICE);
            && e.intent.None? && !Whole(ImportedDisk(true), p.plan, p.ledger, e)
            && e.ledger == Some(p.ledger) && e.callbacks == NO_CALLBACKS
  {
    var d, sources := ImportedDisk(true), [STORE_A, STORE_B];
    AstrayDisk(d, sources, CHOICE, 2);
    assert m == m.(intent := Some(CHOICE));
    RestartAstray(d, sources, CHOICE, 2, Some(CHOICE), 1);
    RestartAstray(d, sources, CHOICE, 2, None, 0);
    e := Recover(m, sources, 1);
  }

  /** The dead end: without it in the registry before, every restart is refused at the new ledger,
      and the intent stays over the mix of a new ledger and an old registry. */
  lemma StuckDisk(i: nat) returns (m: Disk)
    requires 1 <= i <= 2
    ensures WellFormed(STORES) && Starts(ImportedDisk(false), [STORE_A, STORE_B], CHOICE)
    ensures m == Resolve(ImportedDisk(false), [STORE_A, STORE_B], CHOICE, CutShort(i)).disk
    ensures var p := Decide(ImportedDisk(false), [STORE_A, STORE_B], CHOICE);
            && !Replayable(ImportedDisk(false), p.plan, p.selected, 3, i)
            && forall bs, end | RestartsLead(m, [STORE_A, STORE_B], bs, end) ::
                 end.intent == Some(CHOICE) && end.ledger == Some(p.ledger) && FIRST !in end.registry
  {
    var d, sources := ImportedDisk(false), [STORE_A, STORE_B];
    m := CutShortDisk(false, i);
    AstrayDisk(d, sources, CHOICE, i);
    assert m == m.(intent := Some(CHOICE));
    forall bs, end | RestartsLead(m, sources, bs, end) ensures end == m {
      RestartsAstray(d, sources, CHOICE, i, Some(CHOICE), bs, end);
    }
  }

  /** A resolution without artifacts, stopped before it removes its intent. */
  lemma AllButIntent(d: Disk, sources: seq<Source>, res: Resolution) returns (e: Disk)
    requires Starts(d, sources, res)
    requires var p := Decide(d, sources, res); p.plan.artifacts == [] && Bound(p.plan.callbacks)
    ensures e == Resolve(d, sources, res, Stop(4, false, 0)).disk && ValidDisk(e)
    ensures var p := Decide(d, sources, res);
            p.selected in e.registry && e.intent == Some(res) && e.ledger == Some(p.ledger)
  {
    var p := Decide(d, sources, res);
    ForwardFromForward(d, sources, res, 0, 4);
    ForwardEnds(d, sources, res);
    e := Forward(d, res, p.plan, p.ledger, 4);
    var s, original, k := ProceedParts(d, sources, res);
    ChosenPlanCommittable(d, s, original, k, res);
  }

  const OTHER := Record("s3", "t3", Some("m"), PROFILE, None)

  /** The lost record: the resolution wrote everything but could not remove its intent, the first
      session created after that rewrites the registry without the chosen record, and no restart
      ever brings it back or removes the intent. */
  lemma LostRecord() returns (e: Disk)
    ensures WellFormed(STORES) && Starts(ImportedDisk(false), [STORE_A, STORE_B], CHOICE)
    ensures e == Resolve(ImportedDisk(false), [STORE_A, STORE_B], CHOICE, Stop(4, false, 0)).disk
    ensures FIRST in e.registry && e.intent == Some(CHOICE)
    ensures SessionRegistries.AfterAll(ImportedDisk(false).registry, [SessionRegistries.CreateOp(OTHER)]) == [OTHER]
    ensures forall bs, end | RestartsLead(e.(registry := [OTHER]), [STORE_A, STORE_B], bs, end) :: end == e.(registry := [OTHER])
  {
    ChoiceProceeds(false);
    var d, sources := ImportedDisk(false), [STORE_A, STORE_B];
    e := AllButIntent(d, sources, CHOICE);
    forall bs, end | RestartsLead(e.(registry := [OTHER]), sources, bs, end) ensures end == e.(registry := [OTHER]) {
      RestartsOverNewLedger(d, sources, CHOICE, e, [OTHER], bs, end);
    }
  }
}
