// Crash convergence of the import: however often it is stopped between two publishes, the
// run that finishes leaves what one uninterrupted run would have left.

module MigrationImport {
  import opened Prelude
  import opened LegacyStores
  import opened CallbackProjection
  import opened MigrationPlan
  import opened MigrationSoundness
  import opened MigrationCommit

  ghost function ImportLedger(S: set<Source>, d: Disk): Ledger
    requires WellFormed(S) && ValidDisk(d)
  {
    Ledger(PlanOf(S, TargetOf(d)).status, [])
  }

  /** `scan_and_apply` without a pending resolution, stopped after `budget` publishes. */
  ghost function Import(d: Disk, S: set<Source>, budget: nat): Run
    requires WellFormed(S) && ValidDisk(d)
  {
    if d.ledger.Some? then Run(d, Done)
    else if !Plannable(S, TargetOf(d)) then Run(d, Failed)
    else CommitFrom(d, PlanOf(S, TargetOf(d)), ImportLedger(S, d), 0, budget)
  }

  lemma PrefixIsHalfCommitted(d: Disk, S: set<Source>, j: nat)
    requires WellFormed(S) && ValidDisk(d) && Plannable(S, TargetOf(d))
    ensures var P := PlanOf(S, TargetOf(d));
            HalfCommitted(S, TargetOf(d), TargetOf(Prefix(d, P, ImportLedger(S, d), j)))
  {
    PlanIsCommittable(S, d);
    PrefixKeepsCommittable(d, PlanOf(S, TargetOf(d)), ImportLedger(S, d), j);
  }

  /** One more attempt from any prefix reaches a longer prefix of the same commit. */
  lemma ImportFromPrefix(d: Disk, S: set<Source>, j: nat, b: nat)
    requires WellFormed(S) && ValidDisk(d) && d.ledger.None? && Plannable(S, TargetOf(d))
    requires j <= Limit(PlanOf(S, TargetOf(d)))
    ensures var P, L := PlanOf(S, TargetOf(d)), ImportLedger(S, d);
            var e := Prefix(d, P, L, j);
            && ValidDisk(e)
            && (var b' := if b < Limit(P) then b else Limit(P);
                Import(e, S, b).disk == Prefix(d, P, L, if j < b' then b' else j))
            && (Import(e, S, b).outcome == Done <==> Bound(P.callbacks) && (b >= Limit(P) || j == Limit(P)))
            && (Import(e, S, b).outcome == Failed <==> !Bound(P.callbacks) && b > Limit(P))
  {
    var P, L := PlanOf(S, TargetOf(d)), ImportLedger(S, d);
    var e := Prefix(d, P, L, j);
    PlanIsCommittable(S, d);
    PrefixIsHalfCommitted(d, S, j);
    ReplanIsSame(S, TargetOf(d), TargetOf(e));
    if e.ledger.None? {
      assert ImportLedger(S, e) == L;
      PrefixKeepsCommittable(d, P, L, j);
      CommitReachesPrefix(e, P, L, b);
      PrefixOverPrefix(d, P, L, j, if b < Limit(P) then b else Limit(P));
    }
  }

  /** The disk after one attempt per budget. */
  ghost function AfterCrashes(d: Disk, S: set<Source>, budgets: seq<nat>): (e: Disk)
    requires WellFormed(S) && ValidDisk(d)
    ensures ValidDisk(e)
    decreases |budgets|
  {
    if budgets == [] then d
    else
      ImportKeepsValid(d, S, budgets[0]);
      AfterCrashes(Import(d, S, budgets[0]).disk, S, budgets[1..])
  }

  lemma ImportKeepsValid(d: Disk, S: set<Source>, b: nat)
    requires WellFormed(S) && ValidDisk(d)
    ensures ValidDisk(Import(d, S, b).disk)
  {
    if d.ledger.None? && Plannable(S, TargetOf(d)) {
      var P := PlanOf(S, TargetOf(d));
      PlanIsCommittable(S, d);
      CommitReachesPrefix(d, P, ImportLedger(S, d), b);
      PrefixIsHalfCommitted(d, S, if b < Limit(P) then b else Limit(P));
      HalfCommittedElems(S, TargetOf(d), TargetOf(Import(d, S, b).disk));
    }
  }

  lemma {:induction false} CrashesLeaveAPrefix(d: Disk, S: set<Source>, j: nat, budgets: seq<nat>) returns (k: nat)
    requires WellFormed(S) && ValidDisk(d) && d.ledger.None? && Plannable(S, TargetOf(d))
    requires j <= Limit(PlanOf(S, TargetOf(d)))
    ensures k <= Limit(PlanOf(S, TargetOf(d)))
    ensures var e := Prefix(d, PlanOf(S, TargetOf(d)), ImportLedger(S, d), j);
            ValidDisk(e) && AfterCrashes(e, S, budgets) == Prefix(d, PlanOf(S, TargetOf(d)), ImportLedger(S, d), k)
    decreases |budgets|
  {
    var P, L := PlanOf(S, TargetOf(d)), ImportLedger(S, d);
    ImportFromPrefix(d, S, j, 0);
    if budgets == [] {
      k := j;
    } else {
      ImportFromPrefix(d, S, j, budgets[0]);
      var b' := if budgets[0] < Limit(P) then budgets[0] else Limit(P);
      k := CrashesLeaveAPrefix(d, S, if j < b' then b' else j, budgets[1..]);
    }
  }

  /** Crash convergence: after any number of attempts, each stopped anywhere in its commit,
      the attempt that is not stopped ends in the disk and outcome of a single undisturbed
      import of the starting disk. */
  lemma ImportConverges(d: Disk, S: set<Source>, budgets: seq<nat>, b: nat, c: nat)
    requires WellFormed(S) && ValidDisk(d)
    requires Import(AfterCrashes(d, S, budgets), S, b).outcome != Crashed
    requires Import(d, S, c).outcome != Crashed
    ensures Import(AfterCrashes(d, S, budgets), S, b) == Import(d, S, c)
  {
    if d.ledger.Some? || !Plannable(S, TargetOf(d)) {
      CrashesChangeNothing(d, S, budgets);
    } else {
      var P, L := PlanOf(S, TargetOf(d)), ImportLedger(S, d);
      assert Prefix(d, P, L, 0) == d;
      var k := CrashesLeaveAPrefix(d, S, 0, budgets);
      ImportFromPrefix(d, S, 0, c);
      ImportFromPrefix(d, S, k, b);
    }
  }

  lemma {:induction false} CrashesChangeNothing(d: Disk, S: set<Source>, budgets: seq<nat>)
    requires WellFormed(S) && ValidDisk(d)
    requires d.ledger.Some? || !Plannable(S, TargetOf(d))
    ensures AfterCrashes(d, S, budgets) == d
    decreases |budgets|
  {
    if budgets != [] {
      CrashesChangeNothing(d, S, budgets[1..]);
    }
  }

  /** Exactly when an undisturbed import completes: the merge is plannable and no imported
      outbox entry is left without a binding. Otherwise it fails with no ledger. */
  lemma ImportCompletes(d: Disk, S: set<Source>, b: nat)
    requires WellFormed(S) && ValidDisk(d) && d.ledger.None?
    requires Import(d, S, b).outcome != Crashed
    ensures var r := Import(d, S, b);
            && (r.outcome == Done <==> Plannable(S, TargetOf(d)) && Bound(PlanOf(S, TargetOf(d)).callbacks))
            && (r.outcome == Failed ==> r.disk.ledger.None? && r.disk.callbacks == d.callbacks)
            && (r.outcome == Done ==>
                  var P := PlanOf(S, TargetOf(d));
                  && r.disk.registry == P.records && r.disk.callbacks == P.callbacks
                  && r.disk.ledger == Some(Ledger(P.status, []))
                  && (forall a | a in P.artifacts :: a.eventId in r.disk.artifacts && r.disk.artifacts[a.eventId] == a.completion)
                  && (forall id | id in d.artifacts :: id in r.disk.artifacts && r.disk.artifacts[id] == d.artifacts[id]))
  {
    if Plannable(S, TargetOf(d)) {
      var P, L := PlanOf(S, TargetOf(d)), ImportLedger(S, d);
      PlanIsCommittable(S, d);
      CommitReachesPrefix(d, P, L, b);
      if Bound(P.callbacks) {
        forall a | a in P.artifacts ensures a.eventId in Published(d.artifacts, P.artifacts) && Published(d.artifacts, P.artifacts)[a.eventId] == a.completion {
          PublishedLookup(d.artifacts, P.artifacts, a.eventId);
        }
        forall id | id in d.artifacts
          ensures id in Published(d.artifacts, P.artifacts) && Published(d.artifacts, P.artifacts)[id] == d.artifacts[id]
        {
          PublishedLookup(d.artifacts, P.artifacts, id);
        }
      }
    }
  }

  /** After an import that completes, every imported event that refers to a file has it on disk,
      with the content it names. */
  lemma ImportedReferencesResolve(d: Disk, S: set<Source>, b: nat)
    requires WellFormed(S) && ValidDisk(d) && d.ledger.None? && Import(d, S, b).outcome == Done
    ensures var e := Import(d, S, b).disk;
            forall x, a | x in e.callbacks.outbox && x !in d.callbacks.outbox && ArtifactOf(x) == Some(a) ::
              a.eventId in e.artifacts && e.artifacts[a.eventId] == a.completion
  {
    ImportCompletes(d, S, b);
    PlannedReferences(S, TargetOf(d));
  }

  /** Legacy and global stores written by the callback store itself always merge into a
      bound store, so their imports complete. */
  lemma BoundStoresImport(S: set<Source>, t: Target)
    requires WellFormed(S) && ValidTarget(t) && Projectable(S)
    requires Bound(t.callbacks) && forall s | s in S :: Bound(Callbacks(s.bindings, s.outbox))
    ensures Bound(MergedCallbacks(S, t))
  {
    var m := MergedCallbacks(S, t);
    forall e | e in m.outbox ensures exists b :: b in m.bindings && b.sessionId == e.sessionId {
      if e in t.callbacks.outbox {
        var b :| b in t.callbacks.bindings && b.sessionId == e.sessionId;
        assert b in m.bindings;
      } else {
        var p :| p in AllProjected(S) && p.entry == e;
        var s, e0 :| s in S && e0 in s.outbox && ProjectIn(s, e0).Ok? && p == ProjectIn(s, e0).value;
        assert ValidSource(s);
        ProjectInKeepsIds(s, e0);
        var b :| b in s.bindings && b.sessionId == e0.sessionId;
        assert b in AllBindings(S) && b in m.bindings;
      }
    }
  }

  /** A legacy store with an event whose session was never bound: planning accepts it, the
      registry is replaced, and every import then fails before the ledger is written. */
  lemma UnboundEventStallsImport(d: Disk, S: set<Source>, b: nat, c: nat)
    requires WellFormed(S) && ValidDisk(d) && d.ledger.None? && Plannable(S, TargetOf(d))
    requires !Bound(PlanOf(S, TargetOf(d)).callbacks)
    requires b > Limit(PlanOf(S, TargetOf(d))) && c > Limit(PlanOf(S, TargetOf(d)))
    ensures Import(d, S, b).outcome == Failed
    ensures Import(d, S, b).disk.registry == PlanOf(S, TargetOf(d)).records
    ensures ValidDisk(Import(d, S, b).disk) && Import(Import(d, S, b).disk, S, c) == Import(d, S, b)
  {
    var P, L := PlanOf(S, TargetOf(d)), ImportLedger(S, d);
    assert Prefix(d, P, L, 0) == d;
    ImportFromPrefix(d, S, 0, b);
    ImportFromPrefix(d, S, Limit(P), c);
  }

  const LONE_RECORD := Record("s", "t", Some("n"), Profile("/", "a", "b", None, None, None, None), None)

  const LONE_ENTRY := Entry("e", "s", None, Written, 1, None)

  /** One record and one delivered event, but no binding. */
  const UNBOUND_SOURCE := Source("/legacy", "digest", [LONE_RECORD], {}, {LONE_ENTRY}, map[])

  lemma UnboundSourceSets()
    ensures AllRecords({UNBOUND_SOURCE}) == {LONE_RECORD}
    ensures AllProjected({UNBOUND_SOURCE}) == {Projected(LONE_ENTRY, None)}
    ensures AllEntries({UNBOUND_SOURCE}) == {LONE_ENTRY}
  {
    var s, r, e := UNBOUND_SOURCE, LONE_RECORD, LONE_ENTRY;
    assert s.records[|s.records| - 1] == r;
    assert ProjectIn(s, e) == Ok(Projected(e, None));
    assert r in s.records && s in {s};
    forall x | x in AllRecords({s}) ensures x == r {
      var s', r' :| s' in {s} && r' in s'.records && x == r';
    }
    assert Projected(e, None) in AllProjected({s});
    forall p | p in AllProjected({s}) ensures p == Projected(e, None) {}
  }

  /** Such a store exists. */
  lemma UnboundEventExample()
    ensures var d := Disk([], Callbacks({}, {}), map[], None, None);
            && WellFormed({UNBOUND_SOURCE}) && ValidDisk(d) && Plannable({UNBOUND_SOURCE}, TargetOf(d))
            && !Bound(PlanOf({UNBOUND_SOURCE}, TargetOf(d)).callbacks)
  {
    var t := Target([], Callbacks({}, {}), map[]);
    UnboundSourceSets();
    LoneSelected(t);
    LoneProjects();
    LoneIsUnbound(t);
  }

  lemma LoneIsUnbound(t: Target)
    requires t == Target([], Callbacks({}, {}), map[])
    ensures !Bound(MergedCallbacks({UNBOUND_SOURCE}, t))
  {
    UnboundSourceSets();
    LoneSelected(t);
    assert LONE_ENTRY in MergedCallbacks({UNBOUND_SOURCE}, t).outbox;
  }

  lemma LoneProjects()
    ensures WellFormed({UNBOUND_SOURCE}) && Projectable({UNBOUND_SOURCE})
  {
    assert FindRecord(UNBOUND_SOURCE.records, "s") == Some(LONE_RECORD);
  }

  lemma LoneSelected(t: Target)
    requires t == Target([], Callbacks({}, {}), map[])
    ensures !Quarantined({UNBOUND_SOURCE}, t, "s") && Selected({UNBOUND_SOURCE}, t, "s")
    ensures SelectedArtifacts({UNBOUND_SOURCE}, t) == {}
  {
    UnboundSourceSets();
    assert LONE_RECORD in AllRecords({UNBOUND_SOURCE});
  }
}
