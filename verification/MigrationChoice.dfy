// What a resolution brings in: the chosen candidate's record under its new name, its bindings,
// its events and the files they refer to, and exactly when a resolution may proceed.

module MigrationChoice {
  import opened Prelude
  import opened LegacyStores
  import opened CallbackProjection
  import opened MigrationPlan
  import opened MigrationLedger
  import opened MigrationCommit
  import opened MigrationResolve
  import opened MigrationRecovery
  import opened MigrationRollback
  import opened MigrationInterference

  /** The candidate on the thread that the resolution names, alone in the conflict of the disputed
      name, and its record in the store it came from. */
  ghost predicate Picks(d: Disk, sources: seq<Source>, res: Resolution, s: Source, original: Record, k: Candidate) {
    && d.ledger.Some?
    && (exists c :: c in d.ledger.value.status.conflicts && c.name == res.name && OnlyOnThread(c.candidates, k))
    && k.threadId == res.threadId
    && s in sources && s.path == k.path && s.digest == k.digest
    && original in s.records && original.sessionId == k.sessionId && original.threadId == k.threadId
  }

  ghost predicate OnlyOnThread(ks: seq<Candidate>, k: Candidate) {
    exists i :: 0 <= i < |ks| && ks[i] == k && forall j | 0 <= j < |ks| && ks[j].threadId == k.threadId :: j == i
  }

  /** The chosen record: the original under the name asked for, or under the disputed one. */
  predicate Adopted(r: Record, original: Record, res: Resolution) {
    && r.sessionId == original.sessionId && r.threadId == original.threadId
    && r.profile == original.profile && r.config == original.config && Asked(res, r.name)
  }

  predicate Asked(res: Resolution, name: Option<string>) {
    match res.asName
    case Some(m) => name == Some(m)
    case None => name == Some(res.name)
  }

  lemma {:induction false} OnThreadAlone(ks: seq<Candidate>, tid: string)
    ensures forall k :: OnThread(ks, tid) == [k] <==> OnlyOnThread(ks, k) && k.threadId == tid
    ensures (forall i | 0 <= i < |ks| :: ks[i].threadId != tid) <==> OnThread(ks, tid) == []
    decreases |ks|
  {
    if ks != [] {
      OnThreadAlone(ks[1..], tid);
      forall k ensures OnThread(ks, tid) == [k] <==> OnlyOnThread(ks, k) && k.threadId == tid {
        OnThreadStep(ks, tid, k);
      }
      assert forall i | 0 < i < |ks| :: ks[i] == ks[1..][i - 1];
    }
  }

  lemma OnThreadStep(ks: seq<Candidate>, tid: string, k: Candidate)
    requires ks != []
    requires OnThread(ks[1..], tid) == [k] <==> OnlyOnThread(ks[1..], k) && k.threadId == tid
    requires (forall i | 0 <= i < |ks[1..]| :: ks[1..][i].threadId != tid) <==> OnThread(ks[1..], tid) == []
    ensures OnThread(ks, tid) == [k] <==> OnlyOnThread(ks, k) && k.threadId == tid
  {
    var rest := ks[1..];
    assert forall i | 0 < i < |ks| :: ks[i] == rest[i - 1];
    if ks[0].threadId == tid {
      if OnThread(ks, tid) == [k] {
        assert OnThread(ks, tid)[0] == ks[0] && |OnThread(rest, tid)| == 0;
        assert ks[0] == k;
      }
    } else {
      if OnlyOnThread(rest, k) && k.threadId == tid {
        var i :| 0 <= i < |rest| && rest[i] == k && forall j | 0 <= j < |rest| && rest[j].threadId == k.threadId :: j == i;
        assert ks[i + 1] == k;
      }
      if OnlyOnThread(ks, k) && k.threadId == tid {
        var i :| 0 <= i < |ks| && ks[i] == k && forall j | 0 <= j < |ks| && ks[j].threadId == k.threadId :: j == i;
        assert rest[i - 1] == k;
      }
    }
  }

  /** A resolution that may proceed adopts the record it picks. */
  lemma ResolutionPicks(d: Disk, sources: seq<Source>, res: Resolution) returns (s: Source, original: Record, k: Candidate)
    requires ValidDisk(d) && ValidSources(sources) && Decide(d, sources, res).Proceed?
    ensures Picks(d, sources, res, s, original, k) && ChosenFrom(d, s, original, k, res)
    ensures Decide(d, sources, res) == DecideChosen(d, s, original, k, res)
    ensures Adopted(Decide(d, sources, res).selected, original, res)
  {
    var c := FindConflict(d.ledger.value.status.conflicts, res.name).value;
    FindConflictSound(d.ledger.value.status.conflicts, res.name);
    OnThreadAlone(c.candidates, res.threadId);
    k := OnThread(c.candidates, res.threadId)[0];
    assert OnThread(c.candidates, res.threadId) == [k];
    s := FindSource(sources, k.path, k.digest).value;
    FoundSource(sources, k.path, k.digest);
    FindOriginalSound(s.records, k.sessionId, k.threadId);
    original := FindOriginal(s.records, k.sessionId, k.threadId).value;
  }

  lemma {:induction false} FoundSource(ss: seq<Source>, path: string, digest: string)
    ensures FindSource(ss, path, digest).Some? ==>
              var s := FindSource(ss, path, digest).value; s in ss && s.path == path && s.digest == digest
    ensures FindSource(ss, path, digest).None? ==> forall s <- ss :: s.path != path || s.digest != digest
  {
    if ss != [] {
      FoundSource(ss[1..], path, digest);
    }
  }

  // ---- what the plan takes ----

  /** An event of the chosen session, projected onto the chosen record. */
  ghost predicate Brings(s: Source, original: Record, selected: Record, e0: Entry, q: Projected) {
    e0 in s.outbox && e0.sessionId == original.sessionId && ProjectEntry(e0, original, s.files, selected) == Ok(q)
  }

  /** The stores with the chosen record and all that belongs to it, and nothing else. */
  ghost predicate Takes(d: Disk, s: Source, original: Record, selected: Record, plan: Plan) {
    && (forall r :: r in plan.records <==> r in d.registry || r == selected)
    && (forall b :: b in plan.callbacks.bindings <==>
          b in d.callbacks.bindings || (b in s.bindings && b.sessionId == original.sessionId))
    && (forall e :: e in plan.callbacks.outbox <==>
          e in d.callbacks.outbox || exists e0, q :: Brings(s, original, selected, e0, q) && q.entry == e)
    && (forall a :: a in plan.artifacts <==> exists e0, q :: Brings(s, original, selected, e0, q) && q.artifact == Some(a))
  }

  lemma PlanTakes(d: Disk, s: Source, original: Record, k: Candidate, res: Resolution)
    requires ValidDisk(d) && d.ledger.Some? && ChosenFrom(d, s, original, k, res)
    ensures var p := DecideChosen(d, s, original, k, res); Takes(d, s, original, p.selected, p.plan)
    ensures forall e0 | e0 in s.outbox && e0.sessionId == original.sessionId ::
              exists q :: Brings(s, original, DecideChosen(d, s, original, k, res).selected, e0, q)
  {
    var p := DecideChosen(d, s, original, k, res);
    ChosenPlanCommittable(d, s, original, k, res);
    EntriesBrought(s, original, p.selected);
    ArtifactsBrought(s, original, p.selected);
    OwnArtifactKeysInjective(s, original, p.selected);
    forall e0 | e0 in s.outbox && e0.sessionId == original.sessionId
      ensures exists q :: Brings(s, original, p.selected, e0, q)
    {
      assert Brings(s, original, p.selected, e0, ProjectEntry(e0, original, s.files, p.selected).value);
    }
  }

  lemma EntriesBrought(s: Source, original: Record, selected: Record)
    ensures forall e :: e in OwnEntries(s, original, selected) <==>
              exists e0, q :: Brings(s, original, selected, e0, q) && q.entry == e
  {
    forall e0, q | Brings(s, original, selected, e0, q) ensures q in OwnProjected(s, original, selected) {}
    forall q | q in OwnProjected(s, original, selected) ensures exists e0 :: Brings(s, original, selected, e0, q) {
      var e0 :| e0 in s.outbox && e0.sessionId == original.sessionId && ProjectEntry(e0, original, s.files, selected) == Ok(q);
      assert Brings(s, original, selected, e0, q);
    }
  }

  lemma ArtifactsBrought(s: Source, original: Record, selected: Record)
    ensures forall a :: a in OwnArtifacts(s, original, selected) <==>
              exists e0, q :: Brings(s, original, selected, e0, q) && q.artifact == Some(a)
  {
    forall e0, q | Brings(s, original, selected, e0, q) ensures q in OwnProjected(s, original, selected) {}
    forall q | q in OwnProjected(s, original, selected) ensures exists e0 :: Brings(s, original, selected, e0, q) {
      var e0 :| e0 in s.outbox && e0.sessionId == original.sessionId && ProjectEntry(e0, original, s.files, selected) == Ok(q);
      assert Brings(s, original, selected, e0, q);
    }
  }

  /** Every reference among the events brought in has its file in the plan. */
  lemma ReferencesTaken(d: Disk, s: Source, original: Record, selected: Record, plan: Plan)
    requires ValidSource(s) && selected.sessionId == original.sessionId && Takes(d, s, original, selected, plan)
    ensures forall e, a | e in plan.callbacks.outbox && e !in d.callbacks.outbox && ArtifactOf(e) == Some(a) :: a in plan.artifacts
  {
    forall e, a | e in plan.callbacks.outbox && e !in d.callbacks.outbox && ArtifactOf(e) == Some(a) ensures a in plan.artifacts {
      var e0, q :| Brings(s, original, selected, e0, q) && q.entry == e;
      assert ValidEntry(e0);
      ProjectionRewritesIdentity(e0, original, s.files, selected, q);
    }
  }

  // ---- what it leaves ----

  /** Everything the resolution brought in is on disk, and nothing else changed. */
  ghost predicate Holds(d: Disk, s: Source, original: Record, r: Record, e: Disk) {
    && (forall x :: x in e.registry <==> x in d.registry || x == r)
    && (forall b :: b in e.callbacks.bindings <==>
          b in d.callbacks.bindings || (b in s.bindings && b.sessionId == original.sessionId))
    && (forall x :: x in e.callbacks.outbox <==>
          x in d.callbacks.outbox || exists e0, q :: Brings(s, original, r, e0, q) && q.entry == x)
    && (forall x, a | x in e.callbacks.outbox && x !in d.callbacks.outbox && ArtifactOf(x) == Some(a) ::
          a.eventId in e.artifacts && e.artifacts[a.eventId] == a.completion)
  }

  lemma FinishedHolds(d: Disk, sources: seq<Source>, res: Resolution)
    returns (s: Source, original: Record, k: Candidate, r: Record)
    requires Starts(d, sources, res)
    ensures r == Decide(d, sources, res).selected
    ensures Picks(d, sources, res, s, original, k) && Adopted(r, original, res)
    ensures var p := Decide(d, sources, res);
            Holds(d, s, original, r, Forward(d, res, p.plan, p.ledger, |p.plan.artifacts| + 5))
  {
    s, original, k := ResolutionPicks(d, sources, res);
    var p := Decide(d, sources, res);
    r := p.selected;
    ChosenPlanCommittable(d, s, original, k, res);
    PlanTakes(d, s, original, k, res);
    ReferencesTaken(d, s, original, r, p.plan);
    FilesPublished(d, p.plan);
  }

  lemma FilesPublished(d: Disk, plan: Plan)
    requires Committable(d, plan)
    ensures forall a | a in plan.artifacts ::
              a.eventId in Published(d.artifacts, plan.artifacts) && Published(d.artifacts, plan.artifacts)[a.eventId] == a.completion
  {
    forall a | a in plan.artifacts
      ensures a.eventId in Published(d.artifacts, plan.artifacts) && Published(d.artifacts, plan.artifacts)[a.eventId] == a.completion
    {
      PublishedLookup(d.artifacts, plan.artifacts, a.eventId);
    }
  }

  /** Under a new name, the disputed one goes to nobody. */
  ghost predicate NameLeft(d: Disk, res: Resolution, e: Disk) {
    res.asName.Some? && res.asName.value != res.name ==>
      forall x | x in e.registry && x.name == Some(res.name) :: x in d.registry
  }

  /** After an undisturbed resolution the registry is the old one and exactly one record more: the
      picked candidate's, changed only in its name. Its bindings and events are in the store, with
      every file they refer to. */
  lemma ResolutionAdopts(d: Disk, sources: seq<Source>, res: Resolution, b: nat)
    returns (s: Source, original: Record, k: Candidate, r: Record)
    requires Starts(d, sources, res)
    requires var p := Decide(d, sources, res); Bound(p.plan.callbacks) && b > |p.plan.artifacts| + 4
    ensures Picks(d, sources, res, s, original, k) && Adopted(r, original, res)
    ensures var run := Resolve(d, sources, res, Stop(b, false, 0));
            run.outcome == Resolved(r) && Holds(d, s, original, r, run.disk) && NameLeft(d, res, run.disk)
  {
    s, original, k, r := FinishedHolds(d, sources, res);
    ForwardFromForward(d, sources, res, 0, b);
  }

  /** So it is when it is stopped anywhere and replayed by restarts that are stopped anywhere. */
  lemma ReplayAdopts(d: Disk, sources: seq<Source>, res: Resolution, j: nat, bs: seq<nat>, mid: Disk, b: nat)
    returns (s: Source, original: Record, k: Candidate, r: Record)
    requires Starts(d, sources, res)
    requires var p := Decide(d, sources, res);
             && Bound(p.plan.callbacks) && 1 <= j <= |p.plan.artifacts| + 4 < b
             && RestartsLead(Resolve(d, sources, res, Stop(j, false, 0)).disk, sources, bs, mid)
    ensures Picks(d, sources, res, s, original, k) && Adopted(r, original, res) && ValidDisk(mid)
    ensures Holds(d, s, original, r, Recover(mid, sources, b)) && NameLeft(d, res, Recover(mid, sources, b))
  {
    s, original, k, r := FinishedHolds(d, sources, res);
    CrashThenReplayCompletes(d, sources, res, j, bs, mid, b);
  }

  // ---- when it may proceed ----

  /** Stores are told apart by path and digest, and offer each thread of a session once. */
  ghost predicate Apart(sources: seq<Source>) {
    forall s, x | s in sources && x in sources && s.path == x.path && s.digest == x.digest :: s == x
  }

  /** Nothing stands in the way of the chosen record: no record clashes with it, its events
      project, its binding and events are absent from the store or there unchanged, no file holds
      something else under their ids, and its source is still in conflict. */
  ghost predicate Unopposed(d: Disk, s: Source, original: Record, r: Record, k: Candidate) {
    && d.ledger.Some?
    && (forall x | x in d.registry && x != r ::
          x.sessionId != r.sessionId && x.threadId != r.threadId && (r.name.None? || x.name != r.name))
    && (forall e0 | e0 in s.outbox && e0.sessionId == original.sessionId :: exists q :: Brings(s, original, r, e0, q))
    && OwnUnchanged(s, original, r, d.callbacks)
    && (forall e0, q | Brings(s, original, r, e0, q) && q.artifact.Some? && q.artifact.value.eventId in d.artifacts ::
          d.artifacts[q.artifact.value.eventId] == q.artifact.value.completion)
    && Resolvable(d.ledger.value.status.sources, k)
  }

  /** Exactly when a resolution that is not finished yet may proceed: its candidate is there to be
      picked, its intent does not contradict a pending one, and nothing stands in its way. */
  lemma ProceedsExactly(d: Disk, sources: seq<Source>, res: Resolution, s: Source, original: Record, k: Candidate, r: Record)
    requires ValidDisk(d) && ValidSources(sources) && Apart(sources)
    requires d.ledger.Some? && res !in d.ledger.value.resolutions
    requires forall i, j | 0 <= i < j < |d.ledger.value.status.conflicts| ::
               d.ledger.value.status.conflicts[i].name != d.ledger.value.status.conflicts[j].name
    requires Picks(d, sources, res, s, original, k) && Adopted(r, original, res)
    ensures Decide(d, sources, res).Proceed? <==>
              (d.intent.None? || d.intent == Some(res)) && Unopposed(d, s, original, r, k)
    ensures Decide(d, sources, res).Proceed? ==> Decide(d, sources, res).selected == r
  {
    if d.intent.None? || d.intent == Some(res) {
      PickedIsDecided(d, sources, res, s, original, k);
      ChosenExactly(d, s, original, k, res, r);
    }
  }

  lemma {:induction false} ConflictFound(cs: seq<Conflict>, c: Conflict)
    requires c in cs && forall i, j | 0 <= i < j < |cs| :: cs[i].name != cs[j].name
    ensures FindConflict(cs, c.name) == Some(c)
    decreases |cs|
  {
    if cs[0] != c {
      var i :| 0 <= i < |cs| && cs[i] == c;
      assert cs[1..][i - 1] == c;
      ConflictFound(cs[1..], c);
    }
  }

  lemma {:induction false} OriginalFound(rs: seq<Record>, original: Record)
    requires ValidRegistry(rs) && original in rs
    ensures FindOriginal(rs, original.sessionId, original.threadId) == Some(original)
    decreases |rs|
  {
    if rs[0] != original {
      var i :| 0 <= i < |rs| && rs[i] == original;
      assert rs[1..][i - 1] == original;
      OriginalFound(rs[1..], original);
    }
  }

  lemma PickedIsDecided(d: Disk, sources: seq<Source>, res: Resolution, s: Source, original: Record, k: Candidate)
    requires ValidDisk(d) && ValidSources(sources) && Apart(sources)
    requires d.ledger.Some? && res !in d.ledger.value.resolutions && (d.intent.None? || d.intent == Some(res))
    requires forall i, j | 0 <= i < j < |d.ledger.value.status.conflicts| ::
               d.ledger.value.status.conflicts[i].name != d.ledger.value.status.conflicts[j].name
    requires Picks(d, sources, res, s, original, k)
    ensures Decide(d, sources, res) == DecideChosen(d, s, original, k, res)
  {
    var c :| c in d.ledger.value.status.conflicts && c.name == res.name && OnlyOnThread(c.candidates, k);
    ConflictFound(d.ledger.value.status.conflicts, c);
    OnThreadAlone(c.candidates, res.threadId);
    assert OnThread(c.candidates, res.threadId) == [k];
    FoundSource(sources, k.path, k.digest);
    OriginalFound(s.records, original);
  }

  lemma ChosenExactly(d: Disk, s: Source, original: Record, k: Candidate, res: Resolution, r: Record)
    requires ValidDisk(d) && d.ledger.Some? && ValidSource(s) && Adopted(r, original, res)
    ensures DecideChosen(d, s, original, k, res).Proceed? <==> Unopposed(d, s, original, r, k)
    ensures DecideChosen(d, s, original, k, res).Proceed? ==> DecideChosen(d, s, original, k, res).selected == r
  {
    assert r == original.(name := Some(TargetName(res)));
    MergeableExactly(s, original, r, d.callbacks);
    ArtifactsBrought(s, original, r);
    AgreesExactly(d.registry, r);
    ProjectsExactly(s, original, r);
  }

  lemma AgreesExactly(rs: seq<Record>, r: Record)
    ensures Agrees(rs, r) <==> forall x | x in rs && x != r ::
              x.sessionId != r.sessionId && x.threadId != r.threadId && (r.name.None? || x.name != r.name)
  {}

  lemma ProjectsExactly(s: Source, original: Record, r: Record)
    ensures OwnEventsProject(s, original, r) <==>
              forall e0 | e0 in s.outbox && e0.sessionId == original.sessionId :: exists q :: Brings(s, original, r, e0, q)
  {
    if OwnEventsProject(s, original, r) {
      forall e0 | e0 in s.outbox && e0.sessionId == original.sessionId ensures exists q :: Brings(s, original, r, e0, q) {
        assert Brings(s, original, r, e0, ProjectEntry(e0, original, s.files, r).value);
      }
    }
  }

  // ---- when it is finished already, and what a replay leaves ----

  lemma {:induction false} ConflictMissing(cs: seq<Conflict>, name: string)
    ensures FindConflict(cs, name).None? <==> forall c <- cs :: c.name != name
    decreases |cs|
  {
    if cs != [] {
      ConflictMissing(cs[1..], name);
      assert forall c :: c in cs <==> c == cs[0] || c in cs[1..];
    }
  }

  lemma FinishedRecord(rs: seq<Record>, res: Resolution, record: Record)
    requires ValidRegistry(rs)
    ensures Finished(rs, res) == Already(record) <==> record in rs && record.threadId == res.threadId && Asked(res, record.name)
  {
    var name := TargetName(res);
    if record in rs && record.name == Some(name) {
      NamedOnce(rs, record, name);
    }
    if Finished(rs, res) == Already(record) {
      FinishedExactly(rs, res);
      var r :| r in rs && Bears(r, res);
      NamedOnce(rs, r, name);
    }
  }

  /** A resolution is taken for finished exactly when no other one is pending, the registry holds a
      record of its thread under the name it asked for, and the ledger lists it or at least leaves
      neither the disputed nor that name in conflict. */
  lemma AlreadyExactly(d: Disk, sources: seq<Source>, res: Resolution, record: Record)
    requires ValidDisk(d) && ValidSources(sources)
    ensures Decide(d, sources, res) == Already(record) <==>
              && d.ledger.Some? && (d.intent.None? || d.intent == Some(res))
              && record in d.registry && record.threadId == res.threadId && Asked(res, record.name)
              && (res in d.ledger.value.resolutions
                  || forall c <- d.ledger.value.status.conflicts :: c.name != res.name && !Asked(res, Some(c.name)))
  {
    FinishedRecord(d.registry, res, record);
    if d.ledger.Some? && res !in d.ledger.value.resolutions {
      ConflictMissing(d.ledger.value.status.conflicts, res.name);
      ConflictMissing(d.ledger.value.status.conflicts, TargetName(res));
    }
  }

  lemma {:induction false} CommitKeepsIntent(d: Disk, plan: Plan, ledger: Ledger, k: nat, budget: nat)
    requires k <= |plan.artifacts| + 3
    ensures CommitFrom(d, plan, ledger, k, budget).disk.intent == d.intent
    decreases budget
  {
    if k < |plan.artifacts| + 3 && budget > 0 && PublishAt(d, plan, ledger, k).Some? {
      CommitKeepsIntent(PublishAt(d, plan, ledger, k).value, plan, ledger, k + 1, budget - 1);
    }
  }

  lemma ExecuteOverIntent(d: Disk, res: Resolution, plan: Plan, ledger: Ledger, selected: Record, stop: Stop)
    requires ValidDisk(d) && d.ledger.Some? && d.intent == Some(res)
    ensures var run := Execute(d, res, plan, ledger, selected, stop);
            var crash := Execute(d, res, plan, ledger, selected, Stop(stop.after, false, 0));
            && run.disk == crash.disk && run.outcome != RolledBack
            && (run.outcome.Resolved? <==> run.disk.intent.None?)
  {
    if stop.after > 0 {
      CommitKeepsIntent(d.(intent := Some(res)), plan, ledger, 0, stop.after - 1);
    }
  }

  /** A replay is never rolled back: an exception in it leaves the disk that a crash at the same
      point leaves, and the intent stays until the resolution is done. */
  lemma ReplayNeverRollsBack(d: Disk, sources: seq<Source>, res: Resolution, stop: Stop)
    requires ValidDisk(d) && ValidSources(sources) && d.intent == Some(res)
    ensures var run := Resolve(d, sources, res, stop);
            && run.disk == Resolve(d, sources, res, Stop(stop.after, false, 0)).disk && run.outcome != RolledBack
            && (run.outcome.Resolved? <==> run.disk.intent.None?)
  {
    match Decide(d, sources, res) {
      case Proceed(plan, ledger, _, selected) => ExecuteOverIntent(d, res, plan, ledger, selected, stop);
      case _ =>
    }
  }
}
