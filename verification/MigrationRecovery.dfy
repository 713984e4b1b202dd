// Why a resolution is a transaction: replay after any crash of its forward commit.

module MigrationRecovery {
  import opened Prelude
  import opened Ordering
  import opened LegacyStores
  import opened CallbackProjection
  import opened MigrationPlan
  import opened MigrationContracts
  import opened MigrationSoundness
  import opened MigrationLedger
  import opened MigrationCommit
  import opened MigrationResolve

  ghost predicate ValidSources(sources: seq<Source>) {
    forall s | s in sources :: ValidSource(s)
  }

  // ---- what deciding to proceed guarantees ----

  /** The parts a `Proceed` was made from. */
  ghost predicate ChosenFrom(d: Disk, s: Source, original: Record, k: Candidate, res: Resolution)
    requires ValidDisk(d) && d.ledger.Some?
  {
    && ValidSource(s)
    && original.threadId == res.threadId
    && res !in d.ledger.value.resolutions
    && DecideChosen(d, s, original, k, res).Proceed?
  }

  lemma {:induction false} OnThreadSound(ks: seq<Candidate>, tid: string)
    ensures forall k | k in OnThread(ks, tid) :: k.threadId == tid && k in ks
  {
    if ks != [] {
      OnThreadSound(ks[1..], tid);
    }
  }

  lemma {:induction false} FindOriginalSound(rs: seq<Record>, sid: string, tid: string)
    ensures FindOriginal(rs, sid, tid).Some? ==>
              var r := FindOriginal(rs, sid, tid).value; r in rs && r.sessionId == sid && r.threadId == tid
  {
    if rs != [] {
      FindOriginalSound(rs[1..], sid, tid);
    }
  }

  lemma ProceedParts(d: Disk, sources: seq<Source>, res: Resolution) returns (s: Source, original: Record, k: Candidate)
    requires ValidDisk(d) && ValidSources(sources) && Decide(d, sources, res).Proceed?
    ensures ChosenFrom(d, s, original, k, res)
    ensures Decide(d, sources, res) == DecideChosen(d, s, original, k, res)
    ensures forall e | ValidDisk(e) && e.ledger == d.ledger && (e.intent.None? || e.intent == Some(res)) ::
              Decide(e, sources, res) == DecideChosen(e, s, original, k, res)
  {
    var c := FindConflict(d.ledger.value.status.conflicts, res.name).value;
    OnThreadSound(c.candidates, res.threadId);
    k := OnThread(c.candidates, res.threadId)[0];
    s := FindSource(sources, k.path, k.digest).value;
    FindSourceSound(sources, k.path, k.digest);
    FindOriginalSound(s.records, k.sessionId, k.threadId);
    original := FindOriginal(s.records, k.sessionId, k.threadId).value;
  }

  lemma ChosenPlanCommittable(d: Disk, s: Source, original: Record, k: Candidate, res: Resolution)
    requires ValidDisk(d) && d.ledger.Some? && ChosenFrom(d, s, original, k, res)
    ensures var p := DecideChosen(d, s, original, k, res);
            && Committable(d, p.plan) && Committable(d, RollbackPlan(d))
            && ValidCallbacks(p.plan.callbacks)
            && (forall r :: r in p.plan.records <==> r in d.registry || r == p.selected)
            && (forall r :: r in RollbackPlan(d).records <==> r in d.registry)
  {
    var p := DecideChosen(d, s, original, k, res);
    ChosenRecordsUnique(d.registry, p.selected);
    UniqueListingIsRegistry(p.plan.records, Elems(d.registry) + {p.selected});
    UniqueListingIsRegistry(RollbackPlan(d).records, Elems(d.registry));
    OwnArtifactKeysInjective(s, original, p.selected);
    forall i, j | 0 <= i < j < |p.plan.artifacts| ensures p.plan.artifacts[i].eventId != p.plan.artifacts[j].eventId {
      KeyAsymmetric(ArtifactKey(p.plan.artifacts[i]), ArtifactKey(p.plan.artifacts[i]));
    }
    forall e | e in OwnEntries(s, original, p.selected) ensures ValidEntry(e) {
      var q :| q in OwnProjected(s, original, p.selected) && q.entry == e;
      OwnEntryOrigin(s, original, p.selected, q);
    }
  }

  /** A disk between `d` and the plan: stores only gained what the plan adds. */
  ghost predicate Underway(d: Disk, plan: Plan, e: Disk) {
    && e.ledger == d.ledger
    && ValidRegistry(e.registry)
    && Elems(d.registry) <= Elems(e.registry) <= Elems(plan.records)
    && (e.callbacks == d.callbacks || e.callbacks == plan.callbacks)
    && (forall a | a in plan.artifacts && a.eventId in e.artifacts :: e.artifacts[a.eventId] == a.completion)
  }

  /** Deciding again while the commit is underway makes the same plan. */
  lemma RedecideIsSame(d: Disk, e: Disk, s: Source, original: Record, k: Candidate, res: Resolution)
    requires ValidDisk(d) && d.ledger.Some? && ChosenFrom(d, s, original, k, res)
    requires Underway(d, DecideChosen(d, s, original, k, res).plan, e)
    ensures ValidDisk(e) && ChosenFrom(e, s, original, k, res)
    ensures var p, q := DecideChosen(d, s, original, k, res), DecideChosen(e, s, original, k, res);
            q.plan == p.plan && q.ledger == p.ledger && q.selected == p.selected
  {
    var p := DecideChosen(d, s, original, k, res);
    ChosenPlanCommittable(d, s, original, k, res);
    ChosenRecordsUnique(d.registry, p.selected);
    assert Elems(e.registry) + {p.selected} == Elems(d.registry) + {p.selected};
    forall m | m in e.registry ensures !Clash(m, p.selected) {
      assert m in Elems(e.registry);
    }
    assert CallbacksWith(e.callbacks, s, original, p.selected) == CallbacksWith(d.callbacks, s, original, p.selected);
    OwnArtifactKeysInjective(s, original, p.selected);
    forall a | a in OwnArtifacts(s, original, p.selected) ensures a in p.plan.artifacts {
    }
  }

  // ---- forward states ----

  /** The disk of an undisturbed resolution after `j` publishes: the intent, the commit,
      the removal of the intent. */
  ghost function Forward(d: Disk, res: Resolution, plan: Plan, ledger: Ledger, j: nat): Disk {
    if j == 0 then d
    else if j <= |plan.artifacts| + 4 then Prefix(d.(intent := Some(res)), plan, ledger, j - 1)
    else Prefix(d, plan, ledger, |plan.artifacts| + 3).(intent := None)
  }

  /** Everything before and after, at a glance. */
  ghost predicate OldTriple(d: Disk, e: Disk) {
    e.registry == d.registry && e.callbacks == d.callbacks && e.ledger == d.ledger
  }

  ghost predicate NewTriple(plan: Plan, ledger: Ledger, e: Disk) {
    e.registry == plan.records && e.callbacks == plan.callbacks && e.ledger == Some(ledger)
  }

  lemma ForwardUnderway(d: Disk, res: Resolution, s: Source, original: Record, k: Candidate, j: nat)
    requires ValidDisk(d) && d.ledger.Some? && d.intent.None? && ChosenFrom(d, s, original, k, res)
    requires j <= |DecideChosen(d, s, original, k, res).plan.artifacts| + 3
    ensures var p := DecideChosen(d, s, original, k, res);
            Underway(d, p.plan, Forward(d, res, p.plan, p.ledger, j))
  {
    var p := DecideChosen(d, s, original, k, res);
    ChosenPlanCommittable(d, s, original, k, res);
    if j > 0 {
      var d1 := d.(intent := Some(res));
      PrefixKeepsCommittable(d1, p.plan, p.ledger, j - 1);
    }
  }

  /** Committing again over a prefix of the same commit. */
  lemma CommitOverPrefix(d: Disk, plan: Plan, ledger: Ledger, j: nat, b: nat)
    requires Committable(d, plan) && Bound(plan.callbacks) && j <= |plan.artifacts| + 3
    ensures var n := |plan.artifacts|;
            var b' := if b < n + 3 then b else n + 3;
            CommitFrom(Prefix(d, plan, ledger, j), plan, ledger, 0, b)
            == Run(Prefix(d, plan, ledger, if j < b' then b' else j), if b >= n + 3 then Done else Crashed)
  {
    PrefixKeepsCommittable(d, plan, ledger, j);
    CommitReachesPrefix(Prefix(d, plan, ledger, j), plan, ledger, b);
    PrefixOverPrefix(d, plan, ledger, j, if b < |plan.artifacts| + 3 then b else |plan.artifacts| + 3);
  }

  ghost predicate SameDecision(p: Decision, q: Decision) {
    p.Proceed? && q.Proceed? && p.plan == q.plan && p.ledger == q.ledger && p.selected == q.selected
  }

  lemma ForwardRedecides(d: Disk, sources: seq<Source>, res: Resolution, j: nat)
    requires ValidDisk(d) && d.intent.None? && ValidSources(sources) && Decide(d, sources, res).Proceed?
    requires j <= |Decide(d, sources, res).plan.artifacts| + 3
    ensures var p := Decide(d, sources, res);
            var e := Forward(d, res, p.plan, p.ledger, j);
            ValidDisk(e) && SameDecision(p, Decide(e, sources, res)) && Committable(d, p.plan)
  {
    var s, original, k := ProceedParts(d, sources, res);
    var p := Decide(d, sources, res);
    ForwardUnderway(d, res, s, original, k, j);
    RedecideIsSame(d, Forward(d, res, p.plan, p.ledger, j), s, original, k, res);
    ChosenPlanCommittable(d, s, original, k, res);
  }

  lemma CommitFromForward(d: Disk, res: Resolution, plan: Plan, ledger: Ledger, j: nat, b: nat)
    requires Committable(d, plan) && Bound(plan.callbacks) && j <= |plan.artifacts| + 3 && b > 0
    ensures var n := |plan.artifacts|;
            var c := CommitFrom(Forward(d, res, plan, ledger, j).(intent := Some(res)), plan, ledger, 0, b - 1);
            && (b <= n + 4 ==> c.disk == Forward(d, res, plan, ledger, if j < b then b else j))
            && (b >= n + 4 ==> c.disk.(intent := None) == Forward(d, res, plan, ledger, n + 5))
            && (c.outcome == Done <==> b >= n + 4) && c.outcome != Failed
  {
    var d1 := d.(intent := Some(res));
    var j1 := if j == 0 then 0 else j - 1;
    ForwardIsPrefix(d, res, plan, ledger, j);
    CommitOverPrefix(d1, plan, ledger, j1, b - 1);
    PrefixIsForward(d, res, plan, ledger, if j < b then b else j);
    PrefixIsForward(d, res, plan, ledger, |plan.artifacts| + 4);
  }

  lemma ForwardIsPrefix(d: Disk, res: Resolution, plan: Plan, ledger: Ledger, j: nat)
    requires j <= |plan.artifacts| + 4
    ensures Forward(d, res, plan, ledger, j).(intent := Some(res))
            == Prefix(d.(intent := Some(res)), plan, ledger, if j == 0 then 0 else j - 1)
  {}

  lemma PrefixIsForward(d: Disk, res: Resolution, plan: Plan, ledger: Ledger, j: nat)
    requires 0 < j
    ensures j <= |plan.artifacts| + 4 ==>
              Prefix(d.(intent := Some(res)), plan, ledger, j - 1) == Forward(d, res, plan, ledger, j)
    ensures j == |plan.artifacts| + 4 ==>
              Prefix(d.(intent := Some(res)), plan, ledger, j - 1).(intent := None)
              == Forward(d, res, plan, ledger, |plan.artifacts| + 5)
  {}

  lemma ExecuteInterrupted(d: Disk, res: Resolution, plan: Plan, ledger: Ledger, selected: Record, j: nat, b: nat)
    requires Committable(d, plan) && Bound(plan.callbacks) && j <= |plan.artifacts| + 3 && b <= |plan.artifacts| + 4
    requires ValidDisk(Forward(d, res, plan, ledger, j)) && Forward(d, res, plan, ledger, j).ledger.Some?
    ensures Execute(Forward(d, res, plan, ledger, j), res, plan, ledger, selected, Stop(b, false, 0))
            == ResolveRun(Forward(d, res, plan, ledger, if j < b then b else j), Interrupted)
  {
    if b > 0 {
      CommitFromForward(d, res, plan, ledger, j, b);
    }
  }

  lemma ForwardInterrupted(d: Disk, sources: seq<Source>, res: Resolution, j: nat, b: nat)
    requires ValidDisk(d) && d.intent.None? && ValidSources(sources) && Decide(d, sources, res).Proceed?
    requires var p := Decide(d, sources, res);
             Bound(p.plan.callbacks) && j <= |p.plan.artifacts| + 3 && b <= |p.plan.artifacts| + 4
    ensures var p := Decide(d, sources, res);
            && ValidDisk(Forward(d, res, p.plan, p.ledger, j))
            && Resolve(Forward(d, res, p.plan, p.ledger, j), sources, res, Stop(b, false, 0))
               == ResolveRun(Forward(d, res, p.plan, p.ledger, if j < b then b else j), Interrupted)
  {
    ForwardRedecides(d, sources, res, j);
    var p := Decide(d, sources, res);
    ExecuteInterrupted(d, res, p.plan, p.ledger, p.selected, j, b);
  }

  lemma ExecuteFromForward(d: Disk, res: Resolution, plan: Plan, ledger: Ledger, selected: Record, j: nat, b: nat)
    requires Committable(d, plan) && Bound(plan.callbacks) && j <= |plan.artifacts| + 3 && b > |plan.artifacts| + 4
    requires ValidDisk(Forward(d, res, plan, ledger, j)) && Forward(d, res, plan, ledger, j).ledger.Some?
    ensures Execute(Forward(d, res, plan, ledger, j), res, plan, ledger, selected, Stop(b, false, 0))
            == ResolveRun(Forward(d, res, plan, ledger, |plan.artifacts| + 5), Resolved(selected))
  {
    CommitFromForward(d, res, plan, ledger, j, b);
  }

  lemma ForwardCompletes(d: Disk, sources: seq<Source>, res: Resolution, j: nat, b: nat)
    requires ValidDisk(d) && d.intent.None? && ValidSources(sources) && Decide(d, sources, res).Proceed?
    requires var p := Decide(d, sources, res);
             Bound(p.plan.callbacks) && j <= |p.plan.artifacts| + 3 && b > |p.plan.artifacts| + 4
    ensures var p := Decide(d, sources, res);
            && ValidDisk(Forward(d, res, p.plan, p.ledger, j))
            && Resolve(Forward(d, res, p.plan, p.ledger, j), sources, res, Stop(b, false, 0))
               == ResolveRun(Forward(d, res, p.plan, p.ledger, |p.plan.artifacts| + 5), Resolved(p.selected))
  {
    ForwardRedecides(d, sources, res, j);
    var p := Decide(d, sources, res);
    ExecuteFromForward(d, res, p.plan, p.ledger, p.selected, j, b);
  }

  /** One run from a forward state, stopped after `b` publishes, never moves backwards. */
  lemma ForwardFromForward(d: Disk, sources: seq<Source>, res: Resolution, j: nat, b: nat)
    requires ValidDisk(d) && d.intent.None? && ValidSources(sources) && Decide(d, sources, res).Proceed?
    requires var p := Decide(d, sources, res); Bound(p.plan.callbacks) && j <= |p.plan.artifacts| + 3
    ensures var p := Decide(d, sources, res);
            var n := |p.plan.artifacts|;
            var e := Forward(d, res, p.plan, p.ledger, j);
            && ValidDisk(e)
            && (b <= n + 4 ==> Resolve(e, sources, res, Stop(b, false, 0))
                               == ResolveRun(Forward(d, res, p.plan, p.ledger, if j < b then b else j), Interrupted))
            && (b > n + 4 ==> Resolve(e, sources, res, Stop(b, false, 0))
                              == ResolveRun(Forward(d, res, p.plan, p.ledger, n + 5), Resolved(p.selected)))
  {
    var n := |Decide(d, sources, res).plan.artifacts|;
    ForwardCompletes(d, sources, res, j, if b > n + 4 then b else n + 5);
    if b <= n + 4 {
      ForwardInterrupted(d, sources, res, j, b);
    }
  }

  // ---- a finished resolution ----

  lemma {:induction false} NamedOnce(rs: seq<Record>, r: Record, name: string)
    requires ValidRegistry(rs) && r.name == Some(name)
    ensures r in rs ==> NamedRecords(rs, name) == [r]
    ensures (forall m | m in rs :: m.name != Some(name)) ==> NamedRecords(rs, name) == []
  {
    if rs != [] {
      assert rs == [rs[0]] + rs[1..];
      NamedOnce(rs[1..], r, name);
      if rs[0].name == Some(name) {
        forall m | m in rs[1..] ensures m.name != Some(name) {
          var j :| 0 <= j < |rs[1..]| && rs[1..][j] == m;
          assert !Share(rs[0], rs[j + 1]);
        }
      }
    }
  }

  /** With the new ledger on disk, replay only asks whether the record is there. */
  lemma LedgerKnowsResolution(d: Disk, e: Disk, sources: seq<Source>, res: Resolution)
    requires ValidDisk(d) && d.intent.None? && ValidSources(sources) && Decide(d, sources, res).Proceed?
    requires ValidDisk(e) && e.ledger == Some(Decide(d, sources, res).ledger)
    requires e.intent.None? || e.intent == Some(res)
    ensures var p := Decide(d, sources, res);
            && (p.selected in e.registry ==> Decide(e, sources, res) == Already(p.selected))
            && (e.registry == d.registry && p.selected !in d.registry ==> Decide(e, sources, res) == Refuse(NotFound))
            && (e.registry == RollbackPlan(d).records && p.selected !in d.registry ==> Decide(e, sources, res) == Refuse(NotFound))
  {
    var s, original, k := ProceedParts(d, sources, res);
    var p := Decide(d, sources, res);
    assert res in p.ledger.resolutions;
    assert p.selected.name == Some(TargetName(res)) && p.selected.threadId == res.threadId;
    NamedOnce(e.registry, p.selected, TargetName(res));
    ChosenPlanCommittable(d, s, original, k, res);
    if p.selected !in d.registry {
      forall m | m in d.registry ensures m.name != Some(TargetName(res)) {
        assert !Clash(m, p.selected);
      }
    }
  }

  lemma ForwardEnds(d: Disk, sources: seq<Source>, res: Resolution)
    requires ValidDisk(d) && d.intent.None? && ValidSources(sources) && Decide(d, sources, res).Proceed?
    ensures var p := Decide(d, sources, res);
            var n := |p.plan.artifacts|;
            var e, f := Forward(d, res, p.plan, p.ledger, n + 4), Forward(d, res, p.plan, p.ledger, n + 5);
            && ValidDisk(e) && ValidDisk(f) && e.(intent := None) == f && e.intent == Some(res)
            && Decide(e, sources, res) == Already(p.selected) == Decide(f, sources, res)
            && NewTriple(p.plan, p.ledger, f) && f.intent.None?
  {
    var s, original, k := ProceedParts(d, sources, res);
    var p := Decide(d, sources, res);
    ChosenPlanCommittable(d, s, original, k, res);
    var n := |p.plan.artifacts|;
    LedgerKnowsResolution(d, Forward(d, res, p.plan, p.ledger, n + 4), sources, res);
    LedgerKnowsResolution(d, Forward(d, res, p.plan, p.ledger, n + 5), sources, res);
  }

  // ---- theorems ----

  /** `scan_and_apply` on a disk with an intent replays that resolution. */
  ghost function Recover(e: Disk, sources: seq<Source>, b: nat): Disk
    requires ValidDisk(e) && ValidSources(sources)
  {
    if e.intent.None? then e else Resolve(e, sources, e.intent.value, Stop(b, false, 0)).disk
  }

  /** `end` is reached from `e` by restarts, the i-th stopped after `bs[i]` publishes. */
  ghost predicate RestartsLead(e: Disk, sources: seq<Source>, bs: seq<nat>, end: Disk)
    requires ValidSources(sources)
    decreases |bs|
  {
    ValidDisk(e) &&
    if bs == [] then e == end else RestartsLead(Recover(e, sources, bs[0]), sources, bs[1..], end)
  }

  lemma {:induction false} RestartsMoveForward(d: Disk, sources: seq<Source>, res: Resolution, j: nat, bs: seq<nat>, end: Disk)
    returns (i: nat)
    requires ValidDisk(d) && d.intent.None? && ValidSources(sources) && Decide(d, sources, res).Proceed?
    requires var p := Decide(d, sources, res);
             && Bound(p.plan.callbacks) && 1 <= j <= |p.plan.artifacts| + 5
             && RestartsLead(Forward(d, res, p.plan, p.ledger, j), sources, bs, end)
    ensures j <= i <= |Decide(d, sources, res).plan.artifacts| + 5
    ensures end == Forward(d, res, Decide(d, sources, res).plan, Decide(d, sources, res).ledger, i)
    decreases |bs|
  {
    var p := Decide(d, sources, res);
    var n := |p.plan.artifacts|;
    var e := Forward(d, res, p.plan, p.ledger, j);
    if bs == [] {
      i := j;
    } else if j <= n + 3 {
      ForwardFromForward(d, sources, res, j, bs[0]);
      i := RestartsMoveForward(d, sources, res, if bs[0] > n + 4 then n + 5 else if j < bs[0] then bs[0] else j, bs[1..], end);
    } else {
      ForwardEnds(d, sources, res);
      i := RestartsMoveForward(d, sources, res, if j == n + 4 && bs[0] > 0 then n + 5 else j, bs[1..], end);
    }
  }

  /** Crash recovery: a resolution stopped anywhere after its intent was written, replayed
      by restarts that are themselves stopped anywhere, ends in exactly the new registry,
      callbacks and ledger as soon as one restart is not stopped. */
  lemma CrashThenReplayCompletes(d: Disk, sources: seq<Source>, res: Resolution, j: nat, bs: seq<nat>, mid: Disk, b: nat)
    requires ValidDisk(d) && d.intent.None? && ValidSources(sources) && Decide(d, sources, res).Proceed?
    requires var p := Decide(d, sources, res);
             && Bound(p.plan.callbacks) && 1 <= j <= |p.plan.artifacts| + 4 < b
             && RestartsLead(Resolve(d, sources, res, Stop(j, false, 0)).disk, sources, bs, mid)
    ensures var p := Decide(d, sources, res);
            && ValidDisk(mid)
            && Recover(mid, sources, b) == Forward(d, res, p.plan, p.ledger, |p.plan.artifacts| + 5)
            && NewTriple(p.plan, p.ledger, Recover(mid, sources, b)) && Recover(mid, sources, b).intent.None?
  {
    var p := Decide(d, sources, res);
    var n := |p.plan.artifacts|;
    ForwardFromForward(d, sources, res, 0, j);
    var i := RestartsMoveForward(d, sources, res, j, bs, mid);
    ForwardEnds(d, sources, res);
    if i <= n + 3 {
      ForwardFromForward(d, sources, res, i, b);
    }
  }

  /** Repeating a finished resolution changes nothing. */
  lemma RepeatingChangesNothing(d: Disk, sources: seq<Source>, res: Resolution, stop: Stop)
    requires ValidDisk(d) && d.intent.None? && ValidSources(sources) && Decide(d, sources, res).Proceed?
    ensures var p := Decide(d, sources, res);
            var done := Forward(d, res, p.plan, p.ledger, |p.plan.artifacts| + 5);
            ValidDisk(done) && Resolve(done, sources, res, stop) == ResolveRun(done, Resolved(p.selected))
  {
    ForwardEnds(d, sources, res);
  }

  // ---- bound callbacks, valid ledgers ----

  /** Stores written by the callback store itself always give a plan that can commit. */
  lemma BoundStoresResolve(d: Disk, sources: seq<Source>, res: Resolution)
    requires ValidDisk(d) && ValidSources(sources) && Decide(d, sources, res).Proceed?
    requires Bound(d.callbacks) && forall s | s in sources :: Bound(Callbacks(s.bindings, s.outbox))
    ensures Bound(Decide(d, sources, res).plan.callbacks)
  {
    var c := FindConflict(d.ledger.value.status.conflicts, res.name).value;
    var k := OnThread(c.candidates, res.threadId)[0];
    var s := FindSource(sources, k.path, k.digest).value;
    FindSourceSound(sources, k.path, k.digest);
    var original := FindOriginal(s.records, k.sessionId, k.threadId).value;
    var p := Decide(d, sources, res);
    forall e | e in p.plan.callbacks.outbox ensures exists b :: b in p.plan.callbacks.bindings && b.sessionId == e.sessionId {
      if e in d.callbacks.outbox {
        var b :| b in d.callbacks.bindings && b.sessionId == e.sessionId;
        assert b in p.plan.callbacks.bindings;
      } else {
        var q :| q in OwnProjected(s, original, p.selected) && q.entry == e;
        var e0 :| e0 in s.outbox && e0.sessionId == original.sessionId && ProjectEntry(e0, original, s.files, p.selected) == Ok(q);
        ProjectionRewritesIdentity(e0, original, s.files, p.selected, q);
        var b :| b in Callbacks(s.bindings, s.outbox).bindings && b.sessionId == e0.sessionId;
        assert b in p.plan.callbacks.bindings;
      }
    }
  }

  lemma {:induction false} FindConflictSound(cs: seq<Conflict>, name: string)
    ensures FindConflict(cs, name).Some? ==>
              FindConflict(cs, name).value in cs && FindConflict(cs, name).value.name == name
  {
    if cs != [] {
      FindConflictSound(cs[1..], name);
    }
  }

  /** Every ledger a resolution writes is valid, has one more import and fewer candidates. */
  lemma ResolutionWritesValidLedger(d: Disk, sources: seq<Source>, res: Resolution)
    requires ValidDisk(d) && ValidSources(sources) && Decide(d, sources, res).Proceed?
    requires ValidLedger(d.ledger.value.status)
    ensures var p := Decide(d, sources, res);
            && ValidLedger(p.ledger.status) && p.plan.status == p.ledger.status
            && p.ledger.status.imported == d.ledger.value.status.imported + 1
            && OpenCandidates(p.ledger.status.conflicts) < OpenCandidates(d.ledger.value.status.conflicts)
            && p.ledger.resolutions == d.ledger.value.resolutions + [res]
  {
    var k := ProceedOffered(d, sources, res);
    ResolutionKeepsLedger(d.ledger.value.status, k, res.asName.Some?);
  }

  /** The candidate a resolution chooses is on offer, and its ledger is the one after choosing it. */
  lemma ProceedOffered(d: Disk, sources: seq<Source>, res: Resolution) returns (k: Candidate)
    requires ValidDisk(d) && ValidSources(sources) && Decide(d, sources, res).Proceed?
    ensures Offered(d.ledger.value.status, k)
    ensures var p, status := Decide(d, sources, res), StatusAfter(d.ledger.value.status, k, res.asName.Some?);
            p.plan.status == status && p.ledger == Ledger(status, d.ledger.value.resolutions + [res])
  {
    var c := FindConflict(d.ledger.value.status.conflicts, res.name).value;
    FindConflictSound(d.ledger.value.status.conflicts, res.name);
    k := ChosenCandidate(d, sources, c, res);
  }

  lemma ChosenCandidate(d: Disk, sources: seq<Source>, c: Conflict, res: Resolution) returns (k: Candidate)
    requires ValidDisk(d) && d.ledger.Some? && ValidSources(sources) && DecideOpen(d, sources, c, res).Proceed?
    ensures k in c.candidates
    ensures var p, status := DecideOpen(d, sources, c, res), StatusAfter(d.ledger.value.status, k, res.asName.Some?);
            p.plan.status == status && p.ledger == Ledger(status, d.ledger.value.resolutions + [res])
  {
    OnThreadSound(c.candidates, res.threadId);
    k := OnThread(c.candidates, res.threadId)[0];
    var s := FindSource(sources, k.path, k.digest).value;
    FindSourceSound(sources, k.path, k.digest);
    ChosenLedger(d, s, FindOriginal(s.records, k.sessionId, k.threadId).value, k, res);
  }

  lemma ChosenLedger(d: Disk, s: Source, original: Record, k: Candidate, res: Resolution)
    requires ValidDisk(d) && d.ledger.Some? && ValidSource(s) && DecideChosen(d, s, original, k, res).Proceed?
    ensures var p, status := DecideChosen(d, s, original, k, res), StatusAfter(d.ledger.value.status, k, res.asName.Some?);
            p.plan.status == status && p.ledger == Ledger(status, d.ledger.value.resolutions + [res])
  {}
}
