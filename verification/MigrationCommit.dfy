// The four commit stages over the durable files. Each publish is one atomic step; a crash
// stops between two of them.

module MigrationCommit {
  import opened Prelude
  import opened LegacyStores
  import opened MigrationPlan
  import opened MigrationSoundness

  datatype Resolution = Resolution(name: string, threadId: string, asName: Option<string>)

  datatype Ledger = Ledger(status: Status, resolutions: seq<Resolution>)

  /** The durable files; a registry or callback store that does not exist yet is empty. */
  datatype Disk = Disk(registry: seq<Record>, callbacks: Callbacks, artifacts: map<string, Completion>,
                       ledger: Option<Ledger>, intent: Option<Resolution>)

  function TargetOf(d: Disk): Target {
    Target(d.registry, d.callbacks, d.artifacts)
  }

  ghost predicate ValidDisk(d: Disk) {
    ValidTarget(TargetOf(d))
  }

  // ---- one publish ----

  /** The publish the commit makes after `k` others, or None when that publish raises: an
      artifact collides, the registry repeats an identifier, an outbox session is unbound. */
  ghost function PublishAt(d: Disk, plan: Plan, ledger: Ledger, k: nat): Option<Disk>
    requires k < |plan.artifacts| + 3
  {
    var n := |plan.artifacts|;
    if k < n then
      var a := plan.artifacts[k];
      if a.eventId in d.artifacts && d.artifacts[a.eventId] != a.completion then None
      else Some(d.(artifacts := d.artifacts[a.eventId := a.completion]))
    else if k == n then
      if ValidRegistry(plan.records) then Some(d.(registry := plan.records)) else None
    else if k == n + 1 then
      if Bound(plan.callbacks) then Some(d.(callbacks := plan.callbacks)) else None
    else
      Some(d.(ledger := Some(ledger)))
  }

  datatype CommitOutcome = Done | Crashed | Failed

  datatype Run = Run(disk: Disk, outcome: CommitOutcome)

  /** `_commit` from its k-th publish on, cut short after `budget` more publishes. */
  ghost function CommitFrom(d: Disk, plan: Plan, ledger: Ledger, k: nat, budget: nat): Run
    requires k <= |plan.artifacts| + 3
    decreases budget
  {
    if k == |plan.artifacts| + 3 then Run(d, Done)
    else if budget == 0 then Run(d, Crashed)
    else
      match PublishAt(d, plan, ledger, k)
      case None => Run(d, Failed)
      case Some(d') => CommitFrom(d', plan, ledger, k + 1, budget - 1)
  }

  // ---- what a commit of a sound plan leaves behind ----

  function Published(m: map<string, Completion>, artifacts: seq<Artifact>): map<string, Completion> {
    if artifacts == [] then m
    else
      var last := artifacts[|artifacts| - 1];
      Published(m, artifacts[..|artifacts| - 1])[last.eventId := last.completion]
  }

  /** The disk after the first `k` publishes. */
  function Prefix(d: Disk, plan: Plan, ledger: Ledger, k: nat): Disk {
    var n := |plan.artifacts|;
    Disk(
      if k > n then plan.records else d.registry,
      if k > n + 1 then plan.callbacks else d.callbacks,
      Published(d.artifacts, if k < n then plan.artifacts[..k] else plan.artifacts),
      if k > n + 2 then Some(ledger) else d.ledger,
      d.intent)
  }

  /** A plan whose own collision checks hold against the disk. */
  ghost predicate Committable(d: Disk, plan: Plan) {
    && ValidRegistry(plan.records)
    && (forall i, j | 0 <= i < j < |plan.artifacts| :: plan.artifacts[i].eventId != plan.artifacts[j].eventId)
    && (forall a | a in plan.artifacts && a.eventId in d.artifacts :: d.artifacts[a.eventId] == a.completion)
  }

  /** How many publishes a committable plan gets through: all of them, unless an outbox
      session has no binding, which stops the commit with the registry already replaced. */
  ghost function Limit(plan: Plan): nat {
    |plan.artifacts| + if Bound(plan.callbacks) then 3 else 1
  }

  lemma {:induction false} PublishedLookup(m: map<string, Completion>, artifacts: seq<Artifact>, id: string)
    requires forall i, j | 0 <= i < j < |artifacts| :: artifacts[i].eventId != artifacts[j].eventId
    ensures id in Published(m, artifacts) <==> id in m || exists a :: a in artifacts && a.eventId == id
    ensures (forall a | a in artifacts :: a.eventId != id) && id in m ==> Published(m, artifacts)[id] == m[id]
    ensures forall a | a in artifacts && a.eventId == id :: Published(m, artifacts)[id] == a.completion
  {
    if artifacts != [] {
      var n := |artifacts| - 1;
      assert artifacts == artifacts[..n] + [artifacts[n]];
      PublishedLookup(m, artifacts[..n], id);
    }
  }

  lemma PublishStep(d: Disk, plan: Plan, ledger: Ledger, k: nat)
    requires Committable(d, plan) && k < |plan.artifacts| + 3
    ensures k < Limit(plan) ==> PublishAt(Prefix(d, plan, ledger, k), plan, ledger, k) == Some(Prefix(d, plan, ledger, k + 1))
    ensures k == Limit(plan) ==> PublishAt(Prefix(d, plan, ledger, k), plan, ledger, k) == None
  {
    var n := |plan.artifacts|;
    if k < n {
      var a := plan.artifacts[k];
      assert a in plan.artifacts;
      assert plan.artifacts[..k + 1][..k] == plan.artifacts[..k];
      PublishedLookup(d.artifacts, plan.artifacts[..k], a.eventId);
      assert k + 1 == n ==> plan.artifacts[..k + 1] == plan.artifacts;
    }
  }

  /** How a commit ends that may make `total` publishes. */
  ghost predicate EndsAfter(r: Run, d: Disk, plan: Plan, ledger: Ledger, total: nat) {
    && r.disk == Prefix(d, plan, ledger, if total < Limit(plan) then total else Limit(plan))
    && (r.outcome == Done <==> total >= Limit(plan) && Bound(plan.callbacks))
    && (r.outcome == Failed <==> total > Limit(plan) && !Bound(plan.callbacks))
  }

  lemma {:induction false} CommitFromPrefix(d: Disk, plan: Plan, ledger: Ledger, k: nat, budget: nat, total: nat)
    requires Committable(d, plan) && k <= Limit(plan) && total == k + budget
    ensures EndsAfter(CommitFrom(Prefix(d, plan, ledger, k), plan, ledger, k, budget), d, plan, ledger, total)
    decreases budget
  {
    if k == Limit(plan) || budget == 0 {
      CommitStops(d, plan, ledger, k, budget);
    } else {
      PublishStep(d, plan, ledger, k);
      CommitGoesOn(Prefix(d, plan, ledger, k), Prefix(d, plan, ledger, k + 1), plan, ledger, k, budget);
      CommitFromPrefix(d, plan, ledger, k + 1, budget - 1, total);
    }
  }

  /** The commit ends: everything is published, the next publish raises, or it is stopped. */
  lemma CommitStops(d: Disk, plan: Plan, ledger: Ledger, k: nat, budget: nat)
    requires Committable(d, plan) && k <= Limit(plan) && (k == Limit(plan) || budget == 0)
    ensures EndsAfter(CommitFrom(Prefix(d, plan, ledger, k), plan, ledger, k, budget), d, plan, ledger, k + budget)
  {
    if k < |plan.artifacts| + 3 && budget > 0 {
      PublishStep(d, plan, ledger, k);
    }
  }

  lemma CommitGoesOn(d: Disk, d': Disk, plan: Plan, ledger: Ledger, k: nat, budget: nat)
    requires k < |plan.artifacts| + 3 && budget > 0 && PublishAt(d, plan, ledger, k) == Some(d')
    ensures CommitFrom(d, plan, ledger, k, budget) == CommitFrom(d', plan, ledger, k + 1, budget - 1)
  {}

  /** A commit of a sound plan reaches exactly the prefix its budget allows. */
  lemma CommitReachesPrefix(d: Disk, plan: Plan, ledger: Ledger, budget: nat)
    requires Committable(d, plan)
    ensures var r := CommitFrom(d, plan, ledger, 0, budget);
            && r.disk == Prefix(d, plan, ledger, if budget < Limit(plan) then budget else Limit(plan))
            && (r.outcome == Done <==> budget >= Limit(plan) && Bound(plan.callbacks))
            && (r.outcome == Failed <==> budget > Limit(plan) && !Bound(plan.callbacks))
  {
    assert Prefix(d, plan, ledger, 0) == d;
    CommitFromPrefix(d, plan, ledger, 0, budget, budget);
  }

  lemma {:induction false} PublishedAgain(m: map<string, Completion>, artifacts: seq<Artifact>)
    requires forall i, j | 0 <= i < j < |artifacts| :: artifacts[i].eventId != artifacts[j].eventId
    requires forall a | a in artifacts :: a.eventId in m && m[a.eventId] == a.completion
    ensures Published(m, artifacts) == m
  {
    if artifacts != [] {
      PublishedAgain(m, artifacts[..|artifacts| - 1]);
    }
  }

  lemma {:induction false} PublishedTwice(m: map<string, Completion>, artifacts: seq<Artifact>, j: nat, b: nat)
    requires forall i, j | 0 <= i < j < |artifacts| :: artifacts[i].eventId != artifacts[j].eventId
    requires j <= |artifacts| && b <= |artifacts|
    ensures Published(Published(m, artifacts[..j]), artifacts[..b]) == Published(m, artifacts[..if j < b then b else j])
    decreases b
  {
    var once := Published(m, artifacts[..j]);
    if b <= j {
      forall a | a in artifacts[..b] ensures a.eventId in once && once[a.eventId] == a.completion {
        assert a in artifacts[..j];
        PublishedLookup(m, artifacts[..j], a.eventId);
      }
      PublishedAgain(once, artifacts[..b]);
    } else {
      PublishedTwice(m, artifacts, j, b - 1);
      assert artifacts[..b][..b - 1] == artifacts[..b - 1];
    }
  }

  /** Publishing a prefix over a prefix is publishing the longer one: publishes only
      insert what is missing or rewrite what is already there. */
  lemma PrefixOverPrefix(d: Disk, plan: Plan, ledger: Ledger, j: nat, b: nat)
    requires Committable(d, plan) && j <= |plan.artifacts| + 3 && b <= |plan.artifacts| + 3
    ensures Prefix(Prefix(d, plan, ledger, j), plan, ledger, b) == Prefix(d, plan, ledger, if j < b then b else j)
  {
    var n := |plan.artifacts|;
    assert plan.artifacts[..n] == plan.artifacts;
    PublishedTwice(d.artifacts, plan.artifacts, if j < n then j else n, if b < n then b else n);
  }

  lemma PrefixKeepsCommittable(d: Disk, plan: Plan, ledger: Ledger, j: nat)
    requires Committable(d, plan)
    ensures Committable(Prefix(d, plan, ledger, j), plan)
  {
    var done := if j < |plan.artifacts| then plan.artifacts[..j] else plan.artifacts;
    forall a | a in plan.artifacts && a.eventId in Published(d.artifacts, done)
      ensures Published(d.artifacts, done)[a.eventId] == a.completion
    {
      PublishedLookup(d.artifacts, done, a.eventId);
      var i :| 0 <= i < |plan.artifacts| && plan.artifacts[i] == a;
      if b :| b in done && b.eventId == a.eventId {
        var m :| 0 <= m < |done| && done[m] == b;
        assert plan.artifacts[m] == b;
        assert m == i;
      }
    }
  }

  // ---- planning again from a prefix ----

  lemma PlanIsCommittable(S: set<Source>, d: Disk)
    requires WellFormed(S) && ValidDisk(d) && Plannable(S, TargetOf(d))
    ensures Committable(d, PlanOf(S, TargetOf(d)))
  {
    PlannedRegistrySound(S, TargetOf(d));
    PlannedCallbacksSound(S, TargetOf(d));
  }

  /** A target a crashed commit of `PlanOf(S, t)` can leave: each store old or new, plus
      some of the plan's artifacts. */
  ghost predicate HalfCommitted(S: set<Source>, t: Target, u: Target)
    requires WellFormed(S) && ValidTarget(t)
  {
    var P := PlanOf(S, t);
    && (u.records == t.records || u.records == P.records)
    && (u.callbacks == t.callbacks || u.callbacks == P.callbacks)
    && (forall a | a in P.artifacts && a.eventId in u.artifacts :: u.artifacts[a.eventId] == a.completion)
  }

  lemma HalfCommittedElems(S: set<Source>, t: Target, u: Target)
    requires WellFormed(S) && ValidTarget(t) && HalfCommitted(S, t, u)
    ensures Elems(t.records) <= Elems(u.records) <= MergedRecords(S, t)
    ensures t.callbacks.bindings <= u.callbacks.bindings <= MergedCallbacks(S, t).bindings
    ensures t.callbacks.outbox <= u.callbacks.outbox <= MergedCallbacks(S, t).outbox
    ensures ValidTarget(u)
  {
    PlannedRegistrySound(S, t);
    PlannedCallbacksSound(S, t);
  }

  lemma QuarantineStable(S: set<Source>, t: Target, u: Target, sid: string)
    requires WellFormed(S) && ValidTarget(t) && HalfCommitted(S, t, u)
    ensures Quarantined(S, t, sid) <==> Quarantined(S, u, sid)
  {}

  lemma SelectionStable(S: set<Source>, t: Target, u: Target)
    requires WellFormed(S) && ValidTarget(t) && HalfCommitted(S, t, u)
    ensures SelectedRecords(S, t) == SelectedRecords(S, u)
    ensures SelectedBindings(S, t) == SelectedBindings(S, u)
    ensures SelectedEntries(S, t) == SelectedEntries(S, u)
    ensures SelectedArtifacts(S, t) == SelectedArtifacts(S, u)
    ensures ConflictNames(S, t) == ConflictNames(S, u)
  {
    forall sid ensures Quarantined(S, t, sid) <==> Quarantined(S, u, sid) {
      QuarantineStable(S, t, u, sid);
    }
    forall sid ensures Selected(S, t, sid) <==> Selected(S, u, sid) {
    }
  }

  lemma StatusStable(S: set<Source>, t: Target, u: Target)
    requires WellFormed(S) && ValidTarget(t) && HalfCommitted(S, t, u)
    ensures StatusOf(S, t) == StatusOf(S, u)
  {
    SelectionStable(S, t, u);
    var xs := OrderedItems(S);
    forall i | 0 <= i < |xs| ensures ViewAt(S, t, xs, i) == ViewAt(S, u, xs, i) {
      QuarantineStable(S, t, u, xs[i].record.sessionId);
    }
    assert Views(S, t) == Views(S, u);
    assert Conflicts(S, t) == Conflicts(S, u);
  }

  /** Planning again after a crash makes the same plan. */
  lemma ReplanIsSame(S: set<Source>, t: Target, u: Target)
    requires WellFormed(S) && ValidTarget(t) && Plannable(S, t) && HalfCommitted(S, t, u)
    ensures ValidTarget(u) && Plannable(S, u) && PlanOf(S, u) == PlanOf(S, t)
  {
    HalfCommittedElems(S, t, u);
    SelectionStable(S, t, u);
    StatusStable(S, t, u);
    assert MergedRecords(S, u) == MergedRecords(S, t);
    assert MergedCallbacks(S, u) == MergedCallbacks(S, t);
    ArtifactKeysInjective(S, t);
    forall r | r in AllRecords(S) && r.name.None? ensures !Quarantined(S, u, r.sessionId) {
      QuarantineStable(S, t, u, r.sessionId);
    }
    assert ArtifactsFit(S, u);
  }
}
