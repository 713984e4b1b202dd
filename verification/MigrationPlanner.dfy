// The planner itself: the loops that fill groups, quarantine, outcomes and merged stores,
// proved to compute exactly the declarative plan.

module MigrationPlanner {
  import opened Prelude
  import opened Ordering
  import opened LegacyStores
  import opened CallbackProjection
  import opened MigrationPlan
  import opened MigrationSoundness

  ghost predicate DistinctPaths(sources: seq<Source>) {
    forall i, j | 0 <= i < j < |sources| :: sources[i].path != sources[j].path
  }

  /** A callback or event of some store that cannot be projected, and why. */
  ghost predicate ProjectionFault(S: set<Source>, f: Fault) {
    || (f.BindingWithoutRecord? && exists s, b :: s in S && b in s.bindings && FindRecord(s.records, b.sessionId).None?)
    || exists s, e :: s in S && e in s.outbox && ProjectIn(s, e) == Err(f)
  }

  /** Why a plan is refused: the reported fault is really there. */
  ghost predicate FaultHolds(S: set<Source>, t: Target, f: Fault) {
    match f
    case UnnamedRegistryConflict =>
      exists r, o :: r in AllRecords(S) && r.name.None? && o in t.records && Clash(r, o)
    case UnnamedCallbackConflict => !NoUnnamedConflict(S, t)
    case ArtifactCollision => !ArtifactsFit(S, t)
    case _ => ProjectionFault(S, f)
  }

  lemma DistinctPathsWellFormed(sources: seq<Source>)
    requires DistinctPaths(sources) && forall s | s in sources :: ValidSource(s)
    ensures WellFormed(Elems(sources))
  {}

  // ---- reading the records and events of every store ----

  method CollectItems(sources: seq<Source>) returns (items: seq<Item>)
    ensures Elems(items) == AllItems(Elems(sources))
  {
    items := [];
    for i := 0 to |sources|
      invariant Elems(items) == AllItems(Elems(sources[..i]))
    {
      ghost var before := items;
      var s := sources[i];
      for j := 0 to |s.records|
        invariant Elems(items) == Elems(before) + set r | r in s.records[..j] :: Item(s.path, s.digest, r)
      {
        assert s.records[..j + 1] == s.records[..j] + [s.records[j]];
        items := items + [Item(s.path, s.digest, s.records[j])];
      }
      assert s.records[..|s.records|] == s.records;
      assert sources[..i + 1] == sources[..i] + [s];
      assert Elems(sources[..i + 1]) == Elems(sources[..i]) + {s};
    }
    assert sources[..|sources|] == sources;
  }

  method ProjectSource(s: Source) returns (r: Result<set<Projected>, Fault>)
    ensures r.Ok? ==> Projectable({s}) && r.value == AllProjected({s})
    ensures r.Err? ==> ProjectionFault({s}, r.error)
  {
    var todo := s.bindings;
    while todo != {}
      invariant todo <= s.bindings
      invariant forall b | b in s.bindings - todo :: FindRecord(s.records, b.sessionId).Some?
    {
      var b :| b in todo;
      if FindRecord(s.records, b.sessionId).None? {
        return Err(BindingWithoutRecord);
      }
      todo := todo - {b};
    }
    var entries, out := s.outbox, {};
    while entries != {}
      invariant entries <= s.outbox
      invariant forall e | e in s.outbox - entries :: ProjectIn(s, e).Ok?
      invariant out == set e | e in s.outbox - entries && ProjectIn(s, e).Ok? :: ProjectIn(s, e).value
    {
      var e :| e in entries;
      match ProjectIn(s, e)
      case Err(f) =>
        return Err(f);
      case Ok(p) =>
        out := out + {p};
        entries := entries - {e};
    }
    assert s.outbox - {} == s.outbox;
    return Ok(out);
  }

  method ProjectAll(sources: seq<Source>) returns (r: Result<set<Projected>, Fault>)
    ensures r.Ok? ==> Projectable(Elems(sources)) && r.value == AllProjected(Elems(sources))
    ensures r.Err? ==> ProjectionFault(Elems(sources), r.error)
  {
    var out := {};
    for i := 0 to |sources|
      invariant Projectable(Elems(sources[..i]))
      invariant out == AllProjected(Elems(sources[..i]))
    {
      assert sources[..i + 1] == sources[..i] + [sources[i]];
      assert Elems(sources[..i + 1]) == Elems(sources[..i]) + {sources[i]};
      var one := ProjectSource(sources[i]);
      if one.Err? {
        SourceFault(Elems(sources), sources[i], one.error);
        return Err(one.error);
      }
      out := out + one.value;
    }
    assert sources[..|sources|] == sources;
    return Ok(out);
  }

  lemma SourceFault(S: set<Source>, s: Source, f: Fault)
    requires s in S && ProjectionFault({s}, f)
    ensures ProjectionFault(S, f)
  {}

  /** A projection fault is one of the projection faults, and it makes the merge unplannable. */
  lemma ProjectionFaultBlocks(S: set<Source>, t: Target, f: Fault)
    requires ProjectionFault(S, f)
    ensures FaultHolds(S, t, f) && !Projectable(S)
  {}

  // ---- quarantine ----

  /** Sessions of the values that disagree with another value under the same key. */
  ghost predicate DisputeOf<T(!new)>(xs: set<T>, key: T -> Option<string>, sid: T -> string, s: string) {
    exists x, y | x in xs && y in xs :: x != y && key(x).Some? && key(x) == key(y) && sid(x) == s
  }

  method GroupBy<T(==,!new)>(xs: set<T>, key: T -> Option<string>) returns (g: map<string, set<T>>)
    ensures forall k :: k in g <==> exists x :: x in xs && key(x) == Some(k)
    ensures forall k | k in g :: g[k] == set x | x in xs && key(x) == Some(k)
  {
    g := map[];
    var todo := xs;
    while todo != {}
      invariant todo <= xs
      invariant forall k :: k in g <==> exists x :: x in xs - todo && key(x) == Some(k)
      invariant forall k | k in g :: g[k] == set x | x in xs - todo && key(x) == Some(k)
    {
      var x :| x in todo;
      if key(x).Some? {
        var k := key(x).value;
        g := g[k := (if k in g then g[k] else {}) + {x}];
      }
      todo := todo - {x};
    }
    assert xs - todo == xs;
  }

  ghost predicate Grouped<T(!new)>(g: map<string, set<T>>, xs: set<T>, key: T -> Option<string>) {
    && (forall k :: k in g <==> exists x :: x in xs && key(x) == Some(k))
    && (forall k | k in g :: g[k] == set x | x in xs && key(x) == Some(k))
  }

  ghost predicate InSplitGroup<T(!new)>(g: map<string, set<T>>, ks: set<string>, sid: T -> string, s: string) {
    exists k, x | k in g && x in g[k] :: k in ks && |g[k]| > 1 && sid(x) == s
  }

  method Disputes<T(==,!new)>(xs: set<T>, key: T -> Option<string>, sid: T -> string) returns (q: set<string>)
    ensures forall s :: s in q <==> DisputeOf(xs, key, sid, s)
  {
    var g := GroupBy(xs, key);
    q := {};
    var todo := g.Keys;
    while todo != {}
      invariant todo <= g.Keys
      invariant forall s :: s in q <==> InSplitGroup(g, g.Keys - todo, sid, s)
    {
      var k :| k in todo;
      if |g[k]| > 1 {
        q := q + set x | x in g[k] :: sid(x);
      }
      todo := todo - {k};
    }
    forall s {
      SplitGroupIsDispute(g, xs, key, sid, s);
    }
  }

  lemma SplitGroupIsDispute<T(!new)>(g: map<string, set<T>>, xs: set<T>, key: T -> Option<string>,
                                     sid: T -> string, s: string)
    requires Grouped(g, xs, key)
    ensures InSplitGroup(g, g.Keys, sid, s) <==> DisputeOf(xs, key, sid, s)
  {
    if InSplitGroup(g, g.Keys, sid, s) {
      var k, x :| k in g && x in g[k] && k in g.Keys && |g[k]| > 1 && sid(x) == s;
      AnotherMember(g[k], x);
      var y :| y in g[k] && x != y;
    }
    if DisputeOf(xs, key, sid, s) {
      var x, y :| x in xs && y in xs && x != y && key(x).Some? && key(x) == key(y) && sid(x) == s;
      var k := key(x).value;
      assert {x, y} <= g[k];
      SubsetSize({x, y}, g[k]);
    }
  }

  lemma AnotherMember<T>(s: set<T>, x: T)
    requires |s| > 1 && x in s
    ensures exists y :: y in s && x != y
  {
    assert |s - {x}| > 0;
    var y :| y in s - {x};
  }

  lemma {:induction false} SubsetSize<T>(a: set<T>, b: set<T>)
    requires a <= b
    ensures |a| <= |b|
    decreases a
  {
    if a != {} {
      var x :| x in a;
      SubsetSize(a - {x}, b - {x});
    }
  }

  ghost predicate ClashAmong(rs: set<Record>, os: set<Record>, s: string) {
    exists r, o | r in rs && o in os :: Clash(r, o) && r.sessionId == s
  }

  function NameOf(r: Record): Option<string> { r.name }

  function SessionOf(r: Record): Option<string> { Some(r.sessionId) }

  function ThreadOf(r: Record): Option<string> { Some(r.threadId) }

  function SidOf(r: Record): string { r.sessionId }

  lemma ClashesSplitByKey(rs: set<Record>, s: string)
    ensures ClashAmong(rs, rs, s) <==>
              DisputeOf(rs, NameOf, SidOf, s) || DisputeOf(rs, SessionOf, SidOf, s) || DisputeOf(rs, ThreadOf, SidOf, s)
  {}

  /** The three groupings of the planner, by name, session and thread. */
  method RecordDisputes(rs: set<Record>) returns (q: set<string>)
    ensures forall s :: s in q <==> ClashAmong(rs, rs, s)
  {
    var q1 := Disputes(rs, NameOf, SidOf);
    var q2 := Disputes(rs, SessionOf, SidOf);
    var q3 := Disputes(rs, ThreadOf, SidOf);
    q := q1 + q2 + q3;
    forall s {
      ClashesSplitByKey(rs, s);
    }
  }

  /** The pass over the global registry: unnamed collisions are refused, named ones quarantined. */
  method RegistryDisputes(rs: set<Record>, target: seq<Record>) returns (r: Result<set<string>, Fault>)
    ensures r.Ok? ==> forall s :: s in r.value <==> ClashAmong(rs, Elems(target), s)
    ensures r.Err? ==> r.error == UnnamedRegistryConflict
                       && exists a, o :: a in rs && a.name.None? && o in target && Clash(a, o)
  {
    var q, todo := {}, rs;
    while todo != {}
      invariant todo <= rs
      invariant forall s :: s in q <==> ClashAmong(rs - todo, Elems(target), s)
    {
      var a :| a in todo;
      if exists i | 0 <= i < |target| :: Clash(a, target[i]) {
        var i :| 0 <= i < |target| && Clash(a, target[i]);
        assert target[i] in Elems(target);
        if a.name.None? {
          return Err(UnnamedRegistryConflict);
        }
        q := q + {a.sessionId};
      }
      todo := todo - {a};
    }
    assert rs - {} == rs;
    return Ok(q);
  }

  method BindingDisputes(bs: set<Binding>, target: set<Binding>) returns (q: set<string>)
    ensures forall s :: s in q <==> exists b, o | b in bs && o in bs + target :: b != o && b.sessionId == o.sessionId == s
  {
    var key, sid := (b: Binding) => Some(b.sessionId), (b: Binding) => b.sessionId;
    var own := Disputes(bs, key, sid);
    q := own + set b, o | b in bs && o in target && o.sessionId == b.sessionId && o != b :: b.sessionId;
    forall s | s in own ensures exists b, o | b in bs && o in bs + target :: b != o && b.sessionId == o.sessionId == s {
      var x, y :| x in bs && y in bs && x != y && key(x).Some? && key(x) == key(y) && sid(x) == s;
    }
    forall b, o | b in bs && o in bs + target && b != o && b.sessionId == o.sessionId ensures b.sessionId in q {
      if o in bs {
        assert DisputeOf(bs, key, sid, b.sessionId);
      }
    }
  }

  method EventDisputes(es: set<Entry>, target: set<Entry>) returns (q: set<string>)
    ensures forall s :: s in q <==>
              exists e, o | e in es && o in es + target :: e != o && e.eventId == o.eventId && e.sessionId == s
  {
    var key, sid := (e: Entry) => Some(e.eventId), (e: Entry) => e.sessionId;
    var own := Disputes(es, key, sid);
    q := own + set e, o | e in es && o in target && o.eventId == e.eventId && o != e :: e.sessionId;
    forall s | s in own
      ensures exists e, o | e in es && o in es + target :: e != o && e.eventId == o.eventId && e.sessionId == s
    {
      var x, y :| x in es && y in es && x != y && key(x).Some? && key(x) == key(y) && sid(x) == s;
    }
    forall e, o | e in es && o in es + target && e != o && e.eventId == o.eventId ensures e.sessionId in q {
      if o in es {
        assert DisputeOf(es, key, sid, e.sessionId);
      }
    }
  }

  method QuarantineSessions(ghost S: set<Source>, rs: set<Record>, bs: set<Binding>, es: set<Entry>, t: Target)
    returns (r: Result<set<string>, Fault>)
    requires rs == AllRecords(S) && bs == AllBindings(S) && es == AllEntries(S)
    ensures r.Ok? ==> forall s :: s in r.value <==> Quarantined(S, t, s)
    ensures r.Err? ==> FaultHolds(S, t, r.error) && !NoUnnamedConflict(S, t)
  {
    var q1 := RecordDisputes(rs);
    var q2 := RegistryDisputes(rs, t.records);
    if q2.Err? {
      var a, o :| a in rs && a.name.None? && o in t.records && Clash(a, o);
      assert RecordDisputed(S, t, a.sessionId);
      return Err(q2.error);
    }
    var q3 := BindingDisputes(bs, t.callbacks.bindings);
    var q4 := EventDisputes(es, t.callbacks.outbox);
    r := Ok(q1 + q2.value + q3 + q4);
    forall s ensures s in r.value <==> Quarantined(S, t, s) {
      RecordDisputedSplits(S, t, s);
    }
  }

  lemma RecordDisputedSplits(S: set<Source>, t: Target, s: string)
    ensures RecordDisputed(S, t, s) <==>
              ClashAmong(AllRecords(S), AllRecords(S), s) || ClashAmong(AllRecords(S), Elems(t.records), s)
  {}

  // ---- filling a dictionary by key ----

  /** The dictionary of `done` by key. */
  ghost predicate Keyed<T(!new)>(m: map<string, T>, done: set<T>, key: T -> string) {
    && (forall k <- m :: m[k] in done && key(m[k]) == k)
    && (forall v <- done :: key(v) in m && m[key(v)] == v)
  }

  lemma KeyedAdd<T(!new)>(m: map<string, T>, done: set<T>, key: T -> string, v: T)
    requires Keyed(m, done, key) && (key(v) in m ==> m[key(v)] == v)
    ensures Keyed(m[key(v) := v], done + {v}, key)
  {}

  lemma KeyedIsUnique<T(!new)>(m: map<string, T>, done: set<T>, key: T -> string)
    requires Keyed(m, done, key)
    ensures forall a, b | a in done && b in done && key(a) == key(b) :: a == b
    ensures m.Values == done
  {
    forall v | v in done ensures v in m.Values {
      assert m[key(v)] == v;
    }
  }

  /** `{key(v): v}` over values with distinct keys. */
  method Dictionary<T(==,!new)>(xs: set<T>, key: T -> string) returns (m: map<string, T>)
    requires forall a, b | a in xs && b in xs && key(a) == key(b) :: a == b
    ensures Keyed(m, xs, key)
  {
    m := map[];
    var todo := xs;
    ghost var done := {};
    while todo != {}
      invariant done + todo == xs && Keyed(m, done, key)
      decreases |todo|
    {
      var v :| v in todo;
      KeyedAdd(m, done, key, v);
      m, todo, done := m[key(v) := v], todo - {v}, done + {v};
    }
  }

  /** The target's dictionary and then the source: a second value under a taken key must be equal
      to the first, or the merge is refused. */
  method KeyedMerge<T(==,!new)>(target: set<T>, source: set<T>, key: T -> string) returns (r: Option<set<T>>)
    requires forall a, b | a in target && b in target && key(a) == key(b) :: a == b
    ensures r.Some? <==> forall a, b | a in target + source && b in target + source && key(a) == key(b) :: a == b
    ensures r.Some? ==> r.value == target + source
  {
    var m := Dictionary(target, key);
    var todo := source;
    ghost var done := target;
    while todo != {}
      invariant todo <= source && done + todo == target + source && Keyed(m, done, key)
      decreases |todo|
    {
      var v :| v in todo;
      if key(v) in m && m[key(v)] != v {
        assert v in target + source && m[key(v)] in target + source;
        return None;
      }
      KeyedAdd(m, done, key, v);
      m, todo, done := m[key(v) := v], todo - {v}, done + {v};
    }
    KeyedIsUnique(m, done, key);
    return Some(m.Values);
  }

  // ---- conflicts, outcomes, status ----

  method BuildConflicts(ghost S: set<Source>, ghost t: Target, items: set<Item>, names: set<string>)
    returns (cs: seq<Conflict>)
    requires WellFormed(S) && items == AllItems(S) && names == ConflictNames(S, t)
    ensures cs == Conflicts(S, t)
  {
    StringKeysInjective(names);
    var sorted := SortSet(names, StringKey);
    cs := [];
    for k := 0 to |sorted|
      invariant |cs| == k
      invariant forall i | 0 <= i < k :: cs[i] == ConflictFor(S, sorted[i])
    {
      var candidates := set i | i in items && i.record.name == Some(sorted[k]) :: CandidateOf(i);
      CandidateKeysInjective(S, sorted[k]);
      var listed := SortSet(candidates, CandidateKey);
      var digests := set c | c in candidates :: c.digest;
      assert digests == DigestsOf(candidates);
      StringKeysInjective(digests);
      var listedDigests := SortSet(digests, StringKey);
      cs := cs + [Conflict(sorted[k], listed, listedDigests)];
    }
  }

  /** The records among the first `k` that are not quarantined. */
  ghost predicate SurvivorsOf(xs: seq<Item>, k: nat, q: set<string>, rs: set<Record>)
    requires k <= |xs|
  {
    forall r :: r in rs <==> Survives(xs, k, q, r)
  }

  ghost predicate Survives(xs: seq<Item>, k: nat, q: set<string>, r: Record)
    requires k <= |xs|
  {
    r.sessionId !in q && exists i :: 0 <= i < k && xs[i].record == r
  }

  lemma NextSurvivor(xs: seq<Item>, k: nat, q: set<string>, rs: set<Record>)
    requires k < |xs| && SurvivorsOf(xs, k, q, rs)
    ensures SurvivorsOf(xs, k + 1, q, if xs[k].record.sessionId in q then rs else rs + {xs[k].record})
  {
    forall r ensures Survives(xs, k + 1, q, r) <==> Survives(xs, k, q, r) || (r == xs[k].record && r.sessionId !in q) {}
  }

  lemma SurvivorView(S: set<Source>, t: Target, xs: seq<Item>, k: nat, q: set<string>, seen: set<Record>)
    requires k < |xs| && SurvivorsOf(xs, k, q, seen) && forall s :: s in q <==> Quarantined(S, t, s)
    ensures OutcomeAt(S, t, xs, k) == if xs[k].record.sessionId in q then Conflicted
                                      else if xs[k].record in seen then Deduplicated else Imported
  {
    assert xs[k].record in seen <==> Survives(xs, k, q, xs[k].record);
  }

  method SettleOne(ghost S: set<Source>, ghost t: Target, xs: seq<Item>, k: nat, q: set<string>, names: set<string>, seen: set<Record>)
    returns (view: SourceView)
    requires k < |xs| && SurvivorsOf(xs, k, q, seen) && forall s :: s in q <==> Quarantined(S, t, s)
    requires xs[k].record.name.Some? && xs[k].record.name.value in names ==> xs[k].record.sessionId in q
    ensures view == ViewAt(S, t, xs, k) && (view.outcome == Conflicted <==> xs[k].record.sessionId in q)
  {
    var record, outcome := xs[k].record, Conflicted;
    SurvivorView(S, t, xs, k, q, seen);
    if (record.name.None? || record.name.value !in names) && record.sessionId !in q {
      outcome := if record in seen then Deduplicated else Imported;
    }
    return SourceView(xs[k].path, xs[k].digest, record.name, record.sessionId, record.threadId, outcome);
  }

  ghost predicate ViewsUpTo(S: set<Source>, t: Target, xs: seq<Item>, k: nat, views: seq<SourceView>) {
    |views| == k <= |xs| && forall i | 0 <= i < k :: views[i] == ViewAt(S, t, xs, i)
  }

  lemma NextView(S: set<Source>, t: Target, xs: seq<Item>, k: nat, views: seq<SourceView>)
    requires ViewsUpTo(S, t, xs, k, views) && k < |xs|
    ensures ViewsUpTo(S, t, xs, k + 1, views + [ViewAt(S, t, xs, k)])
  {}

  /** The pass over the sorted records that settles each outcome and merges the survivors. */
  method SettleOutcomes(ghost S: set<Source>, t: Target, xs: seq<Item>, q: set<string>, names: set<string>)
    returns (views: seq<SourceView>, merged: seq<Record>, selected: set<string>)
    requires forall s :: s in q <==> Quarantined(S, t, s)
    requires forall i | 0 <= i < |xs| && xs[i].record.name.Some? && xs[i].record.name.value in names ::
               xs[i].record.sessionId in q
    ensures |views| == |xs| && forall i | 0 <= i < |xs| :: views[i] == ViewAt(S, t, xs, i)
    ensures forall r :: r in merged <==> r in t.records || (exists i :: 0 <= i < |xs| && xs[i].record == r && r.sessionId !in q)
    ensures forall s :: s in selected <==> exists i :: 0 <= i < |xs| && xs[i].record.sessionId == s && s !in q
  {
    views, merged, selected := [], t.records, {};
    var seen := {};
    for k := 0 to |xs|
      invariant ViewsUpTo(S, t, xs, k, views)
      invariant SurvivorsOf(xs, k, q, seen)
      invariant Elems(merged) == Elems(t.records) + seen
      invariant selected == Sids(seen)
    {
      var record := xs[k].record;
      var view := SettleOne(S, t, xs, k, q, names, seen);
      NextView(S, t, xs, k, views);
      NextSurvivor(xs, k, q, seen);
      views := views + [view];
      if view.outcome != Conflicted {
        SidsGrow(seen, record);
        seen := seen + {record};
        selected := selected + {record.sessionId};
        merged := Adding(merged, record);
      }
    }
    SurvivingSessions(xs, q, seen);
    assert forall r :: r in merged <==> r in Elems(merged);
  }

  function Sids(rs: set<Record>): set<string> {
    set r | r in rs :: r.sessionId
  }

  lemma SidsGrow(rs: set<Record>, r: Record)
    ensures Sids(rs + {r}) == Sids(rs) + {r.sessionId}
  {}

  function Adding(rs: seq<Record>, r: Record): (out: seq<Record>)
    ensures Elems(out) == Elems(rs) + {r}
  {
    if r in rs then rs else rs + [r]
  }

  lemma SurvivingSessions(xs: seq<Item>, q: set<string>, seen: set<Record>)
    requires SurvivorsOf(xs, |xs|, q, seen)
    ensures forall r :: r in seen <==> exists i :: 0 <= i < |xs| && xs[i].record == r && r.sessionId !in q
    ensures forall s :: s in Sids(seen) <==> exists i :: 0 <= i < |xs| && xs[i].record.sessionId == s && s !in q
  {
    forall i | 0 <= i < |xs| && xs[i].record.sessionId !in q ensures xs[i].record in seen {
      assert Survives(xs, |xs|, q, xs[i].record);
    }
    forall r | r in seen ensures Survives(xs, |xs|, q, r) {}
  }

  // ---- the whole plan ----

  lemma SettledSets(S: set<Source>, t: Target, xs: seq<Item>, merged: seq<Record>, selected: set<string>)
    requires WellFormed(S) && xs == OrderedItems(S)
    requires forall r :: r in merged <==>
               r in t.records || (exists i :: 0 <= i < |xs| && xs[i].record == r && !Quarantined(S, t, r.sessionId))
    requires forall s :: s in selected <==>
               exists i :: 0 <= i < |xs| && xs[i].record.sessionId == s && !Quarantined(S, t, s)
    ensures Elems(merged) == MergedRecords(S, t)
    ensures forall s :: s in selected <==> Selected(S, t, s)
  {
    forall r | r in AllRecords(S) ensures exists i :: 0 <= i < |xs| && xs[i].record == r {
      var s :| s in S && r in s.records;
      assert Item(s.path, s.digest, r) in AllItems(S) && Item(s.path, s.digest, r) in xs;
    }
    forall i | 0 <= i < |xs| ensures xs[i].record in AllRecords(S) {
      assert xs[i] in AllItems(S);
      ItemRecord(S, xs[i]);
    }
  }

  function BindingSession(b: Binding): string { b.sessionId }

  function EntryId(e: Entry): string { e.eventId }

  /** Pruning to the selected sessions, deduplicating and merging over the global store. */
  method MergeBindings(ghost S: set<Source>, t: Target, bs: set<Binding>, selected: set<string>)
    returns (bindings: set<Binding>)
    requires WellFormed(S) && ValidTarget(t) && bs == AllBindings(S)
    requires forall s :: s in selected <==> Selected(S, t, s)
    ensures bindings == MergedCallbacks(S, t).bindings
  {
    MergedCallbacksValid(S, t);
    var own := set b | b in bs && b.sessionId in selected;
    assert own == SelectedBindings(S, t);
    var deduped := KeyedMerge({}, own, BindingSession);
    assert deduped.Some?;
    var merged := KeyedMerge(t.callbacks.bindings, deduped.value, BindingSession);
    assert merged.Some?;
    bindings := merged.value;
  }

  lemma MergedEntriesUnique(S: set<Source>, t: Target)
    requires WellFormed(S) && ValidTarget(t)
    ensures forall a, b | a in t.callbacks.outbox + SelectedEntries(S, t) && b in t.callbacks.outbox + SelectedEntries(S, t)
                          && EntryId(a) == EntryId(b) :: a == b
  {
    MergedCallbacksValid(S, t);
  }

  method MergeEntries(ghost S: set<Source>, t: Target, es: set<Entry>, selected: set<string>)
    returns (entries: set<Entry>)
    requires WellFormed(S) && ValidTarget(t) && es == AllEntries(S)
    requires forall s :: s in selected <==> Selected(S, t, s)
    ensures entries == MergedCallbacks(S, t).outbox
  {
    MergedEntriesUnique(S, t);
    var own := set e | e in es && e.sessionId in selected;
    assert own == SelectedEntries(S, t);
    var deduped := KeyedMerge({}, own, EntryId);
    assert deduped.Some?;
    var merged := KeyedMerge(t.callbacks.outbox, deduped.value, EntryId);
    assert merged.Some?;
    entries := merged.value;
  }

  method CollectArtifacts(ghost S: set<Source>, ghost t: Target, ps: set<Projected>, selected: set<string>)
    returns (artifacts: seq<Artifact>)
    requires WellFormed(S) && ValidTarget(t) && ps == AllProjected(S)
    requires forall s :: s in selected <==> Selected(S, t, s)
    ensures Injective(SelectedArtifacts(S, t), ArtifactKey)
    ensures artifacts == Ordered(SelectedArtifacts(S, t), ArtifactKey)
  {
    ArtifactKeysInjective(S, t);
    var files := set p | p in ps && p.entry.sessionId in selected && p.artifact.Some? :: p.artifact.value;
    assert files == SelectedArtifacts(S, t);
    artifacts := SortSet(files, ArtifactKey);
  }

  lemma RecordsOfItems(S: set<Source>, items: set<Item>, rs: set<Record>)
    requires items == AllItems(S) && rs == set i | i in items :: i.record
    ensures rs == AllRecords(S)
  {
    forall r | r in AllRecords(S) ensures r in rs {
      var s :| s in S && r in s.records;
      assert Item(s.path, s.digest, r) in items;
    }
  }

  /** Divergent names together with the names of quarantined records. */
  method NamesInConflict(ghost S: set<Source>, ghost t: Target, rs: set<Record>, q: set<string>)
    returns (names: set<string>)
    requires rs == AllRecords(S) && forall s :: s in q <==> Quarantined(S, t, s)
    ensures names == ConflictNames(S, t)
  {
    var divergent := set a, b | a in rs && b in rs && a != b && a.name.Some? && a.name == b.name :: a.name.value;
    names := divergent + set r | r in rs && r.name.Some? && r.sessionId in q :: r.name.value;
    forall n | n in divergent ensures n in ConflictNames(S, t) {
      var a, b :| a in rs && b in rs && a != b && a.name.Some? && a.name == b.name && n == a.name.value;
      assert Clash(a, b) && RecordDisputed(S, t, a.sessionId);
    }
  }

  /** Once the quarantine is settled and no unnamed record is in it, the rest cannot fail
      before the artifact check. */
  method AssemblePlan(ghost S: set<Source>, t: Target, items: set<Item>, bs: set<Binding>, ps: set<Projected>,
                      q: set<string>, names: set<string>)
    returns (plan: Plan)
    requires WellFormed(S) && ValidTarget(t)
    requires items == AllItems(S) && bs == AllBindings(S) && ps == AllProjected(S)
    requires names == ConflictNames(S, t) && forall s :: s in q <==> Quarantined(S, t, s)
    ensures plan == PlanOf(S, t)
  {
    var conflicts := BuildConflicts(S, t, items, names);
    ItemKeysInjective(S);
    var xs := SortSet(items, ItemKey);
    forall i | 0 <= i < |xs| && xs[i].record.name.Some? && xs[i].record.name.value in names
      ensures xs[i].record.sessionId in q
    {
      ItemRecord(S, xs[i]);
      ConflictedNameIsQuarantined(S, t, xs[i].record);
    }
    var views, merged, selected := SettleOutcomes(S, t, xs, q, names);
    SettledSets(S, t, xs, merged, selected);
    var bindings := MergeBindings(S, t, bs, selected);
    var entries := MergeEntries(S, t, set p | p in ps :: p.entry, selected);
    var artifacts := CollectArtifacts(S, t, ps, selected);
    MergedRecordsUnique(S, t);
    RecordKeysInjective(MergedRecords(S, t));
    var records := SortSet(Elems(merged), RecordKey);
    var imported := CountViews(views, Imported);
    var deduplicated := CountViews(views, Deduplicated);
    assert views == Views(S, t);
    plan := Plan(Status(true, true, imported, deduplicated, |conflicts|, views, conflicts), records,
                 Callbacks(bindings, entries), artifacts);
  }

  /** `_prevalidate_artifact_targets`. */
  method ArtifactsMatch(ghost S: set<Source>, t: Target, artifacts: seq<Artifact>) returns (fit: bool)
    requires WellFormed(S) && ValidTarget(t)
    requires forall a :: a in artifacts <==> a in SelectedArtifacts(S, t)
    ensures fit <==> ArtifactsFit(S, t)
  {
    for i := 0 to |artifacts|
      invariant forall j | 0 <= j < i && artifacts[j].eventId in t.artifacts ::
                  t.artifacts[artifacts[j].eventId] == artifacts[j].completion
    {
      if artifacts[i].eventId in t.artifacts && t.artifacts[artifacts[i].eventId] != artifacts[i].completion {
        assert artifacts[i] in SelectedArtifacts(S, t);
        return false;
      }
    }
    return true;
  }

  method PlanProjected(ghost S: set<Source>, t: Target, items: set<Item>, bs: set<Binding>, ps: set<Projected>)
    returns (r: Result<Plan, Fault>)
    requires WellFormed(S) && ValidTarget(t) && Projectable(S)
    requires items == AllItems(S) && bs == AllBindings(S) && ps == AllProjected(S)
    ensures r.Ok? <==> Plannable(S, t)
    ensures r.Ok? ==> r.value == PlanOf(S, t)
    ensures r.Err? ==> FaultHolds(S, t, r.error)
  {
    var rs := set i | i in items :: i.record;
    RecordsOfItems(S, items, rs);
    var quarantine := QuarantineSessions(S, rs, bs, set p | p in ps :: p.entry, t);
    if quarantine.Err? {
      return Err(quarantine.error);
    }
    var q := quarantine.value;
    if exists r | r in rs :: r.name.None? && r.sessionId in q {
      return Err(UnnamedCallbackConflict);
    }
    var names := NamesInConflict(S, t, rs, q);
    var plan := AssemblePlan(S, t, items, bs, ps, q, names);
    ArtifactKeysInjective(S, t);
    var fit := ArtifactsMatch(S, t, plan.artifacts);
    r := if fit then Ok(plan) else Err(ArtifactCollision);
  }

  /** `_plan`: it succeeds exactly on the plannable merges, returns the declarative plan,
      and names a fault that is really present otherwise. */
  method PlanMerge(sources: seq<Source>, t: Target) returns (r: Result<Plan, Fault>)
    requires DistinctPaths(sources) && (forall s | s in sources :: ValidSource(s)) && ValidTarget(t)
    ensures WellFormed(Elems(sources))
    ensures r.Ok? <==> Plannable(Elems(sources), t)
    ensures r.Ok? ==> r.value == PlanOf(Elems(sources), t)
    ensures r.Err? ==> FaultHolds(Elems(sources), t, r.error)
  {
    DistinctPathsWellFormed(sources);
    var items := CollectItems(sources);
    var projected := ProjectAll(sources);
    if projected.Err? {
      ProjectionFaultBlocks(Elems(sources), t, projected.error);
      return Err(projected.error);
    }
    var bs := set s, b | s in Elems(sources) && b in s.bindings :: b;
    assert bs == AllBindings(Elems(sources));
    r := PlanProjected(Elems(sources), t, Elems(items), bs, projected.value);
  }

  /** Source order is irrelevant: any permutation of the stores is planned alike. */
  lemma PlanIgnoresSourceOrder(a: seq<Source>, b: seq<Source>, t: Target)
    requires multiset(a) == multiset(b)
    requires DistinctPaths(a) && (forall s | s in a :: ValidSource(s)) && ValidTarget(t)
    ensures WellFormed(Elems(a)) && WellFormed(Elems(b))
    ensures Plannable(Elems(a), t) <==> Plannable(Elems(b), t)
    ensures PlanOf(Elems(a), t) == PlanOf(Elems(b), t)
  {
    assert forall s :: s in a <==> s in multiset(a);
    assert forall s :: s in b <==> s in multiset(b);
    assert Elems(a) == Elems(b);
    DistinctPathsWellFormed(a);
  }
}
