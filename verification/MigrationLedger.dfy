// One conflict resolution on the ledger: the loops of `_status_after_resolution`, the
// contracts they keep and the progress they make.

module MigrationLedger {
  import opened Prelude
  import opened Ordering
  import opened LegacyStores
  import opened MigrationPlan
  import opened MigrationContracts

  datatype LedgerFault = SourceNotConflicted | SourceMissing

  function Without(ks: seq<Candidate>, k: Candidate): (r: seq<Candidate>)
    ensures forall c :: c in r <==> c in ks && c != k
  {
    if ks == [] then []
    else if ks[0] == k then
      assert ks == [ks[0]] + ks[1..];
      Without(ks[1..], k)
    else
      assert ks == [ks[0]] + ks[1..];
      [ks[0]] + Without(ks[1..], k)
  }

  ghost function Remaining(c: Conflict, k: Candidate): Conflict {
    StringKeysInjective(DigestsOf(Elems(Without(c.candidates, k))));
    Conflict(c.name, Without(c.candidates, k), Ordered(DigestsOf(Elems(Without(c.candidates, k))), StringKey))
  }

  /** What is left of one conflict: nothing when its name was taken by the choice or its
      last candidate is gone. */
  ghost function ConflictAfter(c: Conflict, k: Candidate, renamed: bool): seq<Conflict> {
    if Some(c.name) != k.name then [c]
    else if !renamed || Without(c.candidates, k) == [] then []
    else [Remaining(c, k)]
  }

  ghost function ConflictsAfter(cs: seq<Conflict>, k: Candidate, renamed: bool): seq<Conflict> {
    if cs == [] then []
    else ConflictsAfter(cs[..|cs| - 1], k, renamed) + ConflictAfter(cs[|cs| - 1], k, renamed)
  }

  ghost function ViewsAfter(vs: seq<SourceView>, k: Candidate): seq<SourceView> {
    seq(|vs|, i requires 0 <= i < |vs| => if ViewOf(vs[i], k) then vs[i].(outcome := Imported) else vs[i])
  }

  predicate Resolvable(vs: seq<SourceView>, k: Candidate) {
    && (exists i :: 0 <= i < |vs| && ViewOf(vs[i], k))
    && forall i | 0 <= i < |vs| && ViewOf(vs[i], k) :: vs[i].outcome == Conflicted
  }

  ghost function StatusAfter(s: Status, k: Candidate, renamed: bool): Status {
    var vs, cs := ViewsAfter(s.sources, k), ConflictsAfter(s.conflicts, k, renamed);
    Status(true, true, CountOutcome(vs, Imported), CountOutcome(vs, Deduplicated), |cs|, vs, cs)
  }

  method ResolveConflicts(cs: seq<Conflict>, k: Candidate, renamed: bool) returns (out: seq<Conflict>)
    ensures out == ConflictsAfter(cs, k, renamed)
  {
    out := [];
    for i := 0 to |cs|
      invariant out == ConflictsAfter(cs[..i], k, renamed)
    {
      assert cs[..i + 1][..i] == cs[..i];
      if Some(cs[i].name) != k.name {
        out := out + [cs[i]];
      } else if renamed {
        var remaining := Without(cs[i].candidates, k);
        if remaining != [] {
          var digests := set c | c in remaining :: c.digest;
          assert digests == DigestsOf(Elems(remaining));
          StringKeysInjective(digests);
          var sorted := SortSet(digests, StringKey);
          out := out + [Conflict(cs[i].name, remaining, sorted)];
        }
      }
    }
    assert cs[..|cs|] == cs;
  }

  /** `_status_after_resolution`. */
  method ResolveStatus(s: Status, k: Candidate, renamed: bool) returns (r: Result<Status, LedgerFault>)
    ensures r.Ok? <==> Resolvable(s.sources, k)
    ensures r.Ok? ==> r.value == StatusAfter(s, k, renamed)
    ensures r == Err(SourceMissing) <==> forall i | 0 <= i < |s.sources| :: !ViewOf(s.sources[i], k)
  {
    var found, vs := false, [];
    for i := 0 to |s.sources|
      invariant vs == ViewsAfter(s.sources, k)[..i]
      invariant found <==> exists j :: 0 <= j < i && ViewOf(s.sources[j], k)
      invariant forall j | 0 <= j < i && ViewOf(s.sources[j], k) :: s.sources[j].outcome == Conflicted
    {
      if ViewOf(s.sources[i], k) {
        if s.sources[i].outcome != Conflicted {
          return Err(SourceNotConflicted);
        }
        vs := vs + [s.sources[i].(outcome := Imported)];
        found := true;
      } else {
        vs := vs + [s.sources[i]];
      }
    }
    if !found {
      return Err(SourceMissing);
    }
    assert vs == ViewsAfter(s.sources, k);
    var cs := ResolveConflicts(s.conflicts, k, renamed);
    var imported := CountViews(vs, Imported);
    var deduplicated := CountViews(vs, Deduplicated);
    return Ok(Status(true, true, imported, deduplicated, |cs|, vs, cs));
  }

  // ---- a resolution step of a valid ledger ----

  ghost predicate Offered(s: Status, k: Candidate) {
    exists c :: c in s.conflicts && k in c.candidates
  }

  function OpenCandidates(cs: seq<Conflict>): nat {
    if cs == [] then 0 else OpenCandidates(cs[..|cs| - 1]) + |cs[|cs| - 1].candidates|
  }

  lemma OneView(s: Status, k: Candidate) returns (i: nat)
    requires Linked(s) && Offered(s, k)
    ensures i < |s.sources| && OpenView(s.sources[i], k)
    ensures forall j | 0 <= j < |s.sources| && ViewOf(s.sources[j], k) :: j == i
  {
    var c :| c in s.conflicts && k in c.candidates;
    var n :| 0 <= n < |s.sources| && OpenView(s.sources[n], k);
    i := n;
  }

  lemma {:induction false} CountAfterUpdate(vs: seq<SourceView>, i: nat, o: Outcome)
    requires i < |vs| && vs[i].outcome == Conflicted
    ensures CountOutcome(vs[i := vs[i].(outcome := Imported)], o)
            == CountOutcome(vs, o) + (if o == Imported then 1 else 0) - (if o == Conflicted then 1 else 0)
  {
    var us := vs[i := vs[i].(outcome := Imported)];
    var n := |vs| - 1;
    if i == n {
      assert us[..n] == vs[..n];
    } else {
      assert us[..n] == vs[..n][i := vs[i].(outcome := Imported)];
      CountAfterUpdate(vs[..n], i, o);
    }
  }

  lemma {:induction false} WithoutAscending(ks: seq<Candidate>, k: Candidate)
    requires Ascending(ks, CandidateKey)
    ensures Ascending(Without(ks, k), CandidateKey)
    ensures |Without(ks, k)| <= |ks| && (k in ks ==> |Without(ks, k)| < |ks|)
  {
    if ks != [] {
      assert ks == [ks[0]] + ks[1..];
      WithoutAscending(ks[1..], k);
      var rest := Without(ks[1..], k);
      forall x | x in rest ensures KeyLt(CandidateKey(ks[0]), CandidateKey(x)) {
        var j :| 0 <= j < |ks[1..]| && ks[1..][j] == x;
        assert ks[j + 1] == x;
      }
    }
  }

  lemma RemainingValid(c: Conflict, k: Candidate)
    requires ValidConflict(c) && Without(c.candidates, k) != []
    ensures ValidConflict(Remaining(c, k))
  {
    WithoutAscending(c.candidates, k);
    StringKeysInjective(DigestsOf(Elems(Without(c.candidates, k))));
  }

  /** Every conflict that remains is a valid part of one that was there, without `k`. */
  ghost predicate PartOf(c: Conflict, b: Conflict, k: Candidate) {
    ValidConflict(c) && c.name == b.name && forall x | x in c.candidates :: x != k && x in b.candidates
  }

  lemma TailShape(last: Conflict, k: Candidate, renamed: bool)
    requires ValidConflict(last)
    ensures var tail := ConflictAfter(last, k, renamed);
            && |tail| <= 1
            && (forall c | c in tail :: PartOf(c, last, k))
            && OpenCandidates(tail) <= |last.candidates|
            && (k in last.candidates ==> OpenCandidates(tail) < |last.candidates|)
  {
    WithoutAscending(last.candidates, k);
    if Without(last.candidates, k) != [] {
      RemainingValid(last, k);
    }
    var tail := ConflictAfter(last, k, renamed);
    if tail != [] {
      assert tail[..0] == [];
      assert OpenCandidates(tail) == |tail[0].candidates|;
    }
  }

  lemma OpenCandidatesAppend(a: seq<Conflict>, b: seq<Conflict>)
    requires |b| <= 1
    ensures OpenCandidates(a + b) == OpenCandidates(a) + OpenCandidates(b)
  {
    if b == [] {
      assert a + b == a;
    } else {
      assert (a + b)[..|a|] == a;
      assert b[..0] == [];
    }
  }

  lemma {:induction false} ConflictsAfterParts(cs: seq<Conflict>, k: Candidate, renamed: bool)
    requires forall c | c in cs :: ValidConflict(c)
    ensures forall c | c in ConflictsAfter(cs, k, renamed) :: exists b :: b in cs && PartOf(c, b, k)
  {
    if cs != [] {
      var n := |cs| - 1;
      assert cs == cs[..n] + [cs[n]];
      ConflictsAfterParts(cs[..n], k, renamed);
      TailShape(cs[n], k, renamed);
    }
  }

  lemma {:induction false} ConflictsAfterShrink(cs: seq<Conflict>, k: Candidate, renamed: bool)
    requires forall c | c in cs :: ValidConflict(c)
    ensures OpenCandidates(ConflictsAfter(cs, k, renamed)) <= OpenCandidates(cs)
    ensures (exists c :: c in cs && k in c.candidates) ==>
              OpenCandidates(ConflictsAfter(cs, k, renamed)) < OpenCandidates(cs)
  {
    if cs != [] {
      var n := |cs| - 1;
      assert cs == cs[..n] + [cs[n]];
      ConflictsAfterShrink(cs[..n], k, renamed);
      TailShape(cs[n], k, renamed);
      OpenCandidatesAppend(ConflictsAfter(cs[..n], k, renamed), ConflictAfter(cs[n], k, renamed));
    }
  }

  lemma {:induction false} ConflictsAfterSorted(cs: seq<Conflict>, k: Candidate, renamed: bool)
    requires Ascending(cs, ConflictKey) && forall c | c in cs :: ValidConflict(c)
    ensures Ascending(ConflictsAfter(cs, k, renamed), ConflictKey)
  {
    if cs != [] {
      var n := |cs| - 1;
      ConflictsAfterSorted(cs[..n], k, renamed);
      ConflictsAfterParts(cs[..n], k, renamed);
      TailShape(cs[n], k, renamed);
      var head, tail := ConflictsAfter(cs[..n], k, renamed), ConflictAfter(cs[n], k, renamed);
      forall i, j | 0 <= i < j < |head + tail| ensures KeyLt(ConflictKey((head + tail)[i]), ConflictKey((head + tail)[j])) {
        if |head| <= j {
          assert (head + tail)[j] == tail[0] && tail[0] in tail && head[i] in head;
          var b :| b in cs[..n] && PartOf(head[i], b, k);
          var m :| 0 <= m < n && cs[..n][m] == b;
          assert KeyLt(ConflictKey(cs[m]), ConflictKey(cs[n]));
        }
      }
    }
  }

  lemma SameView(s: Status, k: Candidate, x: Candidate)
    requires ValidStatus(s) && Offered(s, k) && Offered(s, x)
    requires k.name == x.name && CandidateKey(k) == CandidateKey(x)
    ensures k == x
  {
    var c :| c in s.conflicts && k in c.candidates;
    var d :| d in s.conflicts && x in d.candidates;
    SameConflict(s.conflicts, c, d);
    SameCandidate(c.candidates, k, x);
  }

  lemma SameConflict(cs: seq<Conflict>, c: Conflict, d: Conflict)
    requires Ascending(cs, ConflictKey) && c in cs && d in cs && c.name == d.name
    ensures c == d
  {
    var i :| 0 <= i < |cs| && cs[i] == c;
    var j :| 0 <= j < |cs| && cs[j] == d;
    KeyAsymmetric(ConflictKey(c), ConflictKey(c));
  }

  lemma SameCandidate(ks: seq<Candidate>, k: Candidate, x: Candidate)
    requires Ascending(ks, CandidateKey) && k in ks && x in ks && CandidateKey(k) == CandidateKey(x)
    ensures k == x
  {
    var m :| 0 <= m < |ks| && ks[m] == k;
    var n :| 0 <= n < |ks| && ks[n] == x;
    KeyAsymmetric(CandidateKey(k), CandidateKey(k));
  }

  lemma StillOpen(s: Status, k: Candidate, x: Candidate, i: nat)
    requires ValidLedger(s) && Offered(s, k) && Offered(s, x) && x != k
    requires i < |s.sources| && OpenView(s.sources[i], k)
    ensures exists j :: 0 <= j < |s.sources| && j != i && OpenView(s.sources[j], x)
  {
    var j := OneView(s, x);
    if j == i {
      SameView(s, k, x);
    }
  }

  lemma LinkedAfter(s: Status, k: Candidate, renamed: bool, i: nat)
    requires ValidLedger(s) && Offered(s, k) && i < |s.sources| && OpenView(s.sources[i], k)
    requires ViewsAfter(s.sources, k) == s.sources[i := s.sources[i].(outcome := Imported)]
    ensures Linked(StatusAfter(s, k, renamed)) && !Offered(StatusAfter(s, k, renamed), k)
  {
    var s' := StatusAfter(s, k, renamed);
    ConflictsAfterParts(s.conflicts, k, renamed);
    forall c, x | c in s'.conflicts && x in c.candidates
      ensures exists j :: 0 <= j < |s'.sources| && OpenView(s'.sources[j], x)
    {
      var b :| b in s.conflicts && PartOf(c, b, k);
      StillOpen(s, k, x, i);
      var j :| 0 <= j < |s.sources| && j != i && OpenView(s.sources[j], x);
      assert OpenView(s'.sources[j], x);
    }
  }

  /** A resolution step of a valid ledger always succeeds, turns exactly the chosen source
      from conflicted to imported, keeps every contract and leaves fewer open candidates. */
  lemma ResolutionKeepsLedger(s: Status, k: Candidate, renamed: bool)
    requires ValidLedger(s) && Offered(s, k)
    ensures Resolvable(s.sources, k)
    ensures var s' := StatusAfter(s, k, renamed);
            && ValidLedger(s') && !Offered(s', k)
            && (exists i :: 0 <= i < |s.sources| && OpenView(s.sources[i], k)
                  && s'.sources == s.sources[i := s.sources[i].(outcome := Imported)])
            && s'.imported == s.imported + 1 && s'.deduplicated == s.deduplicated
            && OpenCandidates(s'.conflicts) < OpenCandidates(s.conflicts)
  {
    var i := OneView(s, k);
    var s' := StatusAfter(s, k, renamed);
    assert s'.sources == s.sources[i := s.sources[i].(outcome := Imported)];
    CountAfterUpdate(s.sources, i, Imported);
    CountAfterUpdate(s.sources, i, Deduplicated);
    ConflictsAfterSorted(s.conflicts, k, renamed);
    ConflictsAfterShrink(s.conflicts, k, renamed);
    ConflictsAfterParts(s.conflicts, k, renamed);
    LinkedAfter(s, k, renamed, i);
  }

  /** `c` is `b` without the candidate `k`, and not empty. */
  ghost predicate Leftover(c: Conflict, b: Conflict, k: Candidate) {
    && c.name == b.name && ValidConflict(c)
    && forall x :: x in c.candidates <==> x in b.candidates && x != k
  }

  lemma LeftoverIsRemaining(c: Conflict, b: Conflict, k: Candidate)
    requires ValidConflict(b)
    ensures Leftover(c, b, k) <==> Without(b.candidates, k) != [] && c == Remaining(b, k)
  {
    assert Leftover(c, b, k) ==> c.candidates[0] in Without(b.candidates, k);
    if Without(b.candidates, k) != [] {
      RemainingValid(b, k);
      var d := Remaining(b, k);
      if Leftover(c, b, k) {
        ListingUnique(c.candidates, d.candidates, Elems(d.candidates), CandidateKey);
        ListingUnique(c.digests, d.digests, DigestsOf(Elems(d.candidates)), StringKey);
      }
    }
  }

  lemma ConflictLeft(b: Conflict, k: Candidate, renamed: bool, c: Conflict)
    requires ValidConflict(b)
    ensures c in ConflictAfter(b, k, renamed) <==> if Some(b.name) != k.name then c == b else renamed && Leftover(c, b, k)
  {
    LeftoverIsRemaining(c, b, k);
  }

  /** The conflicts a resolution leaves: those over other names as they were; the one over the
      chosen candidate's name only if that record was renamed, with exactly its other candidates,
      and then only if there are any. */
  lemma {:induction false} ConflictsLeftExactly(cs: seq<Conflict>, k: Candidate, renamed: bool, c: Conflict)
    requires forall b | b in cs :: ValidConflict(b)
    ensures c in ConflictsAfter(cs, k, renamed) <==>
              exists b :: b in cs && if Some(b.name) != k.name then c == b else renamed && Leftover(c, b, k)
    decreases |cs|
  {
    if cs == [] {
    } else {
      var n := |cs| - 1;
      assert cs == cs[..n] + [cs[n]];
      ConflictsLeftExactly(cs[..n], k, renamed, c);
      ConflictLeft(cs[n], k, renamed, c);
    }
  }

  /** A run of resolutions, each choosing a candidate that is still offered. */
  ghost predicate ResolutionRun(s: Status, ks: seq<(Candidate, bool)>, end: Status)
    decreases |ks|
  {
    if ks == [] then s == end
    else Offered(s, ks[0].0) && ResolutionRun(StatusAfter(s, ks[0].0, ks[0].1), ks[1..], end)
  }

  /** No run of resolutions is longer than the number of candidates first on offer, each of
      its steps imports one more source, and the ledger it ends in is valid. */
  lemma {:induction false} ResolutionsAreFinite(s: Status, ks: seq<(Candidate, bool)>, end: Status)
    requires ValidLedger(s) && ResolutionRun(s, ks, end)
    ensures ValidLedger(end)
    ensures |ks| <= OpenCandidates(s.conflicts) - OpenCandidates(end.conflicts)
    ensures end.imported == s.imported + |ks| && end.deduplicated == s.deduplicated
    decreases |ks|
  {
    if ks != [] {
      ResolutionKeepsLedger(s, ks[0].0, ks[0].1);
      ResolutionsAreFinite(StatusAfter(s, ks[0].0, ks[0].1), ks[1..], end);
    }
  }
}
