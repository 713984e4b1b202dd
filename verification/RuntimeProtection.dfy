// Snapshots under publication: exactly when one survives trimming until its publication ends,
// and what it takes for two publications of one turn to overlap.

module RuntimeProtection {
  import opened Prelude
  import opened RuntimeStates
  import opened RuntimePublication

  predicate HasSnapshot(s: Session, id: Id) {
    id in Turns(s.shelf.terminals)
  }

  function Turns(terminals: seq<Snapshot>): set<Id> {
    set i | 0 <= i < |terminals| :: terminals[i].turn
  }

  /** No step publishes the turn again or releases its snapshot. */
  ghost predicate LeftAlone(s: Session, h: History, steps: seq<Step>, limit: nat, id: Id)
    decreases |steps|
  {
    steps == [] ||
    (&& steps[0] != Release(id)
     && (Publishes(s, steps[0]).Some? ==> Publishes(s, steps[0]).value.turn != id)
     && LeftAlone(Next(s, steps[0], limit), HistoryAfter(s, h, steps[0]), steps[1..], limit, id))
  }

  // ---- a publication on its own ----

  /** The snapshot a step is left with after trimming. */
  lemma TrimKeepsPublishing(terminals: seq<Snapshot>, publishing: set<Id>, limit: nat, id: Id)
    requires id in Turns(terminals) && id in publishing
    ensures id in Turns(Trim(terminals, publishing, limit))
  {
    TrimBounds(terminals, publishing, limit);
    var i :| 0 <= i < |terminals| && terminals[i].turn == id;
    assert terminals[i] in Trim(terminals, publishing, limit);
  }

  lemma WithoutTurnKeeps(s: seq<Snapshot>, other: Id, id: Id)
    requires id in Turns(s) && id != other
    ensures id in Turns(WithoutTurn(s, other))
  {
    WithoutTurnIsFilter(s, other);
    var i :| 0 <= i < |s| && s[i].turn == id;
    assert s[i] in WithoutTurn(s, other);
  }

  lemma RetainKeeps(shelf: Shelf, snapshot: Snapshot, publish: bool, limit: nat, id: Id)
    requires id in Turns(shelf.terminals) || id == snapshot.turn
    requires id in Retain(shelf, snapshot, publish, limit).publishing
    ensures id in Turns(Retain(shelf, snapshot, publish, limit).terminals)
  {
    var grown := WithoutTurn(shelf.terminals, snapshot.turn) + [snapshot];
    if id == snapshot.turn {
      assert grown[|grown| - 1].turn == id;
    } else {
      WithoutTurnKeeps(shelf.terminals, snapshot.turn, id);
      var i :| 0 <= i < |WithoutTurn(shelf.terminals, snapshot.turn)| && WithoutTurn(shelf.terminals, snapshot.turn)[i].turn == id;
      assert grown[i].turn == id;
    }
    TrimKeepsPublishing(grown, Retain(shelf, snapshot, publish, limit).publishing, limit, id);
  }

  /** A protected snapshot survives every step but its own release and the end of its publication. */
  lemma ProtectedSurvives(s: Session, step: Step, limit: nat, id: Id)
    requires HasSnapshot(s, id) && id in s.shelf.publishing && step != Release(id) && step != Finish(id)
    ensures HasSnapshot(Next(s, step, limit), id) && id in Next(s, step, limit).shelf.publishing
  {
    if Lost(s, step).Some? {
      RetainKeeps(s.shelf, Lost(s, step).value, true, limit, id);
    } else if Committed(s, step).Some? {
      var snapshot := Committed(s, step).value;
      RetainKeeps(s.shelf.(published := Mark(s.shelf.published, snapshot.turn, limit)), snapshot,
                  snapshot.turn !in s.shelf.published, limit, id);
    } else if step.Finish? {
      TrimKeepsPublishing(s.shelf.terminals, s.shelf.publishing - {step.turn}, limit, id);
    } else if step.Release? {
      WithoutTurnKeeps(s.shelf.terminals, step.turn, id);
    }
  }

  /** A step that publishes a turn protects it and retains its snapshot. */
  lemma PublishingProtects(s: Session, step: Step, limit: nat)
    requires Publishes(s, step).Some?
    ensures var id := Publishes(s, step).value.turn;
            id in Next(s, step, limit).shelf.publishing && HasSnapshot(Next(s, step, limit), id)
  {
    var snapshot := Publishes(s, step).value;
    if Lost(s, step).Some? {
      RetainKeeps(s.shelf, snapshot, true, limit, snapshot.turn);
    } else {
      RetainKeeps(s.shelf.(published := Mark(s.shelf.published, snapshot.turn, limit)), snapshot, true, limit, snapshot.turn);
    }
  }

  /** The one publication in flight of the turn, protected and with its snapshot. */
  ghost predicate Single(s: Session, h: History, id: Id) {
    h.inFlight[id] == 1 && id in s.shelf.publishing && HasSnapshot(s, id)
  }

  lemma {:induction false} SingleSurvives(s: Session, h: History, steps: seq<Step>, limit: nat, end: Session, endH: History, id: Id)
    requires Run(s, h, steps, limit, end, endH) && LeftAlone(s, h, steps, limit, id)
    requires Single(s, h, id) || id !in h.inFlight
    ensures id in endH.inFlight ==> Single(end, endH, id)
    decreases |steps|
  {
    if steps != [] {
      if id in h.inFlight && steps[0] != Finish(id) {
        ProtectedSurvives(s, steps[0], limit, id);
      }
      SingleSurvives(Next(s, steps[0], limit), HistoryAfter(s, h, steps[0]), steps[1..], limit, end, endH, id);
    }
  }

  // ---- overlapping publications ----

  lemma {:induction false} LengthBound(ids: set<Id>) returns (n: nat)
    ensures forall x <- ids :: |x| < n
    decreases |ids|
  {
    if ids == {} {
      n := 0;
    } else {
      var x :| x in ids;
      var m := LengthBound(ids - {x});
      n := if m > |x| then m else |x| + 1;
    }
  }

  lemma NewId(ids: set<Id>) returns (x: Id)
    ensures x !in ids
  {
    var n := LengthBound(ids);
    x := seq(n, _ => 'x');
  }

  lemma {:induction false} TurnsSize(terminals: seq<Snapshot>)
    ensures |Turns(terminals)| <= |terminals|
    decreases |terminals|
  {
    if terminals != [] {
      var n := |terminals| - 1;
      TurnsSize(terminals[..n]);
      assert Turns(terminals) <= Turns(terminals[..n]) + {terminals[n].turn} by {
        forall i | 0 <= i < |terminals| ensures terminals[i].turn in Turns(terminals[..n]) + {terminals[n].turn} {
          if i < n {
            assert terminals[..n][i] == terminals[i];
          }
        }
      }
      Subset(Turns(terminals), Turns(terminals[..n]) + {terminals[n].turn});
    }
  }

  lemma RoomForAll(terminals: seq<Snapshot>, id: Id, others: set<Id>)
    requires id in Turns(terminals) && id !in others && others <= Turns(terminals)
    ensures |terminals| >= |others| + 1
  {
    Subset(others + {id}, Turns(terminals));
    TurnsSize(terminals);
  }

  /** An unprotected snapshot does not stand next to `limit` protected ones. */
  lemma CrowdedOut(s: Session, limit: nat, id: Id, others: set<Id>)
    requires Bounded(s.shelf, limit) && id !in s.shelf.publishing
    requires |others| == limit && id !in others && others <= Turns(s.shelf.terminals)
    ensures !HasSnapshot(s, id)
  {
    if HasSnapshot(s, id) {
      RoomForAll(s.shelf.terminals, id, others);
    }
  }

  /** Completions of new turns, one after the other, until `limit` of them are being published. */
  lemma {:induction false} Crowd(s: Session, h: History, limit: nat, id: Id, others: set<Id>)
    returns (steps: seq<Step>, end: Session, endH: History)
    requires limit > 0 && Sound(s, h, limit) && id !in s.shelf.publishing && id in h.inFlight && |others| <= limit
    requires id !in others && others <= Turns(s.shelf.terminals) && others <= s.shelf.publishing
    ensures Run(s, h, steps, limit, end, endH) && LeftAlone(s, h, steps, limit, id)
    ensures id in endH.inFlight && !HasSnapshot(end, id)
    decreases limit - |others|
  {
    if |others| == limit {
      CrowdedOut(s, limit, id, others);
      steps, end, endH := [], s, h;
    } else {
      var x := NewId(others + {id} + Ids(s.shelf.published));
      var step := Completed(x, "completed", None);
      var s', h' := Next(s, step, limit), HistoryAfter(s, h, step);
      assert x !in s.shelf.published;
      assert Publishes(s, step) == Committed(s, step) && Committed(s, step).value.turn == x;
      PublishingProtects(s, step, limit);
      forall y | y in others ensures y in Turns(s'.shelf.terminals) && y in s'.shelf.publishing {
        ProtectedSurvives(s, step, limit, y);
      }
      MarkStep(s, h, step, limit);
      RetainStep(s, h, step, limit);
      var rest;
      rest, end, endH := Crowd(s', h', limit, id, others + {x});
      steps := [step] + rest;
      assert steps[1..] == rest;
    }
  }

  /** With two publications of a turn in flight, the first to finish costs the other its
      snapshot: new completions crowd it out. */
  lemma OverlapLoses(s: Session, h: History, limit: nat, id: Id) returns (steps: seq<Step>, end: Session, endH: History)
    requires limit > 0 && Sound(s, h, limit) && h.inFlight[id] >= 2
    ensures Run(s, h, steps, limit, end, endH) && LeftAlone(s, h, steps, limit, id)
    ensures id in endH.inFlight && !HasSnapshot(end, id)
  {
    var step := Finish(id);
    MarkStep(s, h, step, limit);
    RetainStep(s, h, step, limit);
    var rest;
    rest, end, endH := Crowd(Next(s, step, limit), HistoryAfter(s, h, step), limit, id, {});
    steps := [step] + rest;
    assert steps[1..] == rest;
  }

  // ---- the results ----

  /** While the turn's publication is in flight its snapshot is there, in every continuation that
      leaves the turn alone. */
  ghost predicate Survives(s: Session, h: History, limit: nat, id: Id) {
    forall steps, end, endH | Run(s, h, steps, limit, end, endH) && LeftAlone(s, h, steps, limit, id) ::
      id in endH.inFlight ==> HasSnapshot(end, id)
  }

  /** In every run a publication that begins keeps its snapshot until it ends, whatever follows
      short of publishing the turn again or releasing the snapshot, if and only if no other
      publication of the same turn was in flight when it began. */
  lemma SurvivesExactlyAlone(prefix: seq<Step>, limit: nat, s: Session, h: History, step: Step)
    requires limit > 0 && Run(FRESH_SESSION, NO_HISTORY, prefix, limit, s, h)
    requires CanTake(s, h, step) && Publishes(s, step).Some?
    ensures Survives(Next(s, step, limit), HistoryAfter(s, h, step), limit, Publishes(s, step).value.turn)
            <==> Publishes(s, step).value.turn !in h.inFlight
  {
    var id := Publishes(s, step).value.turn;
    var s', h' := Next(s, step, limit), HistoryAfter(s, h, step);
    RunSound(FRESH_SESSION, NO_HISTORY, prefix, limit, s, h);
    MarkStep(s, h, step, limit);
    RetainStep(s, h, step, limit);
    if id in h.inFlight {
      var steps, end, endH := OverlapLoses(s', h', limit, id);
      assert !Survives(s', h', limit, id);
    } else {
      PublishingProtects(s, step, limit);
      forall steps, end, endH | Run(s', h', steps, limit, end, endH) && LeftAlone(s', h', steps, limit, id)
        ensures id in endH.inFlight ==> HasSnapshot(end, id)
      {
        SingleSurvives(s', h', steps, limit, end, endH, id);
      }
    }
  }

  lemma {:induction false} LastMark(marks: seq<Id>, id: Id, at: nat) returns (a: seq<Id>, b: seq<Id>)
    requires at < |marks| && marks[at] == id
    ensures marks == a + [id] + b && id !in b && |a| >= at
    decreases |marks|
  {
    var n := |marks| - 1;
    assert marks == marks[..n] + [marks[n]];
    if marks[n] == id {
      a, b := marks[..n], [];
    } else {
      a, b := LastMark(marks[..n], id, at);
      b := b + [marks[n]];
    }
  }

  /** A step that marks an id it has marked before at `at` and publishes it again comes after
      `limit` distinct marks of other turns. */
  lemma MarkedAgain(s: Session, h: History, limit: nat, again: Step, at: nat)
    requires limit > 0 && Sound(s, h, limit)
    requires Publishes(s, again).Some? && !again.Detach?
    requires at < |h.marks| && h.marks[at] == Publishes(s, again).value.turn
    ensures |Ids(h.marks[at + 1..]) - {Publishes(s, again).value.turn}| >= limit
  {
    var id := Publishes(s, again).value.turn;
    var a, b := LastMark(h.marks, id, at);
    RememberedExactly(a, id, b, limit);
    var since := h.marks[at + 1..];
    assert since[|a| - at..] == b;
    assert Ids(b) <= Ids(since) - {id};
    Subset(Ids(b), Ids(since) - {id});
  }

  /** An overlap takes a detachment, at its beginning or now, or `limit` distinct other turns
      marked in between: from a completion or read that published the turn to the next step that
      publishes it again. */
  lemma OverlapNeeds(prefix: seq<Step>, limit: nat, s: Session, h: History, step: Step, steps: seq<Step>,
                     s2: Session, h2: History, again: Step)
    requires limit > 0 && Run(FRESH_SESSION, NO_HISTORY, prefix, limit, s, h)
    requires CanTake(s, h, step) && Publishes(s, step).Some? && !step.Detach?
    requires Run(Next(s, step, limit), HistoryAfter(s, h, step), steps, limit, s2, h2)
    requires Publishes(s2, again).Some? && !again.Detach?
    requires Publishes(s2, again).value.turn == Publishes(s, step).value.turn
    ensures |h2.marks| > |h.marks|
    ensures |Ids(h2.marks[|h.marks| + 1..]) - {Publishes(s, step).value.turn}| >= limit
  {
    var s1, h1 := Next(s, step, limit), HistoryAfter(s, h, step);
    RunSound(FRESH_SESSION, NO_HISTORY, prefix, limit, s, h);
    MarkStep(s, h, step, limit);
    RetainStep(s, h, step, limit);
    RunSound(s1, h1, steps, limit, s2, h2);
    MarksGrow(s1, h1, steps, limit, s2, h2);
    PublishingMarks(s, h, step);
    MarkedAgain(s2, h2, limit, again, |h.marks|);
  }

  lemma PublishingMarks(s: Session, h: History, step: Step)
    requires Publishes(s, step).Some? && !step.Detach?
    ensures HistoryAfter(s, h, step).marks == h.marks + [Publishes(s, step).value.turn]
  {}

  // ---- two overlaps ----

  /** A detachment publishes the lost turn without marking it, so its completion can be published
      again at the same time. */
  lemma DetachedTurnOverlaps(a: Id, limit: nat) returns (steps: seq<Step>, s: Session, h: History)
    requires limit > 0
    ensures Run(FRESH_SESSION, NO_HISTORY, steps, limit, s, h) && h.inFlight[a] == 2
  {
    var started := Next(FRESH_SESSION, Started(a), limit);
    var detached := Next(started, Detach(""), limit);
    s := Next(detached, Completed(a, "completed", None), limit);
    var h2 := HistoryAfter(started, NO_HISTORY, Detach(""));
    h := HistoryAfter(detached, h2, Completed(a, "completed", None));
    assert h2.inFlight == multiset{a} && h.inFlight == multiset{a, a};
    steps := [Completed(a, "completed", None)];
    assert Run(detached, h2, steps, limit, s, h);
    steps := [Detach("")] + steps;
    assert steps[1..] == [Completed(a, "completed", None)];
    assert Run(started, NO_HISTORY, steps, limit, s, h);
    var tail := steps;
    steps := [Started(a)] + steps;
    assert steps[1..] == tail;
  }

  lemma TrimLeavesPublishing(terminals: seq<Snapshot>, publishing: set<Id>, limit: nat)
    requires forall i | 0 <= i < |terminals| :: terminals[i].turn in publishing
    ensures Trim(terminals, publishing, limit) == terminals
  {}

  /** A completion under a limit of one, when every retained snapshot is being published. */
  lemma NewCompletion(s: Session, h: History, id: Id)
    requires id !in s.shelf.published && |s.shelf.published| <= 1 && s.items == map[]
    requires forall x | x in WithoutTurn(s.shelf.terminals, id) :: x.turn in s.shelf.publishing
    ensures var s', h' := Next(s, Completed(id, "", None), 1), HistoryAfter(s, h, Completed(id, "", None));
            && s'.shelf == Shelf(WithoutTurn(s.shelf.terminals, id) + [Snapshot(id, "", None, [])], [id],
                                 s.shelf.publishing + {id})
            && s'.items == map[]
            && h'.inFlight == h.inFlight + multiset{id}
  {
    WithoutIds(s.shelf.published, id);
    TrimLeavesPublishing(WithoutTurn(s.shelf.terminals, id) + [Snapshot(id, "", None, [])], s.shelf.publishing + {id}, 1);
  }

  lemma TwoCompletions(a: Id, b: Id)
    requires a != b
    ensures var ca, cb := Completed(a, "", None), Completed(b, "", None);
            var s1, h1 := Next(FRESH_SESSION, ca, 1), HistoryAfter(FRESH_SESSION, NO_HISTORY, ca);
            var s2, h2 := Next(s1, cb, 1), HistoryAfter(s1, h1, cb);
            && s2.shelf == Shelf([Snapshot(a, "", None, []), Snapshot(b, "", None, [])], [b], {a, b})
            && s2.items == map[] && h2.inFlight == multiset{a, b}
  {
    NewCompletion(FRESH_SESSION, NO_HISTORY, a);
    NewCompletion(Next(FRESH_SESSION, Completed(a, "", None), 1),
                  HistoryAfter(FRESH_SESSION, NO_HISTORY, Completed(a, "", None)), b);
  }

  lemma CompletedAgain(s: Session, h: History, a: Id, b: Id)
    requires a != b && s.shelf == Shelf([Snapshot(a, "", None, []), Snapshot(b, "", None, [])], [b], {a, b})
    requires s.items == map[] && h.inFlight == multiset{a, b}
    ensures var ca := Completed(a, "", None);
            && Next(s, ca, 1).shelf == Shelf([Snapshot(b, "", None, []), Snapshot(a, "", None, [])], [a], {a, b})
            && HistoryAfter(s, h, ca).inFlight == multiset{a, b, a}
  {
    WithoutFirst(Snapshot(a, "", None, []), Snapshot(b, "", None, []));
    NewCompletion(s, h, a);
  }

  /** Three completions under a limit of one: both turns are being published, the first one twice. */
  lemma ForgottenTurnOverlaps(a: Id, b: Id) returns (s: Session, h: History)
    requires a != b
    ensures Run(FRESH_SESSION, NO_HISTORY, [Completed(a, "", None), Completed(b, "", None), Completed(a, "", None)], 1, s, h)
    ensures h.inFlight == multiset{a, b, a}
    ensures s.shelf == Shelf([Snapshot(b, "", None, []), Snapshot(a, "", None, [])], [a], {a, b})
  {
    var ca, cb := Completed(a, "", None), Completed(b, "", None);
    RunOfThree(FRESH_SESSION, NO_HISTORY, ca, cb, ca, 1);
    TwoCompletions(a, b);
    var s1, h1 := Next(FRESH_SESSION, ca, 1), HistoryAfter(FRESH_SESSION, NO_HISTORY, ca);
    var s2, h2 := Next(s1, cb, 1), HistoryAfter(s1, h1, cb);
    CompletedAgain(s2, h2, a, b);
    s, h := Next(s2, ca, 1), HistoryAfter(s2, h2, ca);
  }

  lemma RunOfThree(s: Session, h: History, x: Step, y: Step, z: Step, limit: nat)
    requires !x.Finish? && !y.Finish? && !z.Finish? && Accepted(s, x)
    requires Accepted(Next(s, x, limit), y) && Accepted(Next(Next(s, x, limit), y, limit), z)
    ensures var s1, h1 := Next(s, x, limit), HistoryAfter(s, h, x);
            var s2, h2 := Next(s1, y, limit), HistoryAfter(s1, h1, y);
            Run(s, h, [x, y, z], limit, Next(s2, z, limit), HistoryAfter(s2, h2, z))
  {
    var s1, h1 := Next(s, x, limit), HistoryAfter(s, h, x);
    var s2, h2 := Next(s1, y, limit), HistoryAfter(s1, h1, y);
    var s3, h3 := Next(s2, z, limit), HistoryAfter(s2, h2, z);
    assert Run(s3, h3, [z][1..], limit, s3, h3);
    assert [y, z][1..] == [z];
    assert Run(s2, h2, [z], limit, s3, h3);
    assert [x, y, z][1..] == [y, z];
    assert Run(s1, h1, [y, z], limit, s3, h3);
  }

  lemma WithoutFirst(x: Snapshot, y: Snapshot)
    requires x.turn != y.turn
    ensures WithoutTurn([x, y], x.turn) == [y]
  {
    assert [x, y][1..] == [y];
    assert WithoutTurn([y], x.turn) == [y];
  }

  /** Without any detachment: the second turn makes the first one forgotten, its repeated
      completion overlaps, and the end of one publication evicts the other's snapshot. */
  lemma ForgottenTurnLosesSnapshot(a: Id, b: Id) returns (s: Session, h: History)
    requires a != b
    ensures Run(FRESH_SESSION, NO_HISTORY, [Completed(a, "", None), Completed(b, "", None), Completed(a, "", None)], 1, s, h)
    ensures CanTake(s, h, Finish(a)) && a in HistoryAfter(s, h, Finish(a)).inFlight
    ensures !HasSnapshot(Next(s, Finish(a), 1), a)
  {
    s, h := ForgottenTurnOverlaps(a, b);
    FinishEvicts(s, a, b);
  }

  lemma FinishEvicts(s: Session, a: Id, b: Id)
    requires a != b && s.shelf.terminals == [Snapshot(b, "", None, []), Snapshot(a, "", None, [])] && s.shelf.publishing == {a, b}
    ensures !HasSnapshot(Next(s, Finish(a), 1), a)
  {
    var xa, xb := Snapshot(a, "", None, []), Snapshot(b, "", None, []);
    assert {a, b} - {a} == {b};
    EvictsSecond(xb, xa);
    assert Next(s, Finish(a), 1).shelf.terminals == [xb];
  }

  lemma EvictsSecond(x: Snapshot, y: Snapshot)
    requires x.turn != y.turn
    ensures Trim([x, y], {x.turn}, 1) == [x]
  {
    assert [x, y][1..] == [y];
    assert Removable([x, y], {x.turn}) == 1;
    assert [x, y][..1] + [x, y][2..] == [x];
  }
}
