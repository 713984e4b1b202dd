// Publication memory is an exact LRU, and terminal snapshots are retained within a bound that
// never costs a snapshot its publication.

module RuntimePublication {
  import opened Prelude
  import opened RuntimeStates

  // ---- the memory of published turns ----

  /** The distinct ids of a marking history, least recently marked first. */
  function Recency(marks: seq<Id>): seq<Id> {
    if marks == [] then []
    else Without(Recency(marks[..|marks| - 1]), marks[|marks| - 1]) + [marks[|marks| - 1]]
  }

  function Ids(s: seq<Id>): set<Id> {
    set x | x in s
  }

  predicate Distinct(s: seq<Id>) {
    forall i, j | 0 <= i < j < |s| :: s[i] != s[j]
  }

  lemma IdsConcat(s: seq<Id>, t: seq<Id>)
    ensures Ids(s + t) == Ids(s) + Ids(t)
  {}

  predicate Apart(s: seq<Id>, t: seq<Id>) {
    forall x | x in s :: x !in t
  }

  lemma DistinctConcat(s: seq<Id>, t: seq<Id>)
    ensures Distinct(s + t) <==> Distinct(s) && Distinct(t) && Apart(s, t)
  {
    var st := s + t;
    if Distinct(st) {
      forall i, j | 0 <= i < j < |s| ensures s[i] != s[j] {
        assert st[i] == s[i] && st[j] == s[j];
      }
      forall i, j | 0 <= i < j < |t| ensures t[i] != t[j] {
        assert st[|s| + i] == t[i] && st[|s| + j] == t[j];
      }
      forall x | x in s ensures x !in t {
        var i :| 0 <= i < |s| && s[i] == x;
        forall j | 0 <= j < |t| ensures t[j] != x {
          assert st[i] == x && st[|s| + j] == t[j];
        }
      }
    }
    if Distinct(s) && Distinct(t) && Apart(s, t) {
      forall i, j | 0 <= i < j < |st| ensures st[i] != st[j] {
        if i < |s| <= j {
          assert st[i] == s[i] && st[j] == t[j - |s|] && s[i] !in t;
        } else if j < |s| {
          assert st[i] == s[i] && st[j] == s[j];
        } else {
          assert st[i] == t[i - |s|] && st[j] == t[j - |s|];
        }
      }
    }
  }

  lemma {:induction false} WithoutConcat(s: seq<Id>, t: seq<Id>, x: Id)
    ensures Without(s + t, x) == Without(s, x) + Without(t, x)
    decreases |s|
  {
    if s == [] {
      assert s + t == t;
    } else {
      WithoutConcat(s[1..], t, x);
      assert (s + t)[1..] == s[1..] + t;
    }
  }

  lemma {:induction false} WithoutIds(s: seq<Id>, x: Id)
    ensures Ids(Without(s, x)) == Ids(s) - {x}
    ensures x !in s ==> Without(s, x) == s
    decreases |s|
  {
    if s == [] {
    } else {
      WithoutIds(s[1..], x);
      assert s == [s[0]] + s[1..];
      IdsConcat([s[0]], s[1..]);
      IdsConcat([s[0]], Without(s[1..], x));
    }
  }

  lemma {:induction false} WithoutDistinct(s: seq<Id>, x: Id)
    requires Distinct(s)
    ensures Distinct(Without(s, x)) && |Without(s, x)| == if x in s then |s| - 1 else |s|
    decreases |s|
  {
    if s == [] {
    } else {
      assert s == [s[0]] + s[1..];
      DistinctConcat([s[0]], s[1..]);
      WithoutDistinct(s[1..], x);
      WithoutIds(s[1..], x);
      assert s[0] !in Ids(Without(s[1..], x));
      DistinctConcat([s[0]], Without(s[1..], x));
    }
  }

  lemma {:induction false} RecencyDistinct(marks: seq<Id>)
    ensures Distinct(Recency(marks)) && Ids(Recency(marks)) == Ids(marks)
    decreases |marks|
  {
    if marks == [] {
    } else {
      var before, x := marks[..|marks| - 1], marks[|marks| - 1];
      RecencyDistinct(before);
      WithoutIds(Recency(before), x);
      WithoutDistinct(Recency(before), x);
      assert marks == before + [x];
      IdsConcat(before, [x]);
      IdsConcat(Without(Recency(before), x), [x]);
      assert x !in Ids(Without(Recency(before), x));
      DistinctConcat(Without(Recency(before), x), [x]);
    }
  }

  lemma LastOfConcat<T>(s: seq<T>, t: seq<T>, limit: nat)
    requires |t| >= limit
    ensures Last(s + t, limit) == Last(t, limit)
  {}

  /** Marking the remembered ids is marking the whole recency order. */
  lemma MarkIsLru(recency: seq<Id>, id: Id, limit: nat)
    requires Distinct(recency) && limit > 0
    ensures Mark(Last(recency, limit), id, limit) == Last(Without(recency, id) + [id], limit)
  {
    var kept := Last(recency, limit);
    if |recency| > limit {
      var gone := recency[..|recency| - limit];
      assert recency == gone + kept;
      DistinctConcat(gone, kept);
      WithoutConcat(gone, kept, id);
      WithoutDistinct(kept, id);
      var marked := Without(kept, id) + [id];
      assert |marked| >= limit;
      LastOfConcat(Without(gone, id), marked, limit);
      assert Without(recency, id) + [id] == Without(gone, id) + marked;
    }
  }

  /** What stands behind the last mark of an id: exactly the distinct ids marked since. */
  lemma {:induction false} RecencyShape(a: seq<Id>, id: Id, b: seq<Id>) returns (older: seq<Id>, newer: seq<Id>)
    requires id !in b
    ensures Recency(a + [id] + b) == older + [id] + newer && Ids(newer) == Ids(b)
    decreases |b|
  {
    if b == [] {
      older, newer := Without(Recency(a), id), [];
      assert a + [id] + b == a + [id];
      assert (a + [id])[..|a|] == a;
    } else {
      var rest, x := b[..|b| - 1], b[|b| - 1];
      older, newer := RecencyShape(a, id, rest);
      assert (a + [id] + b)[..|a| + |b|] == a + [id] + rest;
      WithoutConcat(older + [id], newer, x);
      WithoutConcat(older, [id], x);
      WithoutIds(newer, x);
      IdsConcat(Without(newer, x), [x]);
      assert b == rest + [x];
      IdsConcat(rest, [x]);
      older, newer := Without(older, x), Without(newer, x) + [x];
    }
  }

  lemma {:induction false} DistinctSize(s: seq<Id>)
    requires Distinct(s)
    ensures |Ids(s)| == |s|
    decreases |s|
  {
    if s == [] {
    } else {
      DistinctSize(s[1..]);
      assert Ids(s) == {s[0]} + Ids(s[1..]);
    }
  }

  /** The end of a list without repeats holds an element exactly if fewer come after it. */
  lemma KeptExactly(older: seq<Id>, id: Id, newer: seq<Id>, limit: nat)
    requires Distinct(older + [id] + newer)
    ensures id in Last(older + [id] + newer, limit) <==> |newer| < limit
  {
    var all := older + [id] + newer;
    assert all[|older|] == id;
    var kept := Last(all, limit);
    if |newer| < limit {
      assert kept[|kept| - 1 - |newer|] == id;
    } else {
      forall i | 0 <= i < |kept| ensures kept[i] != id {
        assert kept[i] == all[|all| - |kept| + i];
      }
    }
  }

  /** The memory is an exact LRU: an id is remembered if and only if fewer than `limit` distinct
      other ids were marked since its last mark. */
  lemma RememberedExactly(a: seq<Id>, id: Id, b: seq<Id>, limit: nat)
    requires id !in b
    ensures id in Last(Recency(a + [id] + b), limit) <==> |Ids(b)| < limit
  {
    var marks := a + [id] + b;
    var older, newer := RecencyShape(a, id, b);
    RecencyDistinct(marks);
    DistinctConcat(older + [id], newer);
    DistinctSize(newer);
    KeptExactly(older, id, newer, limit);
  }

  // ---- retention ----

  function InPublication(terminals: seq<Snapshot>, publishing: set<Id>): seq<Snapshot> {
    if terminals == [] then []
    else (if terminals[0].turn in publishing then [terminals[0]] else []) + InPublication(terminals[1..], publishing)
  }

  function NotInPublication(terminals: seq<Snapshot>, publishing: set<Id>): seq<Snapshot> {
    if terminals == [] then []
    else (if terminals[0].turn in publishing then [] else [terminals[0]]) + NotInPublication(terminals[1..], publishing)
  }

  lemma ConsSplits(x: Snapshot, rest: seq<Snapshot>, publishing: set<Id>)
    ensures InPublication([x] + rest, publishing)
         == (if x.turn in publishing then [x] else []) + InPublication(rest, publishing)
    ensures NotInPublication([x] + rest, publishing)
         == (if x.turn in publishing then [] else [x]) + NotInPublication(rest, publishing)
  {
    assert ([x] + rest)[1..] == rest;
  }

  lemma {:induction false} SplitsOff(front: seq<Snapshot>, x: Snapshot, back: seq<Snapshot>, publishing: set<Id>)
    requires x.turn !in publishing && forall i | 0 <= i < |front| :: front[i].turn in publishing
    ensures InPublication(front + ([x] + back), publishing) == InPublication(front + back, publishing)
    ensures NotInPublication(front + ([x] + back), publishing) == [x] + NotInPublication(front + back, publishing)
    decreases |front|
  {
    if front == [] {
      assert front + ([x] + back) == [x] + back && front + back == back;
      ConsSplits(x, back, publishing);
    } else {
      var y, rest := front[0], front[1..];
      SplitsOff(rest, x, back, publishing);
      assert front + ([x] + back) == [y] + (rest + ([x] + back)) && front + back == [y] + (rest + back);
      ConsSplits(y, rest + ([x] + back), publishing);
      ConsSplits(y, rest + back, publishing);
    }
  }

  lemma SplitsAt(terminals: seq<Snapshot>, publishing: set<Id>, at: nat)
    requires at == Removable(terminals, publishing) && at < |terminals|
    ensures InPublication(terminals[..at] + terminals[at + 1..], publishing) == InPublication(terminals, publishing)
    ensures NotInPublication(terminals, publishing) ==
            [terminals[at]] + NotInPublication(terminals[..at] + terminals[at + 1..], publishing)
  {
    assert terminals == terminals[..at] + ([terminals[at]] + terminals[at + 1..]);
    SplitsOff(terminals[..at], terminals[at], terminals[at + 1..], publishing);
  }

  lemma {:induction false} SplitSizes(terminals: seq<Snapshot>, publishing: set<Id>)
    ensures |InPublication(terminals, publishing)| + |NotInPublication(terminals, publishing)| == |terminals|
    ensures (Removable(terminals, publishing) == |terminals|) <==> NotInPublication(terminals, publishing) == []
    decreases |terminals|
  {
    if terminals != [] {
      SplitSizes(terminals[1..], publishing);
    }
  }

  function Room(terminals: seq<Snapshot>, publishing: set<Id>, limit: nat): nat {
    var held := |InPublication(terminals, publishing)|;
    if held < limit then limit - held else 0
  }

  /** Exactly what trimming leaves: every snapshot in publication, in order, and of the others
      the newest for which there is room. */
  lemma {:induction false} TrimExactly(terminals: seq<Snapshot>, publishing: set<Id>, limit: nat)
    ensures var left := Trim(terminals, publishing, limit);
            && InPublication(left, publishing) == InPublication(terminals, publishing)
            && NotInPublication(left, publishing) == Last(NotInPublication(terminals, publishing), Room(terminals, publishing, limit))
    decreases |terminals|
  {
    SplitSizes(terminals, publishing);
    if |terminals| > limit {
      var at := Removable(terminals, publishing);
      if at < |terminals| {
        SplitsAt(terminals, publishing, at);
        TrimExactly(terminals[..at] + terminals[at + 1..], publishing, limit);
      }
    }
  }

  /** Within the limit, or nothing left that could go. */
  predicate Bounded(shelf: Shelf, limit: nat) {
    |shelf.terminals| <= limit || forall i | 0 <= i < |shelf.terminals| :: shelf.terminals[i].turn in shelf.publishing
  }

  lemma {:induction false} TrimBounds(terminals: seq<Snapshot>, publishing: set<Id>, limit: nat)
    ensures var left := Trim(terminals, publishing, limit);
            && (|left| <= limit || forall i | 0 <= i < |left| :: left[i].turn in publishing)
            && (forall x :: x in left ==> x in terminals)
            && (forall x :: x in terminals && x.turn in publishing ==> x in left)
    decreases |terminals|
  {
    if |terminals| > limit {
      var at := Removable(terminals, publishing);
      if at < |terminals| {
        TrimBounds(terminals[..at] + terminals[at + 1..], publishing, limit);
      }
    }
  }

  lemma {:induction false} WithoutTurnIsFilter(s: seq<Snapshot>, id: Id)
    ensures forall x :: x in WithoutTurn(s, id) <==> x in s && x.turn != id
    ensures |WithoutTurn(s, id)| <= |s|
    decreases |s|
  {
    if s != [] {
      WithoutTurnIsFilter(s[1..], id);
      assert forall x :: x in s <==> x == s[0] || x in s[1..];
    }
  }

  // ---- runs ----

  /** `marks` is every marking in order; `inFlight` counts publications begun and not finished. */
  datatype History = History(marks: seq<Id>, inFlight: multiset<Id>)

  predicate CanTake(s: Session, h: History, step: Step) {
    Accepted(s, step) && (step.Finish? ==> step.turn in h.inFlight)
  }

  function HistoryAfter(s: Session, h: History, step: Step): History {
    History(
      if Committed(s, step).Some? && Lost(s, step).None? then h.marks + [Committed(s, step).value.turn] else h.marks,
      if step.Finish? then h.inFlight - multiset{step.turn}
      else if Publishes(s, step).Some? then h.inFlight + multiset{Publishes(s, step).value.turn}
      else h.inFlight)
  }

  ghost predicate Run(s: Session, h: History, steps: seq<Step>, limit: nat, end: Session, endH: History)
    decreases |steps|
  {
    if steps == [] then end == s && endH == h
    else CanTake(s, h, steps[0]) && Run(Next(s, steps[0], limit), HistoryAfter(s, h, steps[0]), steps[1..], limit, end, endH)
  }

  ghost predicate Sound(s: Session, h: History, limit: nat) {
    && s.shelf.published == Last(Recency(h.marks), limit)
    && Bounded(s.shelf, limit)
    && (forall id <- s.shelf.publishing :: id in h.inFlight)
  }

  lemma MarkStep(s: Session, h: History, step: Step, limit: nat)
    requires Sound(s, h, limit) && limit > 0 && CanTake(s, h, step)
    ensures Next(s, step, limit).shelf.published == Last(Recency(HistoryAfter(s, h, step).marks), limit)
  {
    if Committed(s, step).Some? {
      var id := Committed(s, step).value.turn;
      RecencyDistinct(h.marks);
      MarkIsLru(Recency(h.marks), id, limit);
      assert (h.marks + [id])[..|h.marks|] == h.marks;
    }
  }

  lemma ReleaseKeepsBound(shelf: Shelf, id: Id, limit: nat)
    requires Bounded(shelf, limit)
    ensures Bounded(shelf.(terminals := WithoutTurn(shelf.terminals, id)), limit)
  {
    WithoutTurnIsFilter(shelf.terminals, id);
    var left := WithoutTurn(shelf.terminals, id);
    if |left| > limit {
      forall i | 0 <= i < |left| ensures left[i].turn in shelf.publishing {
        assert left[i] in left && left[i] in shelf.terminals;
      }
    }
  }

  lemma RetainStep(s: Session, h: History, step: Step, limit: nat)
    requires Sound(s, h, limit) && CanTake(s, h, step)
    ensures Bounded(Next(s, step, limit).shelf, limit)
    ensures forall id <- Next(s, step, limit).shelf.publishing :: id in HistoryAfter(s, h, step).inFlight
  {
    var shelf := s.shelf;
    if Lost(s, step).Some? || Committed(s, step).Some? {
      var snapshot := if Lost(s, step).Some? then Lost(s, step).value else Committed(s, step).value;
      TrimBounds(WithoutTurn(shelf.terminals, snapshot.turn) + [snapshot], Next(s, step, limit).shelf.publishing, limit);
    } else if step.Finish? {
      TrimBounds(shelf.terminals, shelf.publishing - {step.turn}, limit);
    } else if step.Release? {
      ReleaseKeepsBound(shelf, step.turn, limit);
    }
  }

  lemma {:induction false} RunSound(s: Session, h: History, steps: seq<Step>, limit: nat, end: Session, endH: History)
    requires Sound(s, h, limit) && limit > 0 && Run(s, h, steps, limit, end, endH)
    ensures Sound(end, endH, limit)
    decreases |steps|
  {
    if steps == [] {
    } else {
      MarkStep(s, h, steps[0], limit);
      RetainStep(s, h, steps[0], limit);
      RunSound(Next(s, steps[0], limit), HistoryAfter(s, h, steps[0]), steps[1..], limit, end, endH);
    }
  }

  const NO_HISTORY := History([], multiset{})

  /** In every reachable state retained snapshots are within the limit or all in publication, and
      the limit holds again once no publication is in flight. */
  lemma RetentionIsBounded(steps: seq<Step>, limit: nat, s: Session, h: History)
    requires limit > 0 && Run(FRESH_SESSION, NO_HISTORY, steps, limit, s, h)
    ensures |s.shelf.terminals| <= limit || forall i | 0 <= i < |s.shelf.terminals| :: s.shelf.terminals[i].turn in h.inFlight
    ensures h.inFlight == multiset{} ==> |s.shelf.terminals| <= limit
  {
    RunSound(FRESH_SESSION, NO_HISTORY, steps, limit, s, h);
    if |s.shelf.terminals| > limit {
      assert s.shelf.terminals[0].turn in h.inFlight;
    }
  }

  /** A completed notification or an authoritative read publishes a turn that was marked before
      if and only if at least `limit` distinct other turns were marked since. */
  lemma PublishedOnceWhileRemembered(steps: seq<Step>, limit: nat, s: Session, h: History, step: Step,
                                     a: seq<Id>, id: Id, b: seq<Id>)
    requires limit > 0 && Run(FRESH_SESSION, NO_HISTORY, steps, limit, s, h) && CanTake(s, h, step)
    requires h.marks == a + [id] + b && id !in b
    requires Committed(s, step).Some? && Committed(s, step).value.turn == id
    ensures Publishes(s, step).Some? <==> |Ids(b)| >= limit
  {
    RunSound(FRESH_SESSION, NO_HISTORY, steps, limit, s, h);
    RememberedExactly(a, id, b, limit);
  }

  lemma {:induction false} Subset(small: set<Id>, large: set<Id>)
    requires small <= large
    ensures |small| <= |large|
    decreases |large|
  {
    if small == {} {
    } else {
      var x :| x in small;
      Subset(small - {x}, large - {x});
    }
  }

  // ---- no resurrection ----

  /** What `on_notification` does, the loss of the transport included. */
  predicate Notification(step: Step) {
    step.Started? || step.Completed? || step.ItemDone? || step.Declined? || step.Detach?
  }

  lemma {:induction false} MarksGrow(s: Session, h: History, steps: seq<Step>, limit: nat, end: Session, endH: History)
    requires Run(s, h, steps, limit, end, endH)
    ensures h.marks <= endH.marks
    decreases |steps|
  {
    if steps != [] {
      MarksGrow(Next(s, steps[0], limit), HistoryAfter(s, h, steps[0]), steps[1..], limit, end, endH);
    }
  }

  lemma NotificationKeepsTurnOver(s: Session, h: History, step: Step, limit: nat, a: seq<Id>, id: Id, b: seq<Id>)
    returns (b': seq<Id>)
    requires limit > 0 && Sound(s, h, limit) && Notification(step) && h.marks == a + [id] + b && id !in b
    requires !s.start.awaiting && s.start.active != Some(id) && |Ids(b)| < limit
    ensures !Next(s, step, limit).start.awaiting && Next(s, step, limit).start.active != Some(id)
    ensures HistoryAfter(s, h, step).marks == a + [id] + b' && id !in b'
  {
    RememberedExactly(a, id, b, limit);
    b' := if Committed(s, step).Some? then b + [step.turn] else b;
  }

  /** With no start awaiting its response, notifications never make a committed turn active
      again as long as fewer than `limit` distinct turns were marked since its own mark. */
  lemma {:induction false} NoResurrection(s: Session, h: History, steps: seq<Step>, limit: nat, end: Session, endH: History,
                                          a: seq<Id>, id: Id, b: seq<Id>)
    requires limit > 0 && Sound(s, h, limit) && Run(s, h, steps, limit, end, endH)
    requires forall step <- steps :: Notification(step)
    requires h.marks == a + [id] + b && id !in b && !s.start.awaiting && s.start.active != Some(id)
    requires |endH.marks| > |a| && |Ids(endH.marks[|a| + 1..])| < limit
    ensures end.start.active != Some(id)
    decreases |steps|
  {
    if steps != [] {
      MarksGrow(s, h, steps, limit, end, endH);
      assert b <= endH.marks[|a| + 1..];
      Subset(Ids(b), Ids(endH.marks[|a| + 1..]));
      var b' := NotificationKeepsTurnOver(s, h, steps[0], limit, a, id, b);
      MarkStep(s, h, steps[0], limit);
      RetainStep(s, h, steps[0], limit);
      NoResurrection(Next(s, steps[0], limit), HistoryAfter(s, h, steps[0]), steps[1..], limit, end, endH, a, id, b');
    }
  }
}
