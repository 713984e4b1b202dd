// What a published snapshot carries: the items of its turn, in the order they were reported.

module RuntimeItems {
  import opened Prelude
  import opened RuntimeStates
  import RuntimePublication

  /** A session's life so far: the states it went through, from a fresh one. */
  ghost predicate Trace(steps: seq<Step>, states: seq<Session>, limit: nat) {
    && |states| == |steps| + 1 && states[0] == FRESH_SESSION
    && forall i | 0 <= i < |steps| :: states[i + 1] == Next(states[i], steps[i], limit)
  }

  /** A step at which the items of a turn start over: an authoritative read, a detachment, or the
      turn's own completion unless it comes late. */
  predicate StartsOver(s: Session, step: Step, t: Id) {
    || step.Read? || step.Detach?
    || (step.Completed? && step.turn == t && (t in s.shelf.published ==> s.start.active == Some(t)))
  }

  /** With what they start over. */
  function Initial(step: Step, t: Id): seq<string> {
    if step.Read? && step.reading.active.Some? && step.reading.active.value.0 == t then step.reading.active.value.1 else []
  }

  /** An item of the active turn is taken, and one of the turn a pending start has observed,
      until that turn is the latest terminal one. */
  predicate Takes(s: Session, step: Step, t: Id) {
    && step.ItemDone? && step.owner == Some(t)
    && (|| s.start.active == Some(t)
        || (s.start.awaiting && s.start.observed == Some(t) && (s.latest.Some? ==> s.latest.value.turn != t)))
  }

  /** The items of a turn taken by a stretch of steps, first to last. */
  function Taken(states: seq<Session>, steps: seq<Step>, t: Id): seq<string>
    requires |states| >= |steps|
  {
    if steps == [] then []
    else (if Takes(states[0], steps[0], t) then [steps[0].item] else []) + Taken(states[1..], steps[1..], t)
  }

  lemma StepItems(s: Session, step: Step, limit: nat, t: Id)
    ensures StartsOver(s, step, t) ==> ItemsOf(Next(s, step, limit), t) == Initial(step, t)
    ensures !StartsOver(s, step, t) ==>
              ItemsOf(Next(s, step, limit), t) == ItemsOf(s, t) + if Takes(s, step, t) then [step.item] else []
  {}

  lemma {:induction false} TakenAppends(states: seq<Session>, steps: seq<Step>, t: Id)
    requires 0 < |steps| <= |states|
    ensures Taken(states, steps, t)
         == Taken(states, steps[..|steps| - 1], t)
            + if Takes(states[|steps| - 1], steps[|steps| - 1], t) then [steps[|steps| - 1].item] else []
    decreases |steps|
  {
    var front := steps[..|steps| - 1];
    if front == [] {
      assert steps[1..] == [];
    } else {
      TakenAppends(states[1..], steps[1..], t);
      assert front[1..] == steps[1..][..|steps| - 2];
    }
  }

  lemma {:induction false} TakenPrefix(few: seq<Session>, many: seq<Session>, steps: seq<Step>, t: Id)
    requires |steps| <= |few| <= |many| && few == many[..|few|]
    ensures Taken(few, steps, t) == Taken(many, steps, t)
    decreases |steps|
  {
    if steps == [] {
    } else {
      TakenPrefix(few[1..], many[1..], steps[1..], t);
    }
  }

  /** The items of the turn last started over right before `from`, or never did. */
  ghost predicate LastStart(steps: seq<Step>, states: seq<Session>, t: Id, from: nat)
    requires |states| == |steps| + 1
  {
    && from <= |steps|
    && (from > 0 ==> StartsOver(states[from - 1], steps[from - 1], t))
    && forall i | from <= i < |steps| :: !StartsOver(states[i], steps[i], t)
  }

  function ItemsSince(steps: seq<Step>, states: seq<Session>, t: Id, from: nat): seq<string>
    requires |states| == |steps| + 1 && from <= |steps|
  {
    (if from > 0 then Initial(steps[from - 1], t) else []) + Taken(states[from..], steps[from..], t)
  }

  lemma SinceGrows(steps: seq<Step>, states: seq<Session>, t: Id, from: nat)
    requires 0 < |steps| == |states| - 1 && from < |steps|
    ensures var n := |steps| - 1;
            (ItemsSince(steps, states, t, from)
             == ItemsSince(steps[..n], states[..n + 1], t, from)
                + if Takes(states[n], steps[n], t) then [steps[n].item] else [])
  {
    var n := |steps| - 1;
    var since := steps[from..];
    TakenAppends(states[from..], since, t);
    assert steps[..n][from..] == since[..|since| - 1];
    TakenPrefix(states[..n + 1][from..], states[from..], since[..|since| - 1], t);
  }

  lemma LastStartStays(steps: seq<Step>, states: seq<Session>, t: Id, from: nat)
    requires 0 < |steps| == |states| - 1 && !StartsOver(states[|steps| - 1], steps[|steps| - 1], t)
    requires LastStart(steps[..|steps| - 1], states[..|steps|], t, from)
    ensures LastStart(steps, states, t, from)
  {
    var n := |steps| - 1;
    forall i | from <= i < |steps| ensures !StartsOver(states[i], steps[i], t) {
      assert i < n ==> !StartsOver(states[..n + 1][i], steps[..n][i], t);
    }
  }

  lemma TraceBefore(steps: seq<Step>, states: seq<Session>, limit: nat)
    requires Trace(steps, states, limit) && steps != []
    ensures Trace(steps[..|steps| - 1], states[..|steps|], limit)
  {}

  /** Where the items of a turn last started over, and that they are what was taken since. */
  lemma {:induction false} ItemsAreThoseTaken(steps: seq<Step>, states: seq<Session>, limit: nat, t: Id) returns (from: nat)
    requires Trace(steps, states, limit)
    ensures LastStart(steps, states, t, from)
    ensures ItemsOf(states[|steps|], t) == ItemsSince(steps, states, t, from)
    decreases |steps|
  {
    if steps == [] {
      from := 0;
    } else {
      var n := |steps| - 1;
      StepItems(states[n], steps[n], limit, t);
      if StartsOver(states[n], steps[n], t) {
        from := n + 1;
        assert steps[from..] == [];
      } else {
        TraceBefore(steps, states, limit);
        from := ItemsAreThoseTaken(steps[..n], states[..n + 1], limit, t);
        LastStartStays(steps, states, t, from);
        SinceGrows(steps, states, t, from);
      }
    }
  }

  /** The snapshot a step puts on record as the latest: a completion that is not late, a
      detachment with a turn active, and a read that reports a terminal turn. It carries the
      items taken since they last started over, in order; what a read reports is taken as is. */
  lemma SnapshotIsExact(steps: seq<Step>, states: seq<Session>, limit: nat, t: Id, step: Step) returns (from: nat)
    requires Trace(steps, states, limit)
    ensures LastStart(steps, states, t, from)
    ensures var s, items := states[|steps|], ItemsSince(steps, states, t, from);
            match step
            case Completed(id, status, error) =>
              id == t ==>
                Next(s, step, limit).latest ==
                if t in s.shelf.published && s.start.active != Some(t) then s.latest
                else Some(Snapshot(t, status, error, items))
            case Detach(reason) =>
              && (s.start.active == Some(t) ==> Next(s, step, limit).latest == Some(Snapshot(t, "failed", Some(reason), items)))
              && (s.start.active == None ==> Next(s, step, limit).latest == s.latest)
            case Read(reading) =>
              Next(s, step, limit).latest == if reading.terminal.Some? then reading.terminal else s.latest
            case _ => Next(s, step, limit).latest == s.latest
  {
    from := ItemsAreThoseTaken(steps, states, limit, t);
  }

  /** A step that records a terminal turn. */
  predicate Commits(s: Session, step: Step, x: Snapshot) {
    Lost(s, step) == Some(x) || Committed(s, step) == Some(x)
  }

  /** Only what was just recorded is handed to the observers: what a detachment loses always, what
      else is recorded when the turn is not remembered as published. */
  lemma PublishedIsRecorded(s: Session, step: Step, limit: nat, x: Snapshot)
    ensures Publishes(s, step) == Some(x) <==>
              && Next(s, step, limit).latest == Some(x)
              && (|| (step.Detach? && s.start.active == Some(x.turn))
                  || (x.turn !in s.shelf.published
                      && (|| (step.Read? && step.reading.terminal.Some?)
                          || (step.Completed? && step.turn == x.turn))))
  {}

  /** Some step recorded the snapshot, and none after it recorded one of the same turn. */
  ghost predicate RecordedLast(steps: seq<Step>, states: seq<Session>, x: Snapshot)
    requires |states| == |steps| + 1
  {
    exists i | 0 <= i < |steps| ::
      && Commits(states[i], steps[i], x)
      && forall j, y | i < j < |steps| && Commits(states[j], steps[j], y) :: y.turn != x.turn
  }

  lemma ShelfHolds(s: Session, step: Step, limit: nat, x: Snapshot)
    requires x in Next(s, step, limit).shelf.terminals
    ensures Commits(s, step, x) || (x in s.shelf.terminals && forall y | Commits(s, step, y) :: y.turn != x.turn)
  {
    var committed := if Lost(s, step).Some? then Lost(s, step) else Committed(s, step);
    if committed.Some? {
      var y := committed.value;
      RuntimePublication.WithoutTurnIsFilter(s.shelf.terminals, y.turn);
      RuntimePublication.TrimBounds(WithoutTurn(s.shelf.terminals, y.turn) + [y], Next(s, step, limit).shelf.publishing, limit);
    } else if step.Release? {
      RuntimePublication.WithoutTurnIsFilter(s.shelf.terminals, step.turn);
    } else if step.Finish? {
      RuntimePublication.TrimBounds(s.shelf.terminals, s.shelf.publishing - {step.turn}, limit);
    }
  }

  lemma RecordedLastStays(steps: seq<Step>, states: seq<Session>, x: Snapshot)
    requires 0 < |steps| == |states| - 1 && RecordedLast(steps[..|steps| - 1], states[..|steps|], x)
    requires forall y | Commits(states[|steps| - 1], steps[|steps| - 1], y) :: y.turn != x.turn
    ensures RecordedLast(steps, states, x)
  {
    var n := |steps| - 1;
    var few, some := steps[..n], states[..n + 1];
    var i :| 0 <= i < n && Commits(some[i], few[i], x) && forall j, y | i < j < n && Commits(some[j], few[j], y) :: y.turn != x.turn;
    assert Commits(states[i], steps[i], x);
    forall j, y | i < j < |steps| && Commits(states[j], steps[j], y)
      ensures y.turn != x.turn
    {
      assert j < n ==> Commits(some[j], few[j], y);
    }
  }

  /** A retained snapshot is the one its turn got last: no later one of the turn was recorded. */
  lemma {:induction false} RetainedIsRecordedLast(steps: seq<Step>, states: seq<Session>, limit: nat, x: Snapshot)
    requires Trace(steps, states, limit) && x in states[|steps|].shelf.terminals
    ensures RecordedLast(steps, states, x)
    decreases |steps|
  {
    if steps == [] {
    } else {
      var n := |steps| - 1;
      ShelfHolds(states[n], steps[n], limit, x);
      if Commits(states[n], steps[n], x) {
      } else {
        RetainedIsRecordedLast(steps[..n], states[..n + 1], limit, x);
        RecordedLastStays(steps, states, x);
      }
    }
  }
}
