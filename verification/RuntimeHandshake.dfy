// The start handshake: a reservation, racing notifications and reads, and the response.

module RuntimeHandshake {
  import opened Prelude
  import opened RuntimeStates

  /** A start awaiting its response that has an active turn has observed that turn. */
  predicate Bound(st: Start) {
    st.awaiting && st.active.Some? ==> st.observed == st.active
  }

  /** The mismatch branch of `reconcile_start`: nothing observed, yet another turn is active. */
  predicate MismatchBranch(st: Start, returned: Id) {
    st.awaiting && st.observed.None? && st.active.Some? && st.active.value != returned
  }

  /** Ids committed as terminal since the latest reservation. */
  function CommittedSince(s: Session, committed: set<Id>, step: Step): set<Id> {
    if step.Reserve? then {}
    else if Committed(s, step).Some? then committed + {Committed(s, step).value.turn}
    else committed
  }

  /** The turn observed for the pending start is still active or has been committed. */
  predicate Tracked(st: Start, committed: set<Id>) {
    st.awaiting && st.observed.Some? ==> st.active == st.observed || st.observed.value in committed
  }

  /** An idle read that forgets the observed turn: it reports no active turn, and the observed
      one is neither committed already nor the latest terminal turn it reports. */
  predicate Forgets(st: Start, committed: set<Id>, step: Step) {
    && step.Read? && step.reading.active.None?
    && st.awaiting && st.observed.Some? && st.observed.value !in committed
    && (step.reading.terminal.None? || step.reading.terminal.value.turn != st.observed.value)
  }

  lemma StepBound(s: Session, step: Step, limit: nat)
    requires Bound(s.start) && Accepted(s, step)
    ensures Bound(Next(s, step, limit).start)
  {}

  /** What accounts again for an observed turn that was forgotten: a started turn or a read with
      an active one takes its place, its own completion or a read commits it, or the handshake
      ends. */
  predicate Regains(s: Session, step: Step) {
    match step
    case Started(_) => true
    case Completed(t, _, _) => s.start.observed == Some(t) && !Dropped(s, step)
    case Read(r) => r.active.Some? || (r.terminal.Some? && s.start.observed == Some(r.terminal.value.turn))
    case Detach(_) => true
    case Cancel => true
    case Respond(_) => true
    case _ => false
  }

  /** The exact condition on one step: it loses track of the observed turn if and only if it is
      such an idle read, and finds it again if and only if it is one of those. */
  lemma StepTracked(s: Session, committed: set<Id>, step: Step, limit: nat)
    requires Bound(s.start) && Accepted(s, step)
    ensures Tracked(Next(s, step, limit).start, CommittedSince(s, committed, step)) <==>
              if Tracked(s.start, committed) then !Forgets(s.start, committed, step) else Regains(s, step)
  {
    if Tracked(s.start, committed) {
      TrackedStep(s, committed, step, limit);
    } else {
      UntrackedStep(s, committed, step, limit);
    }
  }

  lemma TrackedStep(s: Session, committed: set<Id>, step: Step, limit: nat)
    requires Bound(s.start) && Tracked(s.start, committed) && Accepted(s, step)
    ensures Tracked(StartAfter(s, step), CommittedSince(s, committed, step)) <==> !Forgets(s.start, committed, step)
  {}

  lemma UntrackedStep(s: Session, committed: set<Id>, step: Step, limit: nat)
    requires Bound(s.start) && !Tracked(s.start, committed) && Accepted(s, step)
    ensures Tracked(StartAfter(s, step), CommittedSince(s, committed, step)) <==> Regains(s, step)
  {}

  ghost predicate Run(s: Session, committed: set<Id>, steps: seq<Step>, limit: nat, end: Session, endCommitted: set<Id>)
    decreases |steps|
  {
    if steps == [] then end == s && endCommitted == committed
    else Accepted(s, steps[0])
         && Run(Next(s, steps[0], limit), CommittedSince(s, committed, steps[0]), steps[1..], limit, end, endCommitted)
  }

  lemma {:induction false} RunBound(s: Session, committed: set<Id>, steps: seq<Step>, limit: nat, end: Session, endCommitted: set<Id>)
    requires Bound(s.start) && Run(s, committed, steps, limit, end, endCommitted)
    ensures Bound(end.start)
    decreases |steps|
  {
    if steps == [] {
    } else {
      StepBound(s, steps[0], limit);
      RunBound(Next(s, steps[0], limit), CommittedSince(s, committed, steps[0]), steps[1..], limit, end, endCommitted);
    }
  }

  /** In every run, awaiting a response with an active turn implies that turn was observed; so
      the mismatch branch against the active turn cannot be taken, whatever id is returned. */
  lemma MismatchUnreachable(steps: seq<Step>, limit: nat, s: Session, committed: set<Id>, returned: Id)
    requires Run(FRESH_SESSION, {}, steps, limit, s, committed)
    ensures Bound(s.start) && !MismatchBranch(s.start, returned)
    ensures Accepted(s, Respond(returned)) <==>
              returned != "" && s.start.awaiting && (s.start.observed.None? || s.start.observed.value == returned)
  {
    RunBound(FRESH_SESSION, {}, steps, limit, s, committed);
  }

  /** No step of the run accounts for the observed turn again. */
  ghost predicate NeverRegains(s: Session, committed: set<Id>, steps: seq<Step>, limit: nat)
    decreases |steps|
  {
    steps == [] ||
    (!Regains(s, steps[0])
     && NeverRegains(Next(s, steps[0], limit), CommittedSince(s, committed, steps[0]), steps[1..], limit))
  }

  /** Some idle read of the run forgets the observed turn, and no later step accounts for it. */
  ghost predicate Forgotten(s: Session, committed: set<Id>, steps: seq<Step>, limit: nat)
    decreases |steps|
  {
    steps != [] &&
    (var s', c' := Next(s, steps[0], limit), CommittedSince(s, committed, steps[0]);
     || (Forgets(s.start, committed, steps[0]) && NeverRegains(s', c', steps[1..], limit))
     || Forgotten(s', c', steps[1..], limit))
  }

  lemma {:induction false} RunTracked(s: Session, committed: set<Id>, steps: seq<Step>, limit: nat, end: Session, endCommitted: set<Id>)
    requires Bound(s.start) && Run(s, committed, steps, limit, end, endCommitted)
    ensures Tracked(end.start, endCommitted) <==>
              !Forgotten(s, committed, steps, limit)
              && (Tracked(s.start, committed) || !NeverRegains(s, committed, steps, limit))
    decreases |steps|
  {
    if steps == [] {
    } else {
      StepBound(s, steps[0], limit);
      StepTracked(s, committed, steps[0], limit);
      RunTracked(Next(s, steps[0], limit), CommittedSince(s, committed, steps[0]), steps[1..], limit, end, endCommitted);
    }
  }

  /** The exact condition over whole runs: after a successful `reconcile_start` the returned turn
      is active, or committed as terminal since its reservation, if and only if no idle read before
      the response forgot it for good. */
  lemma ResponseIsAccountedFor(steps: seq<Step>, limit: nat, s: Session, committed: set<Id>, returned: Id)
    requires Run(FRESH_SESSION, {}, steps, limit, s, committed)
    requires Accepted(s, Respond(returned))
    ensures Next(s, Respond(returned), limit).start.active == Some(returned) || returned in committed
            <==> !Forgotten(FRESH_SESSION, {}, steps, limit)
  {
    RunBound(FRESH_SESSION, {}, steps, limit, s, committed);
    RunTracked(FRESH_SESSION, {}, steps, limit, s, committed);
  }

  lemma {:induction false} NoReadForgetsNothing(s: Session, committed: set<Id>, steps: seq<Step>, limit: nat)
    requires forall step <- steps :: !step.Read?
    ensures !Forgotten(s, committed, steps, limit)
    decreases |steps|
  {
    if steps == [] {
    } else {
      NoReadForgetsNothing(Next(s, steps[0], limit), CommittedSince(s, committed, steps[0]), steps[1..], limit);
    }
  }

  /** In particular when no read came between the reservation and the response, whatever happened
      before the reservation. */
  lemma ResponseWithoutReads(before: seq<Step>, limit: nat, s: Session, c: set<Id>, after: seq<Step>,
                             end: Session, committed: set<Id>, returned: Id)
    requires Run(FRESH_SESSION, {}, before, limit, s, c) && Accepted(s, Reserve)
    requires forall step <- after :: !step.Read?
    requires Run(Next(s, Reserve, limit), {}, after, limit, end, committed) && Accepted(end, Respond(returned))
    ensures Next(end, Respond(returned), limit).start.active == Some(returned) || returned in committed
  {
    RunBound(FRESH_SESSION, {}, before, limit, s, c);
    var reserved := Next(s, Reserve, limit);
    StepBound(s, Reserve, limit);
    NoReadForgetsNothing(reserved, {}, after, limit);
    RunBound(reserved, {}, after, limit, end, committed);
    RunTracked(reserved, {}, after, limit, end, committed);
  }

  lemma RunOfThree(s: Session, x: Step, y: Step, z: Step, limit: nat)
    requires Accepted(s, x) && Accepted(Next(s, x, limit), y) && Accepted(Next(Next(s, x, limit), y, limit), z)
    ensures var s1, s2 := Next(s, x, limit), Next(Next(s, x, limit), y, limit);
            var c1 := CommittedSince(s, {}, x);
            var c2 := CommittedSince(s1, c1, y);
            Run(s, {}, [x, y, z], limit, Next(s2, z, limit), CommittedSince(s2, c2, z))
  {
    var s1, s2 := Next(s, x, limit), Next(Next(s, x, limit), y, limit);
    var s3 := Next(s2, z, limit);
    var c1 := CommittedSince(s, {}, x);
    var c2 := CommittedSince(s1, c1, y);
    var c3 := CommittedSince(s2, c2, z);
    assert Run(s3, c3, [z][1..], limit, s3, c3);
    assert [y, z][1..] == [z];
    assert Run(s2, c2, [z], limit, s3, c3);
    assert [x, y, z][1..] == [y, z];
    assert Run(s1, c1, [y, z], limit, s3, c3);
  }

  /** The idle read: reserved, started, then read as idle; the response is accepted and yet the
      returned turn is neither active nor committed. */
  lemma IdleReadLosesTurn(turn: Id, limit: nat) returns (steps: seq<Step>, s: Session, committed: set<Id>)
    requires turn != ""
    ensures Run(FRESH_SESSION, {}, steps, limit, s, committed) && Accepted(s, Respond(turn))
    ensures Next(s, Respond(turn), limit).start.active.None? && turn !in committed
  {
    var idle := Read(Reading(None, None));
    var reserved := Next(FRESH_SESSION, Reserve, limit);
    var started := Next(reserved, Started(turn), limit);
    steps, s, committed := [Reserve, Started(turn), idle], Next(started, idle, limit), {};
    assert reserved.start == Start(None, true, true, None);
    assert started.start == Start(Some(turn), false, true, Some(turn));
    assert s.start == Start(None, false, true, Some(turn));
    RunOfThree(FRESH_SESSION, Reserve, Started(turn), idle, limit);
  }
}
