// The client of a turn: when it persists by itself, and what it returns.

module CallbackClient {
  import opened CallbackOutbox
  import opened CallbackTurns
  import opened CallbackSafety

  /** The client persisting by itself, or through with it. */
  predicate FellBack(p: Phase) {
    Fallback(p) || p.Falling? || p.Losing? || (p.Closing? && p.seen.Ok?)
  }

  ghost predicate ClientMoves(w: World, step: Step, next: World) {
    && (w.client.Gone? ==> next.client == w.client)
    && (FellBack(next.client) ==> FellBack(w.client) || step == Decide(false))
    && (step == Decide(true) ==> next.client.Gone?)
    && (step.Call? ==> next.client == if step.terminal || w.turn.snapshot then Entering else Crashed)
  }

  lemma ArrivalMoves(w: World, k: Key, step: Step)
    requires CanStep(w, k, step) && Arrival(step) && !step.Call? && !step.Abandon?
    ensures ClientMoves(w, step, Next(w, k, step))
  {}

  lemma CallMoves(w: World, k: Key, step: Step)
    requires CanStep(w, k, step) && step.Call?
    ensures ClientMoves(w, step, Next(w, k, step))
  {}

  lemma AbandonMoves(w: World, k: Key, step: Step)
    requires CanStep(w, k, step) && step.Abandon?
    ensures ClientMoves(w, step, Next(w, k, step))
  {}

  lemma EnteredClient(w: World, a: Actor)
    requires AdmissionFor(w.turn) != Wait
    ensures a == Processor ==> EnterProjection(w, a).client == w.client
    ensures var p := EnterProjection(w, a).client; a == Client ==> p.Deciding? || p.Faulting? || p.Projector?
  {}

  lemma ProjectEnterMoves(w: World, k: Key, step: Step)
    requires CanStep(w, k, step) && step.ProjectEnter?
    ensures ClientMoves(w, step, Next(w, k, step))
  {
    EnteredClient(w, step.a);
  }

  lemma ProjectDoneMoves(w: World, k: Key, step: Step)
    requires CanStep(w, k, step) && step.ProjectDone?
    ensures ClientMoves(w, step, Next(w, k, step))
  {}

  lemma PersistEnterMoves(w: World, k: Key, step: Step)
    requires CanStep(w, k, step) && step.PersistEnter?
    ensures ClientMoves(w, step, Next(w, k, step))
  {}

  lemma PersistMoves(w: World, k: Key, step: Step)
    requires CanStep(w, k, step) && (step.Persist? || step.RecordStoreFault? || step.PersistDone?)
    ensures ClientMoves(w, step, Next(w, k, step))
  {}

  lemma FaultMoves(w: World, k: Key, step: Step)
    requires CanStep(w, k, step) && (step.FaultEnter? || step.RecordProjectionFault? || step.FallbackEnter?)
    ensures ClientMoves(w, step, Next(w, k, step))
  {}

  lemma SettledClient(w: World, a: Actor, s: Settlement, p: Phase)
    ensures SettleAs(w, a, s, p).client == if a == Client then p else w.client
  {}

  lemma SettleMoves(w: World, k: Key, step: Step)
    requires CanStep(w, k, step) && (step.Settle? || step.FaultSettle?)
    ensures ClientMoves(w, step, Next(w, k, step))
  {
    var p, a := PhaseOf(w, step.a), step.a;
    if step.Settle? {
      var s := SettlementOf(if a == Processor then OfPersist else OfFallback, p.recorded, w.stopping);
      SettledClient(w, a, s, if s == AsLost then Losing(p.c) else AfterStoring(a, p.c));
    } else {
      var s := SettlementOf(OfProjection, p.recorded, w.stopping);
      SettledClient(w, a, s, if s == AsLost then FaultLosing(p.e) else AfterFault(p.e));
    }
  }

  lemma LossMoves(w: World, k: Key, step: Step)
    requires CanStep(w, k, step) && (step.EmitLoss? || step.ReadStopping?)
    ensures ClientMoves(w, step, Next(w, k, step))
  {}

  lemma LeaveMoves(w: World, k: Key, step: Step)
    requires CanStep(w, k, step) && (step.Decide? || step.Close?)
    ensures ClientMoves(w, step, Next(w, k, step))
  {}

  lemma WorkMoves(w: World, k: Key, step: Step)
    requires CanStep(w, k, step) && !Arrival(step) && !Ending(step)
    ensures ClientMoves(w, step, Next(w, k, step))
  {
    if step.ProjectEnter? {
      ProjectEnterMoves(w, k, step);
    } else if step.ProjectDone? {
      ProjectDoneMoves(w, k, step);
    } else if step.PersistEnter? {
      PersistEnterMoves(w, k, step);
    } else if step.Persist? || step.RecordStoreFault? || step.PersistDone? {
      PersistMoves(w, k, step);
    } else {
      FaultMoves(w, k, step);
    }
  }

  lemma EndingMoves(w: World, k: Key, step: Step)
    requires CanStep(w, k, step) && Ending(step)
    ensures ClientMoves(w, step, Next(w, k, step))
  {
    if step.Settle? || step.FaultSettle? {
      SettleMoves(w, k, step);
    } else if step.EmitLoss? || step.ReadStopping? {
      LossMoves(w, k, step);
    } else {
      LeaveMoves(w, k, step);
    }
  }

  lemma StepMoves(w: World, k: Key, step: Step)
    requires CanStep(w, k, step)
    ensures ClientMoves(w, step, Next(w, k, step))
  {
    if step.Call? {
      CallMoves(w, k, step);
    } else if step.Abandon? {
      AbandonMoves(w, k, step);
    } else if Arrival(step) {
      ArrivalMoves(w, k, step);
    } else if Ending(step) {
      EndingMoves(w, k, step);
    } else {
      WorkMoves(w, k, step);
    }
  }

  lemma {:induction false} RunMoves(w: World, k: Key, steps: seq<Step>, end: World)
    requires Run(w, k, steps, end)
    ensures w.client.Gone? ==> end.client == w.client
    ensures FellBack(end.client) ==> FellBack(w.client) || Decide(false) in steps
    ensures Decide(true) in steps ==> end.client.Gone?
    decreases |steps|
  {
    if steps == [] {
    } else {
      StepMoves(w, k, steps[0]);
      RunMoves(Next(w, k, steps[0]), k, steps[1..], end);
    }
  }

  /** A client persists by itself only after it found no worker to do it, and having found one it
      returns its completion at once. It fails to start exactly when neither its own snapshot nor
      one handed off before is terminal. */
  lemma ClientFallsBackExactly(store: Store, k: Key, steps: seq<Step>, w: World)
    requires Run(Unheard(store), k, steps, w)
    ensures FellBack(w.client) ==> Decide(false) in steps
    ensures Decide(true) in steps ==> w.client.Gone?
    ensures forall terminal | CanStep(w, k, Call(terminal)) ::
              Next(w, k, Call(terminal)).client == if terminal || w.turn.snapshot then Entering else Crashed
  {
    RunMoves(Unheard(store), k, steps, w);
    forall terminal | CanStep(w, k, Call(terminal))
      ensures Next(w, k, Call(terminal)).client == if terminal || w.turn.snapshot then Entering else Crashed
    {
      CallMoves(w, k, Call(terminal));
    }
  }
}
