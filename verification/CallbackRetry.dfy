// While the dispatcher runs it gives up on nothing: a persist that failed is tried again, with the
// same completion, until the event is in the outbox or there is nothing to route it to.

module CallbackRetry {
  import opened Prelude
  import opened LegacyStores
  import opened CallbackOutbox
  import opened CallbackTurns
  import opened CallbackSafety

  /** The dispatcher is not told to stop, the client does not persist by itself, and the projector
      does not raise. */
  predicate Undisturbed(step: Step) {
    !(step.SetStopping? && step.value) && !step.FallbackEnter? && !(step.ProjectDone? && step.seen.Err?)
  }

  predicate Delivered(w: World, k: Key) {
    InOutbox(w.store, k) || w.unrouted
  }

  predicate ClientAtEase(p: Phase) {
    p.Out? || p.Entering? || p.Projector? || p.Deciding? || p.Falling? || p.Gone? || p.Crashed? || p.Walked?
  }

  predicate ProcessorAtWork(p: Phase) {
    || p.Out? || p.Entering? || p.Projector? || p.Persisting? || p.Storing? || p.StoreFailed? || p.Stored?
    || p.Settling? || p.Returning? || p.Closing?
  }

  /** The processor between taking persistence and giving the key back without success. */
  predicate Unsettled(p: Phase) {
    p.Storing? || p.StoreFailed? || p.Stored? || p.Settling? || p.Returning?
  }

  ghost predicate Persevering(w: World, k: Key) {
    && !w.stopping && !w.turn.abandoned && !w.emitted
    && (w.result.Some? ==> w.result.value.Ok?)
    && ClientAtEase(w.client) && ProcessorAtWork(w.processor)
    && (w.processor != Out ==> w.turn.context && w.turn.snapshot)
    && (Unsettled(w.processor) || (w.processor.Closing? && !w.processor.clean) ==> !w.turn.done)
    && !(w.turn.done && w.turn.clientDone && !w.turn.processing) && !(w.turn.done && w.left)
    && (ClientPast(w.client) ==> w.turn.clientDone || w.left)
    && (w.processor.Stored? || w.turn.done || w.left ==> Delivered(w, k))
  }

  lemma ComingPerseveres(w: World, k: Key, step: Step)
    requires Safe(w, k) && Persevering(w, k) && CanStep(w, k, step)
    requires step.Observe? || step.HandOff? || step.Claim? || (step.SetStopping? && !step.value)
    ensures Persevering(Next(w, k, step), k)
  {}

  lemma CallPerseveres(w: World, k: Key, terminal: bool)
    requires Safe(w, k) && Persevering(w, k) && CanStep(w, k, Call(terminal))
    ensures Persevering(Next(w, k, Call(terminal)), k)
  {}

  lemma AbandonPerseveres(w: World, k: Key)
    requires Safe(w, k) && Persevering(w, k) && CanStep(w, k, Abandon)
    ensures Persevering(Next(w, k, Abandon), k)
  {}

  lemma StorePerseveres(w: World, k: Key, op: Op)
    requires Persevering(w, k)
    ensures Persevering(w.(store := StoreAfter(w.store, op)), k)
  {
    if InOutbox(w.store, k) {
      OutboxOnlyGrows(w.store, op, k);
    }
  }

  lemma ArrivalPerseveres(w: World, k: Key, step: Step)
    requires Safe(w, k) && Persevering(w, k) && CanStep(w, k, step) && Undisturbed(step) && Arrival(step)
    ensures Persevering(Next(w, k, step), k)
  {
    if step.Elsewhere? {
      StorePerseveres(w, k, step.op);
    } else if step.Call? {
      CallPerseveres(w, k, step.terminal);
    } else if step.Abandon? {
      AbandonPerseveres(w, k);
    } else {
      ComingPerseveres(w, k, step);
    }
  }

  lemma PersistPerseveres(w: World, k: Key, c: Completion, outcome: Outcome)
    requires Safe(w, k) && Persevering(w, k) && CanStep(w, k, Persist(Processor, outcome)) && w.processor == Storing(c)
    ensures Persevering(FinishStoring(w, k, Processor, c, outcome), k)
  {
    if outcome.Queued? {
      StorePerseveres(w, k, EnqueueOp(k.session, outcome.event));
      EnqueuedIsInOutbox(w.store, k, outcome.event, c);
    }
  }

  lemma RecordPerseveres(w: World, k: Key, c: Completion, fault: Option<Fault>)
    requires Persevering(w, k) && w.processor == StoreFailed(c)
    ensures Persevering(NoteFault(w, k, fault).(processor := Settling(c, fault.Some?)), k)
  {
    if fault.Some? {
      StorePerseveres(w, k, Recording(k, fault.value));
    }
  }

  lemma ProjectEnterPerseveres(w: World, k: Key, a: Actor)
    requires Safe(w, k) && Persevering(w, k) && CanStep(w, k, ProjectEnter(a))
    ensures Persevering(Next(w, k, ProjectEnter(a)), k)
  {}

  lemma ProjectDonePerseveres(w: World, k: Key, a: Actor, c: Completion)
    requires Safe(w, k) && Persevering(w, k) && CanStep(w, k, ProjectDone(a, Ok(c)))
    ensures Persevering(Next(w, k, ProjectDone(a, Ok(c))), k)
  {}

  lemma PersistEnterPerseveres(w: World, k: Key)
    requires Safe(w, k) && Persevering(w, k) && CanStep(w, k, PersistEnter)
    ensures Persevering(Next(w, k, PersistEnter), k)
  {}

  lemma PersistDonePerseveres(w: World, k: Key)
    requires Safe(w, k) && Persevering(w, k) && CanStep(w, k, PersistDone(Processor))
    ensures Persevering(Next(w, k, PersistDone(Processor)), k)
  {}

  lemma OwnerPerseveres(w: World, k: Key, step: Step)
    requires Safe(w, k) && Persevering(w, k) && CanStep(w, k, step)
    requires step.Persist? || step.RecordStoreFault? || step.PersistDone?
    ensures Persevering(Next(w, k, step), k)
  {
    match step {
      case Persist(a, outcome) => PersistPerseveres(w, k, w.processor.c, outcome);
      case RecordStoreFault(a, fault) => RecordPerseveres(w, k, w.processor.c, fault);
      case PersistDone(a) => PersistDonePerseveres(w, k);
    }
  }

  /** The client owns nothing and no projection has failed. */
  lemma NothingFailed(w: World, k: Key, step: Step)
    requires Persevering(w, k) && CanStep(w, k, step)
    ensures !step.FaultEnter? && !step.RecordProjectionFault? && !step.FaultSettle? && !step.EmitLoss?
  {}

  lemma WorkPerseveres(w: World, k: Key, step: Step)
    requires Safe(w, k) && Persevering(w, k) && CanStep(w, k, step) && Undisturbed(step)
    requires !Arrival(step) && !Ending(step)
    ensures Persevering(Next(w, k, step), k)
  {
    NothingFailed(w, k, step);
    match step {
      case ProjectEnter(a) => ProjectEnterPerseveres(w, k, a);
      case ProjectDone(a, seen) => ProjectDonePerseveres(w, k, a, seen.value);
      case PersistEnter => PersistEnterPerseveres(w, k);
      case _ => OwnerPerseveres(w, k, step);
    }
  }

  lemma SettlePerseveres(w: World, k: Key, step: Step)
    requires Safe(w, k) && Persevering(w, k) && CanStep(w, k, step)
    requires step == Settle(Processor) || step == ReadStopping
    ensures Persevering(Next(w, k, step), k)
  {}

  lemma LeavePerseveres(w: World, k: Key, step: Step)
    requires Safe(w, k) && Persevering(w, k) && CanStep(w, k, step)
    requires step.Decide? || step == Close(Processor)
    ensures Persevering(Next(w, k, step), k)
  {}

  lemma EndingPerseveres(w: World, k: Key, step: Step)
    requires Safe(w, k) && Persevering(w, k) && CanStep(w, k, step) && Ending(step)
    ensures Persevering(Next(w, k, step), k)
  {
    NothingFailed(w, k, step);
    if step.Settle? || step.ReadStopping? {
      SettlePerseveres(w, k, step);
    } else {
      LeavePerseveres(w, k, step);
    }
  }

  lemma {:induction false} RunPerseveres(w: World, k: Key, steps: seq<Step>, end: World)
    requires Safe(w, k) && Persevering(w, k) && Run(w, k, steps, end)
    requires forall step <- steps :: Undisturbed(step)
    ensures Safe(end, k) && Persevering(end, k)
    decreases |steps|
  {
    if steps == [] {
    } else {
      var step := steps[0];
      StepSafe(w, k, step);
      if Arrival(step) {
        ArrivalPerseveres(w, k, step);
      } else if Ending(step) {
        EndingPerseveres(w, k, step);
      } else {
        WorkPerseveres(w, k, step);
      }
      RunPerseveres(Next(w, k, step), k, steps[1..], end);
    }
  }

  /** A turn that is done, or forgotten, has its event in the outbox or had no enabled binding; a
      recorded fault does not do. Nothing is abandoned and no loss is emitted. A turn handed off
      and not yet done is either in the processor's hands or can be claimed; a done turn that
      neither the processor nor its client needs any more is forgotten. */
  lemma NothingGivenUp(store: Store, k: Key, steps: seq<Step>, w: World)
    requires Run(Unheard(store), k, steps, w) && forall step <- steps :: Undisturbed(step)
    ensures w.turn.done || w.left ==> InOutbox(w.store, k) || w.unrouted
    ensures !w.turn.abandoned && !w.emitted
    ensures w.turn.context && w.turn.snapshot && w.processor == Out && !w.turn.done ==> CanStep(w, k, Claim)
    ensures w.turn.done && w.processor == Out ==> !ClientPast(w.client)
  {
    RunPerseveres(Unheard(store), k, steps, w);
  }

  lemma RunPrepend(w: World, k: Key, step: Step, steps: seq<Step>, end: World)
    requires CanStep(w, k, step) && Run(Next(w, k, step), k, steps, end)
    ensures Run(w, k, [step] + steps, end)
  {
    assert ([step] + steps)[1..] == steps;
  }

  /** The key given back after a failed persist, its fault recorded or not. */
  function GivingBack(fault: Option<Fault>): seq<Step> {
    [RecordStoreFault(Processor, fault), Settle(Processor), ReadStopping, Close(Processor)]
  }

  const TRYING := [Claim, ProjectEnter(Processor), PersistEnter]

  lemma SettlesOpen(w: World, k: Key, c: Completion, recorded: bool)
    requires !w.stopping && w.processor == Settling(c, recorded)
    ensures CanStep(w, k, Settle(Processor))
    ensures Next(w, k, Settle(Processor)) == w.(processor := Returning(c), turn := w.turn.(persisting := false))
  {}

  lemma Leaves(w: World, k: Key, c: Completion) returns (free: World)
    requires !w.stopping && w.processor == Returning(c)
    ensures Run(w, k, [ReadStopping, Close(Processor)], free)
    ensures free == w.(processor := Out, turn := w.turn.(processing := false))
  {
    var w1 := Next(w, k, ReadStopping);
    assert w1 == w.(processor := Closing(Ok(c), false));
    free := Next(w1, k, Close(Processor));
    RunPrepend(w1, k, Close(Processor), [], free);
    RunPrepend(w, k, ReadStopping, [Close(Processor)], free);
  }

  lemma Settles(w: World, k: Key, c: Completion, recorded: bool) returns (free: World)
    requires !w.stopping && w.processor == Settling(c, recorded)
    ensures Run(w, k, [Settle(Processor), ReadStopping, Close(Processor)], free)
    ensures free == w.(processor := Out, turn := w.turn.(persisting := false, processing := false))
  {
    SettlesOpen(w, k, c, recorded);
    var w1 := Next(w, k, Settle(Processor));
    free := Leaves(w1, k, c);
    RunPrepend(w, k, Settle(Processor), [ReadStopping, Close(Processor)], free);
  }

  lemma GivesBack(w: World, k: Key, fault: Option<Fault>) returns (free: World)
    requires Safe(w, k) && Persevering(w, k) && w.processor.StoreFailed?
    requires fault.Some? ==> Perform(w.store, Recording(k, fault.value)).Ok?
    ensures Run(w, k, GivingBack(fault), free)
    ensures Safe(free, k) && Persevering(free, k) && free.processor == Out && free.observed && !free.turn.done
    ensures free.turn.context && free.turn.snapshot && free.result == w.result && free.projections == w.projections
  {
    var step := RecordStoreFault(Processor, fault);
    var w1 := Next(w, k, step);
    StepSafe(w, k, step);
    RecordPerseveres(w, k, w.processor.c, fault);
    free := Settles(w1, k, w.processor.c, fault.Some?);
    var rest := [Settle(Processor), ReadStopping, Close(Processor)];
    RunPrepend(w, k, step, rest, free);
    RunPerseveres(w1, k, rest, free);
  }

  lemma TriesAgain(w: World, k: Key, c: Completion) returns (again: World)
    requires Safe(w, k) && Persevering(w, k) && w.processor == Out && w.observed && !w.turn.done
    requires w.turn.context && w.turn.snapshot && w.result == Some(Ok(c))
    ensures Run(w, k, TRYING, again)
    ensures again.processor == Storing(c) && again.projections == w.projections && !again.turn.done
  {
    var w1 := Next(w, k, Claim);
    assert w1 == w.(turn := w.turn.(processing := true), processor := Entering);
    var w2 := Next(w1, k, ProjectEnter(Processor));
    assert w2 == w1.(processor := Persisting(c));
    again := Next(w2, k, PersistEnter);
    RunPrepend(w2, k, PersistEnter, [], again);
    RunPrepend(w1, k, ProjectEnter(Processor), [PersistEnter], again);
    RunPrepend(w, k, Claim, [ProjectEnter(Processor), PersistEnter], again);
  }

  lemma {:induction false} RunConcat(w: World, k: Key, front: seq<Step>, mid: World, back: seq<Step>, end: World)
    requires Run(w, k, front, mid) && Run(mid, k, back, end)
    ensures Run(w, k, front + back, end)
    decreases |front|
  {
    if front == [] {
      assert front + back == back;
    } else {
      RunConcat(Next(w, k, front[0]), k, front[1..], mid, back, end);
      assert (front + back)[1..] == front[1..] + back;
    }
  }

  lemma Retries(w: World, k: Key, fault: Option<Fault>) returns (again: World)
    requires Safe(w, k) && Persevering(w, k) && w.processor.StoreFailed?
    requires fault.Some? ==> Perform(w.store, Recording(k, fault.value)).Ok?
    ensures Run(w, k, GivingBack(fault) + TRYING, again)
    ensures again.processor == Storing(w.processor.c) && again.projections == w.projections && !again.turn.done
  {
    var free := GivesBack(w, k, fault);
    again := TriesAgain(free, k, w.processor.c);
    RunConcat(w, k, GivingBack(fault), free, TRYING, again);
  }

  /** From a failed persist, its fault recorded or not, the processor gives the key back, claims
      it and gets to persisting the same completion without another projection. */
  lemma FailedPersistIsRetried(store: Store, k: Key, steps: seq<Step>, w: World, fault: Option<Fault>)
      returns (again: World)
    requires Run(Unheard(store), k, steps, w) && forall step <- steps :: Undisturbed(step)
    requires w.processor.StoreFailed?
    requires fault.Some? ==> Perform(w.store, Recording(k, fault.value)).Ok?
    ensures Run(w, k, GivingBack(fault) + TRYING, again)
    ensures again.processor == Storing(w.processor.c) && again.projections == w.projections && !again.turn.done
  {
    RunPerseveres(Unheard(store), k, steps, w);
    again := Retries(w, k, fault);
  }

  /** What a settled failure leaves of a turn: open, or done with its fault on record, or
      abandoned; a turn that is done or abandoned is forgotten at once if nobody needs it. */
  predicate Left(t: Turn, open: bool, recorded: bool, after: Turn) {
    if open then after == t.(persisting := false)
    else if t.clientDone && !t.processing then after == UNTRACKED
    else if recorded then after == t.(persisting := false, done := true)
    else after == t.(persisting := false, abandoned := true)
  }

  /** A persist that failed leaves the turn open exactly when the processor made it and the
      dispatcher runs; a loss is emitted exactly when the turn is closed without a record. */
  lemma FailedPersistSettles(w: World, k: Key, a: Actor)
    requires CanStep(w, k, Settle(a))
    ensures Left(w.turn, a == Processor && !w.stopping, PhaseOf(w, a).recorded, Next(w, k, Settle(a)).turn)
    ensures PhaseOf(Next(w, k, Settle(a)), a).Losing? <==>
              (a == Client || w.stopping) && !PhaseOf(w, a).recorded
  {}

  /** A projection that failed leaves it open exactly when its fault could not be recorded while
      the dispatcher runs. */
  lemma FailedProjectionSettles(w: World, k: Key, a: Actor)
    requires CanStep(w, k, FaultSettle(a))
    ensures Left(w.turn, !w.stopping && !PhaseOf(w, a).recorded, PhaseOf(w, a).recorded, Next(w, k, FaultSettle(a)).turn)
    ensures PhaseOf(Next(w, k, FaultSettle(a)), a).FaultLosing? <==> w.stopping && !PhaseOf(w, a).recorded
  {}
}
