// A session with an enabled binding keeps it, and then a turn that is done has its event stored.

module CallbackBound {
  import opened Prelude
  import opened LegacyStores
  import opened CallbackOutbox
  import opened TerminalEvents
  import opened CallbackTurns
  import opened CallbackSafety
  import opened CallbackRetry

  ghost predicate Bound(w: World, k: Key) {
    Sound(w.store) && Routed(w.store, k.session) && !w.unrouted
  }

  lemma OpKeepsBinding(s: Store, op: Op, session: string)
    requires Sound(s) && Routed(s, session)
    ensures Sound(StoreAfter(s, op)) && Routed(StoreAfter(s, op), session)
  {
    if Perform(s, op).Ok? {
      PerformGrows(s, op);
    }
  }

  lemma OpBound(w: World, k: Key, op: Op)
    requires Bound(w, k)
    ensures Bound(w.(store := StoreAfter(w.store, op)), k)
  {
    OpKeepsBinding(w.store, op, k.session);
  }

  /** Everything but the store and the routing is the threads' business. */
  lemma ThreadBound(w: World, k: Key, next: World)
    requires Bound(w, k) && next.store == w.store && next.unrouted == w.unrouted
    ensures Bound(next, k)
  {}

  lemma PhaseBound(w: World, k: Key, a: Actor, p: Phase)
    requires Bound(w, k)
    ensures Bound(WithPhase(w, a, p), k)
  {}

  lemma EnterProjectionBound(w: World, k: Key, a: Actor)
    requires Bound(w, k)
    ensures Bound(EnterProjection(w, a), k)
  {
    match AdmissionFor(w.turn) {
      case Known(c) => PhaseBound(w, k, a, AfterProjection(a, c));
      case Failed(e) => PhaseBound(w, k, a, Faulting(e));
      case Owner =>
        ThreadBound(w, k, w.(turn := w.turn.(projecting := true)));
        PhaseBound(w.(turn := w.turn.(projecting := true)), k, a, Projector);
      case Wait =>
    }
  }

  lemma ProjectBound(w: World, k: Key, a: Actor, seen: Seen)
    requires Bound(w, k)
    ensures Bound(FinishProjection(w, a, seen), k)
  {}

  lemma PersistEnterBound(w: World, k: Key)
    requires Bound(w, k) && w.processor.Persisting?
    ensures Bound(EnterPersistence(w, w.processor.c), k)
  {}

  lemma FallbackBound(w: World, k: Key)
    requires Bound(w, k) && w.client.Falling?
    ensures Bound(EnterFallback(w, w.client.c), k)
  {}

  lemma FaultEnterBound(w: World, k: Key, a: Actor)
    requires Bound(w, k) && PhaseOf(w, a).Faulting?
    ensures Bound(EnterFault(w, a, PhaseOf(w, a).e), k)
  {}

  lemma SettleAsBound(w: World, k: Key, a: Actor, s: Settlement, p: Phase)
    requires Bound(w, k)
    ensures Bound(SettleAs(w, a, s, p), k)
  {}

  lemma SettleStoredBound(w: World, k: Key, a: Actor)
    requires Bound(w, k) && PhaseOf(w, a).Settling?
    ensures Bound(SettleStored(w, a, PhaseOf(w, a).c, PhaseOf(w, a).recorded), k)
  {
    var p := PhaseOf(w, a);
    var s := SettlementOf(if a == Processor then OfPersist else OfFallback, p.recorded, w.stopping);
    SettleAsBound(w, k, a, s, if s == AsLost then Losing(p.c) else AfterStoring(a, p.c));
  }

  lemma SettleFaultBound(w: World, k: Key, a: Actor)
    requires Bound(w, k) && PhaseOf(w, a).FaultSettling?
    ensures Bound(SettleFault(w, a, PhaseOf(w, a).e, PhaseOf(w, a).recorded), k)
  {
    var p := PhaseOf(w, a);
    var s := SettlementOf(OfProjection, p.recorded, w.stopping);
    SettleAsBound(w, k, a, s, if s == AsLost then FaultLosing(p.e) else AfterFault(p.e));
  }

  lemma EmitBound(w: World, k: Key, a: Actor, p: Phase)
    requires Bound(w, k) && (p.Losing? || p.FaultLosing?)
    ensures Bound(Emit(w, a, p), k)
  {}

  lemma CloseBound(w: World, k: Key, a: Actor, p: Phase)
    requires Bound(w, k) && p.Closing?
    ensures Bound(CloseActor(w, a, p), k)
  {}

  lemma DecideBound(w: World, k: Key, c: Completion, available: bool)
    requires Bound(w, k)
    ensures Bound(DecideClient(w, c, available), k)
  {}

  lemma PersistBound(w: World, k: Key, a: Actor, outcome: Outcome)
    requires CanStep(w, k, Persist(a, outcome)) && Bound(w, k)
    ensures Bound(FinishStoring(w, k, a, PhaseOf(w, a).c, outcome), k)
  {
    if outcome.Queued? {
      OpBound(w, k, EnqueueOp(k.session, outcome.event));
    }
  }

  lemma FaultBound(w: World, k: Key, fault: Option<Fault>)
    requires Bound(w, k)
    ensures Bound(NoteFault(w, k, fault), k)
  {
    if fault.Some? {
      OpBound(w, k, Recording(k, fault.value));
    }
  }

  lemma RecordBound(w: World, k: Key, a: Actor, fault: Option<Fault>, p: Phase)
    requires Bound(w, k)
    ensures Bound(WithPhase(NoteFault(w, k, fault), a, p), k)
  {
    FaultBound(w, k, fault);
    PhaseBound(NoteFault(w, k, fault), k, a, p);
  }

  lemma ComingBound(w: World, k: Key, step: Step)
    requires CanStep(w, k, step) && Arrival(step) && !step.Elsewhere? && !step.Abandon? && Bound(w, k)
    ensures Bound(Next(w, k, step), k)
  {
    ThreadBound(w, k, Next(w, k, step));
  }

  lemma ArrivalBound(w: World, k: Key, step: Step)
    requires CanStep(w, k, step) && Arrival(step) && Bound(w, k)
    ensures Bound(Next(w, k, step), k)
  {
    if step.Elsewhere? {
      OpBound(w, k, step.op);
    } else if step.Abandon? {
      ThreadBound(w, k, Next(w, k, step));
    } else {
      ComingBound(w, k, step);
    }
  }

  lemma EndingBound(w: World, k: Key, step: Step)
    requires CanStep(w, k, step) && Ending(step) && Bound(w, k)
    ensures Bound(Next(w, k, step), k)
  {
    match step {
      case Settle(a) => SettleStoredBound(w, k, a);
      case EmitLoss(a) => EmitBound(w, k, a, PhaseOf(w, a));
      case ReadStopping => ThreadBound(w, k, Next(w, k, step));
      case FaultSettle(a) => SettleFaultBound(w, k, a);
      case Decide(available) => DecideBound(w, k, w.client.c, available);
      case Close(a) => CloseBound(w, k, a, PhaseOf(w, a));
    }
  }

  lemma WorkBound(w: World, k: Key, step: Step)
    requires CanStep(w, k, step) && !Arrival(step) && !Ending(step) && Bound(w, k)
    ensures Bound(Next(w, k, step), k)
  {
    match step {
      case ProjectEnter(a) => EnterProjectionBound(w, k, a);
      case ProjectDone(a, seen) => ProjectBound(w, k, a, seen);
      case PersistEnter => PersistEnterBound(w, k);
      case Persist(a, outcome) => PersistBound(w, k, a, outcome);
      case PersistDone(a) => SettleAsBound(w, k, a, AsDone, Closing(Ok(PhaseOf(w, a).c), true));
      case RecordStoreFault(a, fault) => RecordBound(w, k, a, fault, Settling(PhaseOf(w, a).c, fault.Some?));
      case FaultEnter(a) => FaultEnterBound(w, k, a);
      case RecordProjectionFault(a, fault) => RecordBound(w, k, a, fault, FaultSettling(PhaseOf(w, a).e, fault.Some?));
      case FallbackEnter => FallbackBound(w, k);
    }
  }

  lemma {:induction false} RunBound(w: World, k: Key, steps: seq<Step>, end: World)
    requires Bound(w, k) && Run(w, k, steps, end)
    ensures Bound(end, k)
    decreases |steps|
  {
    if steps == [] {
    } else {
      if Arrival(steps[0]) {
        ArrivalBound(w, k, steps[0]);
      } else if Ending(steps[0]) {
        EndingBound(w, k, steps[0]);
      } else {
        WorkBound(w, k, steps[0]);
      }
      RunBound(Next(w, k, steps[0]), k, steps[1..], end);
    }
  }

  /** If the session has an enabled binding to begin with, that is what done means: the event of a
      done or forgotten turn is in the outbox. */
  lemma BoundTurnIsStored(store: Store, k: Key, steps: seq<Step>, w: World)
    requires Sound(store) && Routed(store, k.session)
    requires Run(Unheard(store), k, steps, w) && forall step <- steps :: Undisturbed(step)
    ensures w.turn.done || w.left ==> InOutbox(w.store, k)
  {
    RunBound(Unheard(store), k, steps, w);
    NothingGivenUp(store, k, steps, w);
  }

  /** Whatever either thread enqueues for a turn is the one completion that was projected, inline
      or by reference to its artifact, under the turn's own event id. */
  lemma QueuedIsTheResult(store: Store, k: Key, steps: seq<Step>, w: World, a: Actor, event: Event)
    requires Run(Unheard(store), k, steps, w) && CanStep(w, k, Persist(a, Queued(event)))
    ensures w.result.Some? && w.result.value.Ok?
    ensures var c := w.result.value.value;
            || (event.eventId == TerminalEventId(k.session, k.turn, "turn_terminal") && event.payload == Inline(c))
            || (&& event.eventId == TerminalEventId(k.session, k.turn, "turn_terminal_reference")
                && event.payload.Reference? && event.payload.turnId == k.turn
                && event.payload.artifact.digest.content == c)
  {
    RunSafe(Unheard(store), k, steps, w);
  }
}
