// A turn that was handed off is served: it is not forgotten before it is settled.

module CallbackService {
  import opened Prelude
  import opened LegacyStores
  import opened CallbackOutbox
  import opened CallbackTurns
  import opened CallbackSafety
  import opened CallbackRetry

  predicate HandedOff(w: World) {
    w.observed && (w.turn.snapshot || w.left)
  }

  lemma TurnKept(w: World, next: World)
    requires HandedOff(w) && next.observed && next.turn.snapshot == w.turn.snapshot && next.left == w.left
    ensures HandedOff(next)
  {}

  lemma CleanupKept(w: World)
    requires HandedOff(w)
    ensures HandedOff(Cleanup(w))
  {}

  lemma PhaseKept(w: World, a: Actor, p: Phase)
    requires HandedOff(w)
    ensures HandedOff(WithPhase(w, a, p))
  {}

  lemma EnterProjectionKept(w: World, a: Actor)
    requires HandedOff(w)
    ensures HandedOff(EnterProjection(w, a))
  {
    match AdmissionFor(w.turn) {
      case Known(c) => PhaseKept(w, a, AfterProjection(a, c));
      case Failed(e) => PhaseKept(w, a, Faulting(e));
      case Owner => PhaseKept(w.(turn := w.turn.(projecting := true)), a, Projector);
      case Wait =>
    }
  }

  lemma FinishProjectionKept(w: World, a: Actor, seen: Seen)
    requires HandedOff(w)
    ensures HandedOff(FinishProjection(w, a, seen))
  {}

  lemma PersistEnterKept(w: World, c: Completion)
    requires HandedOff(w)
    ensures HandedOff(EnterPersistence(w, c)) && HandedOff(EnterFallback(w, c))
  {}

  lemma FaultEnterKept(w: World, a: Actor, e: string)
    requires HandedOff(w)
    ensures HandedOff(EnterFault(w, a, e))
  {}

  lemma FinishStoringKept(w: World, k: Key, a: Actor, c: Completion, outcome: Outcome)
    requires HandedOff(w)
    ensures HandedOff(FinishStoring(w, k, a, c, outcome))
  {
    match outcome {
      case Skipped => PhaseKept(w.(unrouted := true), a, Stored(c));
      case Queued(event) => PhaseKept(w.(store := StoreAfter(w.store, EnqueueOp(k.session, event))), a, Stored(c));
      case Raised => PhaseKept(w, a, StoreFailed(c));
    }
  }

  lemma NoteFaultKept(w: World, k: Key, fault: Option<Fault>)
    requires HandedOff(w)
    ensures HandedOff(NoteFault(w, k, fault))
  {}

  lemma SettleAsKept(w: World, a: Actor, s: Settlement, p: Phase)
    requires HandedOff(w)
    ensures HandedOff(SettleAs(w, a, s, p))
  {
    match s {
      case AsDone =>
        PhaseKept(SetDone(w), a, p);
        CleanupKept(WithPhase(SetDone(w), a, p));
      case AsLost =>
        PhaseKept(SetAbandoned(w), a, p);
        CleanupKept(WithPhase(SetAbandoned(w), a, p));
      case AsKept => PhaseKept(Release(w), a, p);
    }
  }

  lemma SettleStoredKept(w: World, a: Actor)
    requires HandedOff(w) && PhaseOf(w, a).Settling?
    ensures HandedOff(SettleStored(w, a, PhaseOf(w, a).c, PhaseOf(w, a).recorded))
  {
    var p := PhaseOf(w, a);
    var s := SettlementOf(if a == Processor then OfPersist else OfFallback, p.recorded, w.stopping);
    SettleAsKept(w, a, s, if s == AsLost then Losing(p.c) else AfterStoring(a, p.c));
  }

  lemma SettleFaultKept(w: World, a: Actor)
    requires HandedOff(w) && PhaseOf(w, a).FaultSettling?
    ensures HandedOff(SettleFault(w, a, PhaseOf(w, a).e, PhaseOf(w, a).recorded))
  {
    var p := PhaseOf(w, a);
    var s := SettlementOf(OfProjection, p.recorded, w.stopping);
    SettleAsKept(w, a, s, if s == AsLost then FaultLosing(p.e) else AfterFault(p.e));
  }

  lemma EmitKept(w: World, a: Actor, p: Phase)
    requires HandedOff(w) && (p.Losing? || p.FaultLosing?)
    ensures HandedOff(Emit(w, a, p))
  {
    PhaseKept(w.(emitted := true), a, if p.FaultLosing? then AfterFault(p.e) else AfterStoring(a, p.c));
  }

  lemma CloseKept(w: World, a: Actor, p: Phase)
    requires HandedOff(w) && p.Closing?
    ensures HandedOff(CloseActor(w, a, p))
  {}

  lemma DecideKept(w: World, c: Completion, available: bool)
    requires HandedOff(w)
    ensures HandedOff(DecideClient(w, c, available))
  {
    CleanupKept(w.(turn := w.turn.(clientDone := true), client := if available then Gone(Ok(c)) else Falling(c)));
  }

  lemma ArrivalKept(w: World, k: Key, step: Step)
    requires CanStep(w, k, step) && Arrival(step) && (HandedOff(w) || step == HandOff)
    ensures HandedOff(Next(w, k, step))
  {}

  lemma EndingKept(w: World, k: Key, step: Step)
    requires CanStep(w, k, step) && Ending(step) && HandedOff(w)
    ensures HandedOff(Next(w, k, step))
  {
    match step {
      case Settle(a) => SettleStoredKept(w, a);
      case EmitLoss(a) => EmitKept(w, a, PhaseOf(w, a));
      case ReadStopping => TurnKept(w, Next(w, k, step));
      case FaultSettle(a) => SettleFaultKept(w, a);
      case Decide(available) => DecideKept(w, w.client.c, available);
      case Close(a) => CloseKept(w, a, PhaseOf(w, a));
    }
  }

  lemma RecordKept(w: World, k: Key, a: Actor, fault: Option<Fault>, p: Phase)
    requires HandedOff(w)
    ensures HandedOff(WithPhase(NoteFault(w, k, fault), a, p))
  {
    NoteFaultKept(w, k, fault);
    PhaseKept(NoteFault(w, k, fault), a, p);
  }

  lemma WorkKept(w: World, k: Key, step: Step)
    requires CanStep(w, k, step) && !Arrival(step) && !Ending(step) && HandedOff(w)
    ensures HandedOff(Next(w, k, step))
  {
    match step {
      case ProjectEnter(a) => EnterProjectionKept(w, a);
      case ProjectDone(a, seen) => FinishProjectionKept(w, a, seen);
      case PersistEnter => PersistEnterKept(w, w.processor.c);
      case Persist(a, outcome) => FinishStoringKept(w, k, a, PhaseOf(w, a).c, outcome);
      case PersistDone(a) => SettleAsKept(w, a, AsDone, Closing(Ok(PhaseOf(w, a).c), true));
      case RecordStoreFault(a, fault) => RecordKept(w, k, a, fault, Settling(PhaseOf(w, a).c, fault.Some?));
      case FaultEnter(a) => FaultEnterKept(w, a, PhaseOf(w, a).e);
      case RecordProjectionFault(a, fault) => RecordKept(w, k, a, fault, FaultSettling(PhaseOf(w, a).e, fault.Some?));
      case FallbackEnter => PersistEnterKept(w, w.client.c);
    }
  }

  lemma {:induction false} RunKept(w: World, k: Key, steps: seq<Step>, end: World)
    requires Run(w, k, steps, end) && (HandedOff(w) || HandOff in steps)
    ensures HandedOff(end)
    decreases |steps|
  {
    if steps == [] {
    } else {
      var step := steps[0];
      if HandedOff(w) || step == HandOff {
        if Arrival(step) {
          ArrivalKept(w, k, step);
        } else if Ending(step) {
          EndingKept(w, k, step);
        } else {
          WorkKept(w, k, step);
        }
      }
      RunKept(Next(w, k, step), k, steps[1..], end);
    }
  }

  /** Once handed off, while the dispatcher runs undisturbed, a turn is done, forgotten, in the
      processor's hands, or ready to be claimed; and done or forgotten means stored, or that there
      was nothing to route it to. */
  lemma HandedOffIsServed(store: Store, k: Key, steps: seq<Step>, w: World)
    requires Run(Unheard(store), k, steps, w) && HandOff in steps && forall step <- steps :: Undisturbed(step)
    ensures w.turn.done || w.left || w.processor != Out || CanStep(w, k, Claim)
    ensures w.turn.done || w.left ==> InOutbox(w.store, k) || w.unrouted
  {
    RunKept(Unheard(store), k, steps, w);
    RunSafe(Unheard(store), k, steps, w);
    NothingGivenUp(store, k, steps, w);
  }
}
