// What holds of every turn in every reachable state of the dispatcher.

module CallbackSafety {
  import opened Prelude
  import opened LegacyStores
  import opened CallbackOutbox
  import opened TerminalEvents
  import opened CallbackTurns

  predicate OwnsPersistence(p: Phase) {
    p.Storing? || p.StoreFailed? || p.Stored? || p.Settling? || p.FaultOwner? || p.FaultSettling?
  }

  /** What a thread has seen of the projection. */
  function SeenBy(p: Phase): Option<Seen> {
    match p
    case Out => None
    case Entering => None
    case Projector => None
    case Crashed => None
    case Walked => None
    case Persisting(c) => Some(Ok(c))
    case Deciding(c) => Some(Ok(c))
    case Falling(c) => Some(Ok(c))
    case Storing(c) => Some(Ok(c))
    case StoreFailed(c) => Some(Ok(c))
    case Stored(c) => Some(Ok(c))
    case Settling(c, _) => Some(Ok(c))
    case Losing(c) => Some(Ok(c))
    case Returning(c) => Some(Ok(c))
    case Faulting(e) => Some(Err(e))
    case FaultOwner(e) => Some(Err(e))
    case FaultSettling(e, _) => Some(Err(e))
    case FaultLosing(e) => Some(Err(e))
    case Closing(seen, _) => Some(seen)
    case Gone(seen) => Some(seen)
  }

  /** The client after it marked itself done. */
  predicate ClientPast(p: Phase) {
    p.Falling? || p.Storing? || p.StoreFailed? || p.Stored? || p.Settling? || p.Losing? || p.Gone? || p.Walked?
    || (p.Closing? && p.seen.Ok?)
  }

  /** The client persisting by itself. */
  predicate Fallback(p: Phase) {
    p.Storing? || p.StoreFailed? || p.Stored? || p.Settling?
  }

  /** One owner at a time, for projection and for persistence. */
  ghost predicate Exclusive(w: World) {
    && (w.turn.processing <==> w.processor != Out)
    && (w.turn.projecting <==> w.processor.Projector? || w.client.Projector?)
    && !(w.processor.Projector? && w.client.Projector?)
    && (w.turn.persisting <==> OwnsPersistence(w.processor) || OwnsPersistence(w.client))
    && !(OwnsPersistence(w.processor) && OwnsPersistence(w.client))
    && !w.torn
  }

  predicate ProcessorPhase(p: Phase) {
    !p.Deciding? && !p.Falling? && !p.Gone? && !p.Crashed? && !p.Walked?
  }

  predicate ClientPhase(p: Phase) {
    !p.Persisting? && !p.Returning? && (p.Closing? ==> p.clean)
  }

  /** Tracking: the key is in the dicts from observation until cleanup. */
  ghost predicate Tracked(w: World) {
    && ProcessorPhase(w.processor) && ClientPhase(w.client)
    && (w.turn.context <==> w.observed && !w.left)
    && (!w.observed ==> w.processor == Out && w.client == Out && !w.left)
    && (w.turn.clientDone ==> ClientPast(w.client))
    && (w.left ==> w.processor == Out && ClientPast(w.client) && w.turn.completion.None? && w.turn.error.None?)
    && (Fallback(w.client) ==> !w.turn.done && !w.turn.abandoned)
  }

  /** One projection: both threads see its result, and it is what the dicts remember. */
  ghost predicate OneResult(w: World) {
    && w.projections == (if w.result.Some? then 1 else 0)
    && (w.processor.Projector? || w.client.Projector? ==> w.result.None?)
    && (SeenBy(w.processor).Some? ==> SeenBy(w.processor) == w.result)
    && (SeenBy(w.client).Some? ==> SeenBy(w.client) == w.result)
    && (w.turn.completion.Some? ==> w.result == Some(Ok(w.turn.completion.value)))
    && (w.turn.error.Some? ==> w.result == Some(Err(w.turn.error.value)))
    && (w.result.Some? && !w.left ==> w.turn.completion.Some? || w.turn.error.Some?)
  }

  /** The terminal event is in the outbox, or a fault was recorded for the turn, or its session
      had no enabled binding when it was to be persisted. */
  predicate Evidence(w: World, k: Key) {
    InOutbox(w.store, k) || w.faulted || w.unrouted
  }

  predicate InOutbox(s: Store, k: Key) {
    || TerminalEventId(k.session, k.turn, TERMINAL) in s.outbox
    || TerminalEventId(k.session, k.turn, REFERENCE) in s.outbox
  }

  /** The loss diagnostic was emitted, or a thread is about to emit it. */
  predicate Lost(w: World) {
    w.emitted || w.processor.Losing? || w.processor.FaultLosing? || w.client.Losing? || w.client.FaultLosing?
  }

  predicate Recorded(p: Phase) {
    p.Stored? || (p.Settling? && p.recorded) || (p.FaultSettling? && p.recorded)
  }

  ghost predicate Answered(w: World, k: Key) {
    && (w.turn.done || Recorded(w.processor) || Recorded(w.client) ==> Evidence(w, k))
    && (w.turn.abandoned ==> Lost(w))
    && (w.left ==> Evidence(w, k) || Lost(w))
  }

  ghost predicate Safe(w: World, k: Key) {
    Exclusive(w) && Tracked(w) && OneResult(w) && Answered(w, k)
  }

  lemma OutboxOnlyGrows(s: Store, op: Op, k: Key)
    requires InOutbox(s, k)
    ensures InOutbox(StoreAfter(s, op), k)
  {}

  lemma EnqueuedIsInOutbox(s: Store, k: Key, event: Event, c: Completion)
    requires EventFor(event, k.session, k.turn, c) && Enqueue(s, k.session, event).Ok?
    ensures InOutbox(StoreAfter(s, EnqueueOp(k.session, event)), k)
  {}

  lemma ObserveSafe(w: World, k: Key)
    requires Safe(w, k) && w.client == Out && !w.observed
    ensures Safe(w.(turn := w.turn.(context := true), observed := true), k)
  {}

  lemma HandOffSafe(w: World, k: Key)
    requires Safe(w, k) && w.observed
    ensures Safe(w.(turn := w.turn.(snapshot := true)), k)
  {}

  lemma ClaimSafe(w: World, k: Key)
    requires Safe(w, k) && w.processor == Out && w.turn.context && w.turn.snapshot && !w.turn.processing && !w.turn.done && !w.turn.abandoned
    ensures Safe(w.(turn := w.turn.(processing := true), processor := Entering), k)
  {}

  lemma CallSafe(w: World, k: Key)
    requires Safe(w, k) && w.client == Out && w.observed
    ensures Safe(w.(turn := w.turn.(snapshot := true), client := Entering), k)
  {}

  lemma CrashSafe(w: World, k: Key)
    requires Safe(w, k) && w.client == Out && w.observed
    ensures Safe(w.(client := Crashed), k)
  {}

  lemma CleanupSafe(w: World, k: Key)
    requires Safe(w, k)
    ensures Safe(Cleanup(w), k)
  {}

  lemma WalkSafe(w: World, k: Key)
    requires Safe(w, k) && w.client == Out && w.observed
    ensures Safe(w.(turn := w.turn.(clientDone := true), client := Walked), k)
  {}

  lemma AbandonSafe(w: World, k: Key)
    requires Safe(w, k) && w.client == Out && w.observed
    ensures Safe(Cleanup(w.(turn := w.turn.(clientDone := true), client := Walked)), k)
  {
    WalkSafe(w, k);
    CleanupSafe(w.(turn := w.turn.(clientDone := true), client := Walked), k);
  }

  lemma EnterProjectionSafe(w: World, k: Key, a: Actor)
    requires Safe(w, k) && PhaseOf(w, a).Entering? && AdmissionFor(w.turn) != Wait
    ensures Safe(EnterProjection(w, a), k)
  {
    if AdmissionFor(w.turn) == Owner {
      OwnProjectionSafe(w, k, a);
    } else {
      SeenProjectionSafe(w, k, a);
    }
  }

  lemma OwnProjectionSafe(w: World, k: Key, a: Actor)
    requires Safe(w, k) && PhaseOf(w, a).Entering? && AdmissionFor(w.turn) == Owner
    ensures Safe(WithPhase(w.(turn := w.turn.(projecting := true)), a, Projector), k)
  {}

  lemma SeenProjectionSafe(w: World, k: Key, a: Actor)
    requires Safe(w, k) && PhaseOf(w, a).Entering? && AdmissionFor(w.turn) != Wait && AdmissionFor(w.turn) != Owner
    ensures Safe(EnterProjection(w, a), k)
  {}

  lemma FinishProjectionSafe(w: World, k: Key, a: Actor, seen: Seen)
    requires Safe(w, k) && PhaseOf(w, a).Projector?
    ensures Safe(FinishProjection(w, a, seen), k)
  {}

  lemma EnterPersistenceSafe(w: World, k: Key)
    requires Safe(w, k) && w.processor.Persisting? && PersistPermit(w.turn) != Blocked
    ensures Safe(EnterPersistence(w, w.processor.c), k)
  {}

  lemma SkipFallbackSafe(w: World, k: Key, c: Completion)
    requires Safe(w, k) && w.client == Falling(c)
    ensures Safe(w.(client := Closing(Ok(c), true)), k)
  {}

  lemma OwnFallbackSafe(w: World, k: Key, c: Completion)
    requires Safe(w, k) && w.client == Falling(c) && !w.turn.done && !w.turn.abandoned && !w.turn.persisting
    ensures Safe(w.(turn := w.turn.(persisting := true), client := Storing(c)), k)
  {}

  lemma EnterFallbackSafe(w: World, k: Key)
    requires Safe(w, k) && w.client.Falling?
    ensures Safe(EnterFallback(w, w.client.c), k)
  {
    if PersistPermit(w.turn) == Granted {
      OwnFallbackSafe(w, k, w.client.c);
    } else {
      SkipFallbackSafe(w, k, w.client.c);
    }
  }

  lemma EnterFaultSafe(w: World, k: Key, a: Actor)
    requires Safe(w, k) && PhaseOf(w, a).Faulting? && FaultPermit(w.turn) != Blocked
    ensures Safe(EnterFault(w, a, PhaseOf(w, a).e), k)
  {}

  lemma StoreSafe(w: World, k: Key, s: Store)
    requires Safe(w, k) && (InOutbox(w.store, k) ==> InOutbox(s, k))
    ensures Safe(w.(store := s), k)
  {}

  lemma StoredSafe(w: World, k: Key, a: Actor, c: Completion)
    requires Safe(w, k) && PhaseOf(w, a) == Storing(c) && Evidence(w, k)
    ensures Safe(WithPhase(w, a, Stored(c)), k)
  {}

  lemma UnroutedSafe(w: World, k: Key)
    requires Safe(w, k)
    ensures Safe(w.(unrouted := true), k)
  {}

  lemma FaultedSafe(w: World, k: Key)
    requires Safe(w, k)
    ensures Safe(w.(faulted := true), k)
  {}

  lemma RaisedSafe(w: World, k: Key, a: Actor, c: Completion)
    requires Safe(w, k) && PhaseOf(w, a) == Storing(c)
    ensures Safe(WithPhase(w, a, StoreFailed(c)), k)
  {}

  lemma StoreFaultSafe(w: World, k: Key, a: Actor, c: Completion, recorded: bool)
    requires Safe(w, k) && PhaseOf(w, a) == StoreFailed(c) && (recorded ==> w.faulted)
    ensures Safe(WithPhase(w, a, Settling(c, recorded)), k)
  {}

  lemma ProjectionFaultSafe(w: World, k: Key, a: Actor, e: string, recorded: bool)
    requires Safe(w, k) && PhaseOf(w, a) == FaultOwner(e) && (recorded ==> w.faulted)
    ensures Safe(WithPhase(w, a, FaultSettling(e, recorded)), k)
  {}

  lemma EmitSafe(w: World, k: Key, a: Actor)
    requires Safe(w, k) && (PhaseOf(w, a).Losing? || PhaseOf(w, a).FaultLosing?)
    ensures Safe(Emit(w, a, PhaseOf(w, a)), k)
  {}

  lemma ReadStoppingSafe(w: World, k: Key)
    requires Safe(w, k) && w.processor.Returning?
    ensures Safe(w.(processor := Closing(Ok(w.processor.c), w.stopping)), k)
  {}

  lemma DecidedSafe(w: World, k: Key, c: Completion, p: Phase)
    requires Safe(w, k) && w.client == Deciding(c) && (p == Gone(Ok(c)) || p == Falling(c))
    ensures Safe(w.(turn := w.turn.(clientDone := true), client := p), k)
  {}

  lemma DecideSafe(w: World, k: Key, available: bool)
    requires Safe(w, k) && w.client.Deciding?
    ensures Safe(DecideClient(w, w.client.c, available), k)
  {
    var c := w.client.c;
    var p := if available then Gone(Ok(c)) else Falling(c);
    DecidedSafe(w, k, c, p);
    CleanupSafe(w.(turn := w.turn.(clientDone := true), client := p), k);
  }

  /** A phase an owner may go on to when it gives persistence back: it carries the same result. */
  predicate Leads(w: World, a: Actor, p: Phase) {
    && !OwnsPersistence(p) && !p.Projector? && p != Out
    && SeenBy(p).Some? && SeenBy(p) == SeenBy(PhaseOf(w, a))
    && (if a == Processor then ProcessorPhase(p) else ClientPhase(p) && (ClientPast(PhaseOf(w, a)) ==> ClientPast(p)))
  }

  lemma SetDoneSafe(w: World, k: Key, a: Actor, p: Phase)
    requires Safe(w, k) && OwnsPersistence(PhaseOf(w, a)) && Evidence(w, k) && Leads(w, a, p)
    ensures Safe(WithPhase(SetDone(w), a, p), k)
  {}

  lemma SetAbandonedSafe(w: World, k: Key, a: Actor, p: Phase)
    requires Safe(w, k) && OwnsPersistence(PhaseOf(w, a)) && (p.Losing? || p.FaultLosing?) && Leads(w, a, p)
    ensures Safe(WithPhase(SetAbandoned(w), a, p), k)
  {}

  lemma ReleaseSafe(w: World, k: Key, a: Actor, p: Phase)
    requires Safe(w, k) && OwnsPersistence(PhaseOf(w, a)) && Leads(w, a, p)
    ensures Safe(WithPhase(Release(w), a, p), k)
  {}

  lemma SettleSafe(w: World, k: Key, a: Actor, s: Settlement, p: Phase)
    requires Safe(w, k) && OwnsPersistence(PhaseOf(w, a)) && Leads(w, a, p)
    requires s == AsDone ==> Evidence(w, k)
    requires s == AsLost ==> p.Losing? || p.FaultLosing?
    ensures Safe(SettleAs(w, a, s, p), k)
  {
    match s {
      case AsDone =>
        SetDoneSafe(w, k, a, p);
        CleanupSafe(WithPhase(SetDone(w), a, p), k);
      case AsLost =>
        SetAbandonedSafe(w, k, a, p);
        CleanupSafe(WithPhase(SetAbandoned(w), a, p), k);
      case AsKept => ReleaseSafe(w, k, a, p);
    }
  }

  lemma PersistDoneSafe(w: World, k: Key, a: Actor)
    requires Safe(w, k) && PhaseOf(w, a).Stored?
    ensures Safe(SettleAs(w, a, AsDone, Closing(Ok(PhaseOf(w, a).c), true)), k)
  {
    SettleSafe(w, k, a, AsDone, Closing(Ok(PhaseOf(w, a).c), true));
  }

  lemma SettleStoredSafe(w: World, k: Key, a: Actor)
    requires Safe(w, k) && PhaseOf(w, a).Settling?
    ensures Safe(SettleStored(w, a, PhaseOf(w, a).c, PhaseOf(w, a).recorded), k)
  {
    var c := PhaseOf(w, a).c;
    var s := SettlementOf(if a == Processor then OfPersist else OfFallback, PhaseOf(w, a).recorded, w.stopping);
    SettleSafe(w, k, a, s, if s == AsLost then Losing(c) else AfterStoring(a, c));
  }

  lemma SettleFaultSafe(w: World, k: Key, a: Actor)
    requires Safe(w, k) && PhaseOf(w, a).FaultSettling?
    ensures Safe(SettleFault(w, a, PhaseOf(w, a).e, PhaseOf(w, a).recorded), k)
  {
    var e := PhaseOf(w, a).e;
    var s := SettlementOf(OfProjection, PhaseOf(w, a).recorded, w.stopping);
    SettleSafe(w, k, a, s, if s == AsLost then FaultLosing(e) else AfterFault(e));
  }

  lemma FreeSafe(w: World, k: Key)
    requires Safe(w, k) && w.processor.Closing?
    ensures Safe(w.(turn := w.turn.(processing := false), processor := Out), k)
  {}

  lemma CloseProcessorSafe(w: World, k: Key)
    requires Safe(w, k) && w.processor.Closing?
    ensures Safe(CloseActor(w, Processor, w.processor), k)
  {
    FreeSafe(w, k);
    CleanupSafe(w.(turn := w.turn.(processing := false), processor := Out), k);
  }

  lemma ReturnSafe(w: World, k: Key, c: Completion)
    requires Safe(w, k) && w.client == Closing(Ok(c), true)
    ensures Safe(w.(client := Gone(Ok(c))), k)
  {}

  lemma RaiseSafe(w: World, k: Key, e: string)
    requires Safe(w, k) && w.client == Closing(Err(e), true)
    ensures Safe(w.(turn := w.turn.(clientDone := true), client := Gone(Err(e))), k)
  {}

  lemma CloseClientSafe(w: World, k: Key)
    requires Safe(w, k) && w.client.Closing?
    ensures Safe(CloseActor(w, Client, w.client), k)
  {
    match w.client.seen {
      case Ok(c) =>
        ReturnSafe(w, k, c);
        CleanupSafe(w.(client := Gone(Ok(c))), k);
      case Err(e) =>
        RaiseSafe(w, k, e);
        CleanupSafe(w.(turn := w.turn.(clientDone := true), client := Gone(Err(e))), k);
    }
  }

  lemma StoppingSafe(w: World, k: Key, value: bool)
    requires Safe(w, k)
    ensures Safe(w.(stopping := value), k)
  {}

  lemma StoreStepSafe(w: World, k: Key, op: Op)
    requires Safe(w, k)
    ensures Safe(w.(store := StoreAfter(w.store, op)), k)
  {
    if InOutbox(w.store, k) {
      OutboxOnlyGrows(w.store, op, k);
    }
    StoreSafe(w, k, StoreAfter(w.store, op));
  }

  lemma FinishStoringSafe(w: World, k: Key, a: Actor, outcome: Outcome)
    requires Safe(w, k) && CanStep(w, k, Persist(a, outcome))
    ensures Safe(FinishStoring(w, k, a, PhaseOf(w, a).c, outcome), k)
  {
    var c := PhaseOf(w, a).c;
    match outcome {
      case Skipped =>
        UnroutedSafe(w, k);
        StoredSafe(w.(unrouted := true), k, a, c);
      case Queued(event) =>
        var op := EnqueueOp(k.session, event);
        StoreStepSafe(w, k, op);
        EnqueuedIsInOutbox(w.store, k, event, c);
        StoredSafe(w.(store := StoreAfter(w.store, op)), k, a, c);
      case Raised => RaisedSafe(w, k, a, c);
    }
  }

  lemma RecordSafe(w: World, k: Key, fault: Option<Fault>)
    requires Safe(w, k)
    ensures Safe(NoteFault(w, k, fault), k) && (fault.Some? ==> NoteFault(w, k, fault).faulted)
    ensures NoteFault(w, k, fault).processor == w.processor && NoteFault(w, k, fault).client == w.client
  {
    if fault.Some? {
      StoreStepSafe(w, k, Recording(k, fault.value));
      FaultedSafe(w.(store := StoreAfter(w.store, Recording(k, fault.value))), k);
    }
  }

  lemma RecordingStepSafe(w: World, k: Key, step: Step)
    requires Safe(w, k) && CanStep(w, k, step) && (step.RecordStoreFault? || step.RecordProjectionFault?)
    ensures Safe(Next(w, k, step), k)
  {
    RecordSafe(w, k, step.fault);
    var p, w1 := PhaseOf(w, step.a), NoteFault(w, k, step.fault);
    if step.RecordStoreFault? {
      StoreFaultSafe(w1, k, step.a, p.c, step.fault.Some?);
    } else {
      ProjectionFaultSafe(w1, k, step.a, p.e, step.fault.Some?);
    }
  }

  /** The steps by which a turn comes and goes, and those from outside. */
  predicate Arrival(step: Step) {
    || step.Observe? || step.HandOff? || step.Claim? || step.Call? || step.Abandon?
    || step.SetStopping? || step.Elsewhere?
  }

  lemma ArrivalSafe(w: World, k: Key, step: Step)
    requires Safe(w, k) && CanStep(w, k, step) && Arrival(step)
    ensures Safe(Next(w, k, step), k)
  {
    match step {
      case Observe => ObserveSafe(w, k);
      case HandOff => HandOffSafe(w, k);
      case Claim => ClaimSafe(w, k);
      case Call(terminal) =>
        CallSafe(w, k);
        CrashSafe(w, k);
      case Abandon => AbandonSafe(w, k);
      case SetStopping(value) => StoppingSafe(w, k, value);
      case Elsewhere(op) => StoreStepSafe(w, k, op);
    }
  }

  lemma StepSafe(w: World, k: Key, step: Step)
    requires Safe(w, k) && CanStep(w, k, step)
    ensures Safe(Next(w, k, step), k)
  {
    if Arrival(step) {
      ArrivalSafe(w, k, step);
    } else if Ending(step) {
      EndingSafe(w, k, step);
    } else {
      WorkSafe(w, k, step);
    }
  }

  lemma WorkSafe(w: World, k: Key, step: Step)
    requires Safe(w, k) && CanStep(w, k, step) && !Arrival(step) && !Ending(step)
    ensures Safe(Next(w, k, step), k)
  {
    match step {
      case ProjectEnter(a) => EnterProjectionSafe(w, k, a);
      case ProjectDone(a, seen) => FinishProjectionSafe(w, k, a, seen);
      case PersistEnter => EnterPersistenceSafe(w, k);
      case Persist(a, outcome) => FinishStoringSafe(w, k, a, outcome);
      case PersistDone(a) => PersistDoneSafe(w, k, a);
      case RecordStoreFault(_, _) => RecordingStepSafe(w, k, step);
      case FaultEnter(a) => EnterFaultSafe(w, k, a);
      case RecordProjectionFault(_, _) => RecordingStepSafe(w, k, step);
      case FallbackEnter => EnterFallbackSafe(w, k);
    }
  }

  /** The steps by which a thread settles a turn, reports its loss, or leaves. */
  predicate Ending(step: Step) {
    || step.Settle? || step.EmitLoss? || step.ReadStopping? || step.FaultSettle? || step.Decide? || step.Close?
  }

  lemma EndingSafe(w: World, k: Key, step: Step)
    requires Safe(w, k) && CanStep(w, k, step) && Ending(step)
    ensures Safe(Next(w, k, step), k)
  {
    match step {
      case Settle(a) => SettleStoredSafe(w, k, a);
      case EmitLoss(a) => EmitSafe(w, k, a);
      case ReadStopping => ReadStoppingSafe(w, k);
      case FaultSettle(a) => SettleFaultSafe(w, k, a);
      case Decide(available) => DecideSafe(w, k, available);
      case Close(a) =>
        if a == Processor {
          CloseProcessorSafe(w, k);
        } else {
          CloseClientSafe(w, k);
        }
    }
  }

  ghost predicate Run(w: World, k: Key, steps: seq<Step>, end: World)
    decreases |steps|
  {
    if steps == [] then end == w else CanStep(w, k, steps[0]) && Run(Next(w, k, steps[0]), k, steps[1..], end)
  }

  /** A turn nobody has heard of yet. */
  function Unheard(store: Store): World {
    World(UNTRACKED, Out, Out, false, false, store, 0, None, false, false, false, false, false)
  }

  lemma {:induction false} RunSafe(w: World, k: Key, steps: seq<Step>, end: World)
    requires Safe(w, k) && Run(w, k, steps, end)
    ensures Safe(end, k)
    decreases |steps|
  {
    if steps == [] {
    } else {
      StepSafe(w, k, steps[0]);
      RunSafe(Next(w, k, steps[0]), k, steps[1..], end);
    }
  }

  /** The projector runs at most once for a turn, and whatever the processor and the client go on
      with is that one completion or that one error. */
  lemma SingleProjection(store: Store, k: Key, steps: seq<Step>, w: World)
    requires Run(Unheard(store), k, steps, w)
    ensures w.projections <= 1
    ensures SeenBy(w.processor).Some? && SeenBy(w.client).Some? ==> SeenBy(w.processor) == SeenBy(w.client)
    ensures w.client.Gone? ==> w.projections == 1 && Some(w.client.seen) == w.result
  {
    RunSafe(Unheard(store), k, steps, w);
  }

  /** At most one thread persists the turn at a time. */
  lemma OnePersister(store: Store, k: Key, steps: seq<Step>, w: World)
    requires Run(Unheard(store), k, steps, w)
    ensures !(OwnsPersistence(w.processor) && OwnsPersistence(w.client))
    ensures w.turn.persisting <==> OwnsPersistence(w.processor) || OwnsPersistence(w.client)
  {
    RunSafe(Unheard(store), k, steps, w);
  }

  /** Cleanup never discards a projection or persistence that a thread still owns, and it runs
      only when nobody processes the turn and its client has marked itself done. */
  lemma CleanupTakesNothing(store: Store, k: Key, steps: seq<Step>, w: World)
    requires Run(Unheard(store), k, steps, w)
    ensures !w.torn
    ensures w.turn.projecting <==> w.processor.Projector? || w.client.Projector?
    ensures w.turn.persisting <==> OwnsPersistence(w.processor) || OwnsPersistence(w.client)
    ensures w.left ==> w.processor == Out && ClientPast(w.client)
  {
    RunSafe(Unheard(store), k, steps, w);
  }

  /** Nothing is dropped silently: a turn marked callback-done has its terminal event in the
      outbox, or a fault recorded, or no enabled binding; and a turn that left tracking has the
      same, or its loss has been or is about to be reported. */
  lemma NothingDroppedSilently(store: Store, k: Key, steps: seq<Step>, w: World)
    requires Run(Unheard(store), k, steps, w)
    ensures w.turn.done ==> Evidence(w, k)
    ensures w.observed && !w.turn.context ==> Evidence(w, k) || Lost(w)
  {
    RunSafe(Unheard(store), k, steps, w);
  }

  /** Once both threads are through, a turn without evidence has its loss on record. */
  lemma LossIsReported(store: Store, k: Key, steps: seq<Step>, w: World)
    requires Run(Unheard(store), k, steps, w)
    requires w.observed && !w.turn.context && !Evidence(w, k) && (w.client.Gone? || w.client.Walked?)
    ensures w.emitted
  {
    RunSafe(Unheard(store), k, steps, w);
  }
}
