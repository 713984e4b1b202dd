// One turn in the terminal callback dispatcher: the thread processing it, its client, and the
// ownership they share, interleaved at critical sections and foreign calls.

module CallbackTurns {
  import opened Prelude
  import opened LegacyStores
  import opened CallbackOutbox
  import opened TerminalEvents

  type Seen = Result<Completion, string>

  /** What the dispatcher's dicts and sets say about one key. */
  datatype Turn = Turn(context: bool, snapshot: bool, completion: Option<Completion>, error: Option<string>,
                       projecting: bool, persisting: bool, processing: bool, done: bool, abandoned: bool,
                       clientDone: bool)

  const UNTRACKED := Turn(false, false, None, None, false, false, false, false, false, false)

  /** Where a thread stands. Out: a processor without the key, a client that has not called. */
  datatype Phase =
    | Out
    | Entering                              // about to enter `_project_once`
    | Projector                             // owns the projection
    | Persisting(c: Completion)             // about to enter `_persist_once`
    | Deciding(c: Completion)               // the client after its projection
    | Falling(c: Completion)                // about to enter `_persist_fallback_once`
    | Storing(c: Completion)                // owns persistence
    | StoreFailed(c: Completion)            // owns persistence, persisting raised
    | Stored(c: Completion)                 // owns persistence, persisting returned
    | Settling(c: Completion, recorded: bool)  // owns persistence, the fault recorded or not
    | Losing(c: Completion)                 // about to emit the loss diagnostic
    | Returning(c: Completion)              // about to read `_stopping` outside the lock
    | Faulting(e: string)                   // about to enter `_durable_fault_once`
    | FaultOwner(e: string)                 // owns persistence
    | FaultSettling(e: string, recorded: bool) // owns persistence
    | FaultLosing(e: string)                // about to emit the loss diagnostic
    | Closing(seen: Seen, clean: bool)      // the last critical section
    | Gone(seen: Seen)                      // the client returned or raised what it saw
    | Crashed                               // the client's snapshot was not terminal
    | Walked                                // the client abandoned its completion

  datatype Actor = Processor | Client

  /** `projections` counts finished projector calls, `result` is the first one's; `faulted`,
      `unrouted` and `emitted` remember what happened for the key, `left` that cleanup ran and
      `torn` that it discarded an ownership someone still had. */
  datatype World = World(turn: Turn, processor: Phase, client: Phase, observed: bool, stopping: bool, store: Store,
                         projections: nat, result: Option<Seen>, faulted: bool, unrouted: bool, emitted: bool,
                         left: bool, torn: bool)

  /** A recorded fault's reason and time. */
  datatype Fault = Fault(reason: string, at: string)

  datatype Outcome = Skipped | Queued(event: Event) | Raised

  datatype Step =
    | Observe
    | HandOff
    | Claim
    | Call(terminal: bool)
    | Abandon
    | ProjectEnter(a: Actor)
    | ProjectDone(a: Actor, seen: Seen)
    | PersistEnter
    | Persist(a: Actor, outcome: Outcome)
    | PersistDone(a: Actor)
    | RecordStoreFault(a: Actor, fault: Option<Fault>)
    | Settle(a: Actor)
    | EmitLoss(a: Actor)
    | ReadStopping
    | FaultEnter(a: Actor)
    | RecordProjectionFault(a: Actor, fault: Option<Fault>)
    | FaultSettle(a: Actor)
    | Decide(available: bool)
    | FallbackEnter
    | Close(a: Actor)
    | SetStopping(value: bool)
    | Elsewhere(op: Op)

  function PhaseOf(w: World, a: Actor): Phase {
    if a == Processor then w.processor else w.client
  }

  function WithPhase(w: World, a: Actor, p: Phase): (r: World)
    ensures r.turn == w.turn && PhaseOf(r, a) == p
  {
    if a == Processor then w.(processor := p) else w.(client := p)
  }

  /** `_cleanup`. */
  predicate Cleans(t: Turn) {
    (t.done || t.abandoned) && t.clientDone && !t.processing
  }

  function CleanTurn(t: Turn): Turn {
    if Cleans(t) then UNTRACKED else t
  }

  // ---- the dispatcher's critical sections, on one turn ----

  /** What `_project_once` finds on entry. */
  datatype Admission = Known(c: Completion) | Failed(e: string) | Owner | Wait

  function AdmissionFor(t: Turn): Admission {
    if t.completion.Some? then Known(t.completion.value)
    else if t.error.Some? then Failed(t.error.value)
    else if t.projecting then Wait
    else Owner
  }

  function ProjectedTurn(t: Turn, seen: Seen): Turn {
    match seen
    case Ok(c) => t.(projecting := false, completion := Some(c))
    case Err(e) => t.(projecting := false, error := Some(e))
  }

  /** Whether a thread may own persistence. */
  datatype Permit = Granted | Settled | Blocked

  function PersistPermit(t: Turn): Permit {
    if t.done || t.abandoned then Settled else if t.persisting then Blocked else Granted
  }

  /** `_durable_fault_once` looks at done but not at abandoned. */
  function FaultPermit(t: Turn): Permit {
    if t.done then Settled else if t.persisting then Blocked else Granted
  }

  function PermittedTurn(t: Turn, r: Permit): Turn {
    if r == Granted then t.(persisting := true) else t
  }

  datatype Failure = OfPersist | OfFallback | OfProjection

  /** What becomes of a turn when its owner gives persistence back. */
  datatype Settlement = AsDone | AsLost | AsKept

  /** After a failure, its fault recorded or not: a failed persist is tried again as long as the
      dispatcher runs, a failed fallback is never tried again. */
  function SettlementOf(kind: Failure, recorded: bool, stopping: bool): Settlement {
    if recorded && (stopping || kind != OfPersist) then AsDone
    else if stopping || kind == OfFallback then AsLost
    else AsKept
  }

  function SettledTurn(t: Turn, s: Settlement): Turn {
    match s
    case AsDone => CleanTurn(t.(persisting := false, done := true))
    case AsLost => CleanTurn(t.(persisting := false, abandoned := true))
    case AsKept => t.(persisting := false)
  }

  /** The processor gives the key back. */
  function FreedTurn(t: Turn, clean: bool): Turn {
    if clean then CleanTurn(t.(processing := false)) else t.(processing := false)
  }

  function ClientDoneTurn(t: Turn): Turn {
    CleanTurn(t.(clientDone := true))
  }

  // ---- the two threads ----

  function Cleanup(w: World): (r: World)
    ensures r.turn == CleanTurn(w.turn) && r.processor == w.processor && r.client == w.client
  {
    if Cleans(w.turn)
    then w.(turn := UNTRACKED, left := true, torn := w.torn || w.turn.projecting || w.turn.persisting)
    else w
  }

  /** After `_durable_fault_once`: the processor leaves, the client raises. */
  function AfterFault(e: string): Phase {
    Closing(Err(e), true)
  }

  predicate Routed(s: Store, session: string) {
    session in s.bindings && s.bindings[session].state == BindingState.Enabled
  }

  /** The event a completion becomes: itself, or a reference to its artifact. */
  predicate EventFor(event: Event, session: string, turn: string, c: Completion) {
    || (event.eventId == TerminalEventId(session, turn, TERMINAL) && event.payload == Inline(c))
    || (event.eventId == TerminalEventId(session, turn, REFERENCE)
        && event.payload.Reference? && event.payload.turnId == turn
        && event.payload.artifact.digest == Sha256(c))
  }

  /** The identity of the turn under consideration. */
  datatype Key = Key(session: string, turn: string)

  function Recording(k: Key, fault: Fault): Op {
    FaultOp(k.session, TerminalEventId(k.session, k.turn, TERMINAL), fault.reason, fault.at, Some(k.turn))
  }

  predicate CanStep(w: World, k: Key, step: Step) {
    match step
    case Observe => w.client == Out && !w.observed
    case HandOff => w.observed
    case Claim =>
      && w.processor == Out && w.turn.context && w.turn.snapshot
      && !w.turn.processing && !w.turn.done && !w.turn.abandoned
    case Call(_) => w.client == Out && w.observed
    case Abandon => w.client == Out && w.observed
    case ProjectEnter(a) =>
      PhaseOf(w, a).Entering? && AdmissionFor(w.turn) != Wait
    case ProjectDone(a, _) => PhaseOf(w, a).Projector?
    case PersistEnter => w.processor.Persisting? && PersistPermit(w.turn) != Blocked
    case Persist(a, outcome) =>
      && PhaseOf(w, a).Storing?
      && (match outcome
          case Skipped => !Routed(w.store, k.session)
          case Queued(event) =>
            && Routed(w.store, k.session) && EventFor(event, k.session, k.turn, PhaseOf(w, a).c)
            && Enqueue(w.store, k.session, event).Ok?
          case Raised => true)
    case PersistDone(a) => PhaseOf(w, a).Stored?
    case RecordStoreFault(a, fault) =>
      PhaseOf(w, a).StoreFailed? &&
      (fault.Some? ==> Perform(w.store, Recording(k, fault.value)).Ok?)
    case Settle(a) => PhaseOf(w, a).Settling?
    case EmitLoss(a) => PhaseOf(w, a).Losing? || PhaseOf(w, a).FaultLosing?
    case ReadStopping => w.processor.Returning?
    case FaultEnter(a) => PhaseOf(w, a).Faulting? && FaultPermit(w.turn) != Blocked
    case RecordProjectionFault(a, fault) =>
      PhaseOf(w, a).FaultOwner? &&
      (fault.Some? ==> Perform(w.store, Recording(k, fault.value)).Ok?)
    case FaultSettle(a) => PhaseOf(w, a).FaultSettling?
    case Decide(_) => w.client.Deciding?
    case FallbackEnter => w.client.Falling?
    case Close(a) => PhaseOf(w, a).Closing?
    case SetStopping(_) => true
    case Elsewhere(op) => Perform(w.store, op).Ok?
  }

  function StoreAfter(s: Store, op: Op): Store {
    if Perform(s, op).Ok? then Perform(s, op).value else s
  }

  /** An owner gives persistence back and goes on to `p`. */
  function SettleAs(w: World, a: Actor, s: Settlement, p: Phase): (r: World)
    ensures r.turn == SettledTurn(w.turn, s) && PhaseOf(r, a) == p
  {
    match s
    case AsDone => Cleanup(WithPhase(SetDone(w), a, p))
    case AsLost => Cleanup(WithPhase(SetAbandoned(w), a, p))
    case AsKept => WithPhase(Release(w), a, p)
  }

  function SetDone(w: World): World {
    w.(turn := w.turn.(persisting := false, done := true))
  }

  function SetAbandoned(w: World): World {
    w.(turn := w.turn.(persisting := false, abandoned := true))
  }

  function Release(w: World): World {
    w.(turn := w.turn.(persisting := false))
  }

  /** The critical section after a failed persist, by the processor or in the client's fallback. */
  function SettleStored(w: World, a: Actor, c: Completion, recorded: bool): World {
    var s := SettlementOf(if a == Processor then OfPersist else OfFallback, recorded, w.stopping);
    SettleAs(w, a, s, if s == AsLost then Losing(c) else AfterStoring(a, c))
  }

  function AfterStoring(a: Actor, c: Completion): Phase {
    if a == Processor then Returning(c) else Closing(Ok(c), true)
  }

  function SettleFault(w: World, a: Actor, e: string, recorded: bool): World {
    var s := SettlementOf(OfProjection, recorded, w.stopping);
    SettleAs(w, a, s, if s == AsLost then FaultLosing(e) else AfterFault(e))
  }

  /** The processor gives the key back; a raising client marks itself done first. */
  function CloseActor(w: World, a: Actor, p: Phase): (r: World)
    requires p.Closing?
    ensures a == Processor ==> r.turn == FreedTurn(w.turn, p.clean)
    ensures a == Client ==> r.turn == if p.seen.Err? then ClientDoneTurn(w.turn) else CleanTurn(w.turn)
  {
    if a == Processor then
      var w1 := w.(turn := w.turn.(processing := false), processor := Out);
      if p.clean then Cleanup(w1) else w1
    else if p.seen.Err? then Cleanup(w.(turn := w.turn.(clientDone := true), client := Gone(p.seen)))
    else Cleanup(w.(client := Gone(p.seen)))
  }

  /** The first critical section of `_project_once`. */
  function EnterProjection(w: World, a: Actor): World {
    match AdmissionFor(w.turn)
    case Known(c) => WithPhase(w, a, AfterProjection(a, c))
    case Failed(e) => WithPhase(w, a, Faulting(e))
    case Owner => WithPhase(w.(turn := w.turn.(projecting := true)), a, Projector)
    case Wait => w
  }

  function AfterProjection(a: Actor, c: Completion): Phase {
    if a == Processor then Persisting(c) else Deciding(c)
  }

  /** The projector returned or raised, and its last critical section. */
  function FinishProjection(w: World, a: Actor, seen: Seen): World {
    WithPhase(w.(projections := w.projections + 1, result := if w.result.Some? then w.result else Some(seen),
                 turn := ProjectedTurn(w.turn, seen)),
              a, if seen.Ok? then AfterProjection(a, seen.value) else Faulting(seen.error))
  }

  function EnterPersistence(w: World, c: Completion): World {
    var permit := PersistPermit(w.turn);
    w.(turn := PermittedTurn(w.turn, permit),
       processor := if permit == Granted then Storing(c) else Closing(Ok(c), true))
  }

  /** `_persist_fallback_once` never waits. */
  function EnterFallback(w: World, c: Completion): World {
    var permit := PersistPermit(w.turn);
    w.(turn := PermittedTurn(w.turn, permit),
       client := if permit == Granted then Storing(c) else Closing(Ok(c), true))
  }

  function EnterFault(w: World, a: Actor, e: string): World {
    var permit := FaultPermit(w.turn);
    WithPhase(w.(turn := PermittedTurn(w.turn, permit)), a, if permit == Granted then FaultOwner(e) else AfterFault(e))
  }

  /** Persisting returned: nothing to route to, or the event enqueued. */
  function FinishStoring(w: World, k: Key, a: Actor, c: Completion, outcome: Outcome): World {
    match outcome
    case Skipped => WithPhase(w.(unrouted := true), a, Stored(c))
    case Queued(event) => WithPhase(w.(store := StoreAfter(w.store, EnqueueOp(k.session, event))), a, Stored(c))
    case Raised => WithPhase(w, a, StoreFailed(c))
  }

  function NoteFault(w: World, k: Key, fault: Option<Fault>): World {
    if fault.Some? then w.(store := StoreAfter(w.store, Recording(k, fault.value)), faulted := true) else w
  }

  function Emit(w: World, a: Actor, p: Phase): World
    requires p.Losing? || p.FaultLosing?
  {
    WithPhase(w.(emitted := true), a,
              if p.FaultLosing? then AfterFault(p.e)
              else AfterStoring(a, p.c))
  }

  function DecideClient(w: World, c: Completion, available: bool): (r: World)
    ensures r.turn == ClientDoneTurn(w.turn)
  {
    Cleanup(w.(turn := w.turn.(clientDone := true), client := if available then Gone(Ok(c)) else Falling(c)))
  }

  function CallClient(w: World, terminal: bool): World {
    if terminal || w.turn.snapshot then w.(turn := w.turn.(snapshot := true), client := Entering)
    else w.(client := Crashed)
  }

  function Next(w: World, k: Key, step: Step): World
    requires CanStep(w, k, step)
  {
    match step
    case Observe => w.(turn := w.turn.(context := true), observed := true)
    case HandOff => w.(turn := w.turn.(snapshot := true))
    case Claim => w.(turn := w.turn.(processing := true), processor := Entering)
    case Call(terminal) => CallClient(w, terminal)
    case Abandon => Cleanup(w.(turn := w.turn.(clientDone := true), client := Walked))
    case ProjectEnter(a) => EnterProjection(w, a)
    case ProjectDone(a, seen) => FinishProjection(w, a, seen)
    case PersistEnter => EnterPersistence(w, w.processor.c)
    case Persist(a, outcome) => FinishStoring(w, k, a, PhaseOf(w, a).c, outcome)
    case PersistDone(a) => SettleAs(w, a, AsDone, Closing(Ok(PhaseOf(w, a).c), true))
    case RecordStoreFault(a, fault) => WithPhase(NoteFault(w, k, fault), a, Settling(PhaseOf(w, a).c, fault.Some?))
    case Settle(a) => SettleStored(w, a, PhaseOf(w, a).c, PhaseOf(w, a).recorded)
    case EmitLoss(a) => Emit(w, a, PhaseOf(w, a))
    case ReadStopping => w.(processor := Closing(Ok(w.processor.c), w.stopping))
    case FaultEnter(a) => EnterFault(w, a, PhaseOf(w, a).e)
    case RecordProjectionFault(a, fault) => WithPhase(NoteFault(w, k, fault), a, FaultSettling(PhaseOf(w, a).e, fault.Some?))
    case FaultSettle(a) => SettleFault(w, a, PhaseOf(w, a).e, PhaseOf(w, a).recorded)
    case Decide(available) => DecideClient(w, w.client.c, available)
    case FallbackEnter => EnterFallback(w, w.client.c)
    case Close(a) => CloseActor(w, a, PhaseOf(w, a))
    case SetStopping(value) => w.(stopping := value)
    case Elsewhere(op) => w.(store := StoreAfter(w.store, op))
  }
}
