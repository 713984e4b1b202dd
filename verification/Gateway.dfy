// The gateway as interleaved steps of frontend pumps, backend pumps, closing threads,
// broker calls and one drainer, each step one critical section or one send.

module Gateway {
  import opened Prelude
  import opened MaintenanceGates

  datatype RequestKey = IntKey(i: int) | StrKey(s: string)

  /** A pending entry; a mutation entry owns its gate token until someone releases it. */
  datatype Pending = Read | Mutation(token: nat)

  datatype Pump =
    | Idle
    | ReadReady(key: Option<RequestKey>)      // duplicate check passed, allowed request
    | ReadPublished(key: Option<RequestKey>)  // registered, about to send
    | ReadFailed(key: Option<RequestKey>)     // the send raised
    | MutReady(key: Option<RequestKey>)       // duplicate check passed, about to enter the gate
    | Entered(token: nat, key: Option<RequestKey>)  // holds the token itself
    | Published(token: nat, id: RequestKey)  // the pending entry holds the token, about to send
    | MutFailed(token: nat, id: RequestKey)  // the send raised
    | Releasing(token: nat, ends: bool)       // about to leave the gate
    | Finished

  /** A keyed request the backend has received; `mutating` means outside the allow-list. */
  datatype Call = Call(key: RequestKey, mutating: bool)

  /** `popper` is the token the backend pump is about to release, `closing` those a closing
      thread is; `unanswered` and `answers` are the backend's side of the connection. */
  datatype Bridge = Bridge(pending: map<RequestKey, Pending>, pump: Pump, popper: Option<nat>,
                           closing: set<nat>, closed: bool, early: bool,
                           unanswered: multiset<Call>, answers: multiset<Call>)

  /** `waiting` is the drainer between its two waits; `live` are the tokens entered and not
      yet exited; `sent` counts requests outside the drain allow-list sent to a backend and
      `granted` is that count when the current lease was issued. */
  datatype Sys = Sys(gate: Gate, waiting: Option<bool>, leases: nat, granted: nat, sent: nat,
                     issued: nat, live: set<nat>, broker: set<nat>, bridges: map<nat, Bridge>)

  const INIT := Sys(Gate(false, 0, None), None, 0, 0, 0, 0, {}, {}, map[])

  const NEW_BRIDGE := Bridge(map[], Idle, None, {}, false, false, multiset{}, multiset{})

  datatype Step =
    | BrokerEnter
    | BrokerExit(token: nat)
    | DrainBegin(force: bool)
    | DrainGrant
    | DrainEnd
    | Connect(b: nat)
    | AdmitRead(b: nat, key: Option<RequestKey>)
    | PublishRead(b: nat)
    | SendRead(b: nat)
    | FailRead(b: nat)
    | RetractRead(b: nat)
    | AdmitMutation(b: nat, key: Option<RequestKey>)
    | EnterGate(b: nat)
    | PublishMutation(b: nat)
    | SendMutation(b: nat)
    | FailMutation(b: nat)
    | RetractMutation(b: nat)
    | PumpRelease(b: nat)
    | PumpStop(b: nat)
    | Answer(b: nat, call: Call)
    | Settle(b: nat, call: Call)
    | PopperRelease(b: nat)
    | HandlerClose(b: nat)
    | EarlyClose(b: nat)
    | CloserRelease(b: nat, token: nat)

  function Tokens(pending: map<RequestKey, Pending>): set<nat> {
    set k | k in pending && pending[k].Mutation? :: pending[k].token
  }

  // ---- one bridge ----

  predicate FreeKey(br: Bridge, key: Option<RequestKey>) {
    key.Some? ==> key.value !in br.pending
  }

  /** The critical section after a failed send: retract the entry if it is still ours. */
  function Retract(br: Bridge, key: RequestKey, token: nat): Bridge {
    if key in br.pending && br.pending[key] == Mutation(token)
    then br.(pending := br.pending - {key}, pump := Releasing(token, true))
    else br.(pump := Finished)
  }

  function SettleKey(br: Bridge, key: RequestKey): Bridge {
    if key !in br.pending then br
    else if br.pending[key].Read? then br.(pending := br.pending - {key})
    else br.(pending := br.pending - {key}, popper := Some(br.pending[key].token))
  }

  function CloseEntries(br: Bridge, early: bool): Bridge {
    br.(closed := true, early := early, pending := map[], closing := br.closing + Tokens(br.pending))
  }

  // ---- the whole system ----

  predicate Enabled(s: Sys, step: Step) {
    match step
    case BrokerEnter => Enter(s.gate).Some?
    case BrokerExit(t) => t in s.broker
    case DrainBegin(_) => BeginDrain(s.gate).Some?
    case DrainGrant => s.waiting.Some? && Grant(s.gate, Lease(s.leases, s.waiting.value)).Some?
    case DrainEnd => s.gate.lease.Some?
    case Connect(b) => b !in s.bridges
    case AdmitRead(b, key) => b in s.bridges && s.bridges[b].pump == Idle && FreeKey(s.bridges[b], key)
    case PublishRead(b) => b in s.bridges && s.bridges[b].pump.ReadReady?
    case SendRead(b) => b in s.bridges && s.bridges[b].pump.ReadPublished?
    case FailRead(b) => b in s.bridges && s.bridges[b].pump.ReadPublished?
    case RetractRead(b) => b in s.bridges && s.bridges[b].pump.ReadFailed?
    case AdmitMutation(b, key) => b in s.bridges && s.bridges[b].pump == Idle && FreeKey(s.bridges[b], key)
    case EnterGate(b) => b in s.bridges && s.bridges[b].pump.MutReady?
    case PublishMutation(b) => b in s.bridges && s.bridges[b].pump.Entered? && s.bridges[b].pump.key.Some?
    case SendMutation(b) => b in s.bridges && MaySendMutation(s.bridges[b].pump)
    case FailMutation(b) => b in s.bridges && MaySendMutation(s.bridges[b].pump)
    case RetractMutation(b) => b in s.bridges && s.bridges[b].pump.MutFailed?
    case PumpRelease(b) => b in s.bridges && s.bridges[b].pump.Releasing?
    case PumpStop(b) => b in s.bridges && s.bridges[b].pump == Idle
    case Answer(b, call) => b in s.bridges && call in s.bridges[b].unanswered
    case Settle(b, call) => b in s.bridges && call in s.bridges[b].answers && s.bridges[b].popper.None?
    case PopperRelease(b) => b in s.bridges && s.bridges[b].popper.Some?
    case HandlerClose(b) => b in s.bridges && !s.bridges[b].closed && s.bridges[b].pump == Finished
    case EarlyClose(b) => b in s.bridges && !s.bridges[b].closed && s.bridges[b].pump != Finished
    case CloserRelease(b, t) => b in s.bridges && t in s.bridges[b].closing
  }

  /** The pump stands right before the send of a request outside the allow-list. */
  predicate MaySendMutation(p: Pump) {
    p.Published? || (p.Entered? && p.key.None?)
  }

  function Update(s: Sys, b: nat, br: Bridge): Sys {
    s.(bridges := s.bridges[b := br])
  }

  function EnterToken(s: Sys): Sys
    requires Enter(s.gate).Some?
  {
    s.(gate := Enter(s.gate).value, issued := s.issued + 1, live := s.live + {s.issued})
  }

  function ExitToken(s: Sys, t: nat): Sys {
    s.(gate := Exit(s.gate), live := s.live - {t})
  }

  /** The steps of one bridge that touch neither the gate nor the send counter. */
  function Local(br: Bridge, step: Step): Bridge {
    match step
    case AdmitRead(_, key) => br.(pump := ReadReady(key))
    case PublishRead(_) =>
      if !br.pump.ReadReady? then br
      else if br.pump.key.Some?
      then br.(pending := br.pending[br.pump.key.value := Read], pump := ReadPublished(br.pump.key))
      else br.(pump := ReadPublished(None))
    case SendRead(_) =>
      if !br.pump.ReadPublished? then br
      else if br.pump.key.Some? then br.(unanswered := br.unanswered + multiset{Call(br.pump.key.value, false)}, pump := Idle)
      else br.(pump := Idle)
    case FailRead(_) => if br.pump.ReadPublished? then br.(pump := ReadFailed(br.pump.key)) else br
    case RetractRead(_) =>
      if !br.pump.ReadFailed? then br
      else if br.pump.key.Some? && br.pump.key.value in br.pending && br.pending[br.pump.key.value] == Read
      then br.(pending := br.pending - {br.pump.key.value}, pump := Finished)
      else br.(pump := Finished)
    case AdmitMutation(_, key) => br.(pump := MutReady(key))
    case PublishMutation(_) =>
      if br.pump.Entered? && br.pump.key.Some?
      then br.(pending := br.pending[br.pump.key.value := Mutation(br.pump.token)],
               pump := Published(br.pump.token, br.pump.key.value))
      else br
    case FailMutation(_) =>
      if br.pump.Published? then br.(pump := MutFailed(br.pump.token, br.pump.id))
      else if br.pump.Entered? then br.(pump := Releasing(br.pump.token, true))
      else br
    case RetractMutation(_) => if br.pump.MutFailed? then Retract(br, br.pump.id, br.pump.token) else br
    case PumpStop(_) => br.(pump := Finished)
    case Answer(_, call) =>
      br.(unanswered := br.unanswered - multiset{call}, answers := br.answers + multiset{call})
    case Settle(_, call) => SettleKey(br.(answers := br.answers - multiset{call}), call.key)
    case HandlerClose(_) => CloseEntries(br, false)
    case EarlyClose(_) => CloseEntries(br, true)
    case _ => br
  }

  function AfterSend(br: Bridge): Bridge {
    if br.pump.Published? then br.(unanswered := br.unanswered + multiset{Call(br.pump.id, true)}, pump := Idle)
    else if br.pump.Entered? then br.(pump := Releasing(br.pump.token, false))
    else br
  }

  function Apply(s: Sys, step: Step): Sys
    requires Enabled(s, step)
  {
    match step
    case BrokerEnter => EnterToken(s).(broker := s.broker + {s.issued})
    case BrokerExit(t) => ExitToken(s, t).(broker := s.broker - {t})
    case DrainBegin(force) => s.(gate := BeginDrain(s.gate).value, waiting := Some(force))
    case DrainGrant =>
      s.(gate := Grant(s.gate, Lease(s.leases, s.waiting.value)).value, waiting := None,
         leases := s.leases + 1, granted := s.sent)
    case DrainEnd => s.(gate := EndDrain(s.gate))
    case Connect(b) => Update(s, b, NEW_BRIDGE)
    case EnterGate(b) =>
      var br := s.bridges[b];
      if Enter(s.gate).None? then Update(s, b, br.(pump := Idle))
      else Update(EnterToken(s), b, br.(pump := Entered(s.issued, br.pump.key)))
    case SendMutation(b) => Update(s.(sent := s.sent + 1), b, AfterSend(s.bridges[b]))
    case PumpRelease(b) =>
      var br := s.bridges[b];
      Update(ExitToken(s, br.pump.token), b, br.(pump := if br.pump.ends then Finished else Idle))
    case PopperRelease(b) =>
      var br := s.bridges[b];
      Update(ExitToken(s, br.popper.value), b, br.(popper := None))
    case CloserRelease(b, t) =>
      var br := s.bridges[b];
      Update(ExitToken(s, t), b, br.(closing := br.closing - {t}))
    case _ => Update(s, step.b, Local(s.bridges[step.b], step))
  }

  /** The states the steps lead to. */
  ghost predicate Run(s: Sys, steps: seq<Step>, end: Sys)
    decreases |steps|
  {
    if steps == [] then s == end
    else Enabled(s, steps[0]) && Run(Apply(s, steps[0]), steps[1..], end)
  }
}
