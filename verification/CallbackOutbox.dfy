// The durable callback store: immutable routes, an outbox entry per event, and the one-way
// path of an entry from pending to written.

module CallbackOutbox {
  import opened Prelude
  import opened LegacyStores

  /** The persisted state, keyed as on disk. */
  datatype Store = Store(bindings: map<string, Binding>, outbox: map<string, Entry>)

  datatype StoreFault = Immutable | Unbound | OtherSession | Missing | Invalid

  /** Keys match their records; every entry is valid and its session is bound. */
  ghost predicate Sound(s: Store) {
    && (forall k <- s.bindings :: s.bindings[k].sessionId == k)
    && (forall k <- s.outbox ::
          s.outbox[k].eventId == k && ValidEntry(s.outbox[k]) && s.outbox[k].sessionId in s.bindings)
  }

  function TerminalTurn(event: Option<Event>): Option<string> {
    match event
    case Some(Event(_, _, _, _, Reference(turn, _))) => if turn == "" then None else Some(turn)
    case Some(Event(_, _, _, _, Inline(c))) => if c.turnId == "" then None else Some(c.turnId)
    case _ => None
  }

  function SetAttempt(s: Store, session: string, attempt: Attempt): Store
    requires session in s.bindings
  {
    s.(bindings := s.bindings[session := s.bindings[session].(lastAttempt := Some(attempt))])
  }

  function Bind(s: Store, b: Binding): Result<Store, StoreFault> {
    if b.sessionId in s.bindings
    then if s.bindings[b.sessionId] == b then Ok(s) else Err(Immutable)
    else Ok(s.(bindings := s.bindings[b.sessionId := b]))
  }

  function Enqueue(s: Store, session: string, event: Event): Result<Store, StoreFault> {
    if session !in s.bindings then Err(Unbound)
    else if event.eventId in s.outbox then
      if s.outbox[event.eventId].sessionId != session then Err(OtherSession) else Ok(s)
    else if event.worker.sessionId != session then Err(Invalid)
    else Ok(s.(outbox := s.outbox[event.eventId := Entry(event.eventId, session, Some(event), Pending, 0, None)]))
  }

  function RecordFailed(s: Store, id: string, error: string, at: string): Result<Store, StoreFault> {
    if error == "" || at == "" then Err(Invalid)
    else if id !in s.outbox then Err(Missing)
    else
      var e := s.outbox[id];
      if e.state != Pending then Ok(s)
      else if e.sessionId !in s.bindings then Err(Missing)
      else
        var e' := e.(attempts := e.attempts + 1, lastError := Some(error));
        Ok(SetAttempt(s.(outbox := s.outbox[id := e']), e.sessionId,
                      Attempt(id, AttemptFailed, Some(error), at, e'.attempts, TerminalTurn(e.event))))
  }

  function RecordWritten(s: Store, id: string, at: string): Result<Store, StoreFault> {
    if at == "" then Err(Invalid)
    else if id !in s.outbox then Err(Missing)
    else
      var e := s.outbox[id];
      if e.state == Written then Ok(s)
      else if e.sessionId !in s.bindings then Err(Missing)
      else
        var e' := Entry(e.eventId, e.sessionId, None, Written, e.attempts + 1, None);
        Ok(SetAttempt(s.(outbox := s.outbox[id := e']), e.sessionId,
                      Attempt(id, AttemptWritten, None, at, e'.attempts, TerminalTurn(e.event))))
  }

  function RecordFault(s: Store, session: string, id: string, error: string, at: string, turn: Option<string>)
    : Result<Store, StoreFault>
  {
    if session == "" || id == "" || error == "" || at == "" then Err(Invalid)
    else if session !in s.bindings then Err(Unbound)
    else
      var previous := s.bindings[session].lastAttempt;
      var count := if previous.Some? && previous.value.eventId == id then previous.value.count + 1 else 1;
      Ok(SetAttempt(s, session, Attempt(id, AttemptFailed, Some(error), at, count, turn)))
  }

  /** `replace_snapshot` with a merged snapshot, as an import or a live resolution calls it under
      the store's lock: the store plus `bindings` and `entries`. Equal keys must carry equal
      values, and every session of an entry must be bound. */
  function Import(s: Store, bindings: map<string, Binding>, entries: map<string, Entry>): Result<Store, StoreFault> {
    var merged := Store(s.bindings + bindings, s.outbox + entries);
    if !(forall k | k in bindings :: bindings[k].sessionId == k) then Err(Invalid)
    else if !(forall k | k in entries :: entries[k].eventId == k && ValidEntry(entries[k])) then Err(Invalid)
    else if !(forall k | k in bindings && k in s.bindings :: bindings[k] == s.bindings[k]) then Err(Immutable)
    else if !(forall k | k in entries && k in s.outbox :: entries[k] == s.outbox[k]) then Err(Immutable)
    else if !(forall k | k in merged.outbox :: merged.outbox[k].sessionId in merged.bindings) then Err(Unbound)
    else Ok(merged)
  }

  /** What no operation ever undoes: events and bindings stay, an entry keeps its session and is
      written at most once, its payload survives while pending, attempts only grow, and of a
      binding only the last attempt changes. */
  ghost predicate Grows(s: Store, s': Store) {
    && (forall k <- s.outbox ::
          && k in s'.outbox && s'.outbox[k].sessionId == s.outbox[k].sessionId
          && s'.outbox[k].attempts >= s.outbox[k].attempts
          && (s.outbox[k].state == Written ==> s'.outbox[k] == s.outbox[k])
          && (s'.outbox[k].state == Pending ==> s'.outbox[k].event == s.outbox[k].event))
    && (forall k <- s.bindings :: k in s'.bindings && s'.bindings[k] == s.bindings[k].(lastAttempt := s'.bindings[k].lastAttempt))
  }

  datatype Op =
    | BindOp(binding: Binding)
    | EnqueueOp(session: string, event: Event)
    | FailedOp(id: string, error: string, at: string)
    | WrittenOp(id: string, at: string)
    | FaultOp(session: string, id: string, error: string, at: string, turn: Option<string>)
    | ImportOp(bindings: map<string, Binding>, entries: map<string, Entry>)

  function Perform(s: Store, op: Op): Result<Store, StoreFault> {
    match op
    case BindOp(b) => Bind(s, b)
    case EnqueueOp(session, event) => Enqueue(s, session, event)
    case FailedOp(id, error, at) => RecordFailed(s, id, error, at)
    case WrittenOp(id, at) => RecordWritten(s, id, at)
    case FaultOp(session, id, error, at, turn) => RecordFault(s, session, id, error, at, turn)
    case ImportOp(bindings, entries) => Import(s, bindings, entries)
  }

  lemma SetAttemptGrows(s: Store, session: string, attempt: Attempt)
    requires Sound(s) && session in s.bindings
    ensures Sound(SetAttempt(s, session, attempt)) && Grows(s, SetAttempt(s, session, attempt))
  {}

  lemma ReplaceEntryGrows(s: Store, id: string, e: Entry)
    requires Sound(s) && id in s.outbox && s.outbox[id].state == Pending
    requires e.eventId == id && e.sessionId == s.outbox[id].sessionId && e.attempts >= s.outbox[id].attempts
    requires ValidEntry(e) && (e.state == Pending ==> e.event == s.outbox[id].event)
    ensures Sound(s.(outbox := s.outbox[id := e])) && Grows(s, s.(outbox := s.outbox[id := e]))
  {}

  /** An entry replaced and its session's last attempt set. */
  lemma AttemptGrows(s: Store, id: string, e: Entry, attempt: Attempt)
    requires Sound(s) && id in s.outbox && s.outbox[id].state == Pending
    requires e.eventId == id && e.sessionId == s.outbox[id].sessionId && e.attempts >= s.outbox[id].attempts
    requires ValidEntry(e) && (e.state == Pending ==> e.event == s.outbox[id].event)
    ensures var s' := SetAttempt(s.(outbox := s.outbox[id := e]), e.sessionId, attempt);
            Sound(s') && Grows(s, s')
  {
    ReplaceEntryGrows(s, id, e);
    var s1 := s.(outbox := s.outbox[id := e]);
    SetAttemptGrows(s1, e.sessionId, attempt);
    GrowsTransitive(s, s1, SetAttempt(s1, e.sessionId, attempt));
  }

  lemma FailedGrows(s: Store, id: string, error: string, at: string)
    requires Sound(s)
    ensures var r := RecordFailed(s, id, error, at); r.Ok? ==> Sound(r.value) && Grows(s, r.value)
  {
    if id in s.outbox && s.outbox[id].state == Pending {
      var e := s.outbox[id];
      AttemptGrows(s, id, e.(attempts := e.attempts + 1, lastError := Some(error)),
                   Attempt(id, AttemptFailed, Some(error), at, e.attempts + 1, TerminalTurn(e.event)));
    }
  }

  lemma WrittenGrows(s: Store, id: string, at: string)
    requires Sound(s)
    ensures var r := RecordWritten(s, id, at); r.Ok? ==> Sound(r.value) && Grows(s, r.value)
  {
    if id in s.outbox && s.outbox[id].state == Pending {
      var e := s.outbox[id];
      AttemptGrows(s, id, Entry(e.eventId, e.sessionId, None, Written, e.attempts + 1, None),
                   Attempt(id, AttemptWritten, None, at, e.attempts + 1, TerminalTurn(e.event)));
    }
  }

  lemma AddGrows(s: Store, op: Op)
    requires Sound(s) && Perform(s, op).Ok? && (op.BindOp? || op.EnqueueOp?)
    ensures Sound(Perform(s, op).value) && Grows(s, Perform(s, op).value)
  {}

  lemma ImportGrows(s: Store, bindings: map<string, Binding>, entries: map<string, Entry>)
    requires Sound(s) && Import(s, bindings, entries).Ok?
    ensures Sound(Import(s, bindings, entries).value) && Grows(s, Import(s, bindings, entries).value)
  {}

  lemma PerformGrows(s: Store, op: Op)
    requires Sound(s) && Perform(s, op).Ok?
    ensures Sound(Perform(s, op).value) && Grows(s, Perform(s, op).value)
  {
    match op {
      case FailedOp(id, error, at) => FailedGrows(s, id, error, at);
      case WrittenOp(id, at) => WrittenGrows(s, id, at);
      case FaultOp(session, id, error, at, turn) =>
        var attempt := Perform(s, op).value.bindings[session].lastAttempt.value;
        SetAttemptGrows(s, session, attempt);
      case ImportOp(bindings, entries) => ImportGrows(s, bindings, entries);
      case _ => AddGrows(s, op);
    }
  }

  lemma GrowsTransitive(a: Store, b: Store, c: Store)
    requires Grows(a, b) && Grows(b, c)
    ensures Grows(a, c)
  {}

  /** On a sound store recording an outcome fails only for bad arguments or an unknown event. */
  lemma RecordingSucceeds(s: Store, id: string, error: string, at: string)
    requires Sound(s)
    ensures RecordWritten(s, id, at).Ok? <==> at != "" && id in s.outbox
    ensures RecordFailed(s, id, error, at).Ok? <==> error != "" && at != "" && id in s.outbox
  {}

  /** A binding is accepted when its session has none or the very same, and never changed. */
  lemma BindExactly(s: Store, b: Binding)
    ensures var r := Perform(s, BindOp(b));
            && (r.Ok? <==> b.sessionId !in s.bindings || s.bindings[b.sessionId] == b)
            && (r.Err? ==> r.error == Immutable)
            && (r.Ok? ==> r.value.outbox == s.outbox && r.value.bindings == s.bindings[b.sessionId := b])
  {}

  /** An event is accepted for a bound session: under an id not seen before if it names that
      session itself, under a known one if that event is the session's. A new event waits with no
      attempts; a known one, written or not, stays as it is, so enqueuing again changes nothing. */
  lemma EnqueueExactly(s: Store, session: string, event: Event)
    ensures var r, id := Perform(s, EnqueueOp(session, event)), event.eventId;
            && (r.Ok? <==>
                  && session in s.bindings
                  && (if id in s.outbox then s.outbox[id].sessionId == session else event.worker.sessionId == session))
            && (r.Ok? && id in s.outbox ==> r.value == s)
            && (r.Ok? && id !in s.outbox ==>
                  && r.value.bindings == s.bindings && r.value.outbox.Keys == s.outbox.Keys + {id}
                  && (forall k <- s.outbox :: r.value.outbox[k] == s.outbox[k])
                  && r.value.outbox[id] == Entry(id, session, Some(event), Pending, 0, None))
            && (r.Ok? ==> Perform(r.value, EnqueueOp(session, event)) == r)
  {}

  /** The payload names the turn, inline or by reference. */
  predicate Names(event: Event, t: string) {
    && t != ""
    && ((event.payload.Inline? && event.payload.completion.turnId == t)
        || (event.payload.Reference? && event.payload.turnId == t))
  }

  ghost predicate SpeaksOf(event: Option<Event>, turn: Option<string>) {
    if turn.Some? then event.Some? && Names(event.value, turn.value)
    else event.None? || forall t :: !Names(event.value, t)
  }

  lemma TerminalTurnIsSpokenOf(event: Option<Event>)
    ensures SpeaksOf(event, TerminalTurn(event))
  {}

  /** Only the entry and its session's last attempt change. */
  ghost predicate OnlyTouches(s: Store, s': Store, id: string, session: string) {
    && s'.outbox.Keys == s.outbox.Keys && s'.bindings.Keys == s.bindings.Keys
    && (forall k | k in s.outbox && k != id :: s'.outbox[k] == s.outbox[k])
    && (forall k | k in s.bindings && k != session :: s'.bindings[k] == s.bindings[k])
  }

  /** What a recorded attempt leaves behind: on the entry, one more attempt and the error, or a
      closed and emptied entry; on the binding of its session, what became of which event, why
      and when, the how-manieth attempt it was, and the turn the event speaks of. A written entry
      takes no further attempts. */
  lemma AttemptIsRecorded(s: Store, id: string, error: Option<string>, at: string)
    requires Sound(s) && id in s.outbox && at != "" && error != Some("")
    ensures var op := if error.Some? then FailedOp(id, error.value, at) else WrittenOp(id, at);
            var e, r := s.outbox[id], Perform(s, op);
            && r.Ok?
            && (e.state == Written ==> r.value == s)
            && (e.state == Pending ==>
                  && OnlyTouches(s, r.value, id, e.sessionId)
                  && r.value.outbox[id].eventId == id && r.value.outbox[id].sessionId == e.sessionId
                  && r.value.outbox[id].attempts == e.attempts + 1 && r.value.outbox[id].lastError == error
                  && r.value.outbox[id].state == (if error.Some? then Pending else Written)
                  && r.value.outbox[id].event == (if error.Some? then e.event else None)
                  && LastTry(r.value.bindings[e.sessionId], id, error, at, e.attempts + 1)
                  && SpeaksOf(e.event, r.value.bindings[e.sessionId].lastAttempt.value.turnId))
  {
    TerminalTurnIsSpokenOf(s.outbox[id].event);
  }

  predicate LastTry(b: Binding, id: string, error: Option<string>, at: string, count: nat) {
    && b.lastAttempt.Some? && b.lastAttempt.value.eventId == id
    && b.lastAttempt.value.state == (if error.Some? then AttemptFailed else AttemptWritten)
    && b.lastAttempt.value.reason == error && b.lastAttempt.value.at == at && b.lastAttempt.value.count == count
  }

  predicate FaultsOf(ops: seq<Op>, session: string, id: string) {
    forall i | 0 <= i < |ops| :: ops[i].FaultOp? && ops[i].session == session && ops[i].id == id
  }

  ghost predicate Performs(s: Store, ops: seq<Op>, end: Store)
    decreases |ops|
  {
    if ops == [] then end == s else Perform(s, ops[0]).Ok? && Performs(Perform(s, ops[0]).value, ops[1..], end)
  }

  /** A fault that repeats counts on from the last attempt at the same event, and from nothing
      otherwise; it leaves the outbox and all other bindings alone. */
  lemma {:induction false} RepeatedFaultsCount(s: Store, ops: seq<Op>, end: Store, session: string, id: string)
    requires Performs(s, ops, end) && FaultsOf(ops, session, id) && ops != []
    ensures session in s.bindings && end.outbox == s.outbox && OnlyTouches(s, end, id, session)
    ensures var last, was := ops[|ops| - 1], s.bindings[session].lastAttempt;
            var before := if was.Some? && was.value.eventId == id then was.value.count else 0;
            && LastTry(end.bindings[session], id, Some(last.error), last.at, before + |ops|)
            && end.bindings[session].lastAttempt.value.turnId == last.turn
    decreases |ops|
  {
    if |ops| > 1 {
      RepeatedFaultsCount(Perform(s, ops[0]).value, ops[1..], end, session, id);
    } else {
      assert ops[1..] == [];
    }
  }

  /** What `pending()` returns: every pending entry once. */
  ghost predicate PendingListing(s: Store, entries: seq<Entry>) {
    && (forall e <- entries :: e.eventId in s.outbox && s.outbox[e.eventId] == e && e.state == Pending)
    && (forall k <- s.outbox :: s.outbox[k].state == Pending ==> s.outbox[k] in entries)
    && (forall i, j | 0 <= i < j < |entries| :: entries[i].eventId != entries[j].eventId)
  }
}
