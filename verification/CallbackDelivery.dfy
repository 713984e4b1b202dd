// Delivery from the outbox: one consumer, any number of producers, restarts and failed writes.

module CallbackDelivery {
  import opened Prelude
  import opened LegacyStores
  import opened CallbackOutbox

  /** The single consumer: between polls, or holding the rest of a batch it read earlier, its
      head sent or not yet. */
  datatype Consumer =
    | Resting
    | Batch(entries: seq<Entry>)
    | Sent(entries: seq<Entry>, ok: bool)

  /** `delivered` are the events whose send returned, in order; `attempted` all sends; `arrived`
      the entries that imports brought in, as they came. */
  datatype Delivery = Delivery(store: Store, consumer: Consumer, delivered: seq<string>, attempted: seq<string>,
                               arrived: map<string, Entry>)

  datatype Step =
    | Produce(op: Op)                    // bind, enqueue, a recorded fault or an import, by any thread
    | Poll(entries: seq<Entry>)          // `pending()`
    | Send(ok: bool)                     // the transport's send of the head returned or raised
    | RecordOutcome(reason: string, at: string, durable: bool)  // `durable`: the write reached the disk
    | Restart                            // the process stops anywhere and starts again

  /** The operations that are not the consumer's own. */
  predicate ByOthers(op: Op) {
    op.BindOp? || op.EnqueueOp? || op.FaultOp? || op.ImportOp?
  }

  function Arrivals(d: Delivery, op: Op): map<string, Entry> {
    if op.ImportOp? then d.arrived + (op.entries - d.store.outbox.Keys) else d.arrived
  }

  ghost predicate Enabled(d: Delivery, step: Step) {
    match step
    case Produce(op) => ByOthers(op) && Perform(d.store, op).Ok?
    case Poll(entries) => d.consumer == Resting && PendingListing(d.store, entries)
    case Send(_) => d.consumer.Batch? && d.consumer.entries != []
    case RecordOutcome(reason, at, _) =>
      d.consumer.Sent? && d.consumer.entries != [] && reason != "" && at != ""
    case Restart => true
  }

  function Next(d: Delivery, step: Step): Delivery {
    match step
    case Produce(op) =>
      if Perform(d.store, op).Ok? then d.(store := Perform(d.store, op).value, arrived := Arrivals(d, op)) else d
    case Poll(entries) => d.(consumer := if entries == [] then Resting else Batch(entries))
    case Send(ok) =>
      if d.consumer.Batch? && d.consumer.entries != [] then
        var id := d.consumer.entries[0].eventId;
        d.(consumer := Sent(d.consumer.entries, ok),
           attempted := d.attempted + [id],
           delivered := if ok then d.delivered + [id] else d.delivered)
      else d
    case RecordOutcome(reason, at, durable) =>
      if d.consumer.Sent? && d.consumer.entries != [] then
        var id := d.consumer.entries[0].eventId;
        var rest := d.consumer.entries[1..];
        var recorded := if d.consumer.ok then RecordWritten(d.store, id, at) else RecordFailed(d.store, id, reason, at);
        d.(store := if durable && recorded.Ok? then recorded.value else d.store,
           consumer := if rest == [] then Resting else Batch(rest))
      else d
    case Restart => d.(consumer := Resting)
  }

  ghost predicate Run(d: Delivery, steps: seq<Step>, end: Delivery)
    decreases |steps|
  {
    if steps == [] then end == d else Enabled(d, steps[0]) && Run(Next(d, steps[0]), steps[1..], end)
  }

  function InHand(c: Consumer): seq<Entry> {
    if c.Resting? then [] else c.entries
  }

  /** Whatever the consumer still holds, however stale, is pending on disk with the same event. */
  ghost predicate Fresh(d: Delivery) {
    var held := InHand(d.consumer);
    && (forall e <- held ::
          e.eventId in d.store.outbox && d.store.outbox[e.eventId].state == Pending
          && d.store.outbox[e.eventId].event == e.event)
    && (forall i, j | 0 <= i < j < |held| :: held[i].eventId != held[j].eventId)
    && (d.consumer.Sent? && held != [] && d.consumer.ok ==> held[0].eventId in d.delivered)
  }

  /** Every written event had a returned send, or was written at the start or when it arrived. */
  ghost predicate Accounted(d: Delivery, start: Store) {
    forall k <- d.store.outbox :: d.store.outbox[k].state == Written ==>
      || k in d.delivered
      || (k in start.outbox && start.outbox[k].state == Written)
      || (k in d.arrived && d.arrived[k].state == Written)
  }

  /** What arrived written is written. */
  ghost predicate Settled(d: Delivery) {
    forall k <- d.arrived :: k in d.store.outbox && (d.arrived[k].state == Written ==> d.store.outbox[k].state == Written)
  }

  lemma ProduceEntries(s: Store, op: Op, k: string)
    requires ByOthers(op) && Perform(s, op).Ok?
    ensures var s' := Perform(s, op).value;
            && (k in s.outbox ==> k in s'.outbox && s'.outbox[k] == s.outbox[k])
            && (k !in s.outbox && k in s'.outbox && !op.ImportOp? ==> s'.outbox[k].state == Pending)
            && (k !in s.outbox && k in s'.outbox && op.ImportOp? ==> k in op.entries && s'.outbox[k] == op.entries[k])
            && (k !in s.outbox && op.ImportOp? && k in op.entries ==> k in s'.outbox && s'.outbox[k] == op.entries[k])
  {}

  lemma ProduceFresh(d: Delivery, step: Step, start: Store)
    requires step.Produce? && Fresh(d) && Accounted(d, start) && Settled(d) && Enabled(d, step)
    ensures Fresh(Next(d, step)) && Accounted(Next(d, step), start) && Settled(Next(d, step))
  {
    var d' := Next(d, step);
    forall k | k in d'.store.outbox && d'.store.outbox[k].state == Written
      ensures k in d'.delivered || (k in start.outbox && start.outbox[k].state == Written)
              || (k in d'.arrived && d'.arrived[k].state == Written)
    {
      ProduceEntries(d.store, step.op, k);
    }
    forall k | k in d'.arrived
      ensures k in d'.store.outbox && (d'.arrived[k].state == Written ==> d'.store.outbox[k].state == Written)
    {
      ProduceEntries(d.store, step.op, k);
    }
    forall e | e in InHand(d.consumer) ensures e.eventId in d'.store.outbox && d'.store.outbox[e.eventId] == d.store.outbox[e.eventId] {
      ProduceEntries(d.store, step.op, e.eventId);
    }
  }

  lemma RecordingTouchesOne(s: Store, id: string, reason: string, at: string)
    ensures var r := RecordWritten(s, id, at);
            r.Ok? ==> forall k :: (k in r.value.outbox <==> k in s.outbox) && (k in s.outbox && k != id ==> r.value.outbox[k] == s.outbox[k])
    ensures var r := RecordFailed(s, id, reason, at);
            r.Ok? ==> forall k :: (k in r.value.outbox <==> k in s.outbox) && (k in s.outbox && k != id ==> r.value.outbox[k] == s.outbox[k])
    ensures var r := RecordFailed(s, id, reason, at);
            r.Ok? && id in s.outbox ==> r.value.outbox[id].state == s.outbox[id].state
  {}

  lemma OutcomeStore(d: Delivery, step: Step)
    requires step.RecordOutcome? && Sound(d.store) && Enabled(d, step)
    ensures Sound(Next(d, step).store) && Grows(d.store, Next(d, step).store)
    ensures var id := d.consumer.entries[0].eventId;
            && (forall k <- Next(d, step).store.outbox :: k in d.store.outbox && (k != id ==> Next(d, step).store.outbox[k] == d.store.outbox[k]))
            && (!d.consumer.ok && id in d.store.outbox ==> Next(d, step).store.outbox[id].state == d.store.outbox[id].state)
  {
    var id := d.consumer.entries[0].eventId;
    RecordingTouchesOne(d.store, id, step.reason, step.at);
    WrittenGrows(d.store, id, step.at);
    FailedGrows(d.store, id, step.reason, step.at);
  }

  lemma RestOfBatch(held: seq<Entry>)
    requires held != [] && forall i, j | 0 <= i < j < |held| :: held[i].eventId != held[j].eventId
    ensures forall e <- held[1..] :: e in held && e.eventId != held[0].eventId
  {}

  lemma OutcomeFresh(d: Delivery, step: Step)
    requires step.RecordOutcome? && Sound(d.store) && Fresh(d) && Enabled(d, step)
    ensures Fresh(Next(d, step))
  {
    var held, d' := d.consumer.entries, Next(d, step);
    OutcomeStore(d, step);
    RestOfBatch(held);
    forall e | e in held[1..]
      ensures e.eventId in d'.store.outbox && d'.store.outbox[e.eventId].state == Pending
              && d'.store.outbox[e.eventId].event == e.event
    {
      assert e.eventId in d.store.outbox;
    }
  }

  lemma OutcomeAccounted(d: Delivery, step: Step, start: Store)
    requires step.RecordOutcome? && Sound(d.store) && Fresh(d) && Accounted(d, start) && Settled(d) && Enabled(d, step)
    ensures Accounted(Next(d, step), start) && Settled(Next(d, step))
  {
    var d', id := Next(d, step), d.consumer.entries[0].eventId;
    OutcomeStore(d, step);
    assert d'.delivered == d.delivered && d'.arrived == d.arrived;
    forall k | k in d'.store.outbox && d'.store.outbox[k].state == Written
      ensures k in d'.delivered || (k in start.outbox && start.outbox[k].state == Written)
              || (k in d'.arrived && d'.arrived[k].state == Written)
    {
      if k != id {
        assert d'.store.outbox[k] == d.store.outbox[k];
      }
    }
    OutcomeSettled(d, step);
  }

  lemma OutcomeSettled(d: Delivery, step: Step)
    requires step.RecordOutcome? && Sound(d.store) && Settled(d) && Enabled(d, step)
    ensures Settled(Next(d, step))
  {
    OutcomeStore(d, step);
    assert Next(d, step).arrived == d.arrived;
  }

  lemma StepKeeps(d: Delivery, step: Step, start: Store)
    requires Sound(d.store) && Fresh(d) && Accounted(d, start) && Settled(d) && Enabled(d, step)
    ensures Sound(Next(d, step).store) && Grows(d.store, Next(d, step).store)
    ensures Fresh(Next(d, step)) && Accounted(Next(d, step), start) && Settled(Next(d, step))
  {
    match step {
      case Produce(op) =>
        PerformGrows(d.store, op);
        ProduceFresh(d, step, start);
      case RecordOutcome(_, _, _) =>
        OutcomeStore(d, step);
        OutcomeFresh(d, step);
        OutcomeAccounted(d, step, start);
      case _ =>
    }
  }

  lemma {:induction false} RunKeeps(d: Delivery, steps: seq<Step>, end: Delivery, start: Store)
    requires Sound(d.store) && Fresh(d) && Accounted(d, start) && Settled(d) && Run(d, steps, end)
    ensures Sound(end.store) && Grows(d.store, end.store) && Fresh(end) && Accounted(end, start) && Settled(end)
    ensures forall k <- end.arrived :: k in d.store.outbox ==> k in d.arrived && end.arrived[k] == d.arrived[k]
    decreases |steps|
  {
    if steps == [] {
    } else {
      StepKeeps(d, steps[0], start);
      RunKeeps(Next(d, steps[0]), steps[1..], end, start);
      GrowsTransitive(d.store, Next(d, steps[0]).store, end.store);
    }
  }

  function Opening(store: Store): Delivery {
    Delivery(store, Resting, [], [], map[])
  }

  /** Over every run with any number of imports, restarts and failed writes: an event that is
      written now but was not at the start had a send of it return or arrived written; written
      events never change again, no event or binding is removed, attempt counts only grow, and
      routes never change. */
  lemma WrittenOnlyAfterDelivery(store: Store, steps: seq<Step>, end: Delivery, id: string)
    requires Sound(store) && Run(Opening(store), steps, end)
    requires id in end.store.outbox && end.store.outbox[id].state == Written
    ensures Grows(store, end.store)
    ensures || (id in store.outbox && store.outbox[id].state == Written)
            || id in end.delivered
            || (id !in store.outbox && id in end.arrived && end.arrived[id].state == Written)
  {
    RunKeeps(Opening(store), steps, end, store);
  }

  /** At least once: an event that was pending at any time leaves that state only after a send of
      it returned. */
  lemma PendingLeftBySendOnly(store: Store, before: seq<Step>, mid: Delivery, after: seq<Step>, end: Delivery, id: string)
    requires Sound(store) && Run(Opening(store), before, mid) && Run(mid, after, end)
    requires id in mid.store.outbox && mid.store.outbox[id].state == Pending
    ensures id in end.store.outbox
    ensures end.store.outbox[id].state == Written ==> id in end.delivered
  {
    RunKeeps(Opening(store), before, mid, store);
    RunKeeps(mid, after, end, mid.store);
  }

  /** Never after written: whenever the consumer sends, the event is still pending on disk, with
      the very payload it is about to send. */
  lemma NeverSentAfterWritten(store: Store, steps: seq<Step>, d: Delivery, ok: bool)
    requires Sound(store) && Run(Opening(store), steps, d) && Enabled(d, Send(ok))
    ensures var e := d.consumer.entries[0];
            && e.eventId in d.store.outbox && d.store.outbox[e.eventId].state == Pending
            && e.event.Some? && d.store.outbox[e.eventId].event == e.event
  {
    RunKeeps(Opening(store), steps, d, store);
    var e := d.consumer.entries[0];
    assert e in InHand(d.consumer);
    assert ValidEntry(d.store.outbox[e.eventId]);
  }

  /** What the consumer writes down after a send, when the write reaches the disk: a send that
      returned closes the event, one that raised is one more attempt with its reason. */
  lemma OutcomeOnDisk(d: Delivery, reason: string, at: string)
    requires Sound(d.store) && Fresh(d) && Enabled(d, RecordOutcome(reason, at, true))
    ensures var id, next := d.consumer.entries[0].eventId, Next(d, RecordOutcome(reason, at, true));
            && id in d.store.outbox && d.store.outbox[id].state == Pending
            && Perform(d.store, if d.consumer.ok then WrittenOp(id, at) else FailedOp(id, reason, at)) == Ok(next.store)
  {
    var e := d.consumer.entries[0];
    assert e in InHand(d.consumer);
    RecordingSucceeds(d.store, e.eventId, reason, at);
  }

  lemma OutcomeIsRecorded(store: Store, steps: seq<Step>, d: Delivery, reason: string, at: string)
    requires Sound(store) && Run(Opening(store), steps, d) && Enabled(d, RecordOutcome(reason, at, true))
    ensures var id, next := d.consumer.entries[0].eventId, Next(d, RecordOutcome(reason, at, true));
            && id in d.store.outbox && id in next.store.outbox
            && next.store.outbox[id].attempts == d.store.outbox[id].attempts + 1
            && (if d.consumer.ok then next.store.outbox[id].state == Written
                else next.store.outbox[id].state == Pending && next.store.outbox[id].lastError == Some(reason))
  {
    RunKeeps(Opening(store), steps, d, store);
    OutcomeOnDisk(d, reason, at);
    AttemptIsRecorded(d.store, d.consumer.entries[0].eventId, if d.consumer.ok then None else Some(reason), at);
  }

  // ---- one batch ----

  function Ids(entries: seq<Entry>): seq<string> {
    seq(|entries|, i requires 0 <= i < |entries| => entries[i].eventId)
  }

  /** How much of a batch has been sent: all but what is in hand, and its head once sent. */
  function SentOf(batch: seq<Entry>, c: Consumer): int {
    |batch| - |InHand(c)| + if c.Sent? then 1 else 0
  }

  ghost predicate Follows(d: Delivery, was: seq<string>, batch: seq<Entry>) {
    && (d.consumer.Sent? || d.consumer.Batch? ==> d.consumer.entries != [])
    && |InHand(d.consumer)| <= |batch| && InHand(d.consumer) == batch[|batch| - |InHand(d.consumer)|..]
    && d.attempted == was + Ids(batch[..SentOf(batch, d.consumer)])
  }

  lemma SendFollows(d: Delivery, ok: bool, was: seq<string>, batch: seq<Entry>)
    requires Follows(d, was, batch) && Enabled(d, Send(ok))
    ensures Follows(Next(d, Send(ok)), was, batch)
  {
    var n := SentOf(batch, d.consumer);
    assert batch[..n + 1] == batch[..n] + [batch[n]];
    assert Ids(batch[..n + 1]) == Ids(batch[..n]) + [batch[n].eventId];
  }

  lemma OutcomeFollows(d: Delivery, step: Step, was: seq<string>, batch: seq<Entry>)
    requires Follows(d, was, batch) && Enabled(d, step) && step.RecordOutcome?
    ensures Follows(Next(d, step), was, batch)
  {
    assert d.consumer.entries[1..] == batch[|batch| - |d.consumer.entries| + 1..];
  }

  lemma StepFollows(d: Delivery, step: Step, was: seq<string>, batch: seq<Entry>)
    requires Follows(d, was, batch) && Enabled(d, step) && !step.Poll? && !step.Restart?
    ensures Follows(Next(d, step), was, batch)
  {
    match step {
      case Send(ok) => SendFollows(d, ok, was, batch);
      case RecordOutcome(_, _, _) => OutcomeFollows(d, step, was, batch);
      case Produce(_) =>
    }
  }

  lemma PollFollows(d: Delivery, batch: seq<Entry>)
    ensures Follows(Next(d, Poll(batch)), d.attempted, batch)
  {
    assert batch[|batch| - |batch|..] == batch;
    assert Ids(batch[..0]) == [];
  }

  lemma {:induction false} RunFollows(d: Delivery, steps: seq<Step>, end: Delivery, was: seq<string>, batch: seq<Entry>)
    requires Follows(d, was, batch) && Run(d, steps, end) && forall step <- steps :: !step.Poll? && !step.Restart?
    ensures Follows(end, was, batch)
    decreases |steps|
  {
    if steps == [] {
    } else {
      StepFollows(d, steps[0], was, batch);
      RunFollows(Next(d, steps[0]), steps[1..], end, was, batch);
    }
  }

  lemma FollowsMeans(d: Delivery, was: seq<string>, batch: seq<Entry>)
    requires Follows(d, was, batch)
    ensures 0 <= SentOf(batch, d.consumer) <= |batch|
    ensures d.attempted == was + Ids(batch[..SentOf(batch, d.consumer)])
    ensures d.consumer == Resting ==> d.attempted == was + Ids(batch)
  {
    if d.consumer == Resting {
      assert batch[..|batch|] == batch;
    }
  }

  /** Until it polls again or the process restarts, the consumer sends what it polled, each event
      once and in that order, whatever others do to the store; once it rests, all of it. */
  lemma BatchIsSentInOrder(d: Delivery, batch: seq<Entry>, steps: seq<Step>, end: Delivery)
    requires d.consumer == Resting && Run(Next(d, Poll(batch)), steps, end)
    requires forall step <- steps :: !step.Poll? && !step.Restart?
    ensures 0 <= SentOf(batch, end.consumer) <= |batch|
    ensures end.attempted == d.attempted + Ids(batch[..SentOf(batch, end.consumer)])
    ensures end.consumer == Resting ==> end.attempted == d.attempted + Ids(batch)
  {
    PollFollows(d, batch);
    RunFollows(Next(d, Poll(batch)), steps, end, d.attempted, batch);
    FollowsMeans(end, d.attempted, batch);
  }

  // ---- attempts against sends ----

  function Count(ids: seq<string>, id: string): nat {
    if ids == [] then 0 else (if ids[|ids| - 1] == id then 1 else 0) + Count(ids[..|ids| - 1], id)
  }

  function Attempts(s: Store, id: string): nat {
    if id in s.outbox then s.outbox[id].attempts else 0
  }

  /** The count an event came with, at the start or by an import. */
  function Initially(d: Delivery, start: Store, id: string): nat {
    if id in start.outbox then start.outbox[id].attempts
    else if id in d.arrived then d.arrived[id].attempts
    else 0
  }

  /** Recorded attempts never exceed real sends; a send not yet recorded is still owed. */
  ghost predicate Counted(d: Delivery, start: Store, id: string) {
    && (id in start.outbox || id in d.arrived ==> id in d.store.outbox)
    && Attempts(d.store, id) + (if d.consumer.Sent? && d.consumer.entries != [] && d.consumer.entries[0].eventId == id then 1 else 0)
       <= Initially(d, start, id) + Count(d.attempted, id)
  }

  lemma StepCounted(d: Delivery, step: Step, start: Store, id: string)
    requires Counted(d, start, id) && Enabled(d, step)
    ensures Counted(Next(d, step), start, id)
  {
    if step.Produce? {
      ProduceEntries(d.store, step.op, id);
    } else if step.Send? {
      var sent := d.consumer.entries[0].eventId;
      assert (d.attempted + [sent])[..|d.attempted|] == d.attempted;
    }
  }

  lemma {:induction false} AttemptsAreSends(d: Delivery, steps: seq<Step>, end: Delivery, start: Store, id: string)
    requires Counted(d, start, id) && Run(d, steps, end)
    ensures Attempts(end.store, id) <= Initially(end, start, id) + Count(end.attempted, id)
    decreases |steps|
  {
    if steps == [] {
    } else {
      StepCounted(d, steps[0], start, id);
      AttemptsAreSends(Next(d, steps[0]), steps[1..], end, start, id);
    }
  }
}
