// One attached session of the runtime store: notifications, start responses, authoritative
// thread reads and detachment, each as one critical section over the session's state.

module RuntimeStates {
  import opened Prelude

  type Id = string

  datatype Snapshot = Snapshot(turn: Id, status: string, error: Option<string>, items: seq<string>)

  datatype Event = Event(cursor: nat, kind: string, turn: Option<Id>, item: Option<string>, error: Option<string>)

  /** The bounded event ring. */
  datatype Ring = Ring(next: nat, events: seq<Event>)

  /** Terminal turns: retained snapshots in insertion order, ids remembered as published in
      least-recently-marked order, and ids whose publication is in progress. */
  datatype Shelf = Shelf(terminals: seq<Snapshot>, published: seq<Id>, publishing: set<Id>)

  /** The start handshake. */
  datatype Start = Start(active: Option<Id>, pending: bool, awaiting: bool, observed: Option<Id>)

  datatype Session = Session(attached: bool, start: Start, latest: Option<Snapshot>, shelf: Shelf, ring: Ring,
                             items: map<Id, seq<string>>)

  const FRESH_SESSION :=
    Session(true, Start(None, false, false, None), None, Shelf([], [], {}), Ring(1, []), map[])

  // ---- sequences as deques and ordered dictionaries ----

  /** What popping from the left down to `limit` elements leaves. */
  function Last<T>(s: seq<T>, limit: nat): (r: seq<T>)
    ensures |r| == if |s| < limit then |s| else limit
  {
    if |s| <= limit then s else s[|s| - limit..]
  }

  function Without<T(==)>(s: seq<T>, x: T): seq<T> {
    if s == [] then [] else if s[0] == x then Without(s[1..], x) else [s[0]] + Without(s[1..], x)
  }

  function WithoutTurn(s: seq<Snapshot>, id: Id): seq<Snapshot> {
    if s == [] then []
    else if s[0].turn == id then WithoutTurn(s[1..], id) else [s[0]] + WithoutTurn(s[1..], id)
  }

  // ---- the ring ----

  function Push(ring: Ring, kind: string, turn: Option<Id>, item: Option<string>, error: Option<string>, limit: nat): Ring {
    Ring(ring.next + 1, Last(ring.events + [Event(ring.next, kind, turn, item, error)], limit))
  }

  // ---- the shelf ----

  function Mark(published: seq<Id>, id: Id, limit: nat): seq<Id> {
    Last(Without(published, id) + [id], limit)
  }

  /** Drop the oldest snapshots not being published until the limit is met or none is left. */
  function Trim(terminals: seq<Snapshot>, publishing: set<Id>, limit: nat): seq<Snapshot>
    decreases |terminals|
  {
    if |terminals| <= limit then terminals
    else
      var at := Removable(terminals, publishing);
      if at == |terminals| then terminals
      else Trim(terminals[..at] + terminals[at + 1..], publishing, limit)
  }

  /** The first snapshot that is not being published. */
  function Removable(terminals: seq<Snapshot>, publishing: set<Id>): (at: nat)
    ensures at <= |terminals|
    ensures forall i | 0 <= i < at :: terminals[i].turn in publishing
    ensures at < |terminals| ==> terminals[at].turn !in publishing
  {
    if terminals == [] then 0
    else if terminals[0].turn !in publishing then 0
    else Removable(terminals[1..], publishing) + 1
  }

  function Retain(shelf: Shelf, snapshot: Snapshot, publish: bool, limit: nat): Shelf {
    var publishing := if publish then shelf.publishing + {snapshot.turn} else shelf.publishing;
    shelf.(terminals := Trim(WithoutTurn(shelf.terminals, snapshot.turn) + [snapshot], publishing, limit),
           publishing := publishing)
  }

  /** Mark and retain; publication follows when the id was not remembered. */
  function CommitTerminal(shelf: Shelf, snapshot: Snapshot, limit: nat): Shelf {
    Retain(shelf.(published := Mark(shelf.published, snapshot.turn, limit)), snapshot,
           snapshot.turn !in shelf.published, limit)
  }

  function FinishPublication(shelf: Shelf, id: Id, limit: nat): Shelf {
    shelf.(publishing := shelf.publishing - {id}, terminals := Trim(shelf.terminals, shelf.publishing - {id}, limit))
  }

  // ---- the steps ----

  /** What an authoritative thread read reports, once validated: an active thread names exactly
      one active turn, an inactive one none. */
  datatype Reading = Reading(active: Option<(Id, seq<string>)>, terminal: Option<Snapshot>)

  datatype Step =
    | Attach
    | Started(turn: Id)
    | Completed(turn: Id, status: string, error: Option<string>)
    | ItemDone(item: string, owner: Option<Id>)
    | Declined(item: string, owner: Option<Id>)
    | Read(reading: Reading)
    | Detach(reason: string)
    | Reserve
    | Cancel
    | Respond(turn: Id)
    | Release(turn: Id)
    | Finish(turn: Id)

  /** A delayed notification about a turn already committed is dropped. */
  predicate Dropped(s: Session, step: Step) {
    match step
    case Started(t) => t in s.shelf.published && !s.start.awaiting
    case Completed(t, _, _) => t in s.shelf.published && s.start.active != Some(t)
    case _ => false
  }

  function ItemsOf(s: Session, turn: Id): seq<string> {
    if turn in s.items then s.items[turn] else []
  }

  /** The terminal snapshot a step commits. */
  function Committed(s: Session, step: Step): Option<Snapshot> {
    match step
    case Completed(t, status, error) =>
      if Dropped(s, step) then None else Some(Snapshot(t, status, error, ItemsOf(s, t)))
    case Read(r) => r.terminal
    case _ => None
  }

  /** The turn a detachment loses. */
  function Lost(s: Session, step: Step): Option<Snapshot> {
    if step.Detach? && s.start.active.Some?
    then Some(Snapshot(s.start.active.value, "failed", Some(step.reason), ItemsOf(s, s.start.active.value)))
    else None
  }

  /** The snapshot a step hands to the terminal observers after its critical section. */
  function Publishes(s: Session, step: Step): Option<Snapshot> {
    if Lost(s, step).Some? then Lost(s, step)
    else if Committed(s, step).Some? && Committed(s, step).value.turn !in s.shelf.published then Committed(s, step)
    else None
  }

  predicate BelongsToPending(st: Start, t: Id) {
    st.awaiting && (st.observed.None? || st.observed == Some(t)) && (st.active.None? || st.active == Some(t))
  }

  function StartAfter(s: Session, step: Step): Start {
    var st := s.start;
    match step
    case Started(t) =>
      if Dropped(s, step) then st
      else st.(pending := false, active := Some(t), observed := if st.awaiting then Some(t) else st.observed)
    case Completed(t, _, _) =>
      if Dropped(s, step) then st
      else
        var st1 := if BelongsToPending(st, t) then st.(observed := Some(t), pending := false) else st;
        if st1.active == Some(t) then st1.(active := None) else st1
    case Read(r) =>
      var active := if r.active.Some? then Some(r.active.value.0) else None;
      st.(active := active, observed := if st.awaiting && active.Some? then active else st.observed)
    case Detach(_) => Start(None, false, false, None)
    case Reserve => st.(pending := true, awaiting := true, observed := None)
    case Cancel => st.(pending := false, awaiting := false, observed := None)
    case Respond(t) =>
      var st1 := st.(awaiting := false, pending := false, observed := None);
      if st.observed.None? && (st.active.None? || st.active == Some(t)) then st1.(active := Some(t)) else st1
    case _ => st
  }

  /** Whether the store's method accepts the step; a refused one raises. */
  predicate Accepted(s: Session, step: Step) {
    match step
    case Reserve => s.attached && !s.start.pending && !s.start.awaiting && s.start.active.None?
    case Respond(t) =>
      && t != "" && s.start.awaiting
      && (s.start.observed.Some? ==> s.start.observed.value == t)
      && (s.start.observed.None? && s.start.active.Some? ==> s.start.active.value == t)
    case _ => true
  }

  function ShelfAfter(s: Session, step: Step, limit: nat): Shelf {
    if Lost(s, step).Some? then Retain(s.shelf, Lost(s, step).value, true, limit)
    else if Committed(s, step).Some? then CommitTerminal(s.shelf, Committed(s, step).value, limit)
    else match step
         case Release(t) => s.shelf.(terminals := WithoutTurn(s.shelf.terminals, t))
         case Finish(t) => FinishPublication(s.shelf, t, limit)
         case _ => s.shelf
  }

  /** The event a step appends. */
  function Appended(s: Session, step: Step): Option<Event> {
    match step
    case Started(t) => if Dropped(s, step) then None else Some(Event(s.ring.next, "turn_started", Some(t), None, None))
    case Completed(t, _, error) =>
      if Dropped(s, step) then None else Some(Event(s.ring.next, "turn_completed", Some(t), None, error))
    case ItemDone(item, owner) => Some(Event(s.ring.next, "item_completed", owner, Some(item), None))
    case Declined(item, owner) => Some(Event(s.ring.next, "approval_declined", owner, Some(item), None))
    case Detach(reason) => Some(Event(s.ring.next, "transport_error", s.start.active, None, Some(reason)))
    case _ => None
  }

  function RingAfter(s: Session, step: Step, limit: nat): Ring {
    match Appended(s, step)
    case None => s.ring
    case Some(e) => Push(s.ring, e.kind, e.turn, e.item, e.error, limit)
  }

  /** Items are kept for the active turn, and for the pending one observed but not yet latest. */
  predicate CurrentTurn(s: Session, t: Id) {
    || s.start.active == Some(t)
    || (s.start.awaiting && s.start.observed == Some(t) && (s.latest.None? || s.latest.value.turn != t))
  }

  function ItemsAfter(s: Session, step: Step): map<Id, seq<string>> {
    match step
    case Completed(t, _, _) => if Dropped(s, step) then s.items else s.items - {t}
    case ItemDone(item, Some(t)) => if CurrentTurn(s, t) then s.items[t := ItemsOf(s, t) + [item]] else s.items
    case Read(r) => if r.active.Some? then map[r.active.value.0 := r.active.value.1] else map[]
    case Detach(_) => map[]
    case _ => s.items
  }

  function Next(s: Session, step: Step, limit: nat): Session {
    Session(
      if step.Attach? || step.Read? then true else if step.Detach? then false else s.attached,
      StartAfter(s, step),
      if Lost(s, step).Some? then Lost(s, step)
      else if Committed(s, step).Some? then Committed(s, step)
      else s.latest,
      ShelfAfter(s, step, limit),
      RingAfter(s, step, limit),
      ItemsAfter(s, step))
  }
}
