// The mutable callback store: every method is one load-change-write under the store's lock,
// proved to be the operation of `CallbackOutbox` it stands for.

module CallbackStores {
  import opened Prelude
  import opened LegacyStores
  import opened CallbackOutbox

  /** A snapshot as the migration reads it. */
  function SnapshotOf(s: Store): Callbacks {
    Callbacks(set k | k in s.bindings :: s.bindings[k], set k | k in s.outbox :: s.outbox[k])
  }

  /** The file a valid, bound snapshot becomes reads back as the same snapshot. */
  ghost predicate StoreFor(s: Store, c: Callbacks) {
    && (forall b <- c.bindings :: b.sessionId in s.bindings && s.bindings[b.sessionId] == b)
    && (forall k <- s.bindings :: s.bindings[k] in c.bindings && s.bindings[k].sessionId == k)
    && (forall e <- c.outbox :: e.eventId in s.outbox && s.outbox[e.eventId] == e)
    && (forall k <- s.outbox :: s.outbox[k] in c.outbox && s.outbox[k].eventId == k)
  }

  lemma SnapshotRoundTrip(s: Store, c: Callbacks)
    requires StoreFor(s, c)
    ensures SnapshotOf(s) == c
    ensures ValidCallbacks(c) && Bound(c) ==> Sound(s)
  {}

  /** Two stores that agree where they overlap are the store for the union of their snapshots. */
  ghost predicate Agree(s: Store, added: Store) {
    && (forall k | k in added.bindings && k in s.bindings :: added.bindings[k] == s.bindings[k])
    && (forall k | k in added.outbox && k in s.outbox :: added.outbox[k] == s.outbox[k])
  }

  function Union(c: Callbacks, a: Callbacks): Callbacks {
    Callbacks(c.bindings + a.bindings, c.outbox + a.outbox)
  }

  lemma AgreeExactly(s: Store, c: Callbacks, added: Store, a: Callbacks)
    requires StoreFor(s, c) && StoreFor(added, a)
    ensures Agree(s, added) <==> UniqueBindings(Union(c, a).bindings) && UniqueEntries(Union(c, a).outbox)
  {
    if UniqueBindings(Union(c, a).bindings) && UniqueEntries(Union(c, a).outbox) {
      forall k | k in added.bindings && k in s.bindings ensures added.bindings[k] == s.bindings[k] {
        assert added.bindings[k] in Union(c, a).bindings && s.bindings[k] in Union(c, a).bindings;
      }
      forall k | k in added.outbox && k in s.outbox ensures added.outbox[k] == s.outbox[k] {
        assert added.outbox[k] in Union(c, a).outbox && s.outbox[k] in Union(c, a).outbox;
      }
    }
  }

  lemma MergedStore(s: Store, c: Callbacks, added: Store, a: Callbacks)
    requires StoreFor(s, c) && StoreFor(added, a) && Agree(s, added)
    ensures StoreFor(Store(s.bindings + added.bindings, s.outbox + added.outbox), Union(c, a))
  {}

  predicate AllBound(s: Store) {
    forall k | k in s.outbox :: s.outbox[k].sessionId in s.bindings
  }

  lemma ImportAccepts(s: Store, added: Store, a: Callbacks)
    requires StoreFor(added, a) && ValidCallbacks(a)
    ensures var merged := Store(s.bindings + added.bindings, s.outbox + added.outbox);
            && (Import(s, added.bindings, added.outbox).Ok? <==> Agree(s, added) && AllBound(merged))
            && (Import(s, added.bindings, added.outbox).Ok? ==> Import(s, added.bindings, added.outbox).value == merged)
  {}

  /** Importing into the store a snapshot came from is the union of the snapshots: accepted if
      and only if the union has unique keys and leaves no event unbound. */
  lemma ImportIsUnion(s: Store, c: Callbacks, added: Store, a: Callbacks)
    requires StoreFor(s, c) && StoreFor(added, a) && ValidCallbacks(a)
    ensures var r := Import(s, added.bindings, added.outbox);
            && (r.Ok? <==> UniqueBindings(Union(c, a).bindings) && UniqueEntries(Union(c, a).outbox) && Bound(Union(c, a)))
            && (r.Ok? ==> SnapshotOf(r.value) == Union(c, a))
  {
    var merged := Store(s.bindings + added.bindings, s.outbox + added.outbox);
    ImportAccepts(s, added, a);
    AgreeExactly(s, c, added, a);
    if Agree(s, added) {
      MergedStore(s, c, added, a);
      BoundStore(merged, Union(c, a));
      if AllBound(merged) {
        SnapshotRoundTrip(merged, Union(c, a));
      }
    }
  }

  lemma BoundStore(s: Store, c: Callbacks)
    requires StoreFor(s, c)
    ensures Bound(c) <==> AllBound(s)
  {
    if Bound(c) {
      forall k | k in s.outbox ensures s.outbox[k].sessionId in s.bindings {
        var b :| b in c.bindings && b.sessionId == s.outbox[k].sessionId;
      }
    }
    if AllBound(s) {
      forall e | e in c.outbox ensures exists b :: b in c.bindings && b.sessionId == e.sessionId {
        assert s.bindings[s.outbox[e.eventId].sessionId] in c.bindings;
      }
    }
  }

  class CallbackStore {
    var bindings: map<string, Binding>
    var outbox: map<string, Entry>

    function State(): Store
      reads this
    {
      Store(bindings, outbox)
    }

    constructor ()
      ensures State() == Store(map[], map[])
    {
      bindings, outbox := map[], map[];
    }

    method BindSession(b: Binding) returns (r: Result<Binding, StoreFault>)
      modifies this
      ensures match Bind(old(State()), b)
              case Ok(s) => State() == s && r == Ok(b)
              case Err(f) => State() == old(State()) && r == Err(f)
    {
      if b.sessionId in bindings && bindings[b.sessionId] != b {
        return Err(Immutable);
      }
      if b.sessionId !in bindings {
        bindings := bindings[b.sessionId := b];
      }
      r := Ok(b);
    }

    /** The entry to deliver; none when the event was written before. */
    method EnqueueTerminal(session: string, event: Event) returns (r: Result<Option<Entry>, StoreFault>)
      modifies this`outbox
      ensures match Enqueue(old(State()), session, event)
              case Ok(s) =>
                && State() == s && event.eventId in outbox
                && r == Ok(if outbox[event.eventId].state == Pending then Some(outbox[event.eventId]) else None)
              case Err(f) => State() == old(State()) && r == Err(f)
    {
      if session !in bindings {
        return Err(Unbound);
      }
      if event.eventId in outbox {
        var entry := outbox[event.eventId];
        if entry.sessionId != session {
          return Err(OtherSession);
        }
        return Ok(if entry.state == Pending then Some(entry) else None);
      }
      if event.worker.sessionId != session {
        return Err(Invalid);
      }
      var entry := Entry(event.eventId, session, Some(event), Pending, 0, None);
      outbox := outbox[event.eventId := entry];
      r := Ok(Some(entry));
    }

    /** Every pending entry of the session, or of all sessions, exactly once. */
    method PendingEntries(session: Option<string>) returns (entries: seq<Entry>)
      requires forall k <- outbox :: outbox[k].eventId == k
      ensures forall e :: e in entries <==>
                e.eventId in outbox && outbox[e.eventId] == e && e.state == Pending
                && (session.Some? ==> e.sessionId == session.value)
      ensures forall i, j | 0 <= i < j < |entries| :: entries[i].eventId != entries[j].eventId
      ensures session.None? ==> PendingListing(State(), entries)
    {
      entries := [];
      var todo := outbox.Keys;
      while todo != {}
        invariant todo <= outbox.Keys
        invariant forall e :: e in entries <==>
            e.eventId in outbox && e.eventId !in todo && outbox[e.eventId] == e && e.state == Pending
            && (session.Some? ==> e.sessionId == session.value)
        invariant forall i, j | 0 <= i < j < |entries| :: entries[i].eventId != entries[j].eventId
        decreases |todo|
      {
        var k :| k in todo;
        if outbox[k].state == Pending && (session.None? || outbox[k].sessionId == session.value) {
          forall i | 0 <= i < |entries| ensures entries[i].eventId != k {
            assert entries[i] in entries;
          }
          entries := entries + [outbox[k]];
        }
        todo := todo - {k};
      }
    }

    method SetLastAttempt(session: string, attempt: Attempt)
      requires session in bindings
      modifies this`bindings
      ensures State() == SetAttempt(old(State()), session, attempt)
    {
      bindings := bindings[session := bindings[session].(lastAttempt := Some(attempt))];
    }

    method RecordFailure(id: string, error: string, at: string) returns (r: Result<Entry, StoreFault>)
      modifies this
      ensures match RecordFailed(old(State()), id, error, at)
              case Ok(s) => State() == s && id in outbox && r == Ok(outbox[id])
              case Err(f) => State() == old(State()) && r == Err(f)
    {
      if error == "" || at == "" {
        return Err(Invalid);
      }
      if id !in outbox {
        return Err(Missing);
      }
      var entry := outbox[id];
      if entry.state != Pending {
        return Ok(entry);
      }
      if entry.sessionId !in bindings {
        return Err(Missing);
      }
      var turn := TerminalTurn(entry.event);
      entry := entry.(attempts := entry.attempts + 1, lastError := Some(error));
      outbox := outbox[id := entry];
      SetLastAttempt(entry.sessionId, Attempt(id, AttemptFailed, Some(error), at, entry.attempts, turn));
      r := Ok(entry);
    }

    method RecordDelivery(id: string, at: string) returns (r: Result<Entry, StoreFault>)
      modifies this
      ensures match RecordWritten(old(State()), id, at)
              case Ok(s) => State() == s && id in outbox && r == Ok(outbox[id])
              case Err(f) => State() == old(State()) && r == Err(f)
    {
      if at == "" {
        return Err(Invalid);
      }
      if id !in outbox {
        return Err(Missing);
      }
      var entry := outbox[id];
      if entry.state == Written {
        return Ok(entry);
      }
      if entry.sessionId !in bindings {
        return Err(Missing);
      }
      var turn := TerminalTurn(entry.event);
      entry := Entry(entry.eventId, entry.sessionId, None, Written, entry.attempts + 1, None);
      outbox := outbox[id := entry];
      SetLastAttempt(entry.sessionId, Attempt(id, AttemptWritten, None, at, entry.attempts, turn));
      r := Ok(entry);
    }

    method RecordTerminalFault(session: string, id: string, error: string, at: string, turn: Option<string>)
      returns (r: Result<Attempt, StoreFault>)
      modifies this`bindings
      ensures match RecordFault(old(State()), session, id, error, at, turn)
              case Ok(s) => State() == s && session in bindings && bindings[session].lastAttempt == (if r.Ok? then Some(r.value) else None)
              case Err(f) => State() == old(State()) && r == Err(f)
    {
      if session == "" || id == "" || error == "" || at == "" {
        return Err(Invalid);
      }
      if session !in bindings {
        return Err(Unbound);
      }
      var previous := bindings[session].lastAttempt;
      var count := if previous.Some? && previous.value.eventId == id then previous.value.count + 1 else 1;
      var attempt := Attempt(id, AttemptFailed, Some(error), at, count, turn);
      SetLastAttempt(session, attempt);
      r := Ok(attempt);
    }

    /** `replace_snapshot`: refused exactly when some outbox session is unbound, and otherwise the
        store reads back as the snapshot. */
    method ReplaceSnapshot(c: Callbacks) returns (r: Result<(), StoreFault>)
      requires ValidCallbacks(c)
      modifies this
      ensures r.Ok? <==> Bound(c)
      ensures r.Ok? ==> SnapshotOf(State()) == c && Sound(State())
      ensures r.Err? ==> State() == old(State())
    {
      var newBindings: map<string, Binding> := map[];
      var todo := c.bindings;
      while todo != {}
        invariant todo <= c.bindings
        invariant forall b <- c.bindings - todo :: b.sessionId in newBindings && newBindings[b.sessionId] == b
        invariant forall k <- newBindings :: newBindings[k] in c.bindings && newBindings[k].sessionId == k
        decreases |todo|
      {
        var b :| b in todo;
        newBindings := newBindings[b.sessionId := b];
        todo := todo - {b};
      }
      var newOutbox: map<string, Entry> := map[];
      var left := c.outbox;
      while left != {}
        invariant left <= c.outbox
        invariant forall e <- c.outbox - left :: e.eventId in newOutbox && newOutbox[e.eventId] == e
        invariant forall k <- newOutbox :: newOutbox[k] in c.outbox && newOutbox[k].eventId == k
        invariant forall e <- c.outbox - left :: e.sessionId in newBindings
        decreases |left|
      {
        var e :| e in left;
        if e.sessionId !in newBindings {
          assert !Bound(c) by {
            assert forall b <- c.bindings :: b.sessionId != e.sessionId;
          }
          return Err(Unbound);
        }
        newOutbox := newOutbox[e.eventId := e];
        left := left - {e};
      }
      bindings, outbox := newBindings, newOutbox;
      SnapshotRoundTrip(State(), c);
      assert Bound(c) by {
        forall e | e in c.outbox ensures exists b :: b in c.bindings && b.sessionId == e.sessionId {
          assert newBindings[e.sessionId] in c.bindings;
        }
      }
      r := Ok(());
    }
  }
}
