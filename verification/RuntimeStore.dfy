// The mutable session of the runtime store: every method is one critical section under the
// session's condition, and is proved to be the step of `RuntimeStates` it stands for.

module RuntimeStore {
  import opened Prelude
  import opened RuntimeStates
  import opened RuntimeRing
  import RuntimePublication

  lemma {:induction false} WithoutShorter(s: seq<Id>, x: Id)
    ensures |Without(s, x)| <= if x in s then |s| - 1 else |s|
    ensures x !in s ==> Without(s, x) == s
    decreases |s|
  {
    if s != [] {
      WithoutShorter(s[1..], x);
      assert s == [s[0]] + s[1..];
    }
  }

  /** A completion that is not dropped, spelled out. */
  lemma NextCompleted(s: Session, turn: Id, status: string, error: Option<string>, limit: nat)
    requires !(turn in s.shelf.published && s.start.active != Some(turn))
    ensures var snapshot := Snapshot(turn, status, error, ItemsOf(s, turn));
            && Publishes(s, Completed(turn, status, error)) == (if turn in s.shelf.published then None else Some(snapshot))
            && Next(s, Completed(turn, status, error), limit) ==
               Session(s.attached, Settled(s.start, turn), Some(snapshot), CommitTerminal(s.shelf, snapshot, limit),
                       Push(s.ring, "turn_completed", Some(turn), None, error, limit), s.items - {turn})
  {}

  /** A detachment, spelled out. */
  lemma NextDetach(s: Session, reason: string, limit: nat)
    ensures var lost := Lost(s, Detach(reason));
            && Publishes(s, Detach(reason)) == lost
            && Next(s, Detach(reason), limit) ==
               Session(false, Start(None, false, false, None), if lost.Some? then lost else s.latest,
                       if lost.Some? then Retain(s.shelf, lost.value, true, limit) else s.shelf,
                       Push(s.ring, "transport_error", s.start.active, None, Some(reason), limit), map[])
  {}

  /** An authoritative read, spelled out. */
  lemma NextRead(s: Session, r: Reading, limit: nat)
    ensures var active := if r.active.Some? then Some(r.active.value.0) else None;
            && Next(s, Read(r), limit) ==
               Session(true, s.start.(active := active,
                                      observed := if s.start.awaiting && active.Some? then active else s.start.observed),
                       if r.terminal.Some? then r.terminal else s.latest,
                       if r.terminal.Some? then CommitTerminal(s.shelf, r.terminal.value, limit) else s.shelf,
                       s.ring, if r.active.Some? then map[r.active.value.0 := r.active.value.1] else map[])
    ensures Publishes(s, Read(r)) ==
            if r.terminal.Some? && r.terminal.value.turn !in s.shelf.published then r.terminal else None
  {}

  lemma NextDropped(s: Session, step: Step, limit: nat)
    requires Dropped(s, step)
    ensures Next(s, step, limit) == s && Publishes(s, step).None?
  {}

  /** The start handshake's part of a completion. */
  function Settled(st: Start, turn: Id): Start {
    var st1 := if BelongsToPending(st, turn) then st.(observed := Some(turn), pending := false) else st;
    if st1.active == Some(turn) then st1.(active := None) else st1
  }

  class SessionRuntime {
    const limit: nat
    var attached: bool
    var active: Option<Id>
    var pending: bool
    var awaiting: bool
    var observed: Option<Id>
    var latest: Option<Snapshot>
    var terminals: seq<Snapshot>
    var published: seq<Id>
    var publishing: set<Id>
    var cursor: nat
    var events: seq<Event>
    var items: map<Id, seq<string>>

    function State(): Session
      reads this
    {
      Session(attached, Start(active, pending, awaiting, observed), latest,
              Shelf(terminals, published, publishing), Ring(cursor, events), items)
    }

    predicate Valid()
      reads this
    {
      0 < limit && |published| <= limit && |events| <= limit
    }

    /** One event is appended, under the next cursor. */
    twostate predicate Logged(kind: string, turn: Option<Id>, item: Option<string>, error: Option<string>)
      reads this
    {
      && cursor == old(cursor) + 1 && |events| > 0
      && events[|events| - 1] == Event(old(cursor), kind, turn, item, error)
    }

    constructor (limit: nat)
      requires limit > 0
      ensures Valid() && this.limit == limit && State() == FRESH_SESSION
    {
      this.limit := limit;
      attached, active, pending, awaiting, observed, latest := true, None, false, false, None, None;
      terminals, published, publishing, cursor, events, items := [], [], {}, 1, [], map[];
    }

    method AppendEvent(kind: string, turn: Option<Id>, item: Option<string>, error: Option<string>)
      requires Valid()
      modifies this`cursor, this`events
      ensures Valid() && State().ring == Push(old(State().ring), kind, turn, item, error, limit)
      ensures Logged(kind, turn, item, error)
    {
      events := events + [Event(cursor, kind, turn, item, error)];
      cursor := cursor + 1;
      ghost var all := events;
      while |events| > limit
        invariant Last(events, limit) == Last(all, limit) && cursor == old(cursor) + 1
        decreases |events|
      {
        events := events[1..];
      }
    }

    /** Whether the id was not remembered. */
    method MarkPublished(id: Id) returns (isNew: bool)
      requires Valid()
      modifies this`published
      ensures Valid() && published == Mark(old(published), id, limit)
      ensures isNew <==> id !in old(published)
    {
      WithoutShorter(published, id);
      if id in published {
        published := Without(published, id) + [id];
        return false;
      }
      published := published + [id];
      ghost var all := published;
      while |published| > limit
        invariant Last(published, limit) == Last(all, limit)
        decreases |published|
      {
        published := published[1..];
      }
      return true;
    }

    method TrimTerminals()
      requires Valid()
      modifies this`terminals
      ensures Valid() && terminals == Trim(old(terminals), publishing, limit)
    {
      while |terminals| > limit
        invariant Trim(terminals, publishing, limit) == Trim(old(terminals), publishing, limit)
        decreases |terminals|
      {
        var at := 0;
        while at < |terminals| && terminals[at].turn in publishing
          invariant at <= |terminals|
          invariant forall i | 0 <= i < at :: terminals[i].turn in publishing
        {
          at := at + 1;
        }
        assert at == Removable(terminals, publishing);
        if at == |terminals| {
          return;
        }
        terminals := terminals[..at] + terminals[at + 1..];
      }
    }

    method RetainTerminal(snapshot: Snapshot, publish: bool)
      requires Valid()
      modifies this`terminals, this`publishing
      ensures Valid() && State().shelf == Retain(old(State().shelf), snapshot, publish, limit)
    {
      terminals := WithoutTurn(terminals, snapshot.turn) + [snapshot];
      if publish {
        publishing := publishing + {snapshot.turn};
      }
      TrimTerminals();
    }

    /** Mark and retain a terminal snapshot; whether it must be published. */
    method Commit(snapshot: Snapshot) returns (publish: bool)
      requires Valid()
      modifies this`terminals, this`publishing, this`published, this`latest
      ensures Valid() && latest == Some(snapshot)
      ensures State().shelf == CommitTerminal(old(State().shelf), snapshot, limit)
      ensures publish <==> snapshot.turn !in old(published)
    {
      latest := Some(snapshot);
      publish := MarkPublished(snapshot.turn);
      RetainTerminal(snapshot, publish);
    }

    method OnStarted(turn: Id)
      requires Valid()
      modifies this
      ensures Valid() && State() == Next(old(State()), Started(turn), limit)
      ensures turn in old(published) && !old(awaiting) ==> State() == old(State())
      ensures !(turn in old(published) && !old(awaiting)) ==>
                && active == Some(turn) && !pending && awaiting == old(awaiting)
                && observed == (if awaiting then Some(turn) else old(observed))
                && Logged("turn_started", Some(turn), None, None)
                && attached == old(attached) && latest == old(latest) && items == old(items)
                && State().shelf == old(State()).shelf
    {
      if turn in published && !awaiting {
        return;
      }
      pending := false;
      active := Some(turn);
      if awaiting {
        observed := Some(turn);
      }
      AppendEvent("turn_started", Some(turn), None, None);
    }

    method SettleStart(turn: Id)
      requires Valid()
      modifies this`observed, this`pending, this`active
      ensures State().start == Settled(old(State()).start, turn)
    {
      if awaiting && (observed.None? || observed == Some(turn)) && (active.None? || active == Some(turn)) {
        observed := Some(turn);
        pending := false;
      }
      if active == Some(turn) {
        active := None;
      }
    }

    method CompleteTurn(turn: Id, status: string, error: Option<string>) returns (snapshot: Snapshot, publish: bool)
      requires Valid()
      modifies this
      ensures Valid() && snapshot == Snapshot(turn, status, error, ItemsOf(old(State()), turn))
      ensures publish <==> turn !in old(published)
      ensures var was := old(State());
              State() == Session(was.attached, Settled(was.start, turn), Some(snapshot),
                                 CommitTerminal(was.shelf, snapshot, limit),
                                 Push(was.ring, "turn_completed", Some(turn), None, error, limit), was.items - {turn})
    {
      ghost var was := State();
      SettleStart(turn);
      snapshot := Snapshot(turn, status, error, if turn in items then items[turn] else []);
      items := items - {turn};
      ghost var settled := was.(start := Settled(was.start, turn), items := was.items - {turn});
      assert State() == settled;
      publish := Commit(snapshot);
      ghost var committed := settled.(latest := Some(snapshot), shelf := CommitTerminal(settled.shelf, snapshot, limit));
      assert State() == committed;
      AppendEvent("turn_completed", Some(turn), None, error);
      assert State() == committed.(ring := Push(committed.ring, "turn_completed", Some(turn), None, error, limit));
    }

    method OnCompleted(turn: Id, status: string, error: Option<string>) returns (publish: Option<Snapshot>)
      requires Valid()
      modifies this
      ensures Valid() && State() == Next(old(State()), Completed(turn, status, error), limit)
      ensures publish == Publishes(old(State()), Completed(turn, status, error))
      ensures turn in old(published) && old(active) != Some(turn) ==> publish.None? && State() == old(State())
      ensures !(turn in old(published) && old(active) != Some(turn)) ==>
                && latest == Some(Snapshot(turn, status, error, if turn in old(items) then old(items)[turn] else []))
                && publish == (if turn in old(published) then None else latest)
                && items == old(items) - {turn} && active == (if old(active) == Some(turn) then None else old(active))
                && Logged("turn_completed", Some(turn), None, error)
                && attached == old(attached) && awaiting == old(awaiting)
                && (if old(awaiting) && old(observed) in {None, Some(turn)} && old(active) in {None, Some(turn)}
                    then observed == Some(turn) && !pending
                    else observed == old(observed) && pending == old(pending))
    {
      if turn in published && active != Some(turn) {
        NextDropped(State(), Completed(turn, status, error), limit);
        return None;
      }
      NextCompleted(State(), turn, status, error, limit);
      var snapshot, isNew := CompleteTurn(turn, status, error);
      publish := if isNew then Some(snapshot) else None;
    }

    method OnItem(item: string, owner: Option<Id>)
      requires Valid()
      modifies this
      ensures Valid() && State() == Next(old(State()), ItemDone(item, owner), limit)
      ensures var taken := owner.Some? && (old(active) == owner
                             || (old(awaiting) && old(observed) == owner && (old(latest).Some? ==> Some(old(latest).value.turn) != owner)));
              items == if taken
                       then old(items)[owner.value := (if owner.value in old(items) then old(items)[owner.value] else []) + [item]]
                       else old(items)
      ensures Logged("item_completed", owner, Some(item), None)
      ensures State().start == old(State()).start && State().shelf == old(State()).shelf
      ensures attached == old(attached) && latest == old(latest)
    {
      if owner.Some? && CurrentTurn(State(), owner.value) {
        items := items[owner.value := (if owner.value in items then items[owner.value] else []) + [item]];
      }
      AppendEvent("item_completed", owner, Some(item), None);
    }

    method OnDeclined(item: string, owner: Option<Id>)
      requires Valid()
      modifies this
      ensures Valid() && State() == Next(old(State()), Declined(item, owner), limit)
      ensures Logged("approval_declined", owner, Some(item), None)
      ensures State() == old(State()).(ring := State().ring)
    {
      AppendEvent("approval_declined", owner, Some(item), None);
    }

    /** One session's part of `detach_all`. */
    method DetachSession(reason: string) returns (publish: Option<Snapshot>)
      requires Valid()
      modifies this
      ensures Valid() && State() == Next(old(State()), Detach(reason), limit)
      ensures publish == Publishes(old(State()), Detach(reason))
      ensures !attached && active.None? && !pending && !awaiting && observed.None? && items == map[]
      ensures publish ==
                if old(active).None? then None
                else Some(Snapshot(old(active).value, "failed", Some(reason),
                                   if old(active).value in old(items) then old(items)[old(active).value] else []))
      ensures latest == (if publish.Some? then publish else old(latest)) && published == old(published)
      ensures Logged("transport_error", old(active), None, Some(reason))
    {
      NextDetach(State(), reason, limit);
      ghost var was := State();
      var lost := active;
      publish := LoseTurn(reason);
      attached, active, pending, awaiting, observed := false, None, false, false, None;
      items := map[];
      ghost var gone := was.(attached := false, start := Start(None, false, false, None), items := map[],
                             latest := if publish.Some? then publish else was.latest,
                             shelf := if publish.Some? then Retain(was.shelf, publish.value, true, limit) else was.shelf);
      assert State() == gone;
      AppendEvent("transport_error", lost, None, Some(reason));
      assert State() == gone.(ring := Push(was.ring, "transport_error", lost, None, Some(reason), limit));
    }

    /** The active turn, if there is one, fails and is retained for publication. */
    method LoseTurn(reason: string) returns (publish: Option<Snapshot>)
      requires Valid()
      modifies this`latest, this`terminals, this`publishing
      ensures Valid() && publish == Lost(old(State()), Detach(reason))
      ensures latest == if publish.Some? then publish else old(latest)
      ensures State().shelf == if publish.Some? then Retain(old(State().shelf), publish.value, true, limit) else old(State().shelf)
    {
      publish := None;
      if active.Some? {
        publish := Some(Snapshot(active.value, "failed", Some(reason), if active.value in items then items[active.value] else []));
        latest := publish;
        RetainTerminal(publish.value, true);
      }
    }

    /** The reported active turn takes the place of the one in memory. */
    method TakeActive(reading: Reading)
      modifies this`attached, this`active, this`observed, this`items
      ensures attached && active == if reading.active.Some? then Some(reading.active.value.0) else None
      ensures observed == if awaiting && active.Some? then active else old(observed)
      ensures items == if reading.active.Some? then map[reading.active.value.0 := reading.active.value.1] else map[]
    {
      attached := true;
      active := if reading.active.Some? then Some(reading.active.value.0) else None;
      items := map[];
      if reading.active.Some? {
        items := map[reading.active.value.0 := reading.active.value.1];
        if awaiting {
          observed := active;
        }
      }
    }

    /** The committing part of `reconcile_thread`, after validation. */
    method ReconcileThread(reading: Reading) returns (publish: Option<Snapshot>)
      requires Valid()
      modifies this
      ensures Valid() && State() == Next(old(State()), Read(reading), limit)
      ensures publish == Publishes(old(State()), Read(reading))
      ensures attached && active == (if reading.active.Some? then Some(reading.active.value.0) else None)
      ensures observed == (if awaiting && active.Some? then active else old(observed))
      ensures pending == old(pending) && awaiting == old(awaiting) && State().ring == old(State()).ring
      ensures latest == if reading.terminal.Some? then reading.terminal else old(latest)
      ensures publish ==
                if reading.terminal.Some? && reading.terminal.value.turn !in old(published) then reading.terminal else None
    {
      NextRead(State(), reading, limit);
      TakeActive(reading);
      publish := None;
      if reading.terminal.Some? {
        var isNew := Commit(reading.terminal.value);
        publish := if isNew then reading.terminal else None;
      }
    }

    /** After the observers ran. */
    method FinishPublishing(turn: Id)
      requires Valid()
      modifies this`publishing, this`terminals
      ensures Valid() && State() == Next(old(State()), Finish(turn), limit)
      ensures publishing == old(publishing) - {turn}
      ensures forall x <- old(terminals) :: x.turn in publishing ==> x in terminals
    {
      publishing := publishing - {turn};
      RuntimePublication.TrimBounds(terminals, publishing, limit);
      TrimTerminals();
    }

    method ReleaseTerminal(turn: Id)
      requires Valid()
      modifies this`terminals
      ensures Valid() && State() == Next(old(State()), Release(turn), limit)
      ensures forall x :: x in terminals <==> x in old(terminals) && x.turn != turn
    {
      RuntimePublication.WithoutTurnIsFilter(terminals, turn);
      terminals := WithoutTurn(terminals, turn);
    }

    method ReserveStart() returns (accepted: bool)
      requires Valid()
      modifies this
      ensures Valid() && (accepted <==> Accepted(old(State()), Reserve))
      ensures State() == if accepted then Next(old(State()), Reserve, limit) else old(State())
      ensures accepted <==> old(attached && !pending && !awaiting && active.None?)
      ensures accepted ==> State() == old(State()).(start := Start(None, true, true, None))
    {
      if !attached || pending || awaiting || active.Some? {
        return false;
      }
      pending, awaiting, observed := true, true, None;
      return true;
    }

    method CancelStart()
      requires Valid()
      modifies this
      ensures Valid() && State() == Next(old(State()), Cancel, limit)
      ensures State() == old(State()).(start := Start(old(active), false, false, None))
    {
      pending, awaiting, observed := false, false, None;
    }

    /** `reconcile_start`: a refused response of a live reservation still ends the reservation. */
    method ReconcileStart(turn: Id) returns (accepted: bool)
      requires Valid()
      modifies this
      ensures Valid() && (accepted <==> Accepted(old(State()), Respond(turn)))
      ensures accepted ==> State() == Next(old(State()), Respond(turn), limit)
      ensures !accepted ==>
                State() == if turn != "" && old(awaiting) then Next(old(State()), Cancel, limit) else old(State())
      ensures accepted <==>
                && turn != "" && old(awaiting)
                && (old(observed) == Some(turn) || (old(observed).None? && old(active) in {None, Some(turn)}))
      ensures turn != "" && old(awaiting) ==>
                State() == old(State()).(start :=
                  Start(if accepted && old(observed).None? then Some(turn) else old(active), false, false, None))
      ensures turn == "" || !old(awaiting) ==> State() == old(State())
    {
      if turn == "" || !awaiting {
        return false;
      }
      var seen := observed;
      awaiting, pending, observed := false, false, None;
      if seen.Some? && seen.value != turn {
        return false;
      }
      if seen.None? {
        if active.Some? && active.value != turn {
          return false;
        }
        active := Some(turn);
      }
      return true;
    }

    method EventsAfter(after: nat) returns (selected: seq<Event>)
      ensures selected == After(events, after)
    {
      selected := [];
      assert events[0..] == events;
      for i := 0 to |events|
        invariant selected + After(events[i..], after) == After(events, after)
      {
        AfterStep(events, i, after);
        if events[i].cursor > after {
          selected := selected + [events[i]];
        }
      }
      assert events[|events|..] == [];
    }

    /** `events`: what a reader is told is `ReadPage` of the ring. */
    method Events(after: nat, count: nat) returns (page: Page)
      requires Valid() && count > 0
      ensures page == ReadPage(State().ring, after, count)
    {
      var truncated := events != [] && after + 1 < events[0].cursor;
      var selected := EventsAfter(after);
      if |selected| > count {
        selected := selected[..count];
      }
      page := Page(selected, if selected == [] then after else selected[|selected| - 1].cursor, truncated);
    }
  }
}
