// The event ring refines the full log: readers that follow the cursor see every event once
// until truncation is reported, and truncation is reported exactly when an event was lost.

module RuntimeRing {
  import opened RuntimeStates

  /** The ring holds the last events of the whole log, whose cursors count from one. */
  ghost predicate Refines(ring: Ring, log: seq<Event>, limit: nat) {
    && ring.events == Last(log, limit)
    && ring.next == |log| + 1
    && (forall i | 0 <= i < |log| :: log[i].cursor == i + 1)
  }

  lemma PushRefines(ring: Ring, log: seq<Event>, limit: nat, e: Event)
    requires Refines(ring, log, limit) && e.cursor == ring.next
    ensures Refines(Push(ring, e.kind, e.turn, e.item, e.error, limit), log + [e], limit)
  {}

  datatype Page = Page(events: seq<Event>, next: nat, truncated: bool)

  function After(events: seq<Event>, after: nat): seq<Event> {
    if events == [] then []
    else if events[0].cursor > after then [events[0]] + After(events[1..], after)
    else After(events[1..], after)
  }

  lemma AfterStep(events: seq<Event>, i: nat, after: nat)
    requires i < |events|
    ensures After(events[i..], after) == (if events[i].cursor > after then [events[i]] else []) + After(events[i + 1..], after)
  {
    assert events[i..][1..] == events[i + 1..];
  }

  /** `events`: what is retained after the cursor, at most `count` of it. */
  function ReadPage(ring: Ring, after: nat, count: nat): Page {
    var found := After(ring.events, after);
    var selected := if |found| <= count then found else found[..count];
    Page(selected,
         if selected == [] then after else selected[|selected| - 1].cursor,
         ring.events != [] && after + 1 < ring.events[0].cursor)
  }

  lemma {:induction false} AfterIsSuffix(events: seq<Event>, first: nat, after: nat)
    requires forall i | 0 <= i < |events| :: events[i].cursor == first + i
    ensures After(events, after) ==
            if after < first then events else if after - first + 1 <= |events| then events[after - first + 1..] else []
    decreases |events|
  {
    if events == [] {
    } else {
      AfterIsSuffix(events[1..], first + 1, after);
      if after < first {
        assert After(events[1..], after) == events[1..];
      }
    }
  }

  function Evicted(log: seq<Event>, limit: nat): nat {
    if |log| <= limit then 0 else |log| - limit
  }

  /** Where a page starts: at the cursor, or at the oldest retained event. */
  function From(log: seq<Event>, limit: nat, after: nat): nat {
    if after < Evicted(log, limit) then Evicted(log, limit) else after
  }

  lemma FoundInLog(ring: Ring, log: seq<Event>, limit: nat, after: nat)
    requires Refines(ring, log, limit)
    ensures After(ring.events, after) == if From(log, limit, after) <= |log| then log[From(log, limit, after)..] else []
  {
    var gone := Evicted(log, limit);
    assert ring.events == log[gone..];
    AfterIsSuffix(ring.events, gone + 1, after);
  }

  /** Truncation is reported exactly when an event after the cursor is lost. */
  lemma TruncationIsExact(ring: Ring, log: seq<Event>, limit: nat, after: nat, count: nat)
    requires Refines(ring, log, limit) && limit > 0
    ensures ReadPage(ring, after, count).truncated <==> exists i :: 0 <= i < Evicted(log, limit) && log[i].cursor > after
  {
    var gone := Evicted(log, limit);
    assert ring.events == log[gone..];
    if gone > 0 {
      assert log[gone - 1].cursor == gone;
      assert ring.events[0] == log[gone];
    }
  }

  /** A page in terms of the whole log: consecutive events, and the cursor of the last one. */
  lemma PageOfLog(ring: Ring, log: seq<Event>, limit: nat, after: nat, count: nat)
    requires Refines(ring, log, limit) && count > 0
    ensures var from, page := From(log, limit, after), ReadPage(ring, after, count);
            if from >= |log| then page.events == [] && page.next == after
            else var to := if |log| - from <= count then |log| else from + count;
                 page.events == log[from..to] && page.next == to
  {
    var from, page := From(log, limit, after), ReadPage(ring, after, count);
    FoundInLog(ring, log, limit, after);
    if from < |log| {
      PageFrom(ring, log, from, after, count);
    }
  }

  lemma PageFrom(ring: Ring, log: seq<Event>, from: nat, after: nat, count: nat)
    requires from < |log| && After(ring.events, after) == log[from..] && count > 0
    requires forall i | 0 <= i < |log| :: log[i].cursor == i + 1
    ensures var to, page := if |log| - from <= count then |log| else from + count, ReadPage(ring, after, count);
            page.events == log[from..to] && page.next == to
  {
    var to, page := if |log| - from <= count then |log| else from + count, ReadPage(ring, after, count);
    assert page.events == log[from..to];
    assert page.events[|page.events| - 1] == log[to - 1];
  }

  // ---- a reader among the session's steps ----

  datatype Move = Do(step: Step) | Poll(count: nat)

  /** A reader that always continues from the page's cursor; `lost` once truncation is reported. */
  datatype Reader = Reader(after: nat, got: seq<Event>, lost: bool)

  function PollAfter(reader: Reader, ring: Ring, count: nat): Reader {
    var page := ReadPage(ring, reader.after, count);
    if page.truncated || reader.lost then Reader(page.next, reader.got + page.events, true)
    else Reader(page.next, reader.got + page.events, false)
  }

  /** `log` is every event any step appended. */
  ghost predicate Run(s: Session, log: seq<Event>, reader: Reader, moves: seq<Move>, limit: nat,
                      end: Session, endLog: seq<Event>, endReader: Reader)
    decreases |moves|
  {
    if moves == [] then end == s && endLog == log && endReader == reader
    else match moves[0]
         case Do(step) =>
           && Accepted(s, step)
           && Run(Next(s, step, limit),
                  if Appended(s, step).Some? then log + [Appended(s, step).value] else log,
                  reader, moves[1..], limit, end, endLog, endReader)
         case Poll(count) =>
           && count > 0
           && Run(s, log, PollAfter(reader, s.ring, count), moves[1..], limit, end, endLog, endReader)
  }

  ghost predicate InStep(log: seq<Event>, reader: Reader) {
    !reader.lost ==> reader.after <= |log| && reader.got == log[..reader.after]
  }

  lemma StepRefines(s: Session, log: seq<Event>, step: Step, limit: nat)
    requires Refines(s.ring, log, limit)
    ensures Refines(Next(s, step, limit).ring,
                    if Appended(s, step).Some? then log + [Appended(s, step).value] else log, limit)
  {
    if Appended(s, step).Some? {
      PushRefines(s.ring, log, limit, Appended(s, step).value);
    }
  }

  lemma PollInStep(ring: Ring, log: seq<Event>, limit: nat, reader: Reader, count: nat)
    requires Refines(ring, log, limit) && limit > 0 && count > 0 && InStep(log, reader)
    ensures InStep(log, PollAfter(reader, ring, count))
    ensures !reader.lost ==>
              (PollAfter(reader, ring, count).lost <==> exists i :: 0 <= i < Evicted(log, limit) && log[i].cursor > reader.after)
  {
    PageOfLog(ring, log, limit, reader.after, count);
    TruncationIsExact(ring, log, limit, reader.after, count);
    var page := ReadPage(ring, reader.after, count);
    if !page.truncated && !reader.lost {
      if Evicted(log, limit) > 0 {
        assert log[Evicted(log, limit) - 1].cursor == Evicted(log, limit);
      }
      assert reader.after >= Evicted(log, limit);
      assert log[..reader.after] + page.events == log[..reader.after + |page.events|];
    }
  }

  /** Over any interleaving of the session's steps with the reader's polls, the ring is the end
      of the whole log, and until truncation is reported the reader has read exactly the log up
      to its cursor: no gap, no duplicate. */
  lemma {:induction false} ReaderFollowsLog(s: Session, log: seq<Event>, reader: Reader, moves: seq<Move>, limit: nat,
                                            end: Session, endLog: seq<Event>, endReader: Reader)
    requires Refines(s.ring, log, limit) && limit > 0 && InStep(log, reader)
    requires Run(s, log, reader, moves, limit, end, endLog, endReader)
    ensures Refines(end.ring, endLog, limit) && InStep(endLog, endReader)
    ensures log <= endLog
    decreases |moves|
  {
    if moves == [] {
    } else {
      match moves[0] {
        case Do(step) =>
          StepRefines(s, log, step, limit);
          var log' := if Appended(s, step).Some? then log + [Appended(s, step).value] else log;
          ReaderFollowsLog(Next(s, step, limit), log', reader, moves[1..], limit, end, endLog, endReader);
        case Poll(count) =>
          PollInStep(s.ring, log, limit, reader, count);
          ReaderFollowsLog(s, log, PollAfter(reader, s.ring, count), moves[1..], limit, end, endLog, endReader);
      }
    }
  }

  lemma FreshSessionFollowsLog(moves: seq<Move>, limit: nat, end: Session, log: seq<Event>, reader: Reader)
    requires limit > 0 && Run(FRESH_SESSION, [], Reader(0, [], false), moves, limit, end, log, reader)
    ensures end.ring.events == Last(log, limit)
    ensures forall i | 0 <= i < |log| :: log[i].cursor == i + 1
    ensures !reader.lost ==> reader.after <= |log| && reader.got == log[..reader.after]
  {
    ReaderFollowsLog(FRESH_SESSION, [], Reader(0, [], false), moves, limit, end, log, reader);
  }
}
