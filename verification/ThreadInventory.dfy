// The paged inventory of active threads: every page is validated, cursors must progress, and
// anything ambiguous fails the whole inventory.

module ThreadInventory {
  import opened Prelude
  import opened JsonRpcFrames

  const INACTIVE := {"idle", "notLoaded", "systemError"}

  predicate AllText(items: seq<Json>) {
    forall i | 0 <= i < |items| :: items[i].Str? && items[i].s != ""
  }

  predicate ValidStatus(status: Json) {
    && status.Object?
    && match Member(status, "type")
       case Some(Str(t)) =>
         if t == "active"
         then status.members.Keys == {"type", "activeFlags"}
              && status.members["activeFlags"].List? && AllText(status.members["activeFlags"].items)
         else t in INACTIVE && status.members.Keys == {"type"}
       case _ => false
  }

  predicate ValidThread(t: Json) {
    && t.Object? && "id" in t.members && t.members["id"].Str? && t.members["id"].s != ""
    && "status" in t.members && ValidStatus(t.members["status"])
  }

  /** `_validate_inventory_page`. */
  predicate ValidPage(page: Json) {
    && page.Object? && page.members.Keys == {"data", "nextCursor", "backwardsCursor"}
    && page.members["data"].List?
    && (page.members["nextCursor"] == Null
        || (page.members["nextCursor"].Str? && page.members["nextCursor"].s != ""))
    && (page.members["backwardsCursor"] == Null || page.members["backwardsCursor"].Str?)
    && (forall i | 0 <= i < |page.members["data"].items| :: ValidThread(page.members["data"].items[i]))
  }

  function Threads(page: Json): seq<Json>
    requires ValidPage(page)
  {
    page.members["data"].items
  }

  function NextCursor(page: Json): Option<string>
    requires ValidPage(page)
  {
    if page.members["nextCursor"] == Null then None else Some(page.members["nextCursor"].s)
  }

  predicate IsActive(t: Json)
    requires ValidThread(t)
  {
    t.members["status"].members["type"].s == "active"
  }

  datatype Entry = Entry(id: string, flags: seq<string>)

  function EntryOf(t: Json): Entry
    requires ValidThread(t) && IsActive(t)
  {
    var flags := t.members["status"].members["activeFlags"].items;
    Entry(t.members["id"].s, seq(|flags|, i requires 0 <= i < |flags| => flags[i].s))
  }

  /** The active threads of the first `k` threads of a page, in order. */
  function ActiveEntries(page: Json, k: nat): seq<Entry>
    requires ValidPage(page) && k <= |Threads(page)|
  {
    if k == 0 then []
    else ActiveEntries(page, k - 1)
         + if IsActive(Threads(page)[k - 1]) then [EntryOf(Threads(page)[k - 1])] else []
  }

  /** One `thread/list` response per call; a failed or late call has none. */
  type Responses = seq<Option<Json>>

  predicate ValidUpTo(responses: Responses, n: nat) {
    n <= |responses| && forall i | 0 <= i < n :: responses[i].Some? && ValidPage(responses[i].value)
  }

  function AllActive(responses: Responses, n: nat): seq<Entry>
    requires ValidUpTo(responses, n)
  {
    if n == 0 then []
    else AllActive(responses, n - 1)
         + ActiveEntries(responses[n - 1].value, |Threads(responses[n - 1].value)|)
  }

  ghost predicate DistinctCursors(responses: Responses, n: nat)
    requires ValidUpTo(responses, n)
  {
    && (forall i | 0 <= i < n :: NextCursor(responses[i].value).Some?)
    && (forall i, j | 0 <= i < j < n :: NextCursor(responses[i].value) != NextCursor(responses[j].value))
  }

  /** The first `n` responses are the whole listing: valid, progressing, and ended. */
  ghost predicate Complete(responses: Responses, n: nat) {
    && 0 < n && ValidUpTo(responses, n)
    && DistinctCursors(responses, n - 1)
    && NextCursor(responses[n - 1].value).None?
  }

  lemma CompleteIsUnique(responses: Responses, m: nat, n: nat)
    requires Complete(responses, m) && Complete(responses, n)
    ensures m == n
  {}

  /** `dict.setdefault` over a list: the first entry of every id, in order. */
  ghost predicate FirstOccurrences(kept: seq<Entry>, all: seq<Entry>) {
    && (forall i, j | 0 <= i < j < |kept| :: kept[i].id != kept[j].id)
    && (forall e <- kept :: exists i :: FirstAt(all, i, e))
    && (forall e <- all :: exists k <- kept :: k.id == e.id)
  }

  ghost predicate FirstAt(all: seq<Entry>, i: int, e: Entry) {
    0 <= i < |all| && all[i] == e && forall j | 0 <= j < i :: all[j].id != e.id
  }

  lemma KeepFirst(kept: seq<Entry>, all: seq<Entry>, e: Entry)
    requires FirstOccurrences(kept, all)
    ensures FirstOccurrences(if exists k <- kept :: k.id == e.id then kept else kept + [e], all + [e])
  {
    var present := exists k <- kept :: k.id == e.id;
    var kept' := if present then kept else kept + [e];
    forall x | x in kept' ensures exists i :: FirstAt(all + [e], i, x) {
      if x in kept {
        var i :| FirstAt(all, i, x);
        assert FirstAt(all + [e], i, x);
      } else {
        assert forall j | 0 <= j < |all| :: all[j].id != e.id by {
          forall j | 0 <= j < |all| ensures all[j].id != e.id {
            assert all[j] in all;
          }
        }
        assert FirstAt(all + [e], |all|, x);
      }
    }
    forall x | x in all + [e] ensures exists k <- kept' :: k.id == x.id {
      if x in all {
        var k :| k in kept && k.id == x.id;
        assert k in kept';
      } else if !present {
        assert e in kept';
      }
    }
  }

  datatype Origin = Worker | UnmappedTui

  datatype Item = Item(threadId: string, origin: Origin, worker: Option<string>, session: Option<string>,
                       turn: string, flags: seq<string>)

  datatype Registered = Registered(name: Option<string>, session: string)

  function ItemFor(e: Entry, turn: string, records: map<string, Registered>): Item {
    if e.id in records
    then Item(e.id, Worker, records[e.id].name, Some(records[e.id].session), turn, e.flags)
    else Item(e.id, UnmappedTui, None, None, turn, e.flags)
  }

  // ---- the turn of an active thread ----

  /** `thread/read` responses by thread; a failed or late call has none. */
  type Replies = map<string, Json>

  predicate IsRunning(turn: Json) {
    Member(turn, "status") == Some(Str("inProgress"))
  }

  function Running(turns: seq<Json>): seq<Json> {
    if turns == [] then []
    else (if IsRunning(turns[0]) then [turns[0]] else []) + Running(turns[1..])
  }

  function TurnsOf(response: Json): seq<Json> {
    match Member(response, "thread")
    case Some(thread) => (match Member(thread, "turns") case Some(List(items)) => items case _ => [])
    case None => []
  }

  /** The response is about the thread and calls it active. */
  predicate AnswersFor(id: string, response: Json) {
    match Member(response, "thread")
    case Some(thread) =>
      && Member(thread, "id") == Some(Str(id))
      && (match Member(thread, "status")
          case Some(status) => Member(status, "type") == Some(Str("active"))
          case None => false)
    case None => false
  }

  /** `_inventory_turn_id`; failure is its fault. */
  function TurnOf(id: string, response: Json): Option<string> {
    var running := Running(TurnsOf(response));
    if !AnswersFor(id, response) || |running| != 1 then None
    else match Member(running[0], "id")
         case Some(Str(t)) => if t == "" then None else Some(t)
         case _ => None
  }

  function TurnRead(replies: Replies, id: string): Option<string> {
    if id in replies then TurnOf(id, replies[id]) else None
  }

  ghost predicate OnlyRunning(turns: seq<Json>, i: int) {
    0 <= i < |turns| && IsRunning(turns[i]) && forall j | 0 <= j < |turns| && IsRunning(turns[j]) :: j == i
  }

  lemma {:induction false} RunningExactly(turns: seq<Json>)
    ensures forall j | 0 <= j < |turns| && IsRunning(turns[j]) :: turns[j] in Running(turns)
    ensures |Running(turns)| == 1 <==> exists i :: OnlyRunning(turns, i)
    ensures forall i :: OnlyRunning(turns, i) ==> Running(turns) == [turns[i]]
    decreases |turns|
  {
    if turns != [] {
      var rest := turns[1..];
      RunningExactly(rest);
      assert forall j | 0 < j < |turns| :: turns[j] == rest[j - 1];
      if IsRunning(turns[0]) {
        RunningFirst(turns);
      } else {
        assert forall i :: OnlyRunning(rest, i) ==> OnlyRunning(turns, i + 1);
        assert forall i :: OnlyRunning(turns, i) ==> OnlyRunning(rest, i - 1);
      }
    }
  }

  lemma RunningFirst(turns: seq<Json>)
    requires turns != [] && IsRunning(turns[0])
    requires forall j | 0 <= j < |turns[1..]| && IsRunning(turns[1..][j]) :: turns[1..][j] in Running(turns[1..])
    ensures |Running(turns)| == 1 <==> exists i :: OnlyRunning(turns, i)
    ensures forall i :: OnlyRunning(turns, i) ==> i == 0 && Running(turns) == [turns[0]]
  {
    var rest := turns[1..];
    RunningSound(rest);
    assert forall j | 0 < j < |turns| :: turns[j] == rest[j - 1];
    if Running(rest) == [] {
      assert OnlyRunning(turns, 0);
    } else {
      var x := Running(rest)[0];
      assert x in Running(rest);
      var j :| 0 <= j < |rest| && rest[j] == x;
      assert IsRunning(turns[j + 1]);
    }
  }

  lemma {:induction false} RunningSound(turns: seq<Json>)
    ensures forall x | x in Running(turns) :: x in turns && IsRunning(x)
    decreases |turns|
  {
    if turns != [] {
      RunningSound(turns[1..]);
    }
  }

  /** Unambiguous: the response is about the thread, calls it active, and has exactly one turn in
      progress, whose id is a non-empty string. */
  lemma TurnIsUnambiguous(id: string, response: Json, turn: string)
    ensures TurnOf(id, response) == Some(turn) <==>
              && turn != "" && AnswersFor(id, response)
              && exists i :: OnlyRunning(TurnsOf(response), i) && Member(TurnsOf(response)[i], "id") == Some(Str(turn))
  {
    var turns := TurnsOf(response);
    RunningExactly(turns);
    if |Running(turns)| == 1 {
      var i :| OnlyRunning(turns, i);
      assert Running(turns) == [turns[i]];
    }
  }

  // ---- the inventory ----

  /** The complete inventory of a listing. */
  ghost predicate InventoryOf(items: seq<Item>, kept: seq<Entry>, replies: Replies,
                              records: map<string, Registered>) {
    && |items| == |kept|
    && (forall i | 0 <= i < |items| ::
          TurnRead(replies, kept[i].id).Some? && items[i] == ItemFor(kept[i], TurnRead(replies, kept[i].id).value, records))
  }

  /** Some listing is complete and every active thread's turn could be read unambiguously. */
  ghost predicate Readable(responses: Responses, n: nat, replies: Replies) {
    Complete(responses, n) && forall e <- AllActive(responses, n) :: TurnRead(replies, e.id).Some?
  }

  function CursorsSeen(responses: Responses, n: nat): set<Option<string>>
    requires ValidUpTo(responses, n)
  {
    set i | 0 <= i < n :: NextCursor(responses[i].value)
  }

  lemma NewCursor(responses: Responses, i: nat)
    requires ValidUpTo(responses, i + 1) && DistinctCursors(responses, i)
    requires NextCursor(responses[i].value).Some? && NextCursor(responses[i].value) !in CursorsSeen(responses, i)
    ensures DistinctCursors(responses, i + 1)
    ensures CursorsSeen(responses, i + 1) == CursorsSeen(responses, i) + {NextCursor(responses[i].value)}
  {}

  /** Some prefix of the responses is a complete listing. */
  ghost predicate Listed(responses: Responses) {
    exists n: nat :: Complete(responses, n)
  }

  /** What the loop keeps after `i` pages: the cursors seen and the first entry of every id. */
  ghost predicate Progress(responses: Responses, i: nat, seen: set<Option<string>>, kept: seq<Entry>) {
    && ValidUpTo(responses, i) && DistinctCursors(responses, i)
    && seen == CursorsSeen(responses, i)
    && FirstOccurrences(kept, AllActive(responses, i))
  }

  datatype Verdict = Fault | End | More(cursor: Option<string>)

  /** One turn of the paging loop. */
  method ReadPage(responses: Responses, i: nat, seen: set<Option<string>>, before: seq<Entry>)
    returns (verdict: Verdict, kept: seq<Entry>)
    requires i < |responses| && Progress(responses, i, seen, before)
    ensures verdict == Fault ==> !Listed(responses)
    ensures verdict == End ==>
              Complete(responses, i + 1) && FirstOccurrences(kept, AllActive(responses, i + 1))
    ensures verdict.More? ==> Progress(responses, i + 1, seen + {verdict.cursor}, kept)
  {
    if responses[i].None? || !ValidPage(responses[i].value) {
      NotComplete(responses, i);
      return Fault, before;
    }
    var page := responses[i].value;
    kept := KeepActive(page, before, AllActive(responses, i));
    var next := NextCursor(page);
    if next.None? {
      LastPage(responses, i);
      return End, kept;
    }
    if next in seen {
      StalledListing(responses, i);
      return Fault, kept;
    }
    NewCursor(responses, i);
    return More(next), kept;
  }

  /** The paging loop of `list_active_threads`. `entries` are the kept active threads after
      `pages` pages; failure means that no prefix of the responses is a complete listing. */
  method ReadPages(responses: Responses) returns (entries: Option<seq<Entry>>, ghost pages: nat)
    ensures entries.None? <==> !Listed(responses)
    ensures entries.Some? ==>
              Complete(responses, pages) && FirstOccurrences(entries.value, AllActive(responses, pages))
  {
    var kept: seq<Entry> := [];
    var seen: set<Option<string>> := {};
    var i := 0;
    pages := 0;
    while i < |responses|
      invariant 0 <= i <= |responses| && Progress(responses, i, seen, kept)
    {
      var verdict;
      verdict, kept := ReadPage(responses, i, seen, kept);
      match verdict {
        case Fault => return None, 0;
        case End => return Some(kept), i + 1;
        case More(next) => seen := seen + {next};
      }
      i := i + 1;
    }
    NotComplete(responses, i);
    return None, 0;
  }

  lemma NotComplete(responses: Responses, i: nat)
    requires ValidUpTo(responses, i) && DistinctCursors(responses, i) && !ValidUpTo(responses, i + 1)
    ensures !Listed(responses)
  {}

  lemma LastPage(responses: Responses, i: nat)
    requires ValidUpTo(responses, i + 1) && DistinctCursors(responses, i) && NextCursor(responses[i].value).None?
    ensures Complete(responses, i + 1)
  {}

  lemma StalledListing(responses: Responses, i: nat)
    requires ValidUpTo(responses, i + 1) && DistinctCursors(responses, i)
    requires NextCursor(responses[i].value).Some? && NextCursor(responses[i].value) in CursorsSeen(responses, i)
    ensures !Listed(responses)
  {}

  predicate Present(kept: seq<Entry>, id: string) {
    exists k <- kept :: k.id == id
  }

  lemma NextEntry(page: Json, k: nat, kept: seq<Entry>, all: seq<Entry>)
    requires ValidPage(page) && k < |Threads(page)|
    requires FirstOccurrences(kept, all + ActiveEntries(page, k))
    ensures var t := Threads(page)[k];
            FirstOccurrences(if !IsActive(t) || Present(kept, EntryOf(t).id) then kept else kept + [EntryOf(t)],
                             all + ActiveEntries(page, k + 1))
  {
    var t := Threads(page)[k];
    if IsActive(t) {
      KeepFirst(kept, all + ActiveEntries(page, k), EntryOf(t));
      assert all + ActiveEntries(page, k + 1) == all + ActiveEntries(page, k) + [EntryOf(t)];
    } else {
      assert ActiveEntries(page, k + 1) == ActiveEntries(page, k);
    }
  }

  /** One page: `active.setdefault` for each of its active threads. */
  method KeepActive(page: Json, before: seq<Entry>, ghost all: seq<Entry>) returns (kept: seq<Entry>)
    requires ValidPage(page) && FirstOccurrences(before, all)
    ensures FirstOccurrences(kept, all + ActiveEntries(page, |Threads(page)|))
  {
    kept := before;
    var k := 0;
    assert all + [] == all;
    while k < |Threads(page)|
      invariant 0 <= k <= |Threads(page)|
      invariant FirstOccurrences(kept, all + ActiveEntries(page, k))
    {
      var t := Threads(page)[k];
      NextEntry(page, k, kept, all);
      if IsActive(t) && !Present(kept, EntryOf(t).id) {
        kept := kept + [EntryOf(t)];
      }
      k := k + 1;
    }
  }

  /** `list_active_threads`: it succeeds exactly when the listing is complete and every active
      thread's turn is unambiguous, and then it is the complete inventory. */
  method ListActiveThreads(responses: Responses, replies: Replies, records: map<string, Registered>)
    returns (inventory: Option<seq<Item>>, ghost pages: nat, ghost kept: seq<Entry>)
    ensures inventory.Some? <==> exists n: nat :: Readable(responses, n, replies)
    ensures inventory.Some? ==>
              && Readable(responses, pages, replies)
              && FirstOccurrences(kept, AllActive(responses, pages))
              && InventoryOf(inventory.value, kept, replies, records)
  {
    kept := [];
    var entries;
    entries, pages := ReadPages(responses);
    if entries.None? {
      return None, pages, kept;
    }
    kept := entries.value;
    var items: seq<Item> := [];
    var i := 0;
    while i < |entries.value|
      invariant 0 <= i <= |entries.value| == |kept| && |items| == i
      invariant forall j | 0 <= j < i ::
          TurnRead(replies, kept[j].id).Some? && items[j] == ItemFor(kept[j], TurnRead(replies, kept[j].id).value, records)
    {
      var turn := TurnRead(replies, entries.value[i].id);
      if turn.None? {
        Unreadable(responses, pages, kept, i, replies);
        return None, pages, kept;
      }
      items := items + [ItemFor(entries.value[i], turn.value, records)];
      i := i + 1;
    }
    inventory := Some(items);
    forall e | e in AllActive(responses, pages) ensures TurnRead(replies, e.id).Some? {
      var k :| k in kept && k.id == e.id;
      var j :| 0 <= j < |kept| && kept[j] == k;
    }
    assert Readable(responses, pages, replies);
  }

  lemma Unreadable(responses: Responses, pages: nat, kept: seq<Entry>, i: nat, replies: Replies)
    requires Complete(responses, pages) && FirstOccurrences(kept, AllActive(responses, pages))
    requires i < |kept| && TurnRead(replies, kept[i].id).None?
    ensures !exists n: nat :: Readable(responses, n, replies)
  {
    assert kept[i] in kept;
    var at :| FirstAt(AllActive(responses, pages), at, kept[i]);
    assert kept[i] in AllActive(responses, pages);
    forall n: nat ensures !Readable(responses, n, replies) {
      if Complete(responses, n) {
        CompleteIsUnique(responses, n, pages);
      }
    }
  }

  function Ids(items: seq<Item>): set<string> {
    set i | 0 <= i < |items| :: items[i].threadId
  }

  /** `ActiveThreadItem` and `ActiveInventory` contracts. */
  ghost predicate ValidItem(item: Item) {
    && item.threadId != "" && item.turn != ""
    && (forall f <- item.flags :: f != "")
    && (item.origin == UnmappedTui ==> item.worker.None? && item.session.None?)
    && (item.origin == Worker ==> item.session.Some? && item.session.value != "")
    && (item.worker.Some? ==> item.worker.value != "")
  }

  ghost predicate ValidInventory(items: seq<Item>) {
    && (forall item <- items :: ValidItem(item))
    && (forall i, j | 0 <= i < j < |items| :: items[i].threadId != items[j].threadId)
  }

  ghost predicate ThreadOnPage(responses: Responses, n: nat, p: nat, k: nat, id: string)
    requires ValidUpTo(responses, n)
  {
    && p < n && k < |Threads(responses[p].value)|
    && IsActive(Threads(responses[p].value)[k]) && EntryOf(Threads(responses[p].value)[k]).id == id
  }

  /** The `i`-th thread of the page is active and has this entry. */
  predicate ActiveAt(page: Json, i: int, e: Entry)
    requires ValidPage(page)
  {
    0 <= i < |Threads(page)| && IsActive(Threads(page)[i]) && EntryOf(Threads(page)[i]) == e
  }

  lemma {:induction false} EntriesOfPage(page: Json, k: nat, e: Entry)
    requires ValidPage(page) && k <= |Threads(page)|
    ensures e in ActiveEntries(page, k) <==> exists i :: 0 <= i < k && ActiveAt(page, i, e)
    decreases k
  {
    if k == 0 {
    } else {
      EntriesOfPage(page, k - 1, e);
      assert e in ActiveEntries(page, k) <==> e in ActiveEntries(page, k - 1) || ActiveAt(page, k - 1, e);
    }
  }

  lemma {:induction false} ActiveHasPage(responses: Responses, n: nat, e: Entry)
    requires ValidUpTo(responses, n) && e in AllActive(responses, n)
    ensures exists p: nat, k: nat :: ThreadOnPage(responses, n, p, k, e.id)
    decreases n
  {
    var page := responses[n - 1].value;
    if e in AllActive(responses, n - 1) {
      ActiveHasPage(responses, n - 1, e);
      var p: nat, k: nat :| ThreadOnPage(responses, n - 1, p, k, e.id);
      assert ThreadOnPage(responses, n, p, k, e.id);
    } else {
      EntriesOfPage(page, |Threads(page)|, e);
      var i: nat :| i < |Threads(page)| && ActiveAt(page, i, e);
      assert ThreadOnPage(responses, n, n - 1, i, e.id);
    }
  }

  lemma {:induction false} PageIsActive(responses: Responses, n: nat, p: nat, k: nat, id: string)
    requires ValidUpTo(responses, n) && ThreadOnPage(responses, n, p, k, id)
    ensures exists e <- AllActive(responses, n) :: e.id == id
    decreases n
  {
    if p < n - 1 {
      PageIsActive(responses, n - 1, p, k, id);
    } else {
      var page := responses[p].value;
      EntriesOfPage(page, |Threads(page)|, EntryOf(Threads(page)[k]));
      assert ActiveAt(page, k, EntryOf(Threads(page)[k]));
      assert EntryOf(Threads(page)[k]) in AllActive(responses, n);
    }
  }

  lemma ActiveOnPages(responses: Responses, n: nat, id: string)
    requires ValidUpTo(responses, n)
    ensures (exists e <- AllActive(responses, n) :: e.id == id)
       <==> exists p: nat, k: nat :: ThreadOnPage(responses, n, p, k, id)
  {
    if e :| e in AllActive(responses, n) && e.id == id {
      ActiveHasPage(responses, n, e);
    }
    if p: nat, k: nat :| ThreadOnPage(responses, n, p, k, id) {
      PageIsActive(responses, n, p, k, id);
    }
  }

  lemma InventoryIds(responses: Responses, pages: nat, kept: seq<Entry>, items: seq<Item>,
                     replies: Replies, records: map<string, Registered>, id: string)
    requires Complete(responses, pages) && FirstOccurrences(kept, AllActive(responses, pages))
    requires InventoryOf(items, kept, replies, records)
    ensures id in Ids(items) <==> exists e <- AllActive(responses, pages) :: e.id == id
  {
    KeptItems(items, kept, replies, records, id);
    if e :| e in kept && e.id == id {
      var i :| 0 <= i < |kept| && kept[i] == e;
      KeptIsActive(kept, AllActive(responses, pages), i);
    }
  }

  lemma KeptItems(items: seq<Item>, kept: seq<Entry>, replies: Replies, records: map<string, Registered>, id: string)
    requires InventoryOf(items, kept, replies, records)
    ensures id in Ids(items) <==> exists e <- kept :: e.id == id
  {
    if id in Ids(items) {
      var i :| 0 <= i < |items| && items[i].threadId == id;
      assert kept[i] in kept;
    }
    if e :| e in kept && e.id == id {
      var j :| 0 <= j < |kept| && kept[j] == e;
      assert items[j].threadId == id;
    }
  }

  lemma KeptIsActive(kept: seq<Entry>, all: seq<Entry>, i: nat)
    requires FirstOccurrences(kept, all) && i < |kept|
    ensures kept[i] in all
  {
    assert kept[i] in kept;
    var at :| FirstAt(all, at, kept[i]);
  }

  /** A returned inventory names exactly the threads that are active on some page of the whole
      listing, each once, and satisfies the inventory's contract. */
  lemma InventoryIsExact(responses: Responses, pages: nat, kept: seq<Entry>, items: seq<Item>,
                         replies: Replies, records: map<string, Registered>)
    requires Complete(responses, pages) && FirstOccurrences(kept, AllActive(responses, pages))
    requires InventoryOf(items, kept, replies, records)
    requires forall id <- records :: records[id].session != "" && records[id].name != Some("")
    ensures forall id :: id in Ids(items) <==> exists p: nat, k: nat :: ThreadOnPage(responses, pages, p, k, id)
    ensures ValidInventory(items)
  {
    forall id ensures id in Ids(items) <==> exists p: nat, k: nat :: ThreadOnPage(responses, pages, p, k, id) {
      ActiveOnPages(responses, pages, id);
      InventoryIds(responses, pages, kept, items, replies, records, id);
    }
    forall i | 0 <= i < |items| ensures ValidItem(items[i]) {
      KeptIsActive(kept, AllActive(responses, pages), i);
      EntryIsText(responses, pages, kept[i]);
    }
  }

  /** And each item carries what is known of its thread: the flags it was first listed with, the
      turn its reply names, and its registered worker if it has one. */
  lemma ItemsAreExact(responses: Responses, pages: nat, kept: seq<Entry>, items: seq<Item>,
                      replies: Replies, records: map<string, Registered>, item: Item)
    requires Complete(responses, pages) && FirstOccurrences(kept, AllActive(responses, pages))
    requires InventoryOf(items, kept, replies, records) && item in items
    ensures exists at :: FirstAt(AllActive(responses, pages), at, Entry(item.threadId, item.flags))
    ensures item.threadId in replies && TurnOf(item.threadId, replies[item.threadId]) == Some(item.turn)
    ensures item.threadId in records ==>
              && item.origin == Worker && item.worker == records[item.threadId].name
              && item.session == Some(records[item.threadId].session)
    ensures item.threadId !in records ==> item.origin == UnmappedTui && item.worker.None? && item.session.None?
  {
    var i :| 0 <= i < |items| && items[i] == item;
    assert kept[i] in kept && kept[i] == Entry(item.threadId, item.flags);
  }

  lemma {:induction false} EntryIsText(responses: Responses, n: nat, e: Entry)
    requires ValidUpTo(responses, n) && e in AllActive(responses, n)
    ensures e.id != "" && forall f <- e.flags :: f != ""
    decreases n
  {
    var page := responses[n - 1].value;
    if e in AllActive(responses, n - 1) {
      EntryIsText(responses, n - 1, e);
    } else {
      EntriesOfPage(page, |Threads(page)|, e);
    }
  }
}
