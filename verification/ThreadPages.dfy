// The shape of what the backend answers to an inventory: the pages and replies that are accepted
// are exactly those a backend builds, and what is read off them is what it put in.

module ThreadPages {
  import opened Prelude
  import opened JsonRpcFrames
  import opened ThreadInventory

  // ---- pages ----

  datatype Standing = Active(flags: seq<string>) | Inactive(kind: string)

  /** A thread as a backend lists it: its id, how it stands, and whatever else it tells. */
  datatype Row = Row(id: string, standing: Standing, extras: map<string, Json>)

  function Texts(flags: seq<string>): Json {
    List(seq(|flags|, i requires 0 <= i < |flags| => Str(flags[i])))
  }

  function StandingObject(standing: Standing): Json {
    match standing
    case Active(flags) => Object(map["type" := Str("active"), "activeFlags" := Texts(flags)])
    case Inactive(kind) => Object(map["type" := Str(kind)])
  }

  function RowObject(row: Row): Json {
    Object(row.extras["id" := Str(row.id)]["status" := StandingObject(row.standing)])
  }

  predicate ProperRow(row: Row) {
    && row.id != ""
    && match row.standing
       case Active(flags) => forall f <- flags :: f != ""
       case Inactive(kind) => kind == "idle" || kind == "notLoaded" || kind == "systemError"
  }

  function Cursor(cursor: Option<string>): Json {
    if cursor.Some? then Str(cursor.value) else Null
  }

  function PageObject(rows: seq<Row>, next: Option<string>, back: Option<string>): Json {
    Object(map["data" := List(seq(|rows|, i requires 0 <= i < |rows| => RowObject(rows[i]))),
               "nextCursor" := Cursor(next), "backwardsCursor" := Cursor(back)])
  }

  predicate ProperPage(rows: seq<Row>, next: Option<string>) {
    next != Some("") && forall row <- rows :: ProperRow(row)
  }

  lemma RowIsValid(row: Row)
    ensures ValidThread(RowObject(row)) <==> ProperRow(row)
    ensures ProperRow(row) ==> (IsActive(RowObject(row)) <==> row.standing.Active?)
    ensures ProperRow(row) && row.standing.Active? ==> EntryOf(RowObject(row)) == Entry(row.id, row.standing.flags)
  {
    var t := RowObject(row);
    assert t.members["id"] == Str(row.id) && t.members["status"] == StandingObject(row.standing);
    match row.standing {
      case Active(flags) => StandingIsValid(flags);
      case Inactive(kind) =>
        assert StandingObject(row.standing).members.Keys == {"type"};
    }
  }

  lemma StandingIsValid(flags: seq<string>)
    ensures ValidStatus(StandingObject(Active(flags))) <==> forall f <- flags :: f != ""
  {
    var status := StandingObject(Active(flags));
    assert status.members.Keys == {"type", "activeFlags"};
    var items := status.members["activeFlags"].items;
    assert forall i | 0 <= i < |flags| :: items[i] == Str(flags[i]) && flags[i] in flags;
    assert |items| == |flags|;
    if AllText(items) {
      forall f | f in flags ensures f != "" {
        var i :| 0 <= i < |flags| && flags[i] == f;
        assert items[i].s != "";
      }
    }
  }

  /** How a valid status reads. */
  lemma StandingOf(status: Json) returns (standing: Standing)
    requires ValidStatus(status)
    ensures status == StandingObject(standing)
  {
    if status.members["type"].s == "active" {
      var items := status.members["activeFlags"].items;
      var flags := seq(|items|, i requires 0 <= i < |items| => items[i].s);
      standing := Active(flags);
      assert Texts(flags).items == items;
      assert status.members == map["type" := Str("active"), "activeFlags" := Texts(flags)];
    } else {
      standing := Inactive(status.members["type"].s);
      assert status.members == map["type" := Str(standing.kind)];
    }
  }

  lemma RowOf(t: Json) returns (row: Row)
    requires ValidThread(t)
    ensures t == RowObject(row) && ProperRow(row)
  {
    var standing := StandingOf(t.members["status"]);
    row := Row(t.members["id"].s, standing, t.members);
    assert RowObject(row).members == t.members;
    RowIsValid(row);
  }

  lemma {:induction false} RowsOf(items: seq<Json>) returns (rows: seq<Row>)
    requires forall i | 0 <= i < |items| :: ValidThread(items[i])
    ensures |rows| == |items| && forall i | 0 <= i < |items| :: items[i] == RowObject(rows[i]) && ProperRow(rows[i])
    decreases |items|
  {
    if items == [] {
      rows := [];
    } else {
      var row := RowOf(items[0]);
      var rest := RowsOf(items[1..]);
      rows := [row] + rest;
    }
  }

  lemma PageIsValid(rows: seq<Row>, next: Option<string>, back: Option<string>)
    ensures ValidPage(PageObject(rows, next, back)) <==> ProperPage(rows, next)
  {
    var page := PageObject(rows, next, back);
    assert page.members.Keys == {"data", "nextCursor", "backwardsCursor"};
    var items := page.members["data"].items;
    forall i | 0 <= i < |rows| ensures ValidThread(items[i]) <==> ProperRow(rows[i]) {
      RowIsValid(rows[i]);
    }
    if ValidPage(page) {
      forall row | row in rows ensures ProperRow(row) {
        var i :| 0 <= i < |rows| && rows[i] == row;
        assert ValidThread(items[i]);
      }
    }
  }

  /** A page is accepted exactly when it is built of proper rows, with a cursor that is not empty. */
  lemma PageIsBuilt(page: Json)
    ensures ValidPage(page) <==> exists rows, next, back :: ProperPage(rows, next) && page == PageObject(rows, next, back)
  {
    if ValidPage(page) {
      var rows := RowsOf(page.members["data"].items);
      var next := NextCursor(page);
      var back := if page.members["backwardsCursor"].Str? then Some(page.members["backwardsCursor"].s) else None;
      assert PageObject(rows, next, back).members["data"].items == page.members["data"].items;
      assert PageObject(rows, next, back).members == page.members;
      assert forall row <- rows :: ProperRow(row);
    }
    if rows, next, back :| ProperPage(rows, next) && page == PageObject(rows, next, back) {
      PageIsValid(rows, next, back);
    }
  }

  function ActiveRows(rows: seq<Row>): seq<Entry> {
    if rows == [] then []
    else ActiveRows(rows[..|rows| - 1])
         + match rows[|rows| - 1].standing
           case Active(flags) => [Entry(rows[|rows| - 1].id, flags)]
           case Inactive(_) => []
  }

  lemma {:induction false} ActiveEntriesBuilt(rows: seq<Row>, next: Option<string>, back: Option<string>, k: nat)
    requires ProperPage(rows, next) && ValidPage(PageObject(rows, next, back)) && k <= |rows|
    ensures ActiveEntries(PageObject(rows, next, back), k) == ActiveRows(rows[..k])
    decreases k
  {
    if k == 0 {
    } else {
      ActiveEntriesBuilt(rows, next, back, k - 1);
      assert rows[..k][..k - 1] == rows[..k - 1];
      assert rows[k - 1] in rows;
      RowIsValid(rows[k - 1]);
    }
  }

  /** What is read off a page is what was put in: its cursor, and its active rows in order. */
  lemma PageReads(rows: seq<Row>, next: Option<string>, back: Option<string>, page: Json)
    requires ProperPage(rows, next) && page == PageObject(rows, next, back)
    ensures ValidPage(page) && |Threads(page)| == |rows|
    ensures NextCursor(page) == next && ActiveEntries(page, |rows|) == ActiveRows(rows)
  {
    PageIsValid(rows, next, back);
    ActiveEntriesBuilt(rows, next, back, |rows|);
    assert rows[..|rows|] == rows;
  }

  // ---- replies ----

  /** A reply about a thread that is active, with its turns and whatever else it tells. */
  function ReplyObject(id: string, turns: seq<Json>, outer: map<string, Json>, thread: map<string, Json>,
                       status: map<string, Json>): Json {
    Object(outer["thread" :=
      Object(thread["id" := Str(id)]["status" := Object(status["type" := Str("active")])]["turns" := List(turns)])])
  }

  function RunningObject(extras: map<string, Json>): Json {
    Object(extras["status" := Str("inProgress")])
  }

  function TurnObject(turn: string, extras: map<string, Json>): Json {
    RunningObject(extras["id" := Str(turn)])
  }

  ghost predicate InProgress(turn: Json) {
    exists extras :: turn == RunningObject(extras)
  }

  lemma RunningIsBuilt(turn: Json)
    ensures IsRunning(turn) <==> InProgress(turn)
  {
    if IsRunning(turn) {
      assert turn.members["status" := Str("inProgress")] == turn.members;
      assert turn == RunningObject(turn.members);
    }
  }

  ghost predicate Built(id: string, response: Json, turns: seq<Json>) {
    exists outer, thread, status :: response == ReplyObject(id, turns, outer, thread, status)
  }

  lemma ReplyIsBuilt(id: string, response: Json, turns: seq<Json>)
    requires turns != []
    ensures AnswersFor(id, response) && TurnsOf(response) == turns <==> Built(id, response, turns)
  {
    if AnswersFor(id, response) && TurnsOf(response) == turns {
      var outer := response.members;
      var thread := outer["thread"].members;
      var status := thread["status"].members;
      assert status["type" := Str("active")] == status;
      assert thread["id" := Str(id)]["status" := Object(status)]["turns" := List(turns)] == thread;
      assert outer["thread" := Object(thread)] == outer;
      assert response == ReplyObject(id, turns, outer, thread, status);
    }
  }

  /** The only turn in progress of a list. */
  ghost predicate OnlyTurn(turns: seq<Json>, i: int, turn: string) {
    && 0 <= i < |turns| && (exists extras :: turns[i] == TurnObject(turn, extras))
    && forall j | 0 <= j < |turns| && InProgress(turns[j]) :: j == i
  }

  lemma OnlyTurnIsRunning(turns: seq<Json>, i: int, turn: string)
    ensures OnlyTurn(turns, i, turn) <==> OnlyRunning(turns, i) && Member(turns[i], "id") == Some(Str(turn))
  {
    forall j | 0 <= j < |turns| ensures IsRunning(turns[j]) <==> InProgress(turns[j]) {
      RunningIsBuilt(turns[j]);
    }
    if OnlyRunning(turns, i) && Member(turns[i], "id") == Some(Str(turn)) {
      var extras := turns[i].members;
      assert extras["id" := Str(turn)]["status" := Str("inProgress")] == extras;
      assert turns[i] == TurnObject(turn, extras);
    }
  }

  /** A reply yields a turn exactly when a backend built it for that thread, active, with exactly
      one turn in progress, which is that one. */
  lemma TurnIsBuilt(id: string, response: Json, turn: string)
    ensures TurnOf(id, response) == Some(turn) <==>
              turn != "" && exists turns, i :: Built(id, response, turns) && OnlyTurn(turns, i, turn)
  {
    TurnIsUnambiguous(id, response, turn);
    if TurnOf(id, response) == Some(turn) {
      var turns := TurnsOf(response);
      var i :| OnlyRunning(turns, i) && Member(turns[i], "id") == Some(Str(turn));
      ReplyIsBuilt(id, response, turns);
      OnlyTurnIsRunning(turns, i, turn);
    }
    if turns, i :| Built(id, response, turns) && OnlyTurn(turns, i, turn) {
      ReplyIsBuilt(id, response, turns);
      OnlyTurnIsRunning(turns, i, turn);
    }
  }
}
