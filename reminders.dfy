/** The `reminders` table and the reminder delivery loop.

    The table is a sequence of rows in rowid order. Every row carries its
    rowid (`id INTEGER PRIMARY KEY`) and a cell for every other column; the
    table also records each column's default, which is what `ALTER TABLE ...
    ADD COLUMN` gives the rows already present. `due_at` is ISO text and is
    compared with the clock as text, the way SQLite compares two strings. */
module Reminders {

  import opened PyText
  import PyCall

  /** A SQLite value. */
  datatype Value = Null | Int(i: int) | Text(s: string)

  datatype Row = Row(id: int, cells: map<string, Value>)

  /** `present` says whether the table exists; `columns` maps each column
      other than `id` to its default value. */
  datatype Table = Table(present: bool, columns: map<string, Value>, rows: seq<Row>)

  /** The columns the current code needs, with the defaults `CREATE TABLE`
      and the migrations give them (`sent INTEGER DEFAULT 0`, the rest
      none). */
  const Required: map<string, Value> :=
    map["chat_id" := Null, "text" := Null, "due_at" := Null, "sent" := Int(0)]

  /** What every state of the table satisfies: an absent table has nothing,
      every row has exactly the table's columns, rowids increase. */
  predicate Valid(t: Table) {
    && (!t.present ==> t.columns == map[] && t.rows == [])
    && (forall i :: 0 <= i < |t.rows| ==> t.rows[i].cells.Keys == t.columns.Keys)
    && Increasing(t.rows)
  }

  /** The table exists and has all the columns the code reads and writes. */
  predicate Migrated(t: Table) {
    t.present && Required.Keys <= t.columns.Keys
  }

  function Cell(r: Row, column: string): Value {
    if column in r.cells then r.cells[column] else Null
  }

  // ---------------------------------------------------------------------
  // Schema migration (`_ensure_schema`)

  /** The required columns a table lacks, with their defaults. */
  function Absent(columns: map<string, Value>): map<string, Value> {
    map c | c in Required && c !in columns :: Required[c]
  }

  /** The rows after `ALTER TABLE reminders ADD COLUMN` of the columns in
      `added`: every existing row reads the new column's default. */
  function Widen(rows: seq<Row>, added: map<string, Value>): seq<Row> {
    seq(|rows|, i requires 0 <= i < |rows| => Row(rows[i].id, rows[i].cells + added))
  }

  /** `ADD COLUMN` keeps every row, its rowid and its old cells, and gives
      each row the added columns with their defaults. */
  lemma WidenKeepsRows(rows: seq<Row>, added: map<string, Value>)
    ensures var r := Widen(rows, added);
      && |r| == |rows|
      && (forall i :: 0 <= i < |rows| ==>
            r[i].id == rows[i].id && r[i].cells.Keys == rows[i].cells.Keys + added.Keys)
      && (forall i, c :: 0 <= i < |rows| && c in added ==> r[i].cells[c] == added[c])
      && (forall i, c :: 0 <= i < |rows| && c in rows[i].cells && c !in added ==>
            r[i].cells[c] == rows[i].cells[c])
  {
  }

  lemma WidenNothing(rows: seq<Row>)
    ensures Widen(rows, map[]) == rows
  {
    forall i | 0 <= i < |rows| ensures rows[i].cells + map[] == rows[i].cells {
    }
  }

  /** Adding columns one `ALTER TABLE` after another is adding them
      together. */
  lemma WidenTwice(rows: seq<Row>, a: map<string, Value>, b: map<string, Value>)
    ensures Widen(Widen(rows, a), b) == Widen(rows, a + b)
  {
    forall i | 0 <= i < |rows| ensures rows[i].cells + a + b == rows[i].cells + (a + b) {
    }
  }

  /** The columns added so far, `added`, and the one `name` adds when the
      columns read at the start, `cols`, lack it. */
  function ColumnsToAdd(added: map<string, Value>, cols: set<string>, name: string): map<string, Value>
    requires name in Required
  {
    if name in cols then added else added + map[name := Required[name]]
  }

  /** The four checks of `_ensure_schema`, in their order, add exactly the
      absent required columns. */
  lemma AbsentInOrder(columns: map<string, Value>)
    ensures Absent(columns) ==
      ColumnsToAdd(ColumnsToAdd(ColumnsToAdd(ColumnsToAdd(map[], columns.Keys, "chat_id"), columns.Keys, "sent"),
        columns.Keys, "due_at"), columns.Keys, "text")
  {
  }

  /** `_ensure_schema`: create the table when it is absent, else add each
      required column it lacks. */
  function Migrate(t: Table): (m: Table)
    ensures Migrated(m)
    ensures t.present ==> t.columns.Keys <= m.columns.Keys && |m.rows| == |t.rows|
  {
    if !t.present then Table(true, Required, [])
    else
      var added := Absent(t.columns);
      Table(true, t.columns + added, Widen(t.rows, added))
  }

  /** After `_ensure_schema` the table exists with every required column,
      no column was removed or given another default, every row is still
      there with its old values, and the table is still well formed. */
  lemma MigrateEstablishes(t: Table)
    requires Valid(t)
    ensures var m := Migrate(t);
      && Valid(m) && Migrated(m)
      && t.columns.Keys <= m.columns.Keys
      && (forall c :: c in t.columns ==> m.columns[c] == t.columns[c])
      && |m.rows| == |t.rows|
      && (forall i, c :: 0 <= i < |t.rows| && c in t.rows[i].cells ==>
            m.rows[i].id == t.rows[i].id && m.rows[i].cells[c] == t.rows[i].cells[c])
  {
  }

  /** A second `_ensure_schema` adds no column and creates no table. */
  lemma MigrateIdempotent(t: Table)
    requires Valid(t)
    ensures Absent(Migrate(t).columns) == map[]
    ensures Migrate(Migrate(t)) == Migrate(t)
  {
    var m := Migrate(t);
    assert Absent(m.columns) == map[];
    assert m.columns + map[] == m.columns;
    assert Widen(m.rows, map[]) == m.rows by {
      forall i | 0 <= i < |m.rows| ensures m.rows[i].cells + map[] == m.rows[i].cells {
      }
    }
  }

  // ---------------------------------------------------------------------
  // Insertion (`add_reminder`)

  /** SQLite's rowid for a new row when nothing was deleted: one past the
      largest. */
  function NextId(rows: seq<Row>): int {
    if rows == [] then 1 else rows[|rows| - 1].id + 1
  }

  /** `def add_reminder(chat_id: int, text: str, due_at: str)`: three
      required parameters. */
  function AddReminderSignature(): PyCall.Signature {
    PyCall.Signature("add_reminder",
      [PyCall.Param("chat_id", false), PyCall.Param("text", false), PyCall.Param("due_at", false)])
  }

  /** `add_reminder(chat_id, text, due_at)`: `INSERT ... VALUES (str(chat_id),
      text, due_at, 0)`; any other column takes its default. */
  function Insert(t: Table, chatId: int, text: string, dueAt: string): (t': Table)
    ensures t'.present == t.present && t'.columns == t.columns
    ensures |t'.rows| == |t.rows| + 1 && t'.rows[..|t.rows|] == t.rows
    ensures Cell(t'.rows[|t.rows|], "sent") == Int(0)
  {
    var cells := t.columns + map["chat_id" := Text(IntToString(chatId)), "text" := Text(text),
                                 "due_at" := Text(dueAt), "sent" := Int(0)];
    t.(rows := t.rows + [Row(NextId(t.rows), cells)])
  }

  /** `add_reminder` appends exactly one unsent row holding the given chat
      (as text), text and due time under a fresh rowid, and keeps every
      other row and the schema as they were. */
  lemma InsertAppends(t: Table, chatId: int, text: string, dueAt: string)
    requires Valid(t) && Migrated(t)
    ensures var t' := Insert(t, chatId, text, dueAt);
      && Valid(t') && Migrated(t') && t'.columns == t.columns
      && |t'.rows| == |t.rows| + 1 && t'.rows[..|t.rows|] == t.rows
      && (forall i :: 0 <= i < |t.rows| ==> t.rows[i].id < t'.rows[|t.rows|].id)
      && var r := t'.rows[|t.rows|];
         Cell(r, "chat_id") == Text(IntToString(chatId)) && Cell(r, "text") == Text(text)
         && Cell(r, "due_at") == Text(dueAt) && Cell(r, "sent") == Int(0)
  {
    InsertFreshId(t);
    InsertKeepsValid(t, chatId, text, dueAt);
  }

  /** The new row's rowid is above every existing one. */
  lemma InsertFreshId(t: Table)
    requires Valid(t)
    ensures forall i :: 0 <= i < |t.rows| ==> t.rows[i].id < NextId(t.rows)
  {
    if t.rows != [] {
      assert forall i :: 0 <= i < |t.rows| ==> t.rows[i].id <= t.rows[|t.rows| - 1].id;
    }
  }

  /** The insert keeps the table well formed: the new row has exactly the
      table's columns and the largest rowid. */
  lemma InsertKeepsValid(t: Table, chatId: int, text: string, dueAt: string)
    requires Valid(t) && Migrated(t)
    ensures Valid(Insert(t, chatId, text, dueAt)) && Migrated(Insert(t, chatId, text, dueAt))
  {
    InsertFreshId(t);
    var t' := Insert(t, chatId, text, dueAt);
    assert forall i :: 0 <= i < |t.rows| ==> t'.rows[i] == t.rows[i];
  }

  // ---------------------------------------------------------------------
  // One pass of the delivery loop (`start_reminders`)

  /** SQLite's comparison of two strings: code point by code point, a
      proper prefix first. */
  predicate TextLe(a: string, b: string)
    decreases |a|
  {
    if a == [] then true
    else if b == [] then false
    else if a[0] != b[0] then a[0] < b[0]
    else TextLe(a[1..], b[1..])
  }

  /** `due_at <= ?` for the clock text `now`: NULL compares as unknown,
      an integer sorts before any text. */
  predicate DueBy(v: Value, now: string) {
    match v
    case Null => false
    case Int(_) => true
    case Text(s) => TextLe(s, now)
  }

  /** The `WHERE` clause of the delivery query:
      `sent = 0 AND due_at <= ? AND chat_id IS NOT NULL`. */
  predicate Due(r: Row, now: string) {
    Cell(r, "sent") == Int(0) && DueBy(Cell(r, "due_at"), now) && Cell(r, "chat_id") != Null
  }

  /** The rows the query fetches, in rowid order. */
  function Batch(rows: seq<Row>, now: string): (b: seq<Row>)
    ensures |b| <= |rows|
    ensures forall r :: r in b <==> r in rows && Due(r, now)
  {
    if rows == [] then []
    else if Due(rows[0], now) then [rows[0]] + Batch(rows[1..], now)
    else Batch(rows[1..], now)
  }

  /** What one call of `_send_telegram` does: with no bot token it only
      prints; with one, it converts the chat id with `int()` and posts.
      `None` stands for the exception it raises: `int()` failing, or the
      HTTP request raising (the rows in `failing`). */
  datatype Delivery = Printed(chatText: string, text: string) | Posted(chatId: int, text: string)

  /** `f"{value}"`. */
  function Show(v: Value): string {
    match v
    case Null => "None"
    case Int(i) => IntToString(i)
    case Text(s) => s
  }

  /** `int(value)`; `None` is the exception. */
  function ToInt(v: Value): Option<int> {
    match v
    case Null => None
    case Int(i) => Some(i)
    case Text(s) => ParseInt(s)
  }

  function Send(r: Row, token: bool, failing: set<int>): Option<Delivery> {
    if !token then Some(Printed(Show(Cell(r, "chat_id")), Show(Cell(r, "text"))))
    else match ToInt(Cell(r, "chat_id"))
      case None => None
      case Some(chat) =>
        if r.id in failing then None
        else Some(Posted(chat, "\U{23F0} Reminder: " + Show(Cell(r, "text"))))
  }

  /** Without a token a send only prints and never raises; with one it
      posts `int(chat_id)` with the reminder text, and raises exactly when
      `int()` fails or the post raises. */
  lemma SendEffect(r: Row, token: bool, failing: set<int>)
    ensures var o := Send(r, token, failing);
      && (!token ==> o.Some? && o.value.Printed?)
      && (token && o.Some? ==>
            && o.value.Posted? && r.id !in failing
            && ToInt(Cell(r, "chat_id")) == Some(o.value.chatId)
            && o.value.text == "\U{23F0} Reminder: " + Show(Cell(r, "text")))
      && (!token ==> o == Some(Printed(Show(Cell(r, "chat_id")), Show(Cell(r, "text")))))
      && (token ==> (o.None? <==> ToInt(Cell(r, "chat_id")).None? || r.id in failing))
  {
  }

  /** The rows of the batch that the `for` loop gets through: the longest
      prefix whose sends return; the first send that raises ends the
      pass. */
  function Delivered(batch: seq<Row>, token: bool, failing: set<int>): (d: seq<Row>)
    ensures |d| <= |batch| && d == batch[..|d|]
    ensures forall k :: 0 <= k < |d| ==> Send(d[k], token, failing).Some?
    ensures |d| < |batch| ==> Send(batch[|d|], token, failing).None?
  {
    if batch == [] || Send(batch[0], token, failing).None? then []
    else [batch[0]] + Delivered(batch[1..], token, failing)
  }

  function IdsOf(rows: seq<Row>): set<int> {
    set i | 0 <= i < |rows| :: rows[i].id
  }

  lemma IdsOfSnoc(rows: seq<Row>, r: Row)
    ensures IdsOf(rows + [r]) == IdsOf(rows) + {r.id}
  {
    var s := rows + [r];
    assert forall k :: 0 <= k < |rows| ==> s[k] == rows[k];
    assert s[|rows|] == r;
  }

  /** `UPDATE reminders SET sent = 1 WHERE id = ?` for every id in `ids`. */
  function MarkSent(rows: seq<Row>, ids: set<int>): seq<Row> {
    seq(|rows|, i requires 0 <= i < |rows| =>
      if rows[i].id in ids then Row(rows[i].id, rows[i].cells["sent" := Int(1)]) else rows[i])
  }

  /** The `UPDATE` leaves rows whose rowid is not listed alone; a listed row
      keeps its rowid and every other cell and reads `sent = 1`. */
  lemma MarkSentEffect(rows: seq<Row>, ids: set<int>)
    ensures var r := MarkSent(rows, ids);
      && |r| == |rows|
      && (forall i :: 0 <= i < |rows| && rows[i].id !in ids ==> r[i] == rows[i])
      && (forall i :: 0 <= i < |rows| && rows[i].id in ids ==>
            r[i].id == rows[i].id && Cell(r[i], "sent") == Int(1)
            && r[i].cells.Keys == rows[i].cells.Keys + {"sent"})
      && (forall i, c :: 0 <= i < |rows| && c in rows[i].cells && c != "sent" ==>
            r[i].cells[c] == rows[i].cells[c])
  {
  }

  /** Marking rows sent in two `UPDATE`s is marking them in one. */
  lemma MarkSentTwice(rows: seq<Row>, a: set<int>, b: set<int>)
    ensures MarkSent(MarkSent(rows, a), b) == MarkSent(rows, a + b)
  {
    forall i | 0 <= i < |rows| && rows[i].id in a && rows[i].id in b
      ensures rows[i].cells["sent" := Int(1)]["sent" := Int(1)] == rows[i].cells["sent" := Int(1)]
    {
    }
  }

  /** Marking the rows of `batch` one at a time, as the `for` loop does,
      marks the rows of the prefix done so far. */
  lemma MarkOneMore(rows: seq<Row>, batch: seq<Row>, i: nat)
    requires i < |batch|
    ensures MarkSent(MarkSent(rows, IdsOf(batch[..i])), {batch[i].id}) == MarkSent(rows, IdsOf(batch[..i + 1]))
  {
    assert batch[..i + 1] == batch[..i] + [batch[i]];
    IdsOfSnoc(batch[..i], batch[i]);
    MarkSentTwice(rows, IdsOf(batch[..i]), {batch[i].id});
  }

  /** The table after one pass at clock `now`. */
  function Pass(t: Table, now: string, token: bool, failing: set<int>): (t': Table)
    ensures t'.present == t.present && t'.columns == t.columns && |t'.rows| == |t.rows|
    ensures forall i :: 0 <= i < |t.rows| ==> t'.rows[i].id == t.rows[i].id
  {
    t.(rows := MarkSent(t.rows, IdsOf(Delivered(Batch(t.rows, now), token, failing))))
  }

  /** The sends one pass makes, in order. */
  function Notices(t: Table, now: string, token: bool, failing: set<int>): (n: seq<Delivery>)
  {
    var d := Delivered(Batch(t.rows, now), token, failing);
    seq(|d|, k requires 0 <= k < |d| => Send(d[k], token, failing).value)
  }

  /** A pass selects exactly the unsent, due rows that have a chat; it
      marks a prefix of them sent (the whole batch unless a send raised, in
      which case the failing row and the rest stay unsent); every other
      row, and every other column, is unchanged. */
  lemma PassEffect(t: Table, now: string, token: bool, failing: set<int>)
    requires Valid(t)
    ensures var t' := Pass(t, now, token, failing);
      var b := Batch(t.rows, now);
      var d := Delivered(b, token, failing);
      && t'.present == t.present && t'.columns == t.columns && |t'.rows| == |t.rows|
      && (forall i :: 0 <= i < |t.rows| ==> t'.rows[i].id == t.rows[i].id)
      && (forall i :: 0 <= i < |t.rows| && t.rows[i] !in d ==> t'.rows[i] == t.rows[i])
      && (forall i :: 0 <= i < |t.rows| && t.rows[i] in d ==>
            Due(t.rows[i], now) && t'.rows[i].cells == t.rows[i].cells["sent" := Int(1)])
      && (|d| < |b| ==> Send(b[|d|], token, failing).None?)
  {
    var d := Delivered(Batch(t.rows, now), token, failing);
    forall i | 0 <= i < |t.rows| ensures t.rows[i].id in IdsOf(d) <==> t.rows[i] in d {
      IdMembership(t.rows, d, i);
    }
  }

  predicate Increasing(rows: seq<Row>) {
    forall i, j :: 0 <= i < j < |rows| ==> rows[i].id < rows[j].id
  }

  lemma UniqueIds(rows: seq<Row>)
    requires Increasing(rows)
    ensures forall i, j :: 0 <= i < |rows| && 0 <= j < |rows| && rows[i].id == rows[j].id ==> i == j
  {
  }

  /** In a table with increasing rowids, a row is among the rows `d` taken
      from it exactly when its rowid is. */
  lemma IdMembership(rows: seq<Row>, d: seq<Row>, i: nat)
    requires Increasing(rows) && i < |rows|
    requires forall r :: r in d ==> r in rows
    ensures rows[i].id in IdsOf(d) <==> rows[i] in d
  {
    UniqueIds(rows);
    if rows[i].id in IdsOf(d) {
      var k :| 0 <= k < |d| && d[k].id == rows[i].id;
      assert d[k] in rows;
      var j :| 0 <= j < |rows| && rows[j] == d[k];
      assert j == i;
    }
    if rows[i] in d {
      var k :| 0 <= k < |d| && d[k] == rows[i];
      assert d[k].id in IdsOf(d);
    }
  }

  /** Without a bot token nothing can raise: every due row is marked sent
      and only printed, no HTTP request is made. */
  lemma {:induction false} NoTokenDeliversAll(batch: seq<Row>, failing: set<int>)
    ensures Delivered(batch, false, failing) == batch
    ensures forall k :: 0 <= k < |batch| ==> Send(batch[k], false, failing).value.Printed?
  {
    if batch != [] {
      NoTokenDeliversAll(batch[1..], failing);
    }
  }

  /** A row with no chat id (a row from before the `chat_id` column
      existed) is never fetched. */
  lemma LegacyRowNeverDue(r: Row, now: string)
    requires Cell(r, "chat_id") == Null
    ensures !Due(r, now)
  {
  }

  /** The delivered rows are exactly a prefix of the batch up to the first
      send that raises. */
  lemma {:induction false} DeliveredIsPrefixUpTo(batch: seq<Row>, token: bool, failing: set<int>, i: nat)
    requires i <= |batch|
    requires forall k :: 0 <= k < i ==> Send(batch[k], token, failing).Some?
    requires i == |batch| || Send(batch[i], token, failing).None?
    ensures Delivered(batch, token, failing) == batch[..i]
  {
    var d := Delivered(batch, token, failing);
    assert |d| == i;
  }

  // ---------------------------------------------------------------------
  // Many passes: at most one delivery per reminder

  /** What can happen to the table while the loop runs: a reminder is
      added, or the loop makes one pass. */
  datatype Event =
    | Add(chatId: int, text: string, dueAt: string)
    | Tick(now: string, token: bool, failing: set<int>)

  function Step(t: Table, e: Event): Table {
    match e
    case Add(chatId, text, dueAt) => Insert(t, chatId, text, dueAt)
    case Tick(now, token, failing) => Pass(t, now, token, failing)
  }

  /** The rowids a step delivers. */
  function StepIds(t: Table, e: Event): seq<int> {
    match e
    case Add(_, _, _) => []
    case Tick(now, token, failing) => DeliveredIds(t, now, token, failing)
  }

  function Run(t: Table, es: seq<Event>): Table
    decreases |es|
  {
    if es == [] then t else Run(Step(t, es[0]), es[1..])
  }

  /** Every rowid delivered over a run of events, in order. */
  function RunIds(t: Table, es: seq<Event>): seq<int>
    decreases |es|
  {
    if es == [] then [] else StepIds(t, es[0]) + RunIds(Step(t, es[0]), es[1..])
  }

  /** The rowids of rows already marked (`sent` other than 0). */
  function Done(t: Table): set<int> {
    set i | 0 <= i < |t.rows| && Cell(t.rows[i], "sent") != Int(0) :: t.rows[i].id
  }

  predicate NoDuplicates(s: seq<int>) {
    forall i, j :: 0 <= i < j < |s| ==> s[i] != s[j]
  }

  lemma BatchIdsIncrease(rows: seq<Row>, now: string)
    requires Increasing(rows)
    ensures Increasing(Batch(rows, now))
  {
    if rows != [] {
      BatchIdsIncrease(rows[1..], now);
      var b := Batch(rows[1..], now);
      forall k | 0 <= k < |b| ensures rows[0].id < b[k].id {
        assert b[k] in rows[1..];
      }
    }
  }

  /** An insertion keeps the table well formed and migrated, changes no
      existing row and delivers nothing. */
  lemma InsertStep(t: Table, chatId: int, text: string, dueAt: string)
    requires Valid(t) && Migrated(t)
    ensures var t' := Insert(t, chatId, text, dueAt);
      Valid(t') && Migrated(t') && Done(t) <= Done(t')
      && forall i :: 0 <= i < |t.rows| ==> t'.rows[i] == t.rows[i]
  {
    InsertAppends(t, chatId, text, dueAt);
    var t' := Insert(t, chatId, text, dueAt);
    assert forall i :: 0 <= i < |t.rows| ==> t'.rows[i] == t.rows[i];
  }

  /** The rowids of the rows a pass delivers. */
  function DeliveredIds(t: Table, now: string, token: bool, failing: set<int>): seq<int> {
    var d := Delivered(Batch(t.rows, now), token, failing);
    seq(|d|, k requires 0 <= k < |d| => d[k].id)
  }

  lemma PassKeepsValid(t: Table, now: string, token: bool, failing: set<int>)
    requires Valid(t) && Migrated(t)
    ensures Valid(Pass(t, now, token, failing)) && Migrated(Pass(t, now, token, failing))
  {
    var t' := Pass(t, now, token, failing);
    forall i | 0 <= i < |t.rows| ensures t'.rows[i].cells.Keys == t.columns.Keys {
      assert "sent" in t.rows[i].cells;
    }
  }

  lemma PassKeepsDone(t: Table, now: string, token: bool, failing: set<int>)
    requires Valid(t)
    ensures Done(t) <= Done(Pass(t, now, token, failing))
  {
    var t' := Pass(t, now, token, failing);
    forall x | x in Done(t) ensures x in Done(t') {
      var i :| 0 <= i < |t.rows| && Cell(t.rows[i], "sent") != Int(0) && t.rows[i].id == x;
      assert Cell(t'.rows[i], "sent") != Int(0);
    }
  }

  lemma PassMarksDelivered(t: Table, now: string, token: bool, failing: set<int>)
    requires Valid(t) && Migrated(t)
    ensures var ids := DeliveredIds(t, now, token, failing);
      forall k :: 0 <= k < |ids| ==> ids[k] !in Done(t) && ids[k] in Done(Pass(t, now, token, failing))
  {
    PassEffect(t, now, token, failing);
    var t' := Pass(t, now, token, failing);
    var d := Delivered(Batch(t.rows, now), token, failing);
    var ids := DeliveredIds(t, now, token, failing);
    UniqueIds(t.rows);
    forall k | 0 <= k < |ids| ensures ids[k] !in Done(t) && ids[k] in Done(t') {
      assert d[k] in Batch(t.rows, now);
      var i :| 0 <= i < |t.rows| && t.rows[i] == d[k];
      assert Cell(t'.rows[i], "sent") == Int(1);
      assert t.rows[i].id == ids[k];
    }
  }

  lemma DeliveredIdsDistinct(t: Table, now: string, token: bool, failing: set<int>)
    requires Valid(t)
    ensures NoDuplicates(DeliveredIds(t, now, token, failing))
  {
    var b := Batch(t.rows, now);
    var d := Delivered(b, token, failing);
    var ids := DeliveredIds(t, now, token, failing);
    BatchIdsIncrease(t.rows, now);
    forall x, y | 0 <= x < y < |ids| ensures ids[x] < ids[y] {
      assert d[x] == b[x] && d[y] == b[y];
      assert b[x].id < b[y].id;
      assert ids[x] == b[x].id;
      assert ids[y] == b[y].id;
    }
  }

  /** A pass keeps the table well formed and migrated, never unmarks a row,
      and delivers distinct rows that were unmarked before and are marked
      after. */
  lemma PassStep(t: Table, now: string, token: bool, failing: set<int>)
    requires Valid(t) && Migrated(t)
    ensures var t' := Pass(t, now, token, failing);
      var ids := DeliveredIds(t, now, token, failing);
      && Valid(t') && Migrated(t')
      && Done(t) <= Done(t')
      && NoDuplicates(ids)
      && (forall k :: 0 <= k < |ids| ==> ids[k] !in Done(t) && ids[k] in Done(t'))
  {
    PassKeepsValid(t, now, token, failing);
    PassKeepsDone(t, now, token, failing);
    PassMarksDelivered(t, now, token, failing);
    DeliveredIdsDistinct(t, now, token, failing);
  }

  /** One step of a run: what `InsertStep` and `PassStep` state. */
  lemma StepProperties(t: Table, e: Event)
    requires Valid(t) && Migrated(t)
    ensures var t' := Step(t, e); var ids := StepIds(t, e);
      && Valid(t') && Migrated(t')
      && Done(t) <= Done(t')
      && NoDuplicates(ids)
      && (forall k :: 0 <= k < |ids| ==> ids[k] !in Done(t) && ids[k] in Done(t'))
  {
    match e
    case Add(chatId, text, dueAt) => InsertStep(t, chatId, text, dueAt);
    case Tick(now, token, failing) => PassStep(t, now, token, failing);
  }

  /** Over any run of additions and passes, no reminder is delivered twice,
      and none that was already marked before the run is delivered. */
  lemma {:induction false} AtMostOnce(t: Table, es: seq<Event>)
    requires Valid(t) && Migrated(t)
    ensures NoDuplicates(RunIds(t, es))
    ensures forall k :: 0 <= k < |RunIds(t, es)| ==> RunIds(t, es)[k] !in Done(t)
    decreases |es|
  {
    if es != [] {
      var t1 := Step(t, es[0]);
      var first := StepIds(t, es[0]);
      StepProperties(t, es[0]);
      AtMostOnce(t1, es[1..]);
      var rest := RunIds(t1, es[1..]);
      var all := RunIds(t, es);
      assert all == first + rest;
      forall i, j | 0 <= i < j < |all| ensures all[i] != all[j] {
        if j < |first| {
        } else if i >= |first| {
          assert all[i] == rest[i - |first|] && all[j] == rest[j - |first|];
        } else {
          assert all[i] in Done(t1);
          assert all[j] == rest[j - |first|];
        }
      }
    }
  }

  /** A row without a chat id stays exactly as it is over any run: it is
      never fetched and so never marked. */
  lemma {:induction false} LegacyRowUntouched(t: Table, es: seq<Event>, i: nat)
    requires Valid(t) && Migrated(t)
    requires i < |t.rows| && Cell(t.rows[i], "chat_id") == Null
    ensures i < |Run(t, es).rows| && Run(t, es).rows[i] == t.rows[i]
    decreases |es|
  {
    if es != [] {
      var t1 := Step(t, es[0]);
      StepProperties(t, es[0]);
      if es[0].Add? {
        InsertStep(t, es[0].chatId, es[0].text, es[0].dueAt);
      } else {
        var now, token, failing := es[0].now, es[0].token, es[0].failing;
        PassEffect(t, now, token, failing);
        var b := Batch(t.rows, now);
        var d := Delivered(b, token, failing);
        LegacyRowNeverDue(t.rows[i], now);
        assert t.rows[i] !in b;
        assert t.rows[i] !in d by {
          assert forall x :: x in d ==> x in b;
        }
      }
      assert t1.rows[i] == t.rows[i];
      LegacyRowUntouched(t1, es[1..], i);
    }
  }

  // ---------------------------------------------------------------------
  // The table as the module's shared connection sees it

  class ReminderStore {
    var present: bool
    var columns: map<string, Value>
    var rows: seq<Row>

    function State(): Table
      reads this
    {
      Table(present, columns, rows)
    }

    /** Opening a database file with whatever it already holds. */
    constructor Open(t: Table)
      requires Valid(t)
      ensures State() == t
    {
      present, columns, rows := t.present, t.columns, t.rows;
    }

    /** `ALTER TABLE reminders ADD COLUMN name ... DEFAULT d`. */
    method AddColumn(name: string, d: Value)
      requires present && name !in columns
      modifies this
      ensures present && columns == old(columns) + map[name := d]
      ensures rows == Widen(old(rows), map[name := d])
    {
      columns := columns + map[name := d];
      rows := Widen(rows, map[name := d]);
    }

    /** `_ensure_schema`. */
    method EnsureSchema()
      requires Valid(State())
      modifies this
      ensures State() == Migrate(old(State()))
      ensures Valid(State()) && Migrated(State())
    {
      MigrateEstablishes(State());
      if !present {
        present, columns, rows := true, Required, [];
        return;
      }
      ghost var t := State();
      WidenNothing(t.rows);
      var cols := columns.Keys;
      AddIfMissing(cols, "chat_id", t, map[]);
      AddIfMissing(cols, "sent", t, ColumnsToAdd(map[], cols, "chat_id"));
      AddIfMissing(cols, "due_at", t, ColumnsToAdd(ColumnsToAdd(map[], cols, "chat_id"), cols, "sent"));
      AddIfMissing(cols, "text", t, ColumnsToAdd(ColumnsToAdd(ColumnsToAdd(map[], cols, "chat_id"), cols, "sent"), cols, "due_at"));
      AbsentInOrder(t.columns);
    }

    /** One `if name not in cols: ALTER TABLE ...` of `_ensure_schema`, on
        a table that had the columns of `t` plus `added`. */
    method AddIfMissing(cols: set<string>, name: string, ghost t: Table, ghost added: map<string, Value>)
      requires present && cols == t.columns.Keys && name in Required && name !in added
      requires columns == t.columns + added && rows == Widen(t.rows, added)
      modifies this
      ensures present && columns == t.columns + ColumnsToAdd(added, cols, name)
      ensures rows == Widen(t.rows, ColumnsToAdd(added, cols, name))
    {
      if name !in cols {
        AddColumn(name, Required[name]);
        WidenTwice(t.rows, added, map[name := Required[name]]);
      }
    }

    /** `add_reminder`. */
    method AddReminder(chatId: int, text: string, dueAt: string)
      requires Valid(State()) && Migrated(State())
      modifies this
      ensures State() == Insert(old(State()), chatId, text, dueAt)
      ensures Valid(State()) && Migrated(State())
    {
      InsertAppends(State(), chatId, text, dueAt);
      var cells := columns + map["chat_id" := Text(IntToString(chatId)), "text" := Text(text),
                                 "due_at" := Text(dueAt), "sent" := Int(0)];
      rows := rows + [Row(NextId(rows), cells)];
    }

    /** One iteration of the `while True` loop of `start_reminders`: fetch
        the due rows, then send and mark them; the first send that raises
        ends the iteration (the loop's `except` catches it). */
    method DeliveryPass(now: string, token: bool, failing: set<int>) returns (sent: seq<Delivery>)
      requires Valid(State()) && Migrated(State())
      modifies this
      ensures State() == Pass(old(State()), now, token, failing)
      ensures sent == Notices(old(State()), now, token, failing)
      ensures Valid(State()) && Migrated(State())
    {
      PassKeepsValid(State(), now, token, failing);
      var batch := Batch(rows, now);
      sent := SendBatch(batch, token, failing);
    }

    /** The `for` loop over the fetched rows: send each one, then mark it
        sent; stop at the first send that raises. */
    method SendBatch(batch: seq<Row>, token: bool, failing: set<int>) returns (sent: seq<Delivery>)
      modifies this
      ensures present == old(present) && columns == old(columns)
      ensures rows == MarkSent(old(rows), IdsOf(Delivered(batch, token, failing)))
      ensures var d := Delivered(batch, token, failing);
        sent == seq(|d|, k requires 0 <= k < |d| => Send(d[k], token, failing).value)
    {
      ghost var start := rows;
      var i := 0;
      sent := [];
      assert IdsOf(batch[..0]) == {};
      assert MarkSent(start, {}) == start;
      while i < |batch|
        invariant 0 <= i <= |batch|
        invariant present == old(present) && columns == old(columns)
        invariant forall k :: 0 <= k < i ==> Send(batch[k], token, failing).Some?
        invariant rows == MarkSent(start, IdsOf(batch[..i]))
        invariant |sent| == i && forall k :: 0 <= k < i ==> sent[k] == Send(batch[k], token, failing).value
      {
        var notice := Send(batch[i], token, failing);
        if notice.None? {
          break;
        }
        sent := sent + [notice.value];
        MarkOneMore(start, batch, i);
        rows := MarkSent(rows, {batch[i].id});
        i := i + 1;
      }
      DeliveredIsPrefixUpTo(batch, token, failing, i);
    }
  }
}
