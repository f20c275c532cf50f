/**
 The rasdaemon monitor of src/pccheck/ras.py: it follows the event tables row by row with
 one cursor a table, under the error handling of src/pccheck/monitors.py.
 */
module RasEvents {
  import opened Wrappers
  import opened FindingStore

  datatype Table = McEvent | MceRecord | AerEvent | ExtlogEvent

  const TABLES := [McEvent, MceRecord, AerEvent, ExtlogEvent]

  function TableName(t: Table): string {
    match t
    case McEvent => "mc_event"
    case MceRecord => "mce_record"
    case AerEvent => "aer_event"
    case ExtlogEvent => "extlog_event"
  }

  /** A column that should hold a number; Garbage is other text, with the complaint it draws. */
  datatype Column = Null | Number(n: int) | Garbage(complaint: string)

  /** The columns that are looked at; `errType` is lower-cased, `origin` is the label of the device or its fallback. */
  datatype Row = Row(id: nat, errCount: Column, errorCount: Column, errType: string, status: Column,
                     severity: Option<int>, origin: string, json: string)

  /** A table in the order of its primary key. */
  ghost predicate Sorted(rows: seq<Row>) {
    && (forall i | 0 <= i < |rows| :: rows[i].id > 0)
    && (forall i, j | 0 <= i < j < |rows| :: rows[i].id < rows[j].id)
  }

  datatype Limits = Limits(ceFail: nat, mceFail: nat, aerFail: nat)

  // ---------- one row

  function Limit(o: Limits, t: Table): nat {
    match t case McEvent => o.ceFail case AerEvent => o.aerFail case _ => o.mceFail
  }

  function Component(t: Table): string {
    match t case McEvent => "Memory" case MceRecord => "CPU/Memory" case AerEvent => "PCIe" case ExtlogEvent => "Platform"
  }

  /** Bit 61 of a status word, negative ones in two's complement. */
  predicate UncorrectedBit(status: int) {
    status / 0x2000_0000_0000_0000 % 2 == 1
  }

  function RowKey(t: Table, origin: string, corrected: bool): string {
    "ras:" + TableName(t) + ":" + origin + ":" + (if corrected then "corrected" else "uncorrected")
  }

  datatype Judgement = Unusable(complaint: string) | Informational | Counted(count: nat, corrected: bool)

  /** The count column that says something; the second one only when the first is NULL or zero. */
  function CountColumn(row: Row): Column {
    if row.errCount == Null || row.errCount == Number(0) then row.errorCount else row.errCount
  }

  function AtLeastOne(c: Column): nat {
    if c.Number? && c.n > 1 then c.n else 1
  }

  function Judged(t: Table, row: Row): Judgement {
    if CountColumn(row).Garbage? then Unusable(CountColumn(row).complaint)
    else
      var count := AtLeastOne(CountColumn(row));
      match t
      case McEvent => if row.errType == "info" then Informational else Counted(count, row.errType == "corrected")
      case MceRecord =>
        (match row.status
         case Null => Counted(count, false)
         case Number(n) => Counted(count, !UncorrectedBit(n))
         case Garbage(complaint) => Unusable(complaint))
      case AerEvent => Counted(count, row.errType == "corrected")
      case ExtlogEvent => if row.severity == Some(3) then Informational else Counted(count, row.severity == Some(2))
  }

  function RowEvent(t: Table, row: Row, count: nat, corrected: bool): Event {
    Event(if corrected then WARN else FAIL, Component(t),
          "rasdaemon " + (if corrected then "corrected" else "uncorrected") + " error: " + row.origin,
          "", "", count, None, [row.json], false)
  }

  function RecordedItems(o: Limits, items: Items, t: Table, row: Row): Items {
    match Judged(t, row)
    case Counted(count, corrected) =>
      var key := Named(RowKey(t, row.origin, corrected));
      var added := AddItem(items, key, RowEvent(t, row, count, corrected));
      if corrected && added[key].count >= Limit(o, t) then EscalateItem(added, key, FAIL) else added
    case _ => items
  }

  // ---------- one poll

  /** The findings, the cursors, and for the proofs every row that was handled. */
  datatype Progress = Progress(items: Items, cursors: map<Table, nat>, recorded: seq<(Table, Row)>)

  function Cursor(p: Progress, t: Table): nat {
    if t in p.cursors then p.cursors[t] else 0
  }

  function Recorded(o: Limits, p: Progress, t: Table, row: Row): Progress {
    Progress(RecordedItems(o, p.items, t, row), p.cursors[t := row.id], p.recorded + [(t, row)])
  }

  /** Rows in turn until one cannot be used; its complaint ends the poll. */
  function RecordedRows(o: Limits, p: Progress, t: Table, rows: seq<Row>): (Progress, Option<string>)
    decreases |rows|
  {
    if rows == [] then (p, None)
    else
      match Judged(t, rows[0])
      case Unusable(complaint) => (p, Some(complaint))
      case _ => RecordedRows(o, Recorded(o, p, t, rows[0]), t, rows[1..])
  }

  function MaxId(rows: seq<Row>): nat {
    if rows == [] then 0 else rows[|rows| - 1].id
  }

  /** How many rows of a table in key order lie at or below a cursor. */
  function Done(rows: seq<Row>, cursor: nat): (n: nat)
    ensures n <= |rows|
    ensures Sorted(rows) ==> forall i | 0 <= i < |rows| :: rows[i].id <= cursor <==> i < n
  {
    if rows == [] || rows[|rows| - 1].id <= cursor then |rows| else Done(rows[..|rows| - 1], cursor)
  }

  function ResetComplaint(t: Table): string {
    "rasdaemon " + TableName(t) + " was reset during the test"
  }

  const NO_TABLES := "rasdaemon has no supported hardware event tables"

  function PolledTable(o: Limits, p: Progress, t: Table, rows: seq<Row>): (Progress, Option<string>) {
    if MaxId(rows) < Cursor(p, t) then (p, Some(ResetComplaint(t)))
    else RecordedRows(o, p, t, rows[Done(rows, Cursor(p, t))..])
  }

  function PolledTables(o: Limits, p: Progress, db: map<Table, seq<Row>>, tables: seq<Table>): (Progress,
          Option<string>)
    decreases |tables|
  {
    if tables == [] then (p, None)
    else if tables[0] !in db then PolledTables(o, p, db, tables[1..])
    else
      var (p', complaint) := PolledTable(o, p, tables[0], db[tables[0]]);
      if complaint.Some? then (p', complaint) else PolledTables(o, p', db, tables[1..])
  }

  /** What a poll finds: a service, file or database error, or the supported tables that exist. */
  datatype Snapshot = Failing(complaint: string) | Tables(db: map<Table, seq<Row>>)

  function Polled(o: Limits, p: Progress, s: Snapshot): (Progress, Option<string>) {
    match s
    case Failing(complaint) => (p, Some(complaint))
    case Tables(db) => if db == map[] then (p, Some(NO_TABLES)) else PolledTables(o, p, db, TABLES)
  }

  // ---------- the monitor

  function LostCoverage(complaint: string): Event {
    Event(WARN, "Test", "Hardware monitor RasMonitor lost coverage", "", "", 1, None, [complaint], true)
  }

  datatype Monitored = Monitored(progress: Progress, lastError: Option<string>)

  function Sampled(o: Limits, m: Monitored, s: Snapshot): Monitored {
    var (p, complaint) := Polled(o, m.progress, s);
    if complaint.None? || complaint == m.lastError then Monitored(p, m.lastError)
    else Monitored(p.(items := AddItem(p.items, MonitorError, LostCoverage(complaint.value))), complaint)
  }

  class RasMonitor {
    const limits: Limits
    var items: Items
    var cursors: map<Table, nat>
    var lastError: Option<string>
    ghost var recorded: seq<(Table, Row)>

    ghost function Abs(): Progress
      reads this
    {
      Progress(items, cursors, recorded)
    }

    constructor (limits: Limits)
      ensures this.limits == limits && Abs() == Progress(map[], map[], []) && lastError == None
    {
      this.limits := limits;
      items, cursors, lastError, recorded := map[], map[], None, [];
    }

    method Record(t: Table, row: Row) returns (complaint: Option<string>)
      modifies this`items
      ensures complaint == (match Judged(t, row) case Unusable(c) => Some(c) case _ => None)
      ensures items == RecordedItems(limits, old(items), t, row)
    {
      var column := if row.errCount == Null || row.errCount == Number(0) then row.errorCount else row.errCount;
      if column.Garbage? {
        return Some(column.complaint);
      }
      var count := if column.Number? && column.n > 1 then column.n else 1;
      var corrected := false;
      match t {
        case McEvent =>
          if row.errType == "info" {
            return None;
          }
          corrected := row.errType == "corrected";
        case MceRecord =>
          if row.status.Garbage? {
            return Some(row.status.complaint);
          }
          corrected := row.status.Number? && !UncorrectedBit(row.status.n);
        case AerEvent =>
          corrected := row.errType == "corrected";
        case ExtlogEvent =>
          if row.severity == Some(3) {
            return None;
          }
          corrected := row.severity == Some(2);
      }
      Add(t, row, count, corrected);
      return None;
    }

    method Add(t: Table, row: Row, count: nat, corrected: bool)
      requires Judged(t, row) == Counted(count, corrected)
      modifies this`items
      ensures items == RecordedItems(limits, old(items), t, row)
    {
      var key := Named(RowKey(t, row.origin, corrected));
      items := AddItem(items, key, RowEvent(t, row, count, corrected));
      if corrected && items[key].count >= Limit(limits, t) {
        items := EscalateItem(items, key, FAIL);
      }
    }

    method PollTable(t: Table, rows: seq<Row>) returns (complaint: Option<string>)
      modifies this`items, this`cursors, this`recorded
      ensures (Abs(), complaint) == PolledTable(limits, old(Abs()), t, rows)
    {
      var last := if t in cursors then cursors[t] else 0;
      if MaxId(rows) < last {
        return Some(ResetComplaint(t));
      }
      var later := rows[Done(rows, last)..];
      for i := 0 to |later|
        invariant RecordedRows(limits, Abs(), t, later[i..]) == PolledTable(limits, old(Abs()), t, rows)
      {
        assert later[i..][1..] == later[i + 1..];
        complaint := Record(t, later[i]);
        if complaint.Some? {
          return;
        }
        cursors := cursors[t := later[i].id];
        recorded := recorded + [(t, later[i])];
      }
      complaint := None;
    }

    method Poll(s: Snapshot) returns (complaint: Option<string>)
      modifies this`items, this`cursors, this`recorded
      ensures (Abs(), complaint) == Polled(limits, old(Abs()), s)
    {
      if s.Failing? {
        return Some(s.complaint);
      }
      if s.db == map[] {
        return Some(NO_TABLES);
      }
      assert TABLES[0..] == TABLES;
      for i := 0 to |TABLES|
        invariant PolledTables(limits, Abs(), s.db, TABLES[i..]) == Polled(limits, old(Abs()), s)
      {
        assert TABLES[i..][1..] == TABLES[i + 1..];
        if TABLES[i] in s.db {
          complaint := PollTable(TABLES[i], s.db[TABLES[i]]);
          if complaint.Some? {
            return;
          }
        }
      }
      complaint := None;
    }

    /** One round of the monitor thread; a complaint is reported unless it is the one reported last. */
    method Sample(s: Snapshot)
      modifies this
      ensures Monitored(Abs(), lastError) == Sampled(limits, old(Monitored(Abs(), lastError)), s)
    {
      var complaint := Poll(s);
      if complaint.Some? && complaint != lastError {
        lastError := complaint;
        items := AddItem(items, MonitorError, LostCoverage(complaint.value));
      }
    }
  }

  // ---------- every row once, in order

  function Own(recorded: seq<(Table, Row)>, t: Table): seq<Row> {
    if recorded == [] then []
    else Own(recorded[..|recorded| - 1], t) +
         if recorded[|recorded| - 1].0 == t then [recorded[|recorded| - 1].1] else []
  }

  function RowsOf(db: map<Table, seq<Row>>, t: Table): seq<Row> {
    if t in db then db[t] else []
  }

  /** The rows recorded of a table are the ones at or below its cursor, once each and in key order. */
  ghost predicate ExactFor(p: Progress, t: Table, rows: seq<Row>) {
    Cursor(p, t) <= MaxId(rows) && Own(p.recorded, t) == rows[..Done(rows, Cursor(p, t))]
  }

  ghost predicate Exact(p: Progress, db: map<Table, seq<Row>>) {
    forall t :: ExactFor(p, t, RowsOf(db, t))
  }

  ghost predicate AllSorted(db: map<Table, seq<Row>>) {
    forall t :: Sorted(RowsOf(db, t))
  }

  /** Rows are only appended and tables only created. */
  ghost predicate Grows(before: map<Table, seq<Row>>, after: map<Table, seq<Row>>) {
    forall t :: RowsOf(before, t) <= RowsOf(after, t)
  }

  lemma {:induction false} GrowthKeepsExactFor(p: Progress, t: Table, rows: seq<Row>, more: seq<Row>)
    requires ExactFor(p, t, rows) && Sorted(rows) && Sorted(more) && rows <= more
    ensures ExactFor(p, t, more)
  {
    var c := Cursor(p, t);
    var n, m := Done(rows, c), Done(more, c);
    assert n < |rows| ==> more[n] == rows[n];
    if |rows| < |more| {
      assert rows != [] ==> more[|rows| - 1] == rows[|rows| - 1] && more[|rows| - 1].id < more[|rows|].id;
      assert more[|rows|].id > c;
    }
    assert n > 0 ==> more[n - 1] == rows[n - 1] && rows[n - 1].id <= c;
    assert n == m;
  }

  lemma {:induction false} GrowthKeepsExact(p: Progress, before: map<Table, seq<Row>>, after: map<Table, seq<Row>>)
    requires Exact(p, before) && AllSorted(before) && AllSorted(after) && Grows(before, after)
    ensures Exact(p, after)
  {
    forall t ensures ExactFor(p, t, RowsOf(after, t)) {
      assert ExactFor(p, t, RowsOf(before, t)) && RowsOf(before, t) <= RowsOf(after, t);
      assert Sorted(RowsOf(before, t)) && Sorted(RowsOf(after, t));
      GrowthKeepsExactFor(p, t, RowsOf(before, t), RowsOf(after, t));
    }
  }

  lemma {:induction false} OwnOfLonger(recorded: seq<(Table, Row)>, t: Table, row: Row, u: Table)
    ensures Own(recorded + [(t, row)], u) == Own(recorded, u) + if t == u then [row] else []
  {
    assert (recorded + [(t, row)])[..|recorded|] == recorded;
  }

  lemma {:induction false} DoneAtRow(rows: seq<Row>, n: nat)
    requires Sorted(rows) && n < |rows|
    ensures Done(rows, rows[n].id) == n + 1
  {
    var m := Done(rows, rows[n].id);
    assert n < m;
    assert n + 1 < |rows| ==> rows[n + 1].id > rows[n].id;
  }

  lemma {:induction false} RecordedIsExact(o: Limits, p: Progress, t: Table, rows: seq<Row>)
    requires Sorted(rows) && ExactFor(p, t, rows) && Done(rows, Cursor(p, t)) < |rows|
    ensures var n := Done(rows, Cursor(p, t));
      var p' := Recorded(o, p, t, rows[n]);
      && ExactFor(p', t, rows) && Done(rows, Cursor(p', t)) == n + 1
      && forall u | u != t :: Own(p'.recorded, u) == Own(p.recorded, u) && Cursor(p', u) == Cursor(p, u)
  {
    var n := Done(rows, Cursor(p, t));
    var p' := Recorded(o, p, t, rows[n]);
    DoneAtRow(rows, n);
    assert rows[..n + 1] == rows[..n] + [rows[n]];
    forall u ensures Own(p'.recorded, u) == Own(p.recorded, u) + if t == u then [rows[n]] else [] {
      OwnOfLonger(p.recorded, t, rows[n], u);
    }
  }

  lemma {:induction false} RecordedRowsFrom(o: Limits, p: Progress, t: Table, rows: seq<Row>, n: nat)
    requires n < |rows|
    ensures RecordedRows(o, p, t, rows[n..]) ==
      match Judged(t, rows[n])
      case Unusable(complaint) => (p, Some(complaint))
      case _ => RecordedRows(o, Recorded(o, p, t, rows[n]), t, rows[n + 1..])
  {
    assert rows[n..][0] == rows[n] && rows[n..][1..] == rows[n + 1..];
  }

  /** Recording goes on from the cursor; only a row that cannot be used stops it before the end. */
  lemma {:induction false} RowsAreExact(o: Limits, p: Progress, t: Table, rows: seq<Row>)
    requires Sorted(rows) && ExactFor(p, t, rows)
    ensures var (p', complaint) := RecordedRows(o, p, t, rows[Done(rows, Cursor(p, t))..]);
      && ExactFor(p', t, rows)
      && (complaint.None? ==> Own(p'.recorded, t) == rows)
      && forall u | u != t :: Own(p'.recorded, u) == Own(p.recorded, u) && Cursor(p', u) == Cursor(p, u)
    decreases |rows| - Done(rows, Cursor(p, t))
  {
    var n := Done(rows, Cursor(p, t));
    if n == |rows| {
      assert rows[n..] == [] && rows[..n] == rows;
    } else {
      RecordedRowsFrom(o, p, t, rows, n);
      if !Judged(t, rows[n]).Unusable? {
        RecordedIsExact(o, p, t, rows);
        RowsAreExact(o, Recorded(o, p, t, rows[n]), t, rows);
      }
    }
  }

  lemma {:induction false} TablesAreExact(o: Limits, p: Progress, db: map<Table, seq<Row>>, tables: seq<Table>)
    requires AllSorted(db) && Exact(p, db)
    ensures var (p', complaint) := PolledTables(o, p, db, tables);
      && Exact(p', db)
      && (complaint.None? ==> forall t | t in tables && t in db :: Own(p'.recorded, t) == db[t])
      && forall t | t !in tables :: Own(p'.recorded, t) == Own(p.recorded, t)
    decreases |tables|
  {
    if tables == [] {
    } else {
      var t := tables[0];
      if t !in db {
        TablesAreExact(o, p, db, tables[1..]);
      } else {
        TableIsExact(o, p, db, t);
        var (p', complaint) := PolledTable(o, p, t, db[t]);
        if complaint.None? {
          TablesAreExact(o, p', db, tables[1..]);
          FullStays(o, p', db, tables[1..], t);
        }
      }
    }
  }

  lemma {:induction false} TableIsExact(o: Limits, p: Progress, db: map<Table, seq<Row>>, t: Table)
    requires AllSorted(db) && Exact(p, db) && t in db
    ensures var (p', complaint) := PolledTable(o, p, t, db[t]);
      && Exact(p', db)
      && (complaint.None? ==> Own(p'.recorded, t) == db[t])
      && forall u | u != t :: Own(p'.recorded, u) == Own(p.recorded, u)
  {
    assert ExactFor(p, t, RowsOf(db, t)) && Sorted(RowsOf(db, t));
    RowsAreExact(o, p, t, db[t]);
    var (p', complaint) := PolledTable(o, p, t, db[t]);
    forall u ensures ExactFor(p', u, RowsOf(db, u)) {
      assert ExactFor(p, u, RowsOf(db, u));
    }
  }

  /** A table whose rows are all recorded stays so. */
  lemma {:induction false} FullStays(o: Limits, p: Progress, db: map<Table, seq<Row>>, tables: seq<Table>, t: Table)
    requires AllSorted(db) && Exact(p, db) && t in db && Own(p.recorded, t) == db[t]
    ensures Own(PolledTables(o, p, db, tables).0.recorded, t) == db[t]
    decreases |tables|
  {
    if tables == [] {
    } else {
      if tables[0] !in db {
        FullStays(o, p, db, tables[1..], t);
      } else {
        var (p', complaint) := PolledTable(o, p, tables[0], db[tables[0]]);
        TableIsExact(o, p, db, tables[0]);
        if tables[0] == t {
          assert ExactFor(p, t, RowsOf(db, t));
          assert |Own(p.recorded, t)| == Done(db[t], Cursor(p, t));
          assert db[t][Done(db[t], Cursor(p, t))..] == [];
          assert p' == p;
        }
        if complaint.None? {
          FullStays(o, p', db, tables[1..], t);
        }
      }
    }
  }

  // ---------- any number of polls

  function SampledAll(o: Limits, snapshots: seq<Snapshot>): Monitored {
    if snapshots == [] then Monitored(Progress(map[], map[], []), None)
    else Sampled(o, SampledAll(o, snapshots[..|snapshots| - 1]), snapshots[|snapshots| - 1])
  }

  /** The database as last seen. */
  function Latest(snapshots: seq<Snapshot>): map<Table, seq<Row>> {
    if snapshots == [] then map[]
    else if snapshots[|snapshots| - 1].Tables? then snapshots[|snapshots| - 1].db
    else Latest(snapshots[..|snapshots| - 1])
  }

  ghost predicate AppendOnly(snapshots: seq<Snapshot>) {
    snapshots == [] ||
    (var front, s := snapshots[..|snapshots| - 1], snapshots[|snapshots| - 1];
     AppendOnly(front) && (s.Tables? ==> AllSorted(s.db) && Grows(Latest(front), s.db)))
  }

  lemma {:induction false} EveryTableIsPolled(t: Table)
    ensures t in TABLES
  {
    assert TABLES[0] == McEvent && TABLES[1] == MceRecord && TABLES[2] == AerEvent && TABLES[3] == ExtlogEvent;
    match t case McEvent => case MceRecord => case AerEvent => case ExtlogEvent =>
  }

  /** A poll with no complaint has recorded every row there is. */
  lemma {:induction false} PollIsExact(o: Limits, p: Progress, s: Snapshot, before: map<Table, seq<Row>>)
    requires Exact(p, before) && AllSorted(before)
    requires s.Tables? ==> AllSorted(s.db) && Grows(before, s.db)
    ensures var (p', complaint) := Polled(o, p, s);
      && Exact(p', if s.Tables? then s.db else before)
      && (complaint.None? ==> s.Tables? && forall t | t in s.db :: Own(p'.recorded, t) == s.db[t])
  {
    if s.Tables? {
      GrowthKeepsExact(p, before, s.db);
      TablesAreExact(o, p, s.db, TABLES);
      forall t: Table ensures t in TABLES {
        EveryTableIsPolled(t);
      }
    }
  }

  /**
   Whatever rows are appended between polls and wherever polls fail: of every table exactly
   the rows at or below its cursor have been recorded, each once and in key order.
   */
  lemma {:induction false} RowsAreRecordedOnceInOrder(o: Limits, snapshots: seq<Snapshot>)
    requires AppendOnly(snapshots)
    ensures Exact(SampledAll(o, snapshots).progress, Latest(snapshots)) && AllSorted(Latest(snapshots))
  {
    if snapshots == [] {
    } else {
      var front := snapshots[..|snapshots| - 1];
      RowsAreRecordedOnceInOrder(o, front);
      PollIsExact(o, SampledAll(o, front).progress, snapshots[|snapshots| - 1], Latest(front));
      var p := Polled(o, SampledAll(o, front).progress, snapshots[|snapshots| - 1]).0;
      var p' := SampledAll(o, snapshots).progress;
      assert p'.cursors == p.cursors && p'.recorded == p.recorded;
      forall t ensures ExactFor(p', t, RowsOf(Latest(snapshots), t)) {
        assert ExactFor(p, t, RowsOf(Latest(snapshots), t));
      }
    }
  }

  // ---------- lost coverage shows in the verdict

  ghost predicate LossShown(m: Monitored) {
    m.lastError.Some? ==> MonitorError in m.progress.items && m.progress.items[MonitorError].incomplete
  }

  lemma {:induction false} RowsKeepLossShown(o: Limits, p: Progress, t: Table, rows: seq<Row>)
    requires MonitorError in p.items && p.items[MonitorError].incomplete
    ensures var p' := RecordedRows(o, p, t, rows).0; MonitorError in p'.items && p'.items[MonitorError].incomplete
    decreases |rows|
  {
    if rows == [] || Judged(t, rows[0]).Unusable? {
    } else {
      RowsKeepLossShown(o, Recorded(o, p, t, rows[0]), t, rows[1..]);
    }
  }

  lemma {:induction false} TablesKeepLossShown(o: Limits, p: Progress, db: map<Table, seq<Row>>, tables: seq<Table>)
    requires MonitorError in p.items && p.items[MonitorError].incomplete
    ensures var p' := PolledTables(o, p, db, tables).0; MonitorError in p'.items && p'.items[MonitorError].incomplete
    decreases |tables|
  {
    if tables == [] {
    } else {
      if tables[0] in db {
        var rows := db[tables[0]];
        RowsKeepLossShown(o, p, tables[0], rows[Done(rows, Cursor(p, tables[0]))..]);
        TablesKeepLossShown(o, PolledTable(o, p, tables[0], rows).0, db, tables[1..]);
      } else {
        TablesKeepLossShown(o, p, db, tables[1..]);
      }
    }
  }

  /** A complaint of any poll, early or late, keeps the verdict from being better than incomplete. */
  lemma {:induction false} ComplaintsStay(o: Limits, snapshots: seq<Snapshot>, k: nat, incomplete: bool)
    requires k < |snapshots|
    requires Polled(o, SampledAll(o, snapshots[..k]).progress, snapshots[k]).1.Some?
    ensures LossShown(SampledAll(o, snapshots)) && SampledAll(o, snapshots).lastError.Some?
    ensures VerdictOf(SampledAll(o, snapshots).progress.items, incomplete) in {Verdict.Incomplete, Verdict.Fail}
    decreases |snapshots|
  {
    var front, s := snapshots[..|snapshots| - 1], snapshots[|snapshots| - 1];
    LossIsShown(o, front);
    LossIsShown(o, snapshots);
    if k < |front| {
      assert front[..k] == snapshots[..k];
      ComplaintsStay(o, front, k, incomplete);
    }
  }

  lemma {:induction false} LossIsShown(o: Limits, snapshots: seq<Snapshot>)
    ensures LossShown(SampledAll(o, snapshots))
  {
    if snapshots == [] {
    } else {
      var front, s := snapshots[..|snapshots| - 1], snapshots[|snapshots| - 1];
      LossIsShown(o, front);
      var m := SampledAll(o, front);
      if m.lastError.Some? && s.Tables? {
        TablesKeepLossShown(o, m.progress, s.db, TABLES);
      }
    }
  }

  /**
   After any polls of a growing database, either the last poll has recorded every row of
   every table, or the verdict is no better than incomplete.
   */
  lemma {:induction false} CompleteOrIncomplete(o: Limits, snapshots: seq<Snapshot>, incomplete: bool)
    requires AppendOnly(snapshots) && snapshots != []
    ensures var m, s := SampledAll(o, snapshots), snapshots[|snapshots| - 1];
      || (s.Tables? && s.db != map[] && forall t | t in s.db :: Own(m.progress.recorded, t) == s.db[t])
      || VerdictOf(m.progress.items, incomplete) in {Verdict.Incomplete, Verdict.Fail}
  {
    var front, s := snapshots[..|snapshots| - 1], snapshots[|snapshots| - 1];
    var p := SampledAll(o, front).progress;
    RowsAreRecordedOnceInOrder(o, front);
    PollIsExact(o, p, s, Latest(front));
    if Polled(o, p, s).1.Some? {
      ComplaintsStay(o, snapshots, |front|, incomplete);
    }
  }

  /** A table that lost rows behind the cursor is always noticed. */
  lemma {:induction false} ResetIsNoticed(o: Limits, p: Progress, db: map<Table, seq<Row>>, tables: seq<Table>,
          t: Table)
    requires t in tables && t in db && MaxId(db[t]) < Cursor(p, t)
    ensures PolledTables(o, p, db, tables).1.Some?
    decreases |tables|
  {
    if tables[0] == t {
    } else {
      assert t in tables[1..];
      if tables[0] in db {
        var rows := db[tables[0]];
        OtherCursorsStay(o, p, tables[0], rows[Done(rows, Cursor(p, tables[0]))..], t);
        ResetIsNoticed(o, PolledTable(o, p, tables[0], rows).0, db, tables[1..], t);
      } else {
        ResetIsNoticed(o, p, db, tables[1..], t);
      }
    }
  }

  lemma {:induction false} OtherCursorsStay(o: Limits, p: Progress, t: Table, rows: seq<Row>, u: Table)
    requires u != t
    ensures Cursor(RecordedRows(o, p, t, rows).0, u) == Cursor(p, u)
    decreases |rows|
  {
    if rows == [] || Judged(t, rows[0]).Unusable? {
    } else {
      OtherCursorsStay(o, Recorded(o, p, t, rows[0]), t, rows[1..], u);
    }
  }

  // ---------- counts

  /** The row is an error at all, and not for information only. */
  predicate Matters(t: Table, row: Row) {
    !(t == McEvent && row.errType == "info") && !(t == ExtlogEvent && row.severity == Some(3))
  }

  const BIT_61: int := 0x2000_0000_0000_0000

  /** Bit 61 of a number: it is an odd multiple of that bit's value and less than that more. */
  ghost predicate Bit61(n: int) {
    exists q: int :: Spans((2 * q + 1) * BIT_61, n)
  }

  predicate Spans(start: int, n: int) {
    start <= n < start + BIT_61
  }

  /** Nothing corrected the error that this row reports, by the column its table has for that. */
  ghost predicate Harmful(t: Table, row: Row) {
    match t
    case McEvent => row.errType != "corrected" && row.errType != "info"
    case MceRecord => row.status == Null || (row.status.Number? && Bit61(row.status.n))
    case AerEvent => row.errType != "corrected"
    case ExtlogEvent => row.severity != Some(2) && row.severity != Some(3)
  }

  /** How many errors a row reports: the first of the two columns that says more than none, and at least one. */
  function Errors(row: Row): nat {
    if row.errCount.Number? && row.errCount.n > 1 then row.errCount.n
    else if (row.errCount == Null || row.errCount == Number(0)) && row.errorCount.Number? && row.errorCount.n > 1
    then row.errorCount.n
    else 1
  }

  /** A number is needed where a column is looked at and has other text. */
  predicate Readable(t: Table, row: Row) {
    && !row.errCount.Garbage?
    && (row.errCount == Null || row.errCount == Number(0) ==> !row.errorCount.Garbage?)
    && (t == MceRecord ==> !row.status.Garbage?)
  }

  lemma {:induction false} BitIsSetIff(n: int)
    ensures UncorrectedBit(n) <==> Bit61(n)
  {
    var k := n / BIT_61;
    assert Spans(k * BIT_61, n);
    if UncorrectedBit(n) {
      assert 2 * (k / 2) + 1 == k;
      assert Spans((2 * (k / 2) + 1) * BIT_61, n);
    }
    if Bit61(n) {
      var q: int :| Spans((2 * q + 1) * BIT_61, n);
      SameMultiple(2 * q + 1, k, n);
    }
  }

  lemma {:induction false} SameMultiple(a: int, b: int, n: int)
    requires Spans(a * BIT_61, n) && Spans(b * BIT_61, n)
    ensures a == b
  {
    assert a <= b - 1 ==> a * BIT_61 + BIT_61 <= b * BIT_61;
    assert b <= a - 1 ==> b * BIT_61 + BIT_61 <= a * BIT_61;
  }

  /** What a row is taken for follows from its columns as told above. */
  lemma {:induction false} JudgedTells(t: Table, row: Row)
    ensures Judged(t, row).Unusable? <==> !Readable(t, row)
    ensures Judged(t, row).Informational? <==> Readable(t, row) && !Matters(t, row)
    ensures Readable(t, row) && Matters(t, row) ==> Judged(t, row) == Counted(Errors(row), !Harmful(t, row))
  {
    if row.status.Number? {
      BitIsSetIff(row.status.n);
    }
  }

  ghost function CountFor(t: Table, row: Row, text: string): nat {
    if Matters(t, row) && text == RowKey(t, row.origin, !Harmful(t, row)) then Errors(row) else 0
  }

  /** The errors that the recorded rows report under one finding. */
  ghost function Total(recorded: seq<(Table, Row)>, text: string): nat {
    if recorded == [] then 0
    else Total(recorded[..|recorded| - 1], text) +
         CountFor(recorded[|recorded| - 1].0, recorded[|recorded| - 1].1, text)
  }

  /** A finding's key tells its table and whether it is about corrected errors. */
  lemma {:induction false} KeyTells(t: Table, a: string, x: bool, u: Table, b: string, y: bool)
    requires RowKey(t, a, x) == RowKey(u, b, y)
    ensures t == u && x == y
  {
    var k, l := RowKey(t, a, x), RowKey(u, b, y);
    assert k[4] == TableName(t)[0] && l[4] == TableName(u)[0];
    assert k[6] == TableName(t)[2] && l[6] == TableName(u)[2];
    assert k[|k| - 10] == (if x then ':' else 'n') && l[|l| - 10] == (if y then ':' else 'n');
  }

  ghost predicate Counts(p: Progress) {
    && (forall text :: Named(text) in p.items <==> Total(p.recorded, text) > 0)
    && (forall text | Named(text) in p.items :: p.items[Named(text)].count == Total(p.recorded, text))
  }

  /** Corrected errors are a failure from the number on that their own table's option names. */
  ghost function Grade(o: Limits, p: Progress, t: Table, origin: string, corrected: bool): Severity {
    var option := match t case McEvent => o.ceFail case AerEvent => o.aerFail case _ => o.mceFail;
    if corrected && Total(p.recorded, RowKey(t, origin, corrected)) < option then WARN else FAIL
  }

  ghost predicate Grades(o: Limits, p: Progress) {
    forall t, origin, corrected | Named(RowKey(t, origin, corrected)) in p.items ::
      p.items[Named(RowKey(t, origin, corrected))].severity == Grade(o, p, t, origin, corrected)
  }

  ghost predicate Tallied(o: Limits, p: Progress) {
    Counts(p) && Grades(o, p)
  }

  lemma {:induction false} TotalOfLonger(recorded: seq<(Table, Row)>, t: Table, row: Row, text: string)
    ensures Total(recorded + [(t, row)], text) == Total(recorded, text) + CountFor(t, row, text)
  {
    assert (recorded + [(t, row)])[..|recorded|] == recorded;
  }

  /** Only the row's own finding changes. */
  lemma {:induction false} RecordedTouchesOne(o: Limits, p: Progress, t: Table, row: Row, key: string)
    requires !Judged(t, row).Unusable?
    requires Judged(t, row).Counted? ==> key != RowKey(t, row.origin, Judged(t, row).corrected)
    ensures var p' := Recorded(o, p, t, row);
      && (Named(key) in p'.items <==> Named(key) in p.items)
      && (Named(key) in p.items ==> p'.items[Named(key)] == p.items[Named(key)])
      && Total(p'.recorded, key) == Total(p.recorded, key)
  {
    JudgedTells(t, row);
    TotalOfLonger(p.recorded, t, row, key);
  }

  /** One row's effect on its finding, given the errors reported before. */
  lemma {:induction false} RowAddsToFinding(o: Limits, items: Items, t: Table, row: Row, total: nat)
    requires Judged(t, row).Counted?
    requires var (key, corrected) := (Named(RowKey(t, row.origin, Judged(t, row).corrected)), Judged(t, row).corrected);
      && (key in items <==> total > 0)
      && (key in items ==> items[key].count == total)
      && (key in items ==> items[key].severity == if corrected && total < Limit(o, t) then WARN else FAIL)
    ensures var (key, corrected) := (Named(RowKey(t, row.origin, Judged(t, row).corrected)), Judged(t, row).corrected);
      var (after, now) := (RecordedItems(o, items, t, row), total + Judged(t, row).count);
      && now > 0 && key in after && after[key].count == now
      && after[key].severity == if corrected && now < Limit(o, t) then WARN else FAIL
  {
    var Counted(count, corrected) := Judged(t, row);
    var key, e := Named(RowKey(t, row.origin, corrected)), RowEvent(t, row, count, corrected);
    assert count > 0;
    assert AddItem(items, key, e)[key] == if key in items then Merge(items[key], e) else First(e);
    assert AddItem(items, key, e)[key].count == total + count;
  }

  lemma {:induction false} RecordedCountsOwn(o: Limits, p: Progress, t: Table, row: Row)
    requires Tallied(o, p) && Judged(t, row).Counted?
    ensures var p' := Recorded(o, p, t, row);
      var key := RowKey(t, row.origin, Judged(t, row).corrected);
      && Named(key) in p'.items && p'.items[Named(key)].count == Total(p'.recorded, key) > 0
      && p'.items[Named(key)].severity == Grade(o, p', t, row.origin, Judged(t, row).corrected)
  {
    var key := RowKey(t, row.origin, Judged(t, row).corrected);
    JudgedTells(t, row);
    TotalOfLonger(p.recorded, t, row, key);
    assert Named(key) in p.items ==> p.items[Named(key)].severity == Grade(o, p, t, row.origin, Judged(t, row).corrected);
    RowAddsToFinding(o, p.items, t, row, Total(p.recorded, key));
  }

  lemma {:induction false} RecordedKeepsCounts(o: Limits, p: Progress, t: Table, row: Row)
    requires Tallied(o, p) && !Judged(t, row).Unusable?
    ensures Counts(Recorded(o, p, t, row))
  {
    var p' := Recorded(o, p, t, row);
    forall text
      ensures Named(text) in p'.items <==> Total(p'.recorded, text) > 0
      ensures Named(text) in p'.items ==> p'.items[Named(text)].count == Total(p'.recorded, text)
    {
      if Judged(t, row).Counted? && text == RowKey(t, row.origin, Judged(t, row).corrected) {
        RecordedCountsOwn(o, p, t, row);
      } else {
        RecordedTouchesOne(o, p, t, row, text);
      }
    }
  }

  lemma {:induction false} RecordedKeepsGrades(o: Limits, p: Progress, t: Table, row: Row)
    requires Tallied(o, p) && !Judged(t, row).Unusable?
    ensures Grades(o, Recorded(o, p, t, row))
  {
    var p' := Recorded(o, p, t, row);
    forall u, origin, corrected | Named(RowKey(u, origin, corrected)) in p'.items
      ensures p'.items[Named(RowKey(u, origin, corrected))].severity == Grade(o, p', u, origin, corrected)
    {
      var key := RowKey(u, origin, corrected);
      if Judged(t, row).Counted? && key == RowKey(t, row.origin, Judged(t, row).corrected) {
        KeyTells(t, row.origin, Judged(t, row).corrected, u, origin, corrected);
        RecordedCountsOwn(o, p, t, row);
      } else {
        RecordedTouchesOne(o, p, t, row, key);
      }
    }
  }

  lemma {:induction false} RecordedKeepsTallied(o: Limits, p: Progress, t: Table, row: Row)
    requires Tallied(o, p) && !Judged(t, row).Unusable?
    ensures Tallied(o, Recorded(o, p, t, row))
  {
    RecordedKeepsCounts(o, p, t, row);
    RecordedKeepsGrades(o, p, t, row);
  }

  lemma {:induction false} RowsKeepTallied(o: Limits, p: Progress, t: Table, rows: seq<Row>)
    requires Tallied(o, p)
    ensures Tallied(o, RecordedRows(o, p, t, rows).0)
    decreases |rows|
  {
    if rows == [] || Judged(t, rows[0]).Unusable? {
    } else {
      RecordedKeepsTallied(o, p, t, rows[0]);
      RowsKeepTallied(o, Recorded(o, p, t, rows[0]), t, rows[1..]);
    }
  }

  lemma {:induction false} TablesKeepTallied(o: Limits, p: Progress, db: map<Table, seq<Row>>, tables: seq<Table>)
    requires Tallied(o, p)
    ensures Tallied(o, PolledTables(o, p, db, tables).0)
    decreases |tables|
  {
    if tables == [] {
    } else {
      if tables[0] in db {
        var rows := db[tables[0]];
        RowsKeepTallied(o, p, tables[0], rows[Done(rows, Cursor(p, tables[0]))..]);
        TablesKeepTallied(o, PolledTable(o, p, tables[0], rows).0, db, tables[1..]);
      } else {
        TablesKeepTallied(o, p, db, tables[1..]);
      }
    }
  }

  /**
   However the polls were scheduled and wherever they failed, a finding's count is the number
   of errors the recorded rows report under it, and it is a failure exactly when those
   errors were not corrected or have reached the limit of their table.
   */
  lemma {:induction false} CountsAreExact(o: Limits, snapshots: seq<Snapshot>)
    ensures Tallied(o, SampledAll(o, snapshots).progress)
  {
    if snapshots == [] {
    } else {
      var front, s := snapshots[..|snapshots| - 1], snapshots[|snapshots| - 1];
      CountsAreExact(o, front);
      var p := SampledAll(o, front).progress;
      if s.Tables? {
        TablesKeepTallied(o, p, s.db, TABLES);
      }
      MonitorErrorKeepsTallied(o, Polled(o, p, s).0, SampledAll(o, snapshots).progress);
    }
  }

  lemma {:induction false} MonitorErrorKeepsTallied(o: Limits, p: Progress, p': Progress)
    requires Tallied(o, p) && p'.recorded == p.recorded
    requires p'.items == p.items || exists e :: p'.items == AddItem(p.items, MonitorError, e)
    ensures Tallied(o, p')
  {
  }

  lemma {:induction false} TotalOfMember(recorded: seq<(Table, Row)>, t: Table, row: Row)
    requires (t, row) in recorded && Matters(t, row)
    ensures Total(recorded, RowKey(t, row.origin, !Harmful(t, row))) > 0
  {
    var front, last := recorded[..|recorded| - 1], recorded[|recorded| - 1];
    if last == (t, row) {
    } else {
      assert (t, row) in front;
      TotalOfMember(front, t, row);
    }
  }

  /** However the polls were scheduled: a recorded row whose error nothing corrected decides the verdict. */
  lemma {:induction false} UncorrectedRowForcesFail(o: Limits, snapshots: seq<Snapshot>, t: Table, row: Row, incomplete: bool)
    requires (t, row) in SampledAll(o, snapshots).progress.recorded && Harmful(t, row)
    ensures VerdictOf(SampledAll(o, snapshots).progress.items, incomplete) == Fail
  {
    var p := SampledAll(o, snapshots).progress;
    CountsAreExact(o, snapshots);
    TotalOfMember(p.recorded, t, row);
    assert Named(RowKey(t, row.origin, false)) in p.items;
  }

  /** Findings of corrected errors are warnings until their own table's option is reached. */
  lemma {:induction false} CorrectedFailsAtItsOption(o: Limits, snapshots: seq<Snapshot>, t: Table, origin: string)
    requires Named(RowKey(t, origin, true)) in SampledAll(o, snapshots).progress.items
    ensures var f := SampledAll(o, snapshots).progress.items[Named(RowKey(t, origin, true))];
      && (t == McEvent ==> f.severity == if f.count >= o.ceFail then FAIL else WARN)
      && (t == MceRecord ==> f.severity == if f.count >= o.mceFail then FAIL else WARN)
      && (t == AerEvent ==> f.severity == if f.count >= o.aerFail then FAIL else WARN)
      && (t == ExtlogEvent ==> f.severity == if f.count >= o.mceFail then FAIL else WARN)
  {
    CountsAreExact(o, snapshots);
  }
}
