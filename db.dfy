/** The SQLite store of the digest, one class per table, each holding its rows
    as a value. Rows of a table whose ids the database assigns are kept in rowid
    order, so the n-th row has id n; `signals` is also unique on `external_id`,
    `trends` on `trend_key` and `trend_snapshots` on (trend, week, year). */
module Db {
  import opened Model

  // ---------------------------------------------------------------- signals

  /** The rows of `signals`: numbered from 1 in insertion order, one per external id. */
  predicate SignalRows(rows: seq<Signal>) {
    (forall i :: 0 <= i < |rows| ==> rows[i].id == i + 1) && UniqueExternalIds(rows)
  }

  predicate Known(rows: seq<Signal>, externalId: string) {
    exists i :: 0 <= i < |rows| && rows[i].externalId == externalId
  }

  /** The `UNIQUE` constraint on `external_id`: each row's external id is new to the
      rows inserted before it. */
  predicate UniqueExternalIds(rows: seq<Signal>)
    decreases |rows|
  {
    rows == [] || (UniqueExternalIds(rows[..|rows| - 1]) && !Known(rows[..|rows| - 1], rows[|rows| - 1].externalId))
  }

  /** The constraint holds exactly when no two rows share an external id. */
  lemma {:induction false} UniqueExternalIdsExact(rows: seq<Signal>)
    ensures UniqueExternalIds(rows) <==> forall i, j :: 0 <= i < j < |rows| ==> rows[i].externalId != rows[j].externalId
    decreases |rows|
  {
    if rows != [] {
      var init := rows[..|rows| - 1];
      UniqueExternalIdsExact(init);
      if UniqueExternalIds(rows) {
        forall i, j | 0 <= i < j < |rows|
          ensures rows[i].externalId != rows[j].externalId
        {
          assert rows[i] == init[i];
          if j < |init| {
            assert rows[j] == init[j];
          }
        }
      }
      if forall i, j :: 0 <= i < j < |rows| ==> rows[i].externalId != rows[j].externalId {
        forall i, j | 0 <= i < j < |init|
          ensures init[i].externalId != init[j].externalId
        {
          assert init[i] == rows[i] && init[j] == rows[j];
        }
        forall i | 0 <= i < |init|
          ensures init[i].externalId != rows[|rows| - 1].externalId
        {
          assert init[i] == rows[i];
        }
      }
    }
  }

  /** The constraint depends on the external ids only. */
  lemma {:induction false} UniqueSameKeys(a: seq<Signal>, b: seq<Signal>)
    requires |a| == |b| && forall i :: 0 <= i < |a| ==> a[i].externalId == b[i].externalId
    ensures UniqueExternalIds(a) == UniqueExternalIds(b)
    decreases |a|
  {
    if a != [] {
      var n := |a| - 1;
      UniqueSameKeys(a[..n], b[..n]);
      assert Known(a[..n], a[n].externalId) == Known(b[..n], b[n].externalId) by {
        if Known(a[..n], a[n].externalId) {
          var i :| 0 <= i < n && a[..n][i].externalId == a[n].externalId;
          assert b[..n][i].externalId == b[n].externalId;
        }
        if Known(b[..n], b[n].externalId) {
          var i :| 0 <= i < n && b[..n][i].externalId == b[n].externalId;
          assert a[..n][i].externalId == a[n].externalId;
        }
      }
    }
  }

  /** The row `insert_signal` adds: the collected fields, status 'new'. */
  function NewRow(id: nat, c: Collected): Signal {
    Signal(id, c.externalId, c.title, c.summary, c.url, c.sourceId, c.sourceName,
      c.sourceTier, c.publishedAt, c.rawContent, c.imageUrl, New)
  }

  /** `INSERT OR IGNORE INTO signals`: a signal whose external id is stored already adds nothing. */
  function InsertIgnore(rows: seq<Signal>, c: Collected): seq<Signal> {
    if Known(rows, c.externalId) then rows else rows + [NewRow(|rows| + 1, c)]
  }

  /** `cursor.lastrowid` after `insert_signal`. sqlite3 reads the connection's last
      inserted rowid once the statement has run, and an `INSERT OR IGNORE` that
      inserts nothing leaves that value as it was (`previous`: 0 on a new
      connection, otherwise the id of the row last inserted on it, in any table). */
  function LastRowId(rows: seq<Signal>, c: Collected, previous: nat): (id: nat)
    ensures Known(rows, c.externalId) ==> id == previous
    ensures !Known(rows, c.externalId) ==>
      1 <= id == |InsertIgnore(rows, c)| && InsertIgnore(rows, c)[id - 1] == NewRow(id, c)
  {
    if Known(rows, c.externalId) then previous else |rows| + 1
  }

  /** Inserting keeps one row per external id, and afterwards the signal's id is stored. */
  lemma InsertIgnoreRows(rows: seq<Signal>, c: Collected)
    requires SignalRows(rows)
    ensures SignalRows(InsertIgnore(rows, c))
    ensures Known(InsertIgnore(rows, c), c.externalId)
    ensures Known(rows, c.externalId) ==> InsertIgnore(rows, c) == rows
    ensures !Known(rows, c.externalId) ==>
      && |InsertIgnore(rows, c)| == |rows| + 1
      && InsertIgnore(rows, c)[|rows|].status == New
  {
    var r := InsertIgnore(rows, c);
    if !Known(rows, c.externalId) {
      assert r[..|rows|] == rows;
      assert r[|rows|].externalId == c.externalId;
    }
  }

  /** `SET status = ? WHERE id = ?` */
  function StatusSet(rows: seq<Signal>, id: nat, st: Status): (r: seq<Signal>)
    ensures |r| == |rows|
  {
    seq(|rows|, i requires 0 <= i < |rows| => if rows[i].id == id then rows[i].(status := st) else rows[i])
  }

  /** Setting a status changes the status of the row with that id and nothing else. */
  lemma StatusSetOnly(rows: seq<Signal>, id: nat, st: Status)
    requires SignalRows(rows)
    ensures SignalRows(StatusSet(rows, id, st))
    ensures forall i :: 0 <= i < |rows| && i != id - 1 ==> StatusSet(rows, id, st)[i] == rows[i]
    ensures 1 <= id <= |rows| ==> StatusSet(rows, id, st)[id - 1] == rows[id - 1].(status := st)
  {
    UniqueSameKeys(rows, StatusSet(rows, id, st));
  }

  /** `UPDATE signals SET status = 'new' WHERE external_id = ?` */
  function Requeued(rows: seq<Signal>, externalId: string): (r: seq<Signal>)
    ensures |r| == |rows|
  {
    seq(|rows|, i requires 0 <= i < |rows| =>
      if rows[i].externalId == externalId then rows[i].(status := New) else rows[i])
  }

  lemma RequeuedRows(rows: seq<Signal>, externalId: string)
    requires SignalRows(rows)
    ensures SignalRows(Requeued(rows, externalId))
    ensures forall i :: 0 <= i < |rows| ==>
      Requeued(rows, externalId)[i].status == (if rows[i].externalId == externalId then New else rows[i].status)
  {
    UniqueSameKeys(rows, Requeued(rows, externalId));
  }

  /** `SELECT * FROM signals WHERE status = ? ORDER BY collected_at DESC`, with rows
      collected in the same instant ordered newest insertion first. */
  function WithStatus(rows: seq<Signal>, st: Status): (r: seq<Signal>)
    ensures |r| <= |rows|
  {
    if rows == [] then []
    else
      var last := rows[|rows| - 1];
      (if last.status == st then [last] else []) + WithStatus(rows[..|rows| - 1], st)
  }

  /** The query returns exactly the rows with the status. */
  lemma {:induction false} WithStatusExact(rows: seq<Signal>, st: Status, s: Signal)
    ensures s in WithStatus(rows, st) <==> s in rows && s.status == st
  {
    if rows != [] {
      WithStatusExact(rows[..|rows| - 1], st, s);
      assert rows == rows[..|rows| - 1] + [rows[|rows| - 1]];
    }
  }

  /** Every row of the result has the status, and the ids strictly decrease, so no
      row comes twice. */
  lemma {:induction false} WithStatusOrdered(rows: seq<Signal>, st: Status)
    requires SignalRows(rows)
    ensures forall i :: 0 <= i < |WithStatus(rows, st)| ==> WithStatus(rows, st)[i].status == st
    ensures forall i :: 0 <= i < |WithStatus(rows, st)| ==> 1 <= WithStatus(rows, st)[i].id <= |rows|
    ensures forall i, j :: 0 <= i < j < |WithStatus(rows, st)| ==>
      WithStatus(rows, st)[i].id > WithStatus(rows, st)[j].id
  {
    if rows != [] {
      var init := rows[..|rows| - 1];
      assert SignalRows(init);
      WithStatusOrdered(init, st);
      var t := WithStatus(init, st);
      var head: seq<Signal> := if rows[|rows| - 1].status == st then [rows[|rows| - 1]] else [];
      assert WithStatus(rows, st) == head + t;
      forall i | 0 <= i < |head + t|
        ensures (head + t)[i].status == st && 1 <= (head + t)[i].id <= |rows|
      {
        if i >= |head| {
          assert (head + t)[i] == t[i - |head|];
        }
      }
      forall i, j | 0 <= i < j < |head + t|
        ensures (head + t)[i].id > (head + t)[j].id
      {
        assert (head + t)[j] == t[j - |head|];
        if i >= |head| {
          assert (head + t)[i] == t[i - |head|];
        }
      }
    }
  }

  class SignalTable {
    var rows: seq<Signal>

    ghost predicate Valid()
      reads this
    {
      SignalRows(rows)
    }

    constructor()
      ensures Valid() && rows == []
    {
      rows := [];
    }

    /** `insert_signal` on a connection whose last inserted rowid is `previous`;
        returns `cursor.lastrowid`. */
    method Insert(c: Collected, previous: nat) returns (rowId: nat)
      requires Valid()
      modifies this
      ensures Valid()
      ensures rows == InsertIgnore(old(rows), c)
      ensures rowId == LastRowId(old(rows), c, previous)
    {
      InsertIgnoreRows(rows, c);
      rowId := if Known(rows, c.externalId) then previous else |rows| + 1;
      rows := InsertIgnore(rows, c);
    }

    /** `get_signals_by_status` */
    method ByStatus(st: Status) returns (found: seq<Signal>)
      ensures found == WithStatus(rows, st)
    {
      found := [];
      var k := 0;
      while k < |rows|
        invariant k <= |rows|
        invariant found == WithStatus(rows[..k], st)
      {
        assert rows[..k + 1][..k] == rows[..k];
        found := (if rows[k].status == st then [rows[k]] else []) + found;
        k := k + 1;
      }
      assert rows[..k] == rows;
    }

    /** `update_signal_status` */
    method SetStatus(id: nat, st: Status)
      modifies this
      ensures rows == StatusSet(old(rows), id, st)
    {
      rows := StatusSet(rows, id, st);
    }

    /** The re-queueing update the collection stage runs for a signal already stored. */
    method Requeue(externalId: string)
      requires Valid()
      modifies this
      ensures Valid()
      ensures rows == Requeued(old(rows), externalId)
    {
      RequeuedRows(rows, externalId);
      rows := Requeued(rows, externalId);
    }
  }

  // ---------------------------------------------------------------- signal_validations

  /** A corroborating report of a signal: url, publisher, optional title and similarity. */
  datatype Corroboration = Corroboration(url: string, source: string, title: Option<string>, similarity: Option<real>)

  datatype ValidationRow = ValidationRow(signalId: nat, corroboration: Corroboration)

  /** `SELECT COUNT(*) FROM signal_validations WHERE signal_id = ?` */
  function ValidationCount(rows: seq<ValidationRow>, signalId: nat): (n: nat)
    ensures n <= |rows|
  {
    if rows == [] then 0
    else ValidationCount(rows[..|rows| - 1], signalId) + (if rows[|rows| - 1].signalId == signalId then 1 else 0)
  }

  /** Each inserted row counts once, for its own signal only. */
  lemma CountAfterInsert(rows: seq<ValidationRow>, signalId: nat, v: ValidationRow)
    ensures ValidationCount(rows + [v], signalId) ==
      ValidationCount(rows, signalId) + (if v.signalId == signalId then 1 else 0)
  {
    assert (rows + [v])[..|rows|] == rows;
  }

  /** Rows of other signals do not count. */
  lemma {:induction false} CountOthersZero(rows: seq<ValidationRow>, signalId: nat)
    requires forall i :: 0 <= i < |rows| ==> rows[i].signalId != signalId
    ensures ValidationCount(rows, signalId) == 0
  {
    if rows != [] {
      CountOthersZero(rows[..|rows| - 1], signalId);
    }
  }

  class ValidationTable {
    var rows: seq<ValidationRow>

    constructor()
      ensures rows == []
    {
      rows := [];
    }

    /** `insert_validation` */
    method Insert(signalId: nat, c: Corroboration)
      modifies this
      ensures rows == old(rows) + [ValidationRow(signalId, c)]
    {
      rows := rows + [ValidationRow(signalId, c)];
    }

    /** `get_validation_count` */
    method CountFor(signalId: nat) returns (n: nat)
      ensures n == ValidationCount(rows, signalId)
    {
      n := 0;
      var k := 0;
      while k < |rows|
        invariant k <= |rows|
        invariant n == ValidationCount(rows[..k], signalId)
      {
        assert rows[..k + 1][..k] == rows[..k];
        if rows[k].signalId == signalId {
          n := n + 1;
        }
        k := k + 1;
      }
      assert rows[..k] == rows;
    }
  }

  // ---------------------------------------------------------------- signal_analysis, signal_bus

  /** The analysis stored for each signal; a later analysis of the same signal replaces it. */
  class AnalysisTable {
    var byId: map<nat, Analysis>

    constructor()
      ensures byId == map[]
    {
      byId := map[];
    }

    /** `insert_analysis` */
    method Put(signalId: nat, a: Analysis)
      modifies this
      ensures byId == old(byId)[signalId := a]
    {
      byId := byId[signalId := a];
    }
  }

  /** The business units each signal is associated with, in match order. */
  class BuLinkTable {
    var links: map<nat, seq<BuMatch>>

    constructor()
      ensures links == map[]
    {
      links := map[];
    }

    /** `save_signal_bus` */
    method Save(signalId: nat, matches: seq<BuMatch>)
      modifies this
      ensures links == old(links)[signalId := matches]
    {
      links := links[signalId := matches];
    }
  }

  // ---------------------------------------------------------------- pipeline_runs

  datatype RunStatus = Running | Completed | Cancelled | Failed {
    function Name(): string {
      match this
      case Running => "running"
      case Completed => "completed"
      case Cancelled => "cancelled"
      case Failed => "failed"
    }
  }

  /** A value bound to a column by `complete_pipeline_run`. */
  datatype Value = IntValue(i: int) | TextValue(s: string)

  /** A row of `pipeline_runs`: the columns other than the id, type, status and
      completion time are in `columns`. */
  datatype Run = Run(id: nat, runType: string, status: RunStatus, completedAt: Option<string>, columns: map<string, Value>)

  /** The columns `complete_pipeline_run` writes when they are passed. */
  const RunColumns: seq<string> :=
    ["signals_collected", "signals_validated", "signals_scored", "digest_id", "error_message"]

  predicate RunRows(rows: seq<Run>) {
    forall i :: 0 <= i < |rows| ==> rows[i].id == i + 1
  }

  /** The columns after binding, in the order of `keys`, every key also passed in `kwargs`. */
  function Bound(columns: map<string, Value>, kwargs: map<string, Value>, keys: seq<string>): map<string, Value> {
    if keys == [] then columns
    else
      var init := Bound(columns, kwargs, keys[..|keys| - 1]);
      var k := keys[|keys| - 1];
      if k in kwargs then init[k := kwargs[k]] else init
  }

  /** A column is bound to the passed value exactly when it is listed and passed;
      every other column keeps its value. */
  lemma {:induction false} BoundExact(columns: map<string, Value>, kwargs: map<string, Value>, keys: seq<string>, k: string)
    ensures k in Bound(columns, kwargs, keys) <==> k in columns || (k in keys && k in kwargs)
    ensures k in keys && k in kwargs ==> Bound(columns, kwargs, keys)[k] == kwargs[k]
    ensures k !in keys && k in columns ==> Bound(columns, kwargs, keys)[k] == columns[k]
    ensures k in columns && k !in kwargs ==> Bound(columns, kwargs, keys)[k] == columns[k]
  {
    if keys != [] {
      BoundExact(columns, kwargs, keys[..|keys| - 1], k);
      assert keys == keys[..|keys| - 1] + [keys[|keys| - 1]];
    }
  }

  /** `UPDATE pipeline_runs SET completed_at = ?, status = ?, <passed columns> WHERE id = ?` */
  function CompletedRuns(rows: seq<Run>, runId: nat, status: RunStatus, kwargs: map<string, Value>, now: string): (r: seq<Run>)
    ensures |r| == |rows|
  {
    seq(|rows|, i requires 0 <= i < |rows| =>
      if rows[i].id == runId
      then rows[i].(status := status, completedAt := Some(now), columns := Bound(rows[i].columns, kwargs, RunColumns))
      else rows[i])
  }

  /** On a run with no columns yet, passing only listed columns binds exactly them. */
  lemma BoundListed(kwargs: map<string, Value>)
    requires forall k :: k in kwargs ==> k in RunColumns
    ensures Bound(map[], kwargs, RunColumns) == kwargs
  {
    forall k | k in kwargs || k in Bound(map[], kwargs, RunColumns)
      ensures k in kwargs && k in Bound(map[], kwargs, RunColumns) && Bound(map[], kwargs, RunColumns)[k] == kwargs[k]
    {
      BoundExact(map[], kwargs, RunColumns, k);
    }
  }

  /** Completing the run just started changes that row only. */
  lemma CompletedLast(rows: seq<Run>, r: Run, status: RunStatus, kwargs: map<string, Value>, now: string)
    requires RunRows(rows) && r.id == |rows| + 1
    ensures CompletedRuns(rows + [r], r.id, status, kwargs, now)
      == rows + [r.(status := status, completedAt := Some(now), columns := Bound(r.columns, kwargs, RunColumns))]
  {
  }

  /** A keyword outside the listed columns changes nothing. */
  lemma UnlistedIgnored(rows: seq<Run>, runId: nat, status: RunStatus, kwargs: map<string, Value>, now: string, k: string, v: Value)
    requires k !in RunColumns
    ensures CompletedRuns(rows, runId, status, kwargs[k := v], now) == CompletedRuns(rows, runId, status, kwargs, now)
  {
    forall i | 0 <= i < |rows|
      ensures Bound(rows[i].columns, kwargs[k := v], RunColumns) == Bound(rows[i].columns, kwargs, RunColumns)
    {
      BoundIgnores(rows[i].columns, kwargs, RunColumns, k, v);
    }
  }

  lemma {:induction false} BoundIgnores(columns: map<string, Value>, kwargs: map<string, Value>, keys: seq<string>, k: string, v: Value)
    requires k !in keys
    ensures Bound(columns, kwargs[k := v], keys) == Bound(columns, kwargs, keys)
  {
    if keys != [] {
      BoundIgnores(columns, kwargs, keys[..|keys| - 1], k, v);
    }
  }

  class RunTable {
    var rows: seq<Run>

    ghost predicate Valid()
      reads this
    {
      RunRows(rows)
    }

    constructor()
      ensures Valid() && rows == []
    {
      rows := [];
    }

    /** `insert_pipeline_run`: a running run of the given type (the schema's default status). */
    method Start(runType: string) returns (id: nat)
      requires Valid()
      modifies this
      ensures Valid()
      ensures id == |old(rows)| + 1
      ensures rows == old(rows) + [Run(id, runType, Running, None, map[])]
    {
      id := |rows| + 1;
      rows := rows + [Run(id, runType, Running, None, map[])];
    }

    /** `complete_pipeline_run` */
    method Complete(runId: nat, status: RunStatus, kwargs: map<string, Value>, now: string)
      requires Valid()
      modifies this
      ensures Valid()
      ensures rows == CompletedRuns(old(rows), runId, status, kwargs, now)
    {
      if 1 <= runId <= |rows| {
        var columns := rows[runId - 1].columns;
        var k := 0;
        while k < |RunColumns|
          invariant k <= |RunColumns|
          invariant columns == Bound(rows[runId - 1].columns, kwargs, RunColumns[..k])
        {
          assert RunColumns[..k + 1][..k] == RunColumns[..k];
          if RunColumns[k] in kwargs {
            columns := columns[RunColumns[k] := kwargs[RunColumns[k]]];
          }
          k := k + 1;
        }
        assert RunColumns[..k] == RunColumns;
        rows := rows[runId - 1 := rows[runId - 1].(status := status, completedAt := Some(now), columns := columns)];
      }
      assert rows == CompletedRuns(old(rows), runId, status, kwargs, now);
    }
  }

  // ---------------------------------------------------------------- trends, trend_snapshots

  /** The momentum of a trend. */
  datatype Momentum = Spike | Rising | Fresh | Stable | Declining {
    function Name(): string {
      match this
      case Spike => "spike"
      case Rising => "rising"
      case Fresh => "new"
      case Stable => "stable"
      case Declining => "declining"
    }
  }

  /** A row of `trends`. */
  datatype Trend = Trend(
    id: nat,
    key: string,
    kind: string,
    caption: string,
    firstSeen: string,
    lastSeen: string,
    count: nat,
    change: real,
    avgScore: real,
    maxScore: real,
    momentum: Momentum)

  /** The rows of `trends`: numbered from 1, one per key. */
  predicate TrendRows(rows: seq<Trend>) {
    (forall i :: 0 <= i < |rows| ==> rows[i].id == i + 1)
    && (forall i, j :: 0 <= i < j < |rows| ==> rows[i].key != rows[j].key)
  }

  /** The position of the trend with the key, if any. */
  function TrendIndex(rows: seq<Trend>, key: string): (r: Option<nat>)
    ensures r.Some? ==> r.value < |rows| && rows[r.value].key == key
    ensures r.None? ==> forall i :: 0 <= i < |rows| ==> rows[i].key != key
  {
    if rows == [] then None
    else if rows[|rows| - 1].key == key then Some(|rows| - 1)
    else TrendIndex(rows[..|rows| - 1], key)
  }

  /** A row of `trend_snapshots`. */
  datatype Snapshot = Snapshot(trendId: nat, week: nat, year: int, count: nat, avgScore: real, topSignalId: Option<nat>)

  /** The key `trend_snapshots` is unique on. */
  function SnapshotKey(s: Snapshot): (nat, nat, int) {
    (s.trendId, s.week, s.year)
  }

  /** The snapshots whose key differs from `key`, in order. */
  function WithoutKey(rows: seq<Snapshot>, key: (nat, nat, int)): (r: seq<Snapshot>)
    ensures |r| <= |rows|
  {
    if rows == [] then []
    else
      var last := rows[|rows| - 1];
      WithoutKey(rows[..|rows| - 1], key) + (if SnapshotKey(last) == key then [] else [last])
  }

  lemma {:induction false} WithoutKeyExact(rows: seq<Snapshot>, key: (nat, nat, int), x: Snapshot)
    ensures x in WithoutKey(rows, key) <==> x in rows && SnapshotKey(x) != key
  {
    if rows != [] {
      WithoutKeyExact(rows[..|rows| - 1], key, x);
      assert rows == rows[..|rows| - 1] + [rows[|rows| - 1]];
    }
  }

  /** `INSERT OR REPLACE INTO trend_snapshots`: the row with the same (trend, week,
      year) is deleted and the new row is added as the newest. */
  function ReplacedSnapshots(rows: seq<Snapshot>, s: Snapshot): seq<Snapshot> {
    WithoutKey(rows, SnapshotKey(s)) + [s]
  }

  /** After the replacement the new snapshot is the newest row and the only one with
      its key; every other snapshot stays. */
  lemma ReplacedSnapshotsExact(rows: seq<Snapshot>, s: Snapshot, x: Snapshot)
    ensures var r := ReplacedSnapshots(rows, s);
      && r != [] && r[|r| - 1] == s
      && (x in r && SnapshotKey(x) == SnapshotKey(s) ==> x == s)
      && (SnapshotKey(x) != SnapshotKey(s) ==> (x in r <==> x in rows))
  {
    WithoutKeyExact(rows, SnapshotKey(s), x);
  }

  class TrendTable {
    var rows: seq<Trend>

    ghost predicate Valid()
      reads this
    {
      TrendRows(rows)
    }

    constructor()
      ensures Valid() && rows == []
    {
      rows := [];
    }

    /** `INSERT INTO trends ...` of a key not stored yet; returns the new id. */
    method Insert(t: Trend) returns (id: nat)
      requires Valid()
      requires TrendIndex(rows, t.key).None?
      modifies this
      ensures Valid()
      ensures id == |old(rows)| + 1
      ensures rows == old(rows) + [t.(id := id)]
    {
      id := |rows| + 1;
      rows := rows + [t.(id := id)];
    }

    /** `UPDATE trends SET ... WHERE id = ?` of a stored trend, keeping its id and key. */
    method Update(i: nat, t: Trend)
      requires Valid()
      requires i < |rows| && t.id == rows[i].id && t.key == rows[i].key
      modifies this
      ensures Valid()
      ensures rows == old(rows)[i := t]
    {
      rows := rows[i := t];
    }
  }

  class SnapshotTable {
    var rows: seq<Snapshot>

    constructor()
      ensures rows == []
    {
      rows := [];
    }

    method Replace(s: Snapshot)
      modifies this
      ensures rows == ReplacedSnapshots(old(rows), s)
    {
      rows := ReplacedSnapshots(rows, s);
    }
  }

  // ---------------------------------------------------------------- the database

  /** One connection's view of the database: a fresh, initialised store. */
  class Store {
    const signals: SignalTable
    const validations: ValidationTable
    const analyses: AnalysisTable
    const buLinks: BuLinkTable
    const runs: RunTable
    const trends: TrendTable
    const snapshots: SnapshotTable
    var isOpen: bool
    /** The connection's last inserted rowid (`sqlite3_last_insert_rowid`), 0 until
        something is inserted on it. */
    var lastRowId: nat

    ghost predicate Valid()
      reads this, signals, runs, trends
    {
      signals.Valid() && runs.Valid() && trends.Valid()
    }

    /** `init_db` on an empty database. */
    constructor()
      ensures Valid()
      ensures signals.rows == [] && validations.rows == [] && analyses.byId == map[]
      ensures buLinks.links == map[] && runs.rows == [] && trends.rows == [] && snapshots.rows == []
      ensures fresh(signals) && fresh(validations) && fresh(analyses) && fresh(buLinks)
      ensures fresh(runs) && fresh(trends) && fresh(snapshots)
      ensures isOpen && lastRowId == 0
    {
      signals := new SignalTable();
      validations := new ValidationTable();
      analyses := new AnalysisTable();
      buLinks := new BuLinkTable();
      runs := new RunTable();
      trends := new TrendTable();
      snapshots := new SnapshotTable();
      isOpen := true;
      lastRowId := 0;
    }

    /** `insert_pipeline_run`: the run row's id becomes the connection's last rowid. */
    method StartRun(runType: string) returns (id: nat)
      requires Valid()
      modifies runs, this`lastRowId
      ensures Valid()
      ensures id == |old(runs.rows)| + 1 && lastRowId == id
      ensures runs.rows == old(runs.rows) + [Run(id, runType, Running, None, map[])]
    {
      id := runs.Start(runType);
      lastRowId := id;
    }

    /** `insert_signal`: the rowid it returns is also the connection's last rowid. */
    method InsertSignal(c: Collected) returns (rowId: nat)
      requires Valid()
      modifies signals, this`lastRowId
      ensures Valid()
      ensures signals.rows == InsertIgnore(old(signals.rows), c)
      ensures rowId == LastRowId(old(signals.rows), c, old(lastRowId)) && lastRowId == rowId
    {
      rowId := signals.Insert(c, lastRowId);
      lastRowId := rowId;
    }

    /** `conn.close()` */
    method Close()
      modifies this`isOpen
      ensures !isOpen
    {
      isOpen := false;
    }
  }
}
