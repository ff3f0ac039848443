/**
 * The client-side migration driver (the DataMigration component): the
 * per-table batch loops over the `migrate_batch` call, the running totals with
 * per-batch failure isolation, the progress record, pause/resume and the
 * overall percentage. The server call is a parameter: a function from
 * (table, offset, batch size) to the batch's outcome.
 */
module DataMigration {
  import opened Wrappers

  datatype Status = Idle | Migrating | Completed | Error | Paused

  datatype TableCounts = TableCounts(projects: nat, conversations: nat, messages: nat)

  /** The `get_stats` answer the component keeps. */
  datatype MigrationStats = MigrationStats(mysql: TableCounts, supabase: TableCounts)

  datatype Progress = Progress(
    currentTable: string, totalTables: nat, currentTableIndex: nat,
    totalItems: nat, migratedItems: nat, currentBatch: nat, totalBatches: nat,
    errors: nat, isRunning: bool, isPaused: bool)

  /** What one `migrateBatch` call gives back: its counts, or the error it threw. */
  datatype BatchOutcome = BatchOk(migrated: nat, errors: nat, completed: bool) | BatchThrew

  /** The server's `migrate_batch` entry point, as seen from the client. */
  type BatchCall = (string, nat, nat) -> BatchOutcome

  // BATCH_SIZES
  const ProjectsBatch: nat := 10
  const ConversationsBatch: nat := 15
  const MessagesBatch: nat := 20

  datatype TableTask = TableTask(name: string, total: nat, batchSize: nat)

  /** The tables of one run, in dependency order, with their totals taken from the stats. */
  function Tables(stats: MigrationStats): (ts: seq<TableTask>)
    ensures |ts| == 3
    ensures ts[0] == TableTask("projects", stats.mysql.projects, 10)
    ensures ts[1] == TableTask("conversations", stats.mysql.conversations, 15)
    ensures ts[2] == TableTask("messages", stats.mysql.messages, 20)
  {
    [ TableTask("projects", stats.mysql.projects, ProjectsBatch),
      TableTask("conversations", stats.mysql.conversations, ConversationsBatch),
      TableTask("messages", stats.mysql.messages, MessagesBatch) ]
  }

  predicate PositiveBatches(ts: seq<TableTask>) {
    forall i :: 0 <= i < |ts| ==> ts[i].batchSize > 0
  }

  /** `Math.ceil(total / batchSize)`: the fewest batches that cover `total` items. */
  function CeilDiv(total: nat, batchSize: nat): (r: nat)
    requires batchSize > 0
    ensures r * batchSize >= total
    ensures r == 0 || (r - 1) * batchSize < total
  {
    if total == 0 then 0 else 1 + CeilDiv(if total <= batchSize then 0 else total - batchSize, batchSize)
  }

  /** The run's running counters: `totalMigrated`, `totalErrors`, and the error count the progress record shows. */
  datatype Totals = Totals(migrated: nat, errors: nat, shownErrors: nat)

  /** Where one table's loop ended: `tableMigrated`, `batchIndex` and the counters. */
  datatype TableRun = TableRun(tableMigrated: nat, batches: nat, totals: Totals)

  /**
   * The `while (offset < table.total && migrationStatus !== 'paused')` loop of
   * one table, from `offset` on, with the status captured when the run began.
   */
  function RunTable(t: TableTask, batch: BatchCall, captured: Status, offset: nat, tableMigrated: nat, batches: nat, acc: Totals): TableRun
    requires t.batchSize > 0
    decreases t.total - offset
  {
    if !(offset < t.total && captured != Paused) then TableRun(tableMigrated, batches, acc)
    else match batch(t.name, offset, t.batchSize)
      case BatchThrew => TableRun(tableMigrated, batches, acc.(errors := acc.errors + 1))
      case BatchOk(m, e, done) =>
        var acc' := Totals(acc.migrated + m, acc.errors + e, acc.errors + e);
        if done then TableRun(tableMigrated + m, batches + 1, acc')
        else RunTable(t, batch, captured, offset + t.batchSize, tableMigrated + m, batches + 1, acc')
  }

  /** The progress record once table `index` has started and `run` describes its loop so far. */
  function TableProgress(p: Progress, t: TableTask, index: nat, run: TableRun): Progress
    requires t.batchSize > 0
  {
    p.(currentTable := t.name, currentTableIndex := index, totalItems := t.total,
       migratedItems := run.tableMigrated, currentBatch := run.batches,
       totalBatches := CeilDiv(t.total, t.batchSize), errors := run.totals.shownErrors, isRunning := true)
  }

  datatype RunResult = RunResult(totals: Totals, progress: Progress)

  /** The `for` loop over the tables, from table `index` on. */
  function RunTables(ts: seq<TableTask>, index: nat, batch: BatchCall, captured: Status, acc: Totals, p: Progress): RunResult
    requires PositiveBatches(ts)
    decreases |ts| - index
  {
    if index >= |ts| then RunResult(acc, p)
    else
      var run := RunTable(ts[index], batch, captured, 0, 0, 0, acc);
      RunTables(ts, index + 1, batch, captured, run.totals, TableProgress(p, ts[index], index, run))
  }

  // An independent description of one table's loop: the calls it makes.

  /** The offsets at which one table's loop calls `migrateBatch`, from `offset` on. */
  function CallOffsets(t: TableTask, batch: BatchCall, captured: Status, offset: nat): seq<nat>
    requires t.batchSize > 0
    decreases t.total - offset
  {
    if !(offset < t.total && captured != Paused) then []
    else match batch(t.name, offset, t.batchSize)
      case BatchOk(_, _, false) => [offset] + CallOffsets(t, batch, captured, offset + t.batchSize)
      case _ => [offset]
  }

  function Outcomes(t: TableTask, batch: BatchCall, offsets: seq<nat>): seq<BatchOutcome> {
    seq(|offsets|, i requires 0 <= i < |offsets| => batch(t.name, offsets[i], t.batchSize))
  }

  /** Items reported migrated by a sequence of outcomes. */
  function SumMigrated(os: seq<BatchOutcome>): nat {
    if os == [] then 0 else (if os[0].BatchOk? then os[0].migrated else 0) + SumMigrated(os[1..])
  }

  /** Errors charged for a sequence of outcomes: the reported ones, and one for each batch that threw. */
  function SumErrors(os: seq<BatchOutcome>): nat {
    if os == [] then 0 else (if os[0].BatchOk? then os[0].errors else 1) + SumErrors(os[1..])
  }

  function CountOk(os: seq<BatchOutcome>): nat {
    if os == [] then 0 else (if os[0].BatchOk? then 1 else 0) + CountOk(os[1..])
  }

  /** `cs` is `offset`, `offset + step`, ... with every element below `bound`. */
  predicate SteppedBelow(cs: seq<nat>, offset: nat, step: nat, bound: nat) {
    forall k :: 0 <= k < |cs| ==> cs[k] == offset + k * step && cs[k] < bound
  }

  lemma SteppedCons(rest: seq<nat>, offset: nat, step: nat, bound: nat)
    requires offset < bound && SteppedBelow(rest, offset + step, step, bound)
    ensures SteppedBelow([offset] + rest, offset, step, bound)
  {
    var cs := [offset] + rest;
    forall k | 0 < k < |cs| ensures cs[k] == offset + k * step {
      assert cs[k] == rest[k - 1] == offset + step + (k - 1) * step;
      assert (k - 1) * step + step == k * step;
    }
  }

  /** Every call of `cs` but the last reported success without `completed`. */
  predicate ContinuedBeforeLast(t: TableTask, batch: BatchCall, cs: seq<nat>) {
    forall k :: 0 <= k < |cs| - 1 ==> batch(t.name, cs[k], t.batchSize).BatchOk? && !batch(t.name, cs[k], t.batchSize).completed
  }

  /**
   * One table's loop calls `migrateBatch` at `offset`, `offset + b`, ... each
   * below the table's total; every call before the last reported success
   * without `completed`, so only the last may have thrown or completed.
   */
  lemma {:induction false} CallOffsetsShape(t: TableTask, batch: BatchCall, captured: Status, offset: nat)
    requires t.batchSize > 0
    ensures captured == Paused ==> CallOffsets(t, batch, captured, offset) == []
    ensures SteppedBelow(CallOffsets(t, batch, captured, offset), offset, t.batchSize, t.total)
    ensures ContinuedBeforeLast(t, batch, CallOffsets(t, batch, captured, offset))
    decreases t.total - offset
  {
    var cs := CallOffsets(t, batch, captured, offset);
    if offset < t.total && captured != Paused {
      var o := batch(t.name, offset, t.batchSize);
      if o.BatchOk? && !o.completed {
        var next := offset + t.batchSize;
        CallOffsetsShape(t, batch, captured, next);
        var rest := CallOffsets(t, batch, captured, next);
        assert cs == [offset] + rest;
        SteppedCons(rest, offset, t.batchSize, t.total);
        assert ContinuedBeforeLast(t, batch, rest);
        forall k | 0 < k < |cs| - 1
          ensures batch(t.name, cs[k], t.batchSize).BatchOk? && !batch(t.name, cs[k], t.batchSize).completed
        {
          assert cs[k] == rest[k - 1];
        }
      } else {
        assert cs == [offset];
      }
    }
  }

  /**
   * What a table's loop adds to the counters is what its calls reported:
   * successful batches add their `migrated` to both the table's and the run's
   * total and their `errors` to the run's errors, and a batch that threw adds
   * exactly one error; `batchIndex` counts the successful batches.
   */
  lemma {:induction false} RunTableAccounts(t: TableTask, batch: BatchCall, captured: Status, offset: nat, tableMigrated: nat, batches: nat, acc: Totals)
    requires t.batchSize > 0
    ensures var run := RunTable(t, batch, captured, offset, tableMigrated, batches, acc);
      var os := Outcomes(t, batch, CallOffsets(t, batch, captured, offset));
      && run.tableMigrated == tableMigrated + SumMigrated(os)
      && run.totals.migrated == acc.migrated + SumMigrated(os)
      && run.totals.errors == acc.errors + SumErrors(os)
      && run.batches == batches + CountOk(os)
    decreases t.total - offset
  {
    var cs := CallOffsets(t, batch, captured, offset);
    var os := Outcomes(t, batch, cs);
    if offset < t.total && captured != Paused {
      var o := batch(t.name, offset, t.batchSize);
      assert os[0] == o;
      match o
      case BatchThrew =>
        assert os == [o];
      case BatchOk(m, e, done) =>
        if done {
          assert os == [o];
        } else {
          var acc' := Totals(acc.migrated + m, acc.errors + e, acc.errors + e);
          RunTableAccounts(t, batch, captured, offset + t.batchSize, tableMigrated + m, batches + 1, acc');
          assert os[1..] == Outcomes(t, batch, CallOffsets(t, batch, captured, offset + t.batchSize));
        }
    }
  }

  /** The loop over the tables visits every table whatever its batches did, so the last one it starts is the last table. */
  lemma {:induction false} RunTablesVisitsAll(ts: seq<TableTask>, index: nat, batch: BatchCall, captured: Status, acc: Totals, p: Progress)
    requires PositiveBatches(ts) && index < |ts|
    ensures var r := RunTables(ts, index, batch, captured, acc, p);
      r.progress.currentTableIndex == |ts| - 1 && r.progress.totalItems == ts[|ts| - 1].total && r.progress.isRunning
    decreases |ts| - index
  {
    if index + 1 < |ts| {
      var run := RunTable(ts[index], batch, captured, 0, 0, 0, acc);
      RunTablesVisitsAll(ts, index + 1, batch, captured, run.totals, TableProgress(p, ts[index], index, run));
    }
  }

  function NonEmptyTables(ts: seq<TableTask>): nat {
    if ts == [] then 0 else (if ts[0].total > 0 then 1 else 0) + NonEmptyTables(ts[1..])
  }

  /**
   * When every `migrateBatch` call throws (the server answers `migrate_batch`
   * with an error), each non-empty table charges exactly one error and
   * nothing is migrated.
   */
  lemma {:induction false} AllBatchesThrow(ts: seq<TableTask>, index: nat, batch: BatchCall, captured: Status, acc: Totals, p: Progress)
    requires PositiveBatches(ts) && index <= |ts| && captured != Paused
    requires forall name, o, b :: batch(name, o, b) == BatchThrew
    ensures var r := RunTables(ts, index, batch, captured, acc, p);
      r.totals.migrated == acc.migrated && r.totals.errors == acc.errors + NonEmptyTables(ts[index..])
    decreases |ts| - index
  {
    if index < |ts| {
      var run := RunTable(ts[index], batch, captured, 0, 0, 0, acc);
      AllBatchesThrow(ts, index + 1, batch, captured, run.totals, TableProgress(p, ts[index], index, run));
      assert ts[index..][1..] == ts[index + 1..];
    }
  }

  /** A run started while the status was 'paused' skips every table's loop: no batch is attempted. */
  lemma {:induction false} PausedRunDoesNothing(ts: seq<TableTask>, index: nat, batch: BatchCall, acc: Totals, p: Progress)
    requires PositiveBatches(ts)
    ensures RunTables(ts, index, batch, Paused, acc, p).totals == acc
    decreases |ts| - index
  {
    if index < |ts| {
      var run := RunTable(ts[index], batch, Paused, 0, 0, 0, acc);
      PausedRunDoesNothing(ts, index + 1, batch, run.totals, TableProgress(p, ts[index], index, run));
    }
  }

  /** `Math.round` on an exact value: halves go up. */
  function Round(x: real): int {
    (x + 0.5).Floor
  }

  function SourceTotal(stats: MigrationStats): nat {
    stats.mysql.projects + stats.mysql.conversations + stats.mysql.messages
  }

  /** The exact value `getOverallProgress` rounds: finished tables plus the current table's share. */
  function ProgressFraction(p: Progress): real
    requires p.totalTables > 0
  {
    var current: real := if p.totalItems > 0 then p.migratedItems as real / p.totalItems as real else 0.0;
    (p.currentTableIndex as real / p.totalTables as real + (1.0 / p.totalTables as real) * current) * 100.0
  }

  /**
   * `getOverallProgress`: 0 without stats or with nothing to migrate,
   * otherwise the rounded percentage of tables done, counting the current
   * table by its share of migrated items; within 0..100 while the current
   * table is a real one and has not over-counted.
   */
  function OverallProgress(stats: Option<MigrationStats>, p: Progress): (r: int)
    requires p.totalTables > 0
    ensures stats.None? ==> r == 0
    ensures stats.Some? && SourceTotal(stats.value) == 0 ==> r == 0
    ensures r >= 0
    ensures p.currentTableIndex < p.totalTables && p.migratedItems <= p.totalItems ==> r <= 100
  {
    if stats.None? || SourceTotal(stats.value) == 0 then 0
    else
      FractionBounds(p);
      Round(ProgressFraction(p))
  }

  lemma FractionBounds(p: Progress)
    requires p.totalTables > 0
    ensures ProgressFraction(p) >= 0.0
    ensures p.currentTableIndex < p.totalTables && p.migratedItems <= p.totalItems ==> ProgressFraction(p) <= 100.0
  {
    var n := p.totalTables as real;
    var current: real := if p.totalItems > 0 then p.migratedItems as real / p.totalItems as real else 0.0;
    assert 0.0 <= current;
    if p.currentTableIndex < p.totalTables && p.migratedItems <= p.totalItems {
      assert current <= 1.0;
      assert p.currentTableIndex as real <= n - 1.0;
      var done := p.currentTableIndex as real / n;
      assert done <= (n - 1.0) / n;
      assert (1.0 / n) * current <= 1.0 / n;
      assert (n - 1.0) / n + 1.0 / n == 1.0;
      assert done + (1.0 / n) * current <= 1.0;
    }
  }

  /** Within one table, more migrated items never lower the overall percentage. */
  lemma ProgressMonotone(stats: Option<MigrationStats>, p: Progress, more: nat)
    requires p.totalTables > 0 && p.migratedItems <= more
    ensures OverallProgress(stats, p) <= OverallProgress(stats, p.(migratedItems := more))
  {
    var q := p.(migratedItems := more);
    if p.totalItems > 0 {
      assert p.migratedItems as real / p.totalItems as real <= more as real / p.totalItems as real;
    }
    assert ProgressFraction(p) <= ProgressFraction(q);
  }

  /** At the start of table i of three, the percentage is exactly the finished tables' share. */
  lemma ProgressAtTableStart(stats: MigrationStats, p: Progress)
    requires SourceTotal(stats) > 0 && p.totalTables == 3 && p.migratedItems == 0
    ensures p.currentTableIndex == 0 ==> OverallProgress(Some(stats), p) == 0
    ensures p.currentTableIndex == 1 ==> OverallProgress(Some(stats), p) == 33
    ensures p.currentTableIndex == 2 ==> OverallProgress(Some(stats), p) == 67
  {
    assert p.totalItems > 0 ==> p.migratedItems as real / p.totalItems as real == 0.0;
  }

  const InitialProgress := Progress("", 3, 0, 0, 0, 0, 0, 0, false, false)

  /** The migration panel's state. */
  class MigrationPanel {
    var stats: Option<MigrationStats>
    var migrationStatus: Status
    var progress: Progress

    ghost predicate Valid()
      reads this
    {
      progress.totalTables == 3
    }

    constructor ()
      ensures Valid() && stats == None && migrationStatus == Idle && progress == InitialProgress
    {
      stats := None;
      migrationStatus := Idle;
      progress := InitialProgress;
    }

    /** `getOverallProgress` on the panel's current state. */
    function GetOverallProgress(): (r: int)
      reads this
      requires Valid()
      ensures 0 <= r
      ensures progress.currentTableIndex < 3 && progress.migratedItems <= progress.totalItems ==> r <= 100
    {
      OverallProgress(stats, progress)
    }

    /**
     * `startMigration`. `clearOk` is the outcome of `clear_data`; the two
     * `refresh` values are what the two `getStats` calls fetch (None when the
     * fetch fails and the stats are kept). Returns the run's totals, or None
     * when there are no stats and nothing happens.
     */
    method StartMigration(batch: BatchCall, clearOk: bool, refreshAfterClear: Option<MigrationStats>, refreshAfterRun: Option<MigrationStats>)
      returns (summary: Option<Totals>)
      requires Valid()
      modifies this
      ensures Valid()
      ensures old(stats).None? ==> summary.None? && stats == old(stats) && migrationStatus == old(migrationStatus) && progress == old(progress)
      ensures old(stats).Some? ==>
        var r := RunTables(Tables(old(stats).value), 0, batch, old(migrationStatus), Totals(0, 0, old(progress).errors), old(progress));
        && summary == Some(r.totals)
        && migrationStatus == Completed
        && progress == r.progress.(isRunning := false)
        && stats == (if refreshAfterRun.Some? then refreshAfterRun
                     else if clearOk && refreshAfterClear.Some? then refreshAfterClear
                     else old(stats))
    {
      if stats.None? {
        return None;
      }
      // the status as the running closure sees it, fixed when the run begins
      var captured := migrationStatus;
      var snapshot := stats.value;
      migrationStatus := Migrating;
      // clearData swallows its own failure
      if clearOk && refreshAfterClear.Some? {
        stats := refreshAfterClear;
      }
      var tables := Tables(snapshot);
      var totals := Totals(0, 0, progress.errors);
      ghost var start := progress;
      var tableIndex := 0;
      while tableIndex < |tables|
        invariant 0 <= tableIndex <= |tables| && progress.totalTables == 3
        invariant migrationStatus == Migrating
        invariant stats == (if clearOk && refreshAfterClear.Some? then refreshAfterClear else old(stats))
        invariant totals.shownErrors == progress.errors
        invariant RunTables(tables, 0, batch, captured, Totals(0, 0, start.errors), start)
               == RunTables(tables, tableIndex, batch, captured, totals, progress)
      {
        totals := MigrateTable(tables[tableIndex], tableIndex, batch, captured, totals);
        tableIndex := tableIndex + 1;
      }
      migrationStatus := Completed;
      progress := progress.(isRunning := false);
      if refreshAfterRun.Some? {
        stats := refreshAfterRun;
      }
      summary := Some(totals);
    }

    /**
     * The batch loop of `startMigration` for one table: resets the table's
     * progress, then calls `migrateBatch` until the table's total is reached,
     * a batch reports completion, or a batch throws (charged as one error,
     * ending only this table).
     */
    method MigrateTable(table: TableTask, tableIndex: nat, batch: BatchCall, captured: Status, acc: Totals) returns (totals: Totals)
      requires Valid() && table.batchSize > 0 && acc.shownErrors == progress.errors
      modifies this
      ensures Valid() && stats == old(stats) && migrationStatus == old(migrationStatus)
      ensures var run := RunTable(table, batch, captured, 0, 0, 0, acc);
        totals == run.totals && progress == TableProgress(old(progress), table, tableIndex, run)
    {
      ghost var tableStart := progress;
      totals := acc;
      progress := progress.(currentTable := table.name, currentTableIndex := tableIndex,
        totalItems := table.total, migratedItems := 0, currentBatch := 0,
        totalBatches := CeilDiv(table.total, table.batchSize), isRunning := true);
      var offset: nat := 0;
      var batchIndex: nat := 0;
      var tableMigrated: nat := 0;
      while offset < table.total && captured != Paused
        invariant stats == old(stats) && migrationStatus == old(migrationStatus)
        invariant progress == TableProgress(tableStart, table, tableIndex, TableRun(tableMigrated, batchIndex, totals))
        invariant RunTable(table, batch, captured, 0, 0, 0, acc)
               == RunTable(table, batch, captured, offset, tableMigrated, batchIndex, totals)
        decreases table.total - offset
      {
        ghost var before := totals;
        var result := batch(table.name, offset, table.batchSize);
        if result.BatchThrew? {
          totals := totals.(errors := totals.errors + 1);
          assert RunTable(table, batch, captured, offset, tableMigrated, batchIndex, before)
              == TableRun(tableMigrated, batchIndex, totals);
          break;
        }
        tableMigrated := tableMigrated + result.migrated;
        totals := totals.(migrated := totals.migrated + result.migrated, errors := totals.errors + result.errors);
        batchIndex := batchIndex + 1;
        totals := totals.(shownErrors := totals.errors);
        progress := progress.(migratedItems := tableMigrated, currentBatch := batchIndex, errors := totals.errors);
        if result.completed {
          assert RunTable(table, batch, captured, offset, tableMigrated - result.migrated, batchIndex - 1, before)
              == TableRun(tableMigrated, batchIndex, totals);
          break;
        }
        offset := offset + table.batchSize;
        // a pause of BATCH_DELAYS[table] between batches
      }
    }

    /** `pauseMigration`. */
    method PauseMigration()
      requires Valid()
      modifies this
      ensures Valid() && stats == old(stats)
      ensures migrationStatus == Paused && progress == old(progress).(isPaused := true, isRunning := false)
    {
      migrationStatus := Paused;
      progress := progress.(isPaused := true, isRunning := false);
    }

    /** `resumeMigration`. */
    method ResumeMigration()
      requires Valid()
      modifies this
      ensures Valid() && stats == old(stats)
      ensures migrationStatus == Migrating && progress == old(progress).(isPaused := false, isRunning := true)
    {
      migrationStatus := Migrating;
      progress := progress.(isPaused := false, isRunning := true);
    }
  }
}
