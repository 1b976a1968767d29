/** The `csv2mysql` object: its properties, and the constructor, `add_data`,
    `create_table` and `post_process`, which update them in place and issue
    statements to the server. */
module Importer {
  import opened PhpStrings
  import opened Sanitizer
  import opened Statements
  import opened Config
  import opened Pipeline

  /** The message `help` is given when the csv file cannot be found. */
  const MissingCsv: string := "Cannot find your csv file, aborting\n"

  /** The properties after `create_table`: the key column is switched off when
      the table is kept, and the column list is rewritten once the DROP has
      gone through. `halt` is how the run ended. */
  function AfterCreate(s: Settings, records: seq<seq<string>>, halt: Option<Failure>): Settings
  {
    var dropFailed := halt.Some? && halt.value.stage == Dropping;
    s.(firstColumnKey := s.create && s.firstColumnKey,
       columns := if s.create && !dropFailed then ColumnNames(ChosenColumns(s.columns, records)) else s.columns)
  }

  /** What `add_data` issues after `create_table` is planned from the
      properties as they were before it. */
  lemma LoadStepsAfterCreate(s: Settings, records: seq<seq<string>>, escape: string -> string, rows: seq<seq<string>>)
    ensures var c := AfterCreate(s, records, None);
      InsertSteps(c, escape, rows) + KeySteps(c) + CustomSteps(c)
      == InsertSteps(s, escape, rows) + KeySteps(s) + CustomSteps(s)
  {
    LoadStepsReadOnly(AfterCreate(s, records, None), s, escape, rows);
  }

  class Csv2Mysql {
    var csv: string
    var db: string
    var tableName: string
    var dbHost: string
    var dbUser: string
    var dbPassword: string
    var debug: bool
    var create: bool
    var insertIgnore: bool
    var truncate: bool
    var firstColumnKey: bool
    var columns: seq<string>
    var customSql: string
    var varcharSize: int

    /** The statements issued so far, and whether the process has died. */
    var log: seq<Step>
    var halt: Option<Failure>

    function Current(): Settings
      reads this`csv, this`db, this`tableName, this`dbHost, this`dbUser, this`dbPassword, this`debug,
            this`create, this`insertIgnore, this`truncate, this`firstColumnKey, this`columns,
            this`customSql, this`varcharSize
    {
      Settings(csv, db, tableName, dbHost, dbUser, dbPassword, debug, create,
               insertIgnore, truncate, firstColumnKey, columns, customSql, varcharSize)
    }

    function Progress(): Trace
      reads this`log, this`halt
    {
      Trace(log, halt)
    }

    /** `new csv2mysql()`: merge the configuration into the property values
      `base`, check the csv file, default the names, then load the data and
      post-process it. `arg1`/`arg2` are the command line arguments, `file`
      what the configuration files define, `records` the csv file's records,
      `escape` the server's string escaping and `isFile` the file system's
      `is_file`. */
    constructor (base: Settings, arg1: string, arg2: string, file: ConfigFile,
                 records: seq<seq<string>>, escape: string -> string,
                 isFile: string -> bool, server: Server)
      ensures var merged := Merge(base, CsvArgument(arg1, arg2, isFile), file);
        var s := Resolve(base, CsvArgument(arg1, arg2, isFile), file);
        && (!isFile(merged.csv) ==>
              Progress() == Trace([], Some(Failure(FindingCsv, MissingCsv))) && Current() == merged)
        && (isFile(merged.csv) ==>
              Progress() == Replay(Trace([], None), Plan(s, records, escape, isFile), server)
              && Current() == AfterCreate(s, records, halt))
    {
      var merged := Merge(base, CsvArgument(arg1, arg2, isFile), file);
      csv, db, tableName := merged.csv, merged.db, merged.tableName;
      dbHost, dbUser, dbPassword := merged.dbHost, merged.dbUser, merged.dbPassword;
      debug, create, insertIgnore, truncate := merged.debug, merged.create, merged.insertIgnore, merged.truncate;
      firstColumnKey, columns, customSql, varcharSize := merged.firstColumnKey, merged.columns, merged.customSql, merged.varcharSize;
      log, halt := [], None;
      new;
      assert Current() == merged;
      if !isFile(csv) {
        halt := Some(Failure(FindingCsv, MissingCsv));
      } else {
        DefaultNames();
        ghost var resolved := Current();
        assert resolved == ResolveNames(merged);
        Import(records, escape, isFile, server);
      }
    }

    /** The constructor's name defaulting: a missing table name is made
        from the csv file name, a missing database name is the table name. */
    method DefaultNames()
      modifies this`tableName, this`db
      ensures Current() == ResolveNames(old(Current()))
    {
      if !Truthy(tableName) {
        tableName := DefaultTableName(csv);
      }
      if !Truthy(db) {
        db := tableName;
      }
    }

    /** The end of the constructor, once connected: `add_data`, then
        `post_process` unless the process has died. */
    method Import(records: seq<seq<string>>, escape: string -> string, isFile: string -> bool, server: Server)
      requires log == [] && halt.None?
      modifies this
      ensures Progress() == Replay(Trace([], None), Plan(old(Current()), records, escape, isFile), server)
      ensures Current() == AfterCreate(old(Current()), records, halt)
    {
      ghost var s := Current();
      var row := AddData(records, escape, server);
      ReplayAppend(Trace([], None), LoadPlan(s, records, escape), PostSteps(s, isFile), server);
      if halt.None? {
        PostProcess(isFile, server);
      } else {
        ReplayHalted(Progress(), PostSteps(s, isFile), server);
      }
    }

    /** `mysql_query($sql)`: the statement is logged and, unless the stage
        ignores the result, a rejection kills the process. */
    method Issue(stage: Stage, sql: string, server: Server)
      requires halt.None?
      modifies this`log, this`halt
      ensures Current() == old(Current())
      ensures Progress() == Perform(old(Progress()), Step(stage, Query(sql)), server)
      ensures halt.Some? ==> halt.value.stage == stage
    {
      halt := Fails(server, log, Step(stage, Query(sql)));
      log := log + [Step(stage, Query(sql))];
    }

    /** `create_table`: keep the table (truncating it when asked, and giving
        up the key column), or drop it, take the column list from the header
        when none is configured, rewrite every column name and create the
        table with one VARCHAR column per name. */
    method CreateTable(records: seq<seq<string>>, server: Server)
      requires halt.None?
      modifies this
      ensures Progress() == Replay(old(Progress()), ProvisionSteps(old(Current()), records), server)
      ensures Current() == AfterCreate(old(Current()), records, halt)
    {
      if !create {
        KeepTable(server);
      } else {
        RebuildTable(records, server);
      }
    }

    /** `create_table` when the table is kept: TRUNCATE it when asked, and
        give up the key column. */
    method KeepTable(server: Server)
      requires halt.None? && !create
      modifies this`log, this`halt, this`firstColumnKey
      ensures Progress() == Replay(old(Progress()), if truncate then [Step(Truncating, Query(TruncateSql(tableName)))] else [], server)
      ensures Current() == old(Current()).(firstColumnKey := false)
    {
      ghost var t0 := Progress();
      if truncate {
        Issue(Truncating, TruncateSql(tableName), server);
        ReplaySnoc(t0, [], Step(Truncating, Query(TruncateSql(tableName))), server);
        assert [] + [Step(Truncating, Query(TruncateSql(tableName)))] == [Step(Truncating, Query(TruncateSql(tableName)))];
      }
      firstColumnKey := false;
    }

    /** `create_table` when the table is rebuilt: DROP it, and unless that
        is rejected, take the column list from the header when none is
        configured, rewrite every column name and CREATE the table. */
    method RebuildTable(records: seq<seq<string>>, server: Server)
      requires halt.None? && create
      modifies this`log, this`halt, this`columns
      ensures Progress() == Replay(old(Progress()), ProvisionSteps(old(Current()), records), server)
      ensures columns == if halt.Some? && halt.value.stage == Dropping then old(columns)
                         else ColumnNames(ChosenColumns(old(columns), records))
    {
      ghost var s0 := Current();
      ghost var t0 := Progress();
      ghost var steps := ProvisionSteps(s0, records);
      ReplayPair(t0, steps[0], steps[1], server);
      assert steps == [steps[0], steps[1]];
      Issue(Dropping, DropSql(tableName), server);
      if halt.Some? {
        return;
      }
      if columns == [] {
        columns := HeaderRecord(records);
      }
      var sql := ColumnDefinitions();
      Issue(Creating, sql, server);
    }

    /** The loop of `create_table`: rewrite every entry of the column list
        to its column name (sanitized, or the placeholder when that leaves
        nothing) and build the CREATE TABLE statement of the result. */
    method ColumnDefinitions() returns (sql: string)
      modifies this`columns
      ensures columns == ColumnNames(old(columns))
      ensures sql == CreateSql(tableName, columns, varcharSize)
    {
      ghost var chosen := columns;
      sql := CreatePrefix(tableName);
      var i := 0;
      while i < |columns|
        invariant 0 <= i <= |columns| == |chosen|
        invariant forall k :: 0 <= k < i ==> columns[k] == ColumnName(chosen[k])
        invariant forall k :: i <= k < |columns| ==> columns[k] == chosen[k]
        invariant sql == CreatePrefix(tableName) + Terminated(columns, i, varcharSize)
      {
        var name := ColumnName(columns[i]);
        CreateLoopStep(tableName, columns, i, varcharSize, name, sql);
        columns := columns[i := name];
        sql := sql + ColumnDef(name, varcharSize) + ", ";
        i := i + 1;
      }
      ColumnNamesPointwise(chosen, columns);
      CreateSqlFromLoopText(tableName, columns, varcharSize, sql);
      sql := sql[..|sql| - 2] + ")";
    }

    /** `add_data`: provision the table, insert every data record in order
        (the header record is read past), add the key column when it is
        still wanted, and send custom_sql. `row` is the value of `$row` when
        it stops: the number of rows inserted. */
    method AddData(records: seq<seq<string>>, escape: string -> string, server: Server) returns (row: nat)
      requires log == [] && halt.None?
      modifies this
      ensures Progress() == Replay(Trace([], None), LoadPlan(old(Current()), records, escape), server)
      ensures Current() == AfterCreate(old(Current()), records, halt)
      ensures row == LoadedRows(Progress())
    {
      ghost var s0 := Current();
      row := 0;
      LoadPlanRowCount(s0, records, escape, server);
      CreateTable(records, server);
      if halt.Some? {
        HaltDuringProvisioning(s0, records, escape, server);
        return;
      }
      var rows := DataRecords(records);
      LoadStepsAfterCreate(s0, records, escape, rows);
      row := LoadRows(rows, escape, server);
      LoadPlanAfterProvisioning(s0, records, escape, server);
    }

    /** `add_data` once the table is provisioned: the INSERTs, then the key
        column and custom_sql unless an INSERT was rejected. `row` ends as
        the number of rows inserted. */
    method LoadRows(rows: seq<seq<string>>, escape: string -> string, server: Server) returns (row: nat)
      requires halt.None? && (firstColumnKey ==> create)
      modifies this`log, this`halt
      ensures Current() == old(Current())
      ensures Progress() == Replay(old(Progress()), InsertSteps(Current(), escape, rows) + KeySteps(Current()) + CustomSteps(Current()), server)
      ensures halt.Some? ==> Rank(halt.value.stage) >= 2
      ensures halt.Some? && halt.value.stage.Inserting? ==> row == halt.value.stage.row
      ensures halt.None? || Rank(halt.value.stage) > 2 ==> row == |rows|
    {
      ghost var t0 := Progress();
      row := InsertRows(rows, escape, server);
      if halt.Some? {
        HaltDuringInserts(t0, Current(), escape, rows, row, server);
        return;
      }
      assert rows[..row] == rows;
      ReplayThree(t0, InsertSteps(Current(), escape, rows), KeySteps(Current()), CustomSteps(Current()), server);
      AddKeyAndCustomSql(server);
      assert halt.None? || Rank(halt.value.stage) > 2;
    }

    /** The loop of `add_data`: one INSERT per record, in order, until one
        is rejected. `row` is the number of records inserted, or the index of
        the rejected one. */
    method InsertRows(rows: seq<seq<string>>, escape: string -> string, server: Server) returns (row: nat)
      requires halt.None?
      modifies this`log, this`halt
      ensures row <= |rows|
      ensures halt.None? ==> row == |rows|
      ensures halt.Some? ==> row < |rows| && halt.value.stage == Inserting(row)
      ensures Progress() == Replay(old(Progress()), InsertSteps(Current(), escape, rows[..if halt.None? then row else row + 1]), server)
    {
      ghost var t0 := Progress();
      row := 0;
      while row < |rows|
        invariant row <= |rows|
        invariant halt.None?
        invariant Progress() == Replay(t0, InsertSteps(Current(), escape, rows[..row]), server)
      {
        var data := EscapeAll(escape, rows[row]);
        var sql := InsertSql(tableName, insertIgnore, data);
        Issue(Inserting(row), sql, server);
        InsertStepsSnoc(Current(), escape, rows, row);
        ReplaySnoc(t0, InsertSteps(Current(), escape, rows[..row]), InsertStep(Current(), escape, rows[row], row), server);
        if halt.Some? {
          return;
        }
        row := row + 1;
      }
      assert rows[..row] == rows;
    }

    /** The end of `add_data`: the key column when it is still wanted, then
        custom_sql when there is one, each stopping the run if rejected.
        `create_table` has already switched the key off for a kept table. */
    method AddKeyAndCustomSql(server: Server)
      requires halt.None? && (firstColumnKey ==> create)
      modifies this`log, this`halt
      ensures Current() == old(Current())
      ensures Progress() == Replay(Replay(old(Progress()), KeySteps(Current()), server), CustomSteps(Current()), server)
      ensures halt.None? || halt.value.stage == AddingKey || halt.value.stage == CustomSql
    {
      ghost var t0 := Progress();
      if firstColumnKey {
        Issue(AddingKey, AlterSql(tableName), server);
      }
      assert Progress() == Replay(t0, KeySteps(Current()), server);
      if halt.Some? {
        ReplayHalted(Progress(), CustomSteps(Current()), server);
      } else {
        ghost var t1 := Progress();
        if Truthy(customSql) {
          Issue(CustomSql, customSql, server);
        }
        assert Progress() == Replay(t1, CustomSteps(Current()), server);
      }
    }

    /** `post_process`: a custom_sql naming a file is fed to the mysql client,
        and any output kills the process; any other non-empty custom_sql is
        sent as a query. */
    method PostProcess(isFile: string -> bool, server: Server)
      requires halt.None?
      modifies this`log, this`halt
      ensures Current() == old(Current())
      ensures Progress() == Replay(old(Progress()), PostSteps(old(Current()), isFile), server)
    {
      if Truthy(customSql) {
        if isFile(customSql) {
          var command := ScriptCommand(dbHost, dbUser, dbPassword, db, customSql);
          var out := server.shell(log, command);
          log := log + [Step(PostScript, Script(command))];
          if Truthy(out) {
            halt := Some(Failure(PostScript, out));
          }
        } else {
          Issue(CustomSql, customSql, server);
        }
      }
    }
  }
}
