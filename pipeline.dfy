/** The importer's run as a list of steps: the statements it plans to issue,
    in order, and how the replies of the database server (and of the `mysql`
    client for a script) cut that list short at the first fatal failure. */
module Pipeline {
  import opened PhpStrings
  import opened Statements
  import opened Config

  datatype Option<T> = None | Some(value: T)

  /** Which part of the importer issues a statement. */
  datatype Stage =
    | FindingCsv          // the constructor's check that the csv file exists; issues nothing
    | Truncating          // create_table, when the existing table is kept
    | Dropping            // create_table, before the table is rebuilt
    | Creating            // create_table, the CREATE TABLE statement
    | Inserting(row: nat) // add_data, the data record with this 0-based index
    | AddingKey           // add_data, the ALTER adding the key column
    | CustomSql           // custom_sql sent as a query
    | PostScript          // post_process, a custom_sql file run by the mysql client

  datatype Action = Query(sql: string) | Script(command: string)

  /** One statement issued, tagged with the stage that issued it. */
  datatype Step = Step(stage: Stage, action: Action)

  /** What `mysql_query` returns: true, or false with `mysql_error()`. */
  datatype Reply = Ok | Error(message: string)

  /** The outside world as an oracle. `sql` answers a query and `shell` gives
      the output of a command; both may depend on everything issued before. */
  datatype Server = Server(sql: (seq<Step>, string) -> Reply, shell: (seq<Step>, string) -> string)

  /** Why the process died: the stage that failed and the server's message or
      the script's output. */
  datatype Failure = Failure(stage: Stage, detail: string)

  /** What has been issued so far, and whether the process has died. */
  datatype Trace = Trace(log: seq<Step>, halt: Option<Failure>)

  /** Every query except the TRUNCATE is followed by `|| die(...)`; the
      `mysql` client command dies on any output instead. */
  predicate Checked(stage: Stage)
  {
    !stage.Truncating?
  }

  /** The text `die` prints. */
  function Message(f: Failure): string
  {
    match f.stage
    case FindingCsv => f.detail
    case Truncating => ""   // never fatal
    case Dropping => "Error dropping table"
    case Creating => "Error creating table"
    case Inserting(row) => "Error adding data table at " + NatToString(row) + ": " + f.detail
    case AddingKey => "Error creating index"
    case CustomSql => "Error running custom_sql: " + f.detail
    case PostScript => f.detail
  }

  /** Whether issuing `step` after `history` kills the process: a checked
      query the server rejects, or a script whose output is truthy. */
  function Fails(server: Server, history: seq<Step>, step: Step): (r: Option<Failure>)
    ensures r.Some? ==> r.value.stage == step.stage && Checked(step.stage)
  {
    if !Checked(step.stage) then None
    else match step.action
      case Query(q) => (
        match server.sql(history, q)
        case Ok => None
        case Error(m) => Some(Failure(step.stage, m)))
      case Script(c) =>
        var out := server.shell(history, c);
        if Truthy(out) then Some(Failure(step.stage, out)) else None
  }

  /** Issue one step, unless the process is already dead. */
  function Perform(t: Trace, step: Step, server: Server): Trace
  {
    if t.halt.Some? then t else Trace(t.log + [step], Fails(server, t.log, step))
  }

  /** Issue the steps one after another. */
  function Replay(t: Trace, steps: seq<Step>, server: Server): Trace
    decreases |steps|
  {
    if steps == [] then t else Replay(Perform(t, steps[0], server), steps[1..], server)
  }

  lemma {:induction false} ReplayHalted(t: Trace, steps: seq<Step>, server: Server)
    requires t.halt.Some?
    ensures Replay(t, steps, server) == t
    decreases |steps|
  {
    if steps != [] {
      ReplayHalted(t, steps[1..], server);
    }
  }

  lemma {:induction false} ReplayAppend(t: Trace, a: seq<Step>, b: seq<Step>, server: Server)
    ensures Replay(t, a + b, server) == Replay(Replay(t, a, server), b, server)
    decreases |a|
  {
    if a == [] {
      assert a + b == b;
    } else {
      assert (a + b)[0] == a[0];
      assert (a + b)[1..] == a[1..] + b;
      ReplayAppend(Perform(t, a[0], server), a[1..], b, server);
    }
  }

  lemma ReplaySnoc(t: Trace, a: seq<Step>, step: Step, server: Server)
    ensures Replay(t, a + [step], server) == Perform(Replay(t, a, server), step, server)
  {
    ReplayAppend(t, a, [step], server);
  }

  lemma ReplayPair(t: Trace, a: Step, b: Step, server: Server)
    ensures Replay(t, [a, b], server) == Perform(Perform(t, a, server), b, server)
  {
    var t1 := Perform(t, a, server);
    assert [a, b][1..] == [b];
    assert Replay(t, [a, b], server) == Replay(t1, [b], server);
    assert [b][1..] == [];
    assert Replay(t1, [b], server) == Replay(Perform(t1, b, server), [], server);
  }

  lemma ReplayThree(t: Trace, a: seq<Step>, b: seq<Step>, c: seq<Step>, server: Server)
    ensures Replay(t, a + b + c, server) == Replay(Replay(Replay(t, a, server), b, server), c, server)
  {
    ReplayAppend(t, a + b, c, server);
    ReplayAppend(t, a, b, server);
  }

  /** Once a prefix of the steps has killed the process, the rest issue nothing. */
  lemma ReplayStopsAfterHalt(t: Trace, a: seq<Step>, b: seq<Step>, server: Server)
    requires Replay(t, a, server).halt.Some?
    ensures Replay(t, a + b, server) == Replay(t, a, server)
  {
    ReplayAppend(t, a, b, server);
    ReplayHalted(Replay(t, a, server), b, server);
  }

  /** What a run from a live trace issues: a prefix of its steps, all of
      them unless it dies, and when it dies the failure of the last one. */
  lemma {:induction false} ReplayIssues(log0: seq<Step>, steps: seq<Step>, server: Server)
    ensures var t := Replay(Trace(log0, None), steps, server);
      var k := |t.log| - |log0|;
      && 0 <= k <= |steps|
      && t.log == log0 + steps[..k]
      && (t.halt.None? ==> k == |steps|)
      && (t.halt.Some? ==> k > 0 && t.halt == Fails(server, t.log[..|t.log| - 1], t.log[|t.log| - 1]))
    decreases |steps|
  {
    var t := Replay(Trace(log0, None), steps, server);
    if steps == [] {
      assert steps[..0] == [];
    } else {
      var s0 := steps[0];
      var f := Fails(server, log0, s0);
      var t1 := Trace(log0 + [s0], f);
      assert Perform(Trace(log0, None), s0, server) == t1;
      assert t == Replay(t1, steps[1..], server);
      if f.Some? {
        ReplayHalted(t1, steps[1..], server);
        assert steps[..1] == [s0];
        assert t.log[..|log0|] == log0;
      } else {
        ReplayIssues(log0 + [s0], steps[1..], server);
        var k := |t.log| - |log0|;
        assert log0 + [s0] + steps[1..][..k - 1] == log0 + steps[..k];
      }
    }
  }

  /** Fatal stop: a run issues a prefix of its steps, in order; every issued
      step but the last went through; the process dies exactly when the last
      issued step failed, and then with that failure; a run that does not die
      issues every step. */
  lemma {:induction false} ReplayStopsAtFirstFailure(log0: seq<Step>, steps: seq<Step>, server: Server)
    ensures var t := Replay(Trace(log0, None), steps, server);
      var k := |t.log| - |log0|;
      && 0 <= k <= |steps|
      && t.log == log0 + steps[..k]
      && (forall j :: |log0| <= j < |t.log| ==>
            (Fails(server, t.log[..j], t.log[j]).None? <==> (j < |t.log| - 1 || t.halt.None?)))
      && (t.halt.None? ==> k == |steps|)
      && (t.halt.Some? ==> k > 0 && t.halt == Fails(server, t.log[..|t.log| - 1], t.log[|t.log| - 1]))
    decreases |steps|
  {
    var t := Replay(Trace(log0, None), steps, server);
    ReplayIssues(log0, steps, server);
    if steps != [] {
      var s0 := steps[0];
      var f := Fails(server, log0, s0);
      var t1 := Trace(log0 + [s0], f);
      assert Perform(Trace(log0, None), s0, server) == t1;
      assert t == Replay(t1, steps[1..], server);
      if f.Some? {
        ReplayHalted(t1, steps[1..], server);
      } else {
        ReplayStopsAtFirstFailure(log0 + [s0], steps[1..], server);
        forall j | |log0| <= j < |t.log|
          ensures Fails(server, t.log[..j], t.log[j]).None? <==> (j < |t.log| - 1 || t.halt.None?)
        {
          if j == |log0| {
            assert t.log[..j] == log0;
            assert t.log[j] == s0;
          }
        }
      }
    }
  }

  /** The part of `ReplayStopsAtFirstFailure` most callers need: what was
      issued, and which stage a fatal failure belongs to. */
  lemma ReplayIssuesPrefix(log0: seq<Step>, steps: seq<Step>, server: Server)
    ensures var t := Replay(Trace(log0, None), steps, server);
      && |log0| <= |t.log| <= |log0| + |steps|
      && t.log == log0 + steps[..|t.log| - |log0|]
      && (t.halt.None? ==> |t.log| == |log0| + |steps|)
      && (t.halt.Some? ==> |t.log| > |log0| && t.halt.value.stage == t.log[|t.log| - 1].stage)
  {
    ReplayIssues(log0, steps, server);
  }

  // The plan: what the importer issues, in order, if nothing fails.

  /** `create_table`: keep the table (truncating it when asked) or drop it and
      create it from the column list. */
  function ProvisionSteps(s: Settings, records: seq<seq<string>>): seq<Step>
  {
    if !s.create then
      (if s.truncate then [Step(Truncating, Query(TruncateSql(s.tableName)))] else [])
    else
      [Step(Dropping, Query(DropSql(s.tableName))),
       Step(Creating, Query(CreateSql(s.tableName, ColumnNames(ChosenColumns(s.columns, records)), s.varcharSize)))]
  }

  /** The records after the header, which `add_data` reads past once. */
  function DataRecords(records: seq<seq<string>>): seq<seq<string>>
  {
    if records == [] then [] else records[1..]
  }

  function InsertStep(s: Settings, escape: string -> string, record: seq<string>, row: nat): Step
  {
    Step(Inserting(row), Query(InsertSql(s.tableName, s.insertIgnore, EscapeAll(escape, record))))
  }

  /** One INSERT per data record, in order. */
  function InsertSteps(s: Settings, escape: string -> string, rows: seq<seq<string>>): seq<Step>
  {
    seq(|rows|, i requires 0 <= i < |rows| => InsertStep(s, escape, rows[i], i))
  }

  /** The key column is added only on the path that created the table. */
  function KeySteps(s: Settings): seq<Step>
  {
    if s.create && s.firstColumnKey then [Step(AddingKey, Query(AlterSql(s.tableName)))] else []
  }

  /** The end of `add_data`: custom_sql sent as a query when it is not empty. */
  function CustomSteps(s: Settings): seq<Step>
  {
    if Truthy(s.customSql) then [Step(CustomSql, Query(s.customSql))] else []
  }

  /** What `add_data` issues after `create_table` reads only the table name,
      the insert_ignore flag, whether the key column is wanted and
      custom_sql. */
  lemma LoadStepsReadOnly(s: Settings, t: Settings, escape: string -> string, rows: seq<seq<string>>)
    requires s.tableName == t.tableName && s.insertIgnore == t.insertIgnore && s.customSql == t.customSql
    requires (s.create && s.firstColumnKey) == (t.create && t.firstColumnKey)
    ensures InsertSteps(s, escape, rows) + KeySteps(s) + CustomSteps(s)
         == InsertSteps(t, escape, rows) + KeySteps(t) + CustomSteps(t)
  {
    assert InsertSteps(s, escape, rows) == InsertSteps(t, escape, rows);
  }

  /** `add_data`, `create_table` included. */
  function LoadPlan(s: Settings, records: seq<seq<string>>, escape: string -> string): seq<Step>
  {
    ProvisionSteps(s, records) + InsertSteps(s, escape, DataRecords(records)) + KeySteps(s) + CustomSteps(s)
  }

  /** `post_process`: a custom_sql naming a file is run by the mysql client,
      any other non-empty custom_sql is sent as a query (again). */
  function PostSteps(s: Settings, isFile: string -> bool): seq<Step>
  {
    if !Truthy(s.customSql) then []
    else if isFile(s.customSql) then [Step(PostScript, Script(ScriptCommand(s.dbHost, s.dbUser, s.dbPassword, s.db, s.customSql)))]
    else [Step(CustomSql, Query(s.customSql))]
  }

  /** Everything the importer issues once connected. */
  function Plan(s: Settings, records: seq<seq<string>>, escape: string -> string, isFile: string -> bool): seq<Step>
  {
    LoadPlan(s, records, escape) + PostSteps(s, isFile)
  }

  /** The order of the stages: provisioning, inserts, key column, custom SQL. */
  function Rank(stage: Stage): nat
  {
    match stage
    case FindingCsv => 0
    case Truncating => 0
    case Dropping => 0
    case Creating => 1
    case Inserting(_) => 2
    case AddingKey => 3
    case CustomSql => 4
    case PostScript => 4
  }

  /** Where each part of a list of steps sits: the provisioning steps `prov`
      first, then `n` INSERTs numbered from 0, then `k` key-column steps,
      then only custom SQL. */
  ghost predicate PlanShape(p: seq<Step>, prov: seq<Step>, n: nat, k: nat)
  {
    && |prov| + n + k <= |p|
    && (forall j :: 0 <= j < |prov| ==> p[j] == prov[j])
    && (forall j :: |prov| <= j < |prov| + n ==> p[j].stage == Inserting(j - |prov|))
    && (forall j :: |prov| + n <= j < |prov| + n + k ==> p[j].stage == AddingKey)
    && (forall j :: |prov| + n + k <= j < |p| ==> Rank(p[j].stage) == 4)
  }

  /** Provisioning steps come before the INSERTs, in stage order. */
  ghost predicate ProvisionOrdered(prov: seq<Step>)
  {
    && (forall j :: 0 <= j < |prov| ==> Rank(prov[j].stage) < 2)
    && (forall i, j :: 0 <= i < j < |prov| ==> Rank(prov[i].stage) <= Rank(prov[j].stage))
  }

  /** Stage facts about each part of the plan. */
  lemma PartStages(s: Settings, records: seq<seq<string>>, escape: string -> string, isFile: string -> bool)
    ensures ProvisionOrdered(ProvisionSteps(s, records))
    ensures var ins := InsertSteps(s, escape, DataRecords(records));
      forall j :: 0 <= j < |ins| ==> ins[j].stage == Inserting(j)
    ensures var key := KeySteps(s);
      forall j :: 0 <= j < |key| ==> key[j].stage == AddingKey
    ensures var custom := CustomSteps(s);
      forall j :: 0 <= j < |custom| ==> Rank(custom[j].stage) == 4
    ensures var post := PostSteps(s, isFile);
      forall j :: 0 <= j < |post| ==> Rank(post[j].stage) == 4
  {
  }

  /** The shape of five parts put one after the other, and where each part's
      steps end up. */
  lemma ShapeOfParts(prov: seq<Step>, ins: seq<Step>, key: seq<Step>, custom: seq<Step>, post: seq<Step>)
    requires forall j :: 0 <= j < |ins| ==> ins[j].stage == Inserting(j)
    requires forall j :: 0 <= j < |key| ==> key[j].stage == AddingKey
    requires forall j :: 0 <= j < |custom| ==> Rank(custom[j].stage) == 4
    requires forall j :: 0 <= j < |post| ==> Rank(post[j].stage) == 4
    ensures PlanShape(prov + ins + key + custom, prov, |ins|, |key|)
    ensures var p := prov + ins + key + custom + post;
      && PlanShape(p, prov, |ins|, |key|)
      && (forall j :: |prov| <= j < |prov| + |ins| ==> p[j] == ins[j - |prov|])
      && (forall j :: |prov| + |ins| <= j < |prov| + |ins| + |key| ==> p[j] == key[j - |prov| - |ins|])
      && (|custom| == 1 && |post| == 1 ==> p[|p| - 2] == custom[0] && p[|p| - 1] == post[0])
  {
  }

  /** The INSERT positions of a list of steps of this shape. */
  lemma ShapeLayout(p: seq<Step>, prov: seq<Step>, n: nat, k: nat)
    requires PlanShape(p, prov, n, k) && ProvisionOrdered(prov)
    ensures InsertLayout(p, |prov|, n)
  {
  }

  /** A list of steps of this shape is in stage order. */
  lemma ShapeInOrder(p: seq<Step>, prov: seq<Step>, n: nat, k: nat)
    requires PlanShape(p, prov, n, k) && ProvisionOrdered(prov)
    ensures forall i, j :: 0 <= i < j < |p| ==>
      && Rank(p[i].stage) <= Rank(p[j].stage)
      && (p[i].stage.Inserting? && p[j].stage.Inserting? ==> p[i].stage.row < p[j].stage.row)
  {
  }

  /** In a list of steps of this shape, everything after provisioning ranks
      from the INSERTs up, the key-column steps are exactly the `k` after the
      INSERTs, and nothing before custom SQL ranks as custom SQL. */
  lemma ShapeRanks(p: seq<Step>, prov: seq<Step>, n: nat, k: nat)
    requires PlanShape(p, prov, n, k) && ProvisionOrdered(prov)
    ensures forall j :: |prov| <= j < |p| ==> Rank(p[j].stage) >= 2
    ensures forall j :: 0 <= j < |p| ==> (p[j].stage == AddingKey <==> |prov| + n <= j < |prov| + n + k)
    ensures forall j :: 0 <= j < |prov| + n + k ==> Rank(p[j].stage) < 4
  {
  }

  lemma PlanShapes(s: Settings, records: seq<seq<string>>, escape: string -> string, isFile: string -> bool)
    ensures var prov := ProvisionSteps(s, records);
      var n := |DataRecords(records)|;
      var k := |KeySteps(s)|;
      && ProvisionOrdered(prov)
      && PlanShape(LoadPlan(s, records, escape), prov, n, k)
      && PlanShape(Plan(s, records, escape, isFile), prov, n, k)
    ensures var p := Plan(s, records, escape, isFile);
      var prov := ProvisionSteps(s, records);
      var ins := InsertSteps(s, escape, DataRecords(records));
      var key := KeySteps(s);
      var custom := CustomSteps(s);
      var post := PostSteps(s, isFile);
      && (forall j :: |prov| <= j < |prov| + |ins| ==> p[j] == ins[j - |prov|])
      && (forall j :: |prov| + |ins| <= j < |prov| + |ins| + |key| ==> p[j] == key[j - |prov| - |ins|])
      && (|custom| == 1 && |post| == 1 ==> p[|p| - 2] == custom[0] && p[|p| - 1] == post[0])
  {
    PartStages(s, records, escape, isFile);
    ShapeOfParts(ProvisionSteps(s, records), InsertSteps(s, escape, DataRecords(records)),
                 KeySteps(s), CustomSteps(s), PostSteps(s, isFile));
  }

  /** Provisioning when the table is kept: no DROP, no CREATE and no key
      column anywhere in the run, and a TRUNCATE first exactly when truncate
      is set. */
  lemma KeptTableProvisioning(s: Settings, records: seq<seq<string>>, escape: string -> string, isFile: string -> bool)
    requires !s.create
    ensures var p := Plan(s, records, escape, isFile);
      && (forall i :: 0 <= i < |p| ==>
            p[i].stage != Dropping && p[i].stage != Creating && p[i].stage != AddingKey)
      && ((exists i :: 0 <= i < |p| && p[i].stage == Truncating) <==> s.truncate)
      && (s.truncate ==> p[0] == Step(Truncating, Query(TruncateSql(s.tableName))))
  {
    var p := Plan(s, records, escape, isFile);
    var prov := ProvisionSteps(s, records);
    PlanShapes(s, records, escape, isFile);
    ShapeRanks(p, prov, |DataRecords(records)|, |KeySteps(s)|);
    assert forall i :: 0 <= i < |p| && i < |prov| ==> p[i].stage == Truncating;
    if s.truncate {
      assert p[0].stage == Truncating;
    }
  }

  /** Provisioning when the table is rebuilt: DROP first, then the CREATE
      TABLE of the column list, and no TRUNCATE. */
  lemma RebuiltTableProvisioning(s: Settings, records: seq<seq<string>>, escape: string -> string, isFile: string -> bool)
    requires s.create
    ensures var p := Plan(s, records, escape, isFile);
      && p[0] == Step(Dropping, Query(DropSql(s.tableName)))
      && p[1] == Step(Creating, Query(CreateSql(s.tableName, ColumnNames(ChosenColumns(s.columns, records)), s.varcharSize)))
      && forall i :: 0 <= i < |p| ==> p[i].stage != Truncating
  {
    var p := Plan(s, records, escape, isFile);
    var prov := ProvisionSteps(s, records);
    PlanShapes(s, records, escape, isFile);
    ShapeRanks(p, prov, |DataRecords(records)|, |KeySteps(s)|);
    assert p[0] == prov[0] && p[1] == prov[1];
    forall i | 0 <= i < |p| ensures p[i].stage != Truncating {
      if i < 2 {
        assert p[i] == prov[i];
      }
    }
  }

  /** Where the INSERTs sit in a list of steps: exactly the positions
      `start .. start + n - 1`, the one at `start + r` for data row `r`, after
      the provisioning steps and before the rest. */
  ghost predicate InsertLayout(p: seq<Step>, start: nat, n: nat)
  {
    && start + n <= |p|
    && (forall j :: 0 <= j < |p| ==> (p[j].stage.Inserting? <==> start <= j < start + n))
    && (forall j :: start <= j < start + n ==> p[j].stage == Inserting(j - start))
    && (forall j :: 0 <= j < start ==> Rank(p[j].stage) < 2)
    && (forall j :: start + n <= j < |p| ==> Rank(p[j].stage) > 2)
  }

  lemma LoadPlanLayout(s: Settings, records: seq<seq<string>>, escape: string -> string)
    ensures InsertLayout(LoadPlan(s, records, escape), |ProvisionSteps(s, records)|, |DataRecords(records)|)
  {
    PlanShapes(s, records, escape, _ => false);
    ShapeLayout(LoadPlan(s, records, escape), ProvisionSteps(s, records), |DataRecords(records)|, |KeySteps(s)|);
  }

  lemma PlanLayout(s: Settings, records: seq<seq<string>>, escape: string -> string, isFile: string -> bool)
    ensures InsertLayout(Plan(s, records, escape, isFile), |ProvisionSteps(s, records)|, |DataRecords(records)|)
  {
    PlanShapes(s, records, escape, isFile);
    ShapeLayout(Plan(s, records, escape, isFile), ProvisionSteps(s, records), |DataRecords(records)|, |KeySteps(s)|);
  }

  lemma InsertStepsOfRecords(s: Settings, escape: string -> string, records: seq<seq<string>>)
    requires records != []
    ensures var ins := InsertSteps(s, escape, DataRecords(records));
      && |ins| == |records| - 1
      && forall k :: 0 <= k < |ins| ==> ins[k] == InsertStep(s, escape, records[k + 1], k)
  {
  }

  /** The header record is read past once and every other record gets one
      INSERT, in record order, right after provisioning. */
  lemma InsertsFollowRecords(s: Settings, records: seq<seq<string>>, escape: string -> string, isFile: string -> bool)
    requires records != []
    ensures var p := Plan(s, records, escape, isFile);
      var start := |ProvisionSteps(s, records)|;
      && start + |records| - 1 <= |p|
      && (forall j :: 0 <= j < |p| ==> (p[j].stage.Inserting? <==> start <= j < start + |records| - 1))
      && (forall j :: start <= j < start + |records| - 1 ==>
            p[j] == InsertStep(s, escape, records[j - start + 1], j - start))
  {
    PlanLayout(s, records, escape, isFile);
    PlanShapes(s, records, escape, isFile);
    InsertStepsOfRecords(s, escape, records);
  }

  /** The key column is added exactly when the table was created with
      first_column_key set, and then right after the last INSERT. */
  lemma KeyAfterInserts(s: Settings, records: seq<seq<string>>, escape: string -> string, isFile: string -> bool)
    ensures var p := Plan(s, records, escape, isFile);
      var start := |ProvisionSteps(s, records)| + |DataRecords(records)|;
      && ((exists j :: 0 <= j < |p| && p[j].stage == AddingKey) <==> s.create && s.firstColumnKey)
      && (s.create && s.firstColumnKey ==> p[start] == Step(AddingKey, Query(AlterSql(s.tableName))))
      && (forall i, j :: 0 <= i < |p| && 0 <= j < |p| && p[i].stage.Inserting? && p[j].stage == AddingKey ==> i < j)
  {
    var p := Plan(s, records, escape, isFile);
    var prov := ProvisionSteps(s, records);
    var ins := InsertSteps(s, escape, DataRecords(records));
    PlanShapes(s, records, escape, isFile);
    ShapeRanks(p, prov, |ins|, |KeySteps(s)|);
    ShapeLayout(p, prov, |ins|, |KeySteps(s)|);
    if s.create && s.firstColumnKey {
      assert p[|prov| + |ins| + 0] == KeySteps(s)[0];
    }
  }

  /** custom_sql, when not empty, is sent as a query at the end of add_data
      and then handled again by post_process: sent as a query once more, or
      run as a script when it names a file. These are the last two steps. */
  lemma CustomSqlRunsTwice(s: Settings, records: seq<seq<string>>, escape: string -> string, isFile: string -> bool)
    ensures var p := Plan(s, records, escape, isFile);
      && (Truthy(s.customSql) ==>
            && |p| >= 2
            && p[|p| - 2] == Step(CustomSql, Query(s.customSql))
            && p[|p| - 1] == (if isFile(s.customSql)
                              then Step(PostScript, Script(ScriptCommand(s.dbHost, s.dbUser, s.dbPassword, s.db, s.customSql)))
                              else Step(CustomSql, Query(s.customSql))))
      && (!Truthy(s.customSql) ==> forall i :: 0 <= i < |p| ==> Rank(p[i].stage) < 4)
  {
    var p := Plan(s, records, escape, isFile);
    var prov := ProvisionSteps(s, records);
    var ins := InsertSteps(s, escape, DataRecords(records));
    PlanShapes(s, records, escape, isFile);
    if !Truthy(s.customSql) {
      ShapeRanks(p, prov, |ins|, |KeySteps(s)|);
    }
  }

  /** A run of steps whose only custom SQL is a query at the second last
      position followed by a script: when it dies on the custom SQL, the
      query was the last step issued and the script was never run. */
  lemma HaltBeforeScript(p: seq<Step>, sql: string, server: Server)
    requires |p| >= 2
    requires forall j :: 0 <= j < |p| - 2 ==> Rank(p[j].stage) < 4
    requires p[|p| - 2] == Step(CustomSql, Query(sql)) && p[|p| - 1].stage == PostScript
    ensures var t := Replay(Trace([], None), p, server);
      t.halt.Some? && t.halt.value.stage == CustomSql ==>
        && |t.log| == |p| - 1
        && t.log[|t.log| - 1] == Step(CustomSql, Query(sql))
        && forall i :: 0 <= i < |t.log| ==> t.log[i].stage != PostScript
  {
    var t := Replay(Trace([], None), p, server);
    ReplayIssuesPrefix([], p, server);
    if t.halt.Some? && t.halt.value.stage == CustomSql {
      var m := |t.log|;
      assert t.log == p[..m];
      assert p[m - 1].stage == CustomSql;
      assert m - 1 == |p| - 2;
      forall i | 0 <= i < m ensures t.log[i].stage != PostScript {
        assert t.log[i] == p[i];
      }
    }
  }

  /** A custom_sql naming a file is first sent as a query by `add_data`: when
      the server rejects the path as SQL, the process dies there, with the
      whole plan but the script issued, and the `mysql` client never runs
      the file. */
  lemma RejectedFileCustomSqlSkipsScript(s: Settings, records: seq<seq<string>>, escape: string -> string,
                                        isFile: string -> bool, server: Server)
    requires Truthy(s.customSql) && isFile(s.customSql)
    ensures var p := Plan(s, records, escape, isFile);
      var t := Replay(Trace([], None), p, server);
      t.halt.Some? && t.halt.value.stage == CustomSql ==>
        && t.log == p[..|p| - 1]
        && t.log[|t.log| - 1] == Step(CustomSql, Query(s.customSql))
        && forall i :: 0 <= i < |t.log| ==> t.log[i].stage != PostScript
  {
    var p := Plan(s, records, escape, isFile);
    var prov := ProvisionSteps(s, records);
    var n := |DataRecords(records)|;
    var k := |KeySteps(s)|;
    PlanShapes(s, records, escape, isFile);
    ShapeRanks(p, prov, n, k);
    assert |p| == |prov| + n + k + 2;
    HaltBeforeScript(p, s.customSql, server);
    ReplayIssuesPrefix([], p, server);
  }

  /** The stages come in order: provisioning, INSERTs in row order, the key
      column, custom SQL. */
  lemma PlanInStageOrder(s: Settings, records: seq<seq<string>>, escape: string -> string, isFile: string -> bool)
    ensures var p := Plan(s, records, escape, isFile);
      forall i, j :: 0 <= i < j < |p| ==>
        && Rank(p[i].stage) <= Rank(p[j].stage)
        && (p[i].stage.Inserting? && p[j].stage.Inserting? ==> p[i].stage.row < p[j].stage.row)
  {
    PlanShapes(s, records, escape, isFile);
    ShapeInOrder(Plan(s, records, escape, isFile), ProvisionSteps(s, records), |DataRecords(records)|, |KeySteps(s)|);
  }

  // Counting the rows loaded.

  function CountInserts(log: seq<Step>): nat
  {
    if log == [] then 0
    else CountInserts(log[..|log| - 1]) + (if log[|log| - 1].stage.Inserting? then 1 else 0)
  }

  /** The steps that went through: all of the log but a fatal last one. */
  function Completed(t: Trace): seq<Step>
  {
    if t.halt.Some? && t.log != [] then t.log[..|t.log| - 1] else t.log
  }

  /** `$row`: the INSERTs that went through. */
  function LoadedRows(t: Trace): nat
  {
    CountInserts(Completed(t))
  }

  lemma {:induction false} CountInsertsOfPrefix(p: seq<Step>, start: nat, n: nat, m: nat)
    requires InsertLayout(p, start, n)
    requires m <= |p|
    ensures CountInserts(p[..m]) == if m <= start then 0 else if m <= start + n then m - start else n
  {
    if m > 0 {
      CountInsertsOfPrefix(p, start, n, m - 1);
      assert p[..m][..m - 1] == p[..m - 1];
      assert p[..m][m - 1] == p[m - 1];
    }
  }

  /** The INSERTs before step `i`: its row when it is one, none before
      the INSERTs, all of them after. */
  lemma CountBeforeStep(p: seq<Step>, start: nat, n: nat, i: nat)
    requires InsertLayout(p, start, n)
    requires i < |p|
    ensures p[i].stage.Inserting? ==> CountInserts(p[..i]) == p[i].stage.row
    ensures Rank(p[i].stage) < 2 ==> CountInserts(p[..i]) == 0
    ensures Rank(p[i].stage) > 2 ==> CountInserts(p[..i]) == n
  {
    CountInsertsOfPrefix(p, start, n, i);
  }

  /** The row counter of a run: when an INSERT kills the process, it is the
      failing row's index, which is the number of rows inserted before it;
      when provisioning does, nothing was loaded; otherwise every data row was. */
  lemma {:induction false} LoadedRowsOfLayout(p: seq<Step>, start: nat, n: nat, server: Server)
    requires InsertLayout(p, start, n)
    ensures var t := Replay(Trace([], None), p, server);
      && (t.halt.Some? && t.halt.value.stage.Inserting? ==> LoadedRows(t) == t.halt.value.stage.row)
      && (t.halt.Some? && Rank(t.halt.value.stage) < 2 ==> LoadedRows(t) == 0)
      && (t.halt.None? || Rank(t.halt.value.stage) > 2 ==> LoadedRows(t) == n)
  {
    var t := Replay(Trace([], None), p, server);
    ReplayIssuesPrefix([], p, server);
    var m := |t.log|;
    assert t.log == p[..m];
    if t.halt.Some? {
      assert t.halt.value.stage == p[m - 1].stage;
      assert Completed(t) == p[..m - 1];
      CountBeforeStep(p, start, n, m - 1);
    } else {
      assert Completed(t) == p[..|p|];
      CountInsertsOfPrefix(p, start, n, |p|);
    }
  }

  lemma RunOfLayout(p: seq<Step>, start: nat, n: nat, server: Server)
    requires InsertLayout(p, start, n)
    ensures var t := Replay(Trace([], None), p, server);
      && (t.halt.None? ==> t.log == p && LoadedRows(t) == n)
      && (t.halt.Some? && t.halt.value.stage.Inserting? ==>
            Message(t.halt.value) == "Error adding data table at " + NatToString(LoadedRows(t)) + ": " + t.halt.value.detail)
  {
    var t := Replay(Trace([], None), p, server);
    LoadedRowsOfLayout(p, start, n, server);
    ReplayIssuesPrefix([], p, server);
    if t.halt.None? {
      assert p[..|p|] == p;
    }
  }

  /** A complete run issues every step and loads every data row; a run that
      dies on an INSERT reports, in its message, how many rows went in before. */
  lemma RowCountAndMessage(s: Settings, records: seq<seq<string>>, escape: string -> string, isFile: string -> bool, server: Server)
    ensures var t := Replay(Trace([], None), Plan(s, records, escape, isFile), server);
      && (t.halt.None? ==> t.log == Plan(s, records, escape, isFile) && LoadedRows(t) == |DataRecords(records)|)
      && (t.halt.Some? && t.halt.value.stage.Inserting? ==>
            Message(t.halt.value) == "Error adding data table at " + NatToString(LoadedRows(t)) + ": " + t.halt.value.detail)
  {
    PlanLayout(s, records, escape, isFile);
    RunOfLayout(Plan(s, records, escape, isFile), |ProvisionSteps(s, records)|, |DataRecords(records)|, server);
  }

  /** The row counter at the end of `add_data`: the failing row's index when
      an INSERT kills the process, nothing when provisioning does, every data
      row otherwise. */
  lemma LoadPlanRowCount(s: Settings, records: seq<seq<string>>, escape: string -> string, server: Server)
    ensures var t := Replay(Trace([], None), LoadPlan(s, records, escape), server);
      && (t.halt.Some? && t.halt.value.stage.Inserting? ==> LoadedRows(t) == t.halt.value.stage.row)
      && (t.halt.Some? && Rank(t.halt.value.stage) < 2 ==> LoadedRows(t) == 0)
      && (t.halt.None? || Rank(t.halt.value.stage) > 2 ==> LoadedRows(t) == |DataRecords(records)|)
  {
    LoadPlanLayout(s, records, escape);
    LoadedRowsOfLayout(LoadPlan(s, records, escape), |ProvisionSteps(s, records)|, |DataRecords(records)|, server);
  }

  lemma InsertStepsSnoc(s: Settings, escape: string -> string, rows: seq<seq<string>>, k: nat)
    requires k < |rows|
    ensures InsertSteps(s, escape, rows[..k + 1]) == InsertSteps(s, escape, rows[..k]) + [InsertStep(s, escape, rows[k], k)]
  {
  }

  /** When the INSERT of row `k` kills the process, the rest of `add_data`
      issues nothing. */
  lemma HaltDuringInserts(t: Trace, s: Settings, escape: string -> string, rows: seq<seq<string>>, k: nat, server: Server)
    requires k < |rows|
    requires Replay(t, InsertSteps(s, escape, rows[..k + 1]), server).halt.Some?
    ensures Replay(t, InsertSteps(s, escape, rows) + KeySteps(s) + CustomSteps(s), server)
         == Replay(t, InsertSteps(s, escape, rows[..k + 1]), server)
  {
    var ins := InsertSteps(s, escape, rows);
    var done := InsertSteps(s, escape, rows[..k + 1]);
    assert ins + KeySteps(s) + CustomSteps(s) == done + (ins[k + 1..] + KeySteps(s) + CustomSteps(s));
    ReplayAppend(t, done, ins[k + 1..] + KeySteps(s) + CustomSteps(s), server);
    ReplayHalted(Replay(t, done, server), ins[k + 1..] + KeySteps(s) + CustomSteps(s), server);
  }

  /** `add_data` after `create_table`: the INSERTs, the key column and custom
      SQL, issued from where provisioning stopped. */
  lemma LoadPlanAfterProvisioning(s: Settings, records: seq<seq<string>>, escape: string -> string, server: Server)
    ensures Replay(Trace([], None), LoadPlan(s, records, escape), server)
         == Replay(Replay(Trace([], None), ProvisionSteps(s, records), server),
                   InsertSteps(s, escape, DataRecords(records)) + KeySteps(s) + CustomSteps(s), server)
  {
    var prov := ProvisionSteps(s, records);
    var rest := InsertSteps(s, escape, DataRecords(records)) + KeySteps(s) + CustomSteps(s);
    assert LoadPlan(s, records, escape) == prov + rest;
    ReplayAppend(Trace([], None), prov, rest, server);
  }

  /** When provisioning kills the process, `add_data` issues nothing more. */
  lemma HaltDuringProvisioning(s: Settings, records: seq<seq<string>>, escape: string -> string, server: Server)
    requires Replay(Trace([], None), ProvisionSteps(s, records), server).halt.Some?
    ensures Replay(Trace([], None), LoadPlan(s, records, escape), server)
         == Replay(Trace([], None), ProvisionSteps(s, records), server)
    ensures Rank(Replay(Trace([], None), ProvisionSteps(s, records), server).halt.value.stage) < 2
  {
    var t1 := Replay(Trace([], None), ProvisionSteps(s, records), server);
    LoadPlanAfterProvisioning(s, records, escape, server);
    ReplayHalted(t1, InsertSteps(s, escape, DataRecords(records)) + KeySteps(s) + CustomSteps(s), server);
    ReplayIssuesPrefix([], ProvisionSteps(s, records), server);
  }
}
