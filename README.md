# csv2mysql, modelled in Dafny

`csv2mysql.php` is a command-line script that loads a csv file into a MySQL
table. The `csv2mysql` class has four steps:

- Its constructor merges the configuration into its properties and names
  the table and database after the csv file when they are not configured.
- `create_table` keeps the table (truncating it when truncate is set) or
  drops it and creates it again. The new table has one VARCHAR column per
  header cell or per configured column name, each name rewritten by
  `sanitize`.
- `add_data` sends one INSERT per data record, then the ALTER that adds a
  `<table>_id` primary key, then the custom SQL.
- `post_process` handles the custom SQL once more: as a query, or as a
  script for the `mysql` client.

Every query the model issues, except the TRUNCATE, is followed by
`|| die(...)`, and the `mysql` client command dies on any output, so the
first rejected statement ends the run.

The model has six modules:

- `PhpStrings` (strings.dfy): the PHP string primitives the script uses.
  These are truthiness, `implode`, `str_replace` of a string, `basename`
  and integer interpolation.
- `Sanitizer` (sanitizer.dfy): `sanitize`, written as the two `str_replace`
  passes. It is proved equal to an independent one-character-at-a-time
  definition.
- `Config` (config.dfy): the property defaults, the truthy-only merge of
  configuration variables, the csv argument, and the table and database
  name defaulting.
- `Statements` (statements.dfy): the text of every statement. These are
  DROP, CREATE TABLE (with the rewritten column list), TRUNCATE, INSERT,
  ALTER, and the `mysql` client command.
- `Pipeline` (pipeline.dfy): a run as a list of steps, each a statement
  tagged with the stage that issues it. `Plan` is everything the importer
  issues if nothing fails. `Replay` issues steps one at a time against a
  server oracle and stops at the first fatal failure. The lemmas state the
  order, the provisioning rules and the row counter.
- `Importer` (importer.dfy): the class `Csv2Mysql`. Its fields are the
  script's properties, plus the log of steps issued so far and how the run
  ended. Its methods append to the log in the order the script issues
  statements. Each method is proved to leave the log equal to a `Replay`
  of the matching part of `Plan`, and the properties equal to a function
  of their old values.

The outside world is a set of parameters:

- The csv file is a sequence of records that have already been split.
- `mysql_real_escape_string` is an abstract function `escape`.
- `is_file` is an abstract predicate `isFile`.
- The variables the configuration files define are a `ConfigFile` value.
- The command line arguments are two strings.
- `mysql_query` and `shell_exec` are a `Server` value. Its two functions
  answer a query or a command, and may depend on everything issued before.

## Model

| member | source | states |
|---|---|---|
| Sanitizer.SanitizeByCharacter | csv2mysql.php:274-278 | the two `str_replace` passes equal a one-pass rewrite: each space becomes `_`, each reserved character is deleted, every other character is kept in order |
| Sanitizer.SanitizeIsClean | csv2mysql.php:274-278 | the output has no space and no reserved character, and is never longer than the input |
| Sanitizer.SanitizeFixedPoints | csv2mysql.php:274-278 | `sanitize` returns its input unchanged exactly when the input is already clean |
| Sanitizer.SanitizeIdempotent | csv2mysql.php:274-278 | sanitizing twice gives the same result as sanitizing once |
| Sanitizer.SanitizeAppend | csv2mysql.php:274-278 | sanitizing a concatenation is concatenating the sanitized parts |
| PhpStrings.RemoveAll | csv2mysql.php:108 | deleting every occurrence of a pattern never lengthens the string |
| PhpStrings.RemoveAllNoOccurrence | csv2mysql.php:108 | deleting a pattern that does not occur changes nothing |
| PhpStrings.RemoveAllAppend | csv2mysql.php:108 | the deletion splits at a seam that no occurrence crosses |
| PhpStrings.CsvExtensionRemoved | csv2mysql.php:108 | deleting `.csv` from `stem.csv` is deleting it from `stem`: the extension always goes |
| PhpStrings.Basename | csv2mysql.php:108 | the base name contains no `/` |
| PhpStrings.BasenameOfFile | csv2mysql.php:108 | the base name of `dir/name` is `name` |
| PhpStrings.NatToString | csv2mysql.php:168 | the row number in the INSERT error message is a non-empty string of decimal digits |
| PhpStrings.NatToStringValue | csv2mysql.php:168 | the digits interpolated for `$row` read back as `$row`: the rendering loses nothing |
| PhpStrings.NatToStringInjective | csv2mysql.php:168 | different row numbers give different messages |
| Config.CsvArgument | csv2mysql.php:73-85 | the command line names a csv exactly when the first argument is given and the second is truthy and is a file; the csv is then the second argument |
| Config.MergeNeverClears | csv2mysql.php:88-100 | a falsy configuration variable never overrides: every flag that is on (create, truncate, first_column_key, debug, insert_ignore) stays on; an empty or `"0"` table name, db, csv (with no csv argument), db_host, db_user, db_password or custom_sql keeps the property; a zero varchar_size keeps the width; no configuration variable sets the column list |
| Config.DefaultsCannotBeSwitchedOff | csv2mysql.php:39-100 | with the class defaults, no configuration variable can turn off create, truncate or the key column, or supply columns |
| Config.ResolvedNames | csv2mysql.php:106-114 | a configured table or database name is kept; a missing table name is the sanitized base name with `.csv` removed, and is clean; a missing database name is the table name; nothing else changes |
| Config.DefaultTableNameOfCsvFile | csv2mysql.php:107-108 | the default table name of `dir/stem.csv` is `stem` with every `.csv` removed, sanitized, and just `stem` sanitized when `stem` holds no `.csv` |
| Statements.ColumnNameIsIdentifier | csv2mysql.php:228-230 | every column name is non-empty, not `"0"` and clean; it is the sanitized entry when that is truthy and `NONE_SUPPLIED` otherwise |
| Statements.ColumnListShape | csv2mysql.php:217-231 | the configured list is used when it is non-empty and the header otherwise; there is one column per entry, in order, duplicates kept, each sanitized or replaced by the placeholder |
| Statements.BlankHeaderColumns | csv2mysql.php:228-230 | a header whose every cell sanitizes to `""` or `"0"` gives `NONE_SUPPLIED` for every column, once per cell: the repeated name is kept |
| Statements.BlankHeaderExample | csv2mysql.php:228-230 | three empty header cells give three `NONE_SUPPLIED` columns |
| Statements.TerminatedIsJoinWithSeparator | csv2mysql.php:225-232 | the text the loop appends is the column definitions joined by `", "`, with one more `", "` at the end |
| Statements.CreateLoopStep | csv2mysql.php:225-232 | one loop turn rewrites entry `i` and appends its definition and `", "` |
| Statements.CreateSqlFromLoopText | csv2mysql.php:224-236 | cutting two characters and closing the parenthesis gives `CREATE TABLE IF NOT EXISTS t (` + definitions joined by `", "` + `)`, with no trailing comma |
| Statements.ValuesTupleQuotesEachField | csv2mysql.php:159-162 | the VALUES tuple is one double-quoted escaped value per field, in field order, separated by commas, in parentheses |
| Statements.ValuesTupleOfNoFields | csv2mysql.php:162 | a record with no fields gives the tuple of one empty value |
| Statements.InsertIgnoreIff | csv2mysql.php:153-165 | `IGNORE` stands between `INSERT` and `INTO` exactly when insert_ignore is set; otherwise the two statements are identical |
| Pipeline.Fails | csv2mysql.php:168-260 | only a checked step can kill the process (a query other than TRUNCATE the server rejects, or a client command with output), and then it fails in its own stage |
| Pipeline.ReplayStopsAtFirstFailure | csv2mysql.php:139-263 | a run issues a prefix of its steps in order; every issued step but the last went through; the run dies exactly when its last step failed, with that failure; a run that does not die issues every step |
| Pipeline.ReplayStopsAfterHalt | csv2mysql.php:139-263 | once the process has died, later steps issue nothing |
| Pipeline.KeptTableProvisioning | csv2mysql.php:198-207 | when create is off, there is no DROP, CREATE or ALTER anywhere in the run, whatever first_column_key was; there is a TRUNCATE exactly when truncate is set, and it comes first |
| Pipeline.RebuiltTableProvisioning | csv2mysql.php:209-239 | when create is on, DROP comes first, then the CREATE of the rewritten column list, and there is no TRUNCATE |
| Pipeline.InsertsFollowRecords | csv2mysql.php:150-171 | the header record is read past once; every other record gets exactly one INSERT, in record order, right after provisioning |
| Pipeline.KeyAfterInserts | csv2mysql.php:174-180 | the ALTER adding `<table>_id` is issued exactly when the table was created with first_column_key set; it comes right after the last INSERT and after every INSERT |
| Pipeline.CustomSqlRunsTwice | csv2mysql.php:250-262 | non-empty custom SQL is sent as a query at the end of `add_data`, then again by `post_process` (or run by the `mysql` client when it names a file); these are the last two steps; empty custom SQL issues nothing |
| Pipeline.HaltBeforeScript | csv2mysql.php:182-258 | in a run whose custom SQL query is second last and followed by a script, dying on the query means the script is never run |
| Pipeline.RejectedFileCustomSqlSkipsScript | csv2mysql.php:182-258 | a custom_sql naming a file is first sent as a query; when the server rejects it, the run stops there with everything but the script issued, and the `mysql` client never runs the file |
| Pipeline.PlanInStageOrder | csv2mysql.php:139-184 | steps run in stage order: provisioning, INSERTs in row order, ALTER, custom SQL |
| Pipeline.LoadedRowsOfLayout | csv2mysql.php:156-171 | the row counter is the failing row's index when an INSERT dies, zero when provisioning dies, and the number of data rows otherwise |
| Pipeline.RowCountAndMessage | csv2mysql.php:168 | a complete run issues the whole plan and loads every data row; when an INSERT dies, the message reports the number of rows inserted before it |
| Pipeline.LoadPlanRowCount | csv2mysql.php:141-171 | at the end of `add_data`, the counter equals the number of INSERTs that went through |
| Pipeline.HaltDuringInserts | csv2mysql.php:168 | once an INSERT has died, `add_data` issues no further INSERT, no ALTER and no custom SQL |
| Pipeline.HaltDuringProvisioning | csv2mysql.php:210-239 | once the DROP or the CREATE has died, `add_data` issues nothing more, and the failure belongs to provisioning |
| Pipeline.LoadStepsReadOnly | csv2mysql.php:153-184 | after `create_table`, `add_data` reads only the table name, insert_ignore, whether the key is wanted, and custom SQL |
| Importer.LoadStepsAfterCreate | csv2mysql.php:198-236 | the changes `create_table` makes to the properties leave what `add_data` issues afterwards unchanged |
| Importer.Csv2Mysql.constructor | csv2mysql.php:62-132 | if the csv is not a file, nothing is issued, the run halts with the missing-csv message and the names are left as merged; otherwise the log is the replay of the plan for the merged and resolved properties, and the properties are those after `create_table` |
| Importer.Csv2Mysql.DefaultNames | csv2mysql.php:106-114 | the properties become the resolved names of the old ones |
| Importer.Csv2Mysql.Import | csv2mysql.php:125-130 | `add_data` then `post_process` issue the whole plan, stopping at the first fatal failure |
| Importer.Csv2Mysql.Issue | csv2mysql.php:168 | one query is appended to the log; the process dies when it is checked and the server rejects it |
| Importer.Csv2Mysql.CreateTable | csv2mysql.php:195-241 | the log grows by the replay of the provisioning steps; the properties become those after `create_table` |
| Importer.Csv2Mysql.KeepTable | csv2mysql.php:198-207 | TRUNCATE is issued only when truncate is set, and first_column_key is switched off; nothing else changes |
| Importer.Csv2Mysql.RebuildTable | csv2mysql.php:209-239 | DROP, then CREATE unless the DROP died; the column list is rewritten unless the DROP died |
| Importer.Csv2Mysql.ColumnDefinitions | csv2mysql.php:224-236 | the loop rewrites every entry to its column name in place and returns the CREATE TABLE statement of the result |
| Importer.Csv2Mysql.AddData | csv2mysql.php:139-187 | the log is the replay of the `add_data` plan; the properties are those after `create_table`; `$row` equals the INSERTs that went through |
| Importer.Csv2Mysql.LoadRows | csv2mysql.php:153-184 | the INSERTs, the ALTER and the custom SQL are replayed from where provisioning stopped; `$row` is the failing row or the number of rows |
| Importer.Csv2Mysql.InsertRows | csv2mysql.php:156-171 | one INSERT per data record, in order, until one dies; `$row` is then that record's index, and the number of records otherwise |
| Importer.Csv2Mysql.AddKeyAndCustomSql | csv2mysql.php:174-184 | the ALTER when the key is wanted, then the custom SQL unless the ALTER died |
| Importer.Csv2Mysql.PostProcess | csv2mysql.php:250-262 | non-empty custom SQL naming a file goes to the `mysql` client, and any output kills the process; other non-empty custom SQL is sent as a query |

## Left out

- The connection to the server, `CREATE DATABASE` and `mysql_select_db`
  (csv2mysql.php:117-123) are foreign I/O. The model starts once connected:
  every `die` there is unmodelled.
- `fgetcsv` parsing (quoting, the 20000/4096/2048 line-length limits) is a
  library routine. Records come in already split, and `create_table` and
  `add_data` see the same records.
- The internals of `mysql_real_escape_string` are a library call. It is the
  abstract parameter `escape`.
- The server's answers and `shell_exec` output are the `Server` oracle. The
  model does not say what the server does with a statement.
- `require` of `config.php` and of the first argument is left out. So are
  `$argv` and `is_file`. The variables a configuration file defines come in
  as a `ConfigFile` value, and `is_file` as the parameter `isFile`.
- A configuration file runs inside the constructor, so it can also write
  properties directly (`$this->create = false;`, `$this->columns = ...`).
  Those writes are not modelled: `ConfigFile` holds only the variables
  merged at csv2mysql.php:88-100, and `Config.MergeNeverClears` and
  `Config.DefaultsCannotBeSwitchedOff` speak only of those variables.
- A failed `fopen` of the csv in `add_data` (csv2mysql.php:142-145) is not
  modelled. The csv has already been found to be a file.
- `help` is modelled only as the halt it causes, with its message. Its help
  text, the `echo` of debug output, `ini_set` and `set_time_limit` are UI
  and process settings.
- Integers are unbounded. The row counter and varchar_size never wrap.
- Importer.Csv2Mysql.LoadRows: requires that first_column_key is on only
  when create is. `create_table` establishes this before `add_data`
  reaches that point.
- Importer.Csv2Mysql.AddKeyAndCustomSql: requires the same.

## Behaviour worth knowing

- `create_table` sanitizes configured column names as well as header cells
  (csv2mysql.php:228).
- `sanitize` turns only the space character into `_`; tabs and other
  whitespace are kept (csv2mysql.php:276).
- A custom_sql naming a file is sent to the server as a query by
  `add_data` before `post_process` runs it as a script. If the server
  rejects the path, the script never runs
  (`Pipeline.RejectedFileCustomSqlSkipsScript`).
- The merge copies only truthy variables, so `$create = false`,
  `$truncate = false` and `$first_column_key = false` in a configuration
  file have no effect (csv2mysql.php:95-98, `Config.MergeNeverClears`).
