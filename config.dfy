/** The importer's settings: the class's property defaults, the variables a
    configuration file may set, how the two are merged, and how the table and
    database names are derived from the csv file name when none is given. */
module Config {
  import opened PhpStrings
  import opened Sanitizer

  /** The protected properties of `csv2mysql` that drive an import. An unset
      string property (PHP `null`) is `""`. */
  datatype Settings = Settings(
    csv: string,
    db: string,
    tableName: string,
    dbHost: string,
    dbUser: string,
    dbPassword: string,
    debug: bool,
    create: bool,
    insertIgnore: bool,
    truncate: bool,
    firstColumnKey: bool,
    columns: seq<string>,
    customSql: string,
    varcharSize: int)

  /** The property initialisers of the class. A subclass may declare other
      values; no configuration variable sets `columns`. */
  function Defaults(): Settings
  {
    Settings(
      csv := "", db := "", tableName := "",
      dbHost := "localhost", dbUser := "root", dbPassword := "",
      debug := true, create := true, insertIgnore := false, truncate := true,
      firstColumnKey := true, columns := [], customSql := "", varcharSize := 255)
  }

  /** The variables a configuration file (`config.php` or the first command
      line argument) may define. An undefined variable is `""`, `false` or `0`. */
  datatype ConfigFile = ConfigFile(
    db: string,
    csv: string,
    tableName: string,
    dbHost: string,
    dbUser: string,
    dbPassword: string,
    debug: bool,
    create: bool,
    truncate: bool,
    insertIgnore: bool,
    firstColumnKey: bool,
    varcharSize: int,
    customSql: string)

  /** The constructor's merge: the csv named by the second command line
      argument (`""` when there is none or it is not a file) replaces the
      default, and then each configuration variable replaces its property only
      when the variable is truthy. */
  function Merge(base: Settings, argCsv: string, file: ConfigFile): Settings
  {
    var csv := if Truthy(argCsv) then argCsv else base.csv;
    base.(
      db := if Truthy(file.db) then file.db else base.db,
      csv := if Truthy(file.csv) then file.csv else csv,
      tableName := if Truthy(file.tableName) then file.tableName else base.tableName,
      dbHost := if Truthy(file.dbHost) then file.dbHost else base.dbHost,
      dbUser := if Truthy(file.dbUser) then file.dbUser else base.dbUser,
      dbPassword := if Truthy(file.dbPassword) then file.dbPassword else base.dbPassword,
      debug := if file.debug then file.debug else base.debug,
      create := if file.create then file.create else base.create,
      truncate := if file.truncate then file.truncate else base.truncate,
      insertIgnore := if file.insertIgnore then file.insertIgnore else base.insertIgnore,
      firstColumnKey := if file.firstColumnKey then file.firstColumnKey else base.firstColumnKey,
      varcharSize := if file.varcharSize != 0 then file.varcharSize else base.varcharSize,
      customSql := if Truthy(file.customSql) then file.customSql else base.customSql)
  }

  /** The csv the command line names: the second argument, when the first
      one is given and the second names a file; `""` otherwise. */
  function CsvArgument(arg1: string, arg2: string, isFile: string -> bool): (r: string)
    ensures Truthy(r) <==> Truthy(arg1) && Truthy(arg2) && isFile(arg2)
    ensures Truthy(r) ==> r == arg2
  {
    if Truthy(arg1) && Truthy(arg2) && isFile(arg2) then arg2 else ""
  }

  /** A falsy configuration variable never overrides: a flag that is on
      stays on, a string left empty or `"0"` keeps the property's value, a
      zero varchar_size keeps the width, and no configuration variable sets
      the column list. */
  lemma MergeNeverClears(base: Settings, argCsv: string, file: ConfigFile)
    ensures var s := Merge(base, argCsv, file);
      && (base.create ==> s.create)
      && (base.truncate ==> s.truncate)
      && (base.firstColumnKey ==> s.firstColumnKey)
      && (base.debug ==> s.debug)
      && (base.insertIgnore ==> s.insertIgnore)
      && (!Truthy(file.csv) && !Truthy(argCsv) ==> s.csv == base.csv)
      && (!Truthy(file.dbHost) ==> s.dbHost == base.dbHost)
      && (!Truthy(file.dbUser) ==> s.dbUser == base.dbUser)
      && (!Truthy(file.dbPassword) ==> s.dbPassword == base.dbPassword)
      && (file.varcharSize == 0 ==> s.varcharSize == base.varcharSize)
      && (!Truthy(file.tableName) ==> s.tableName == base.tableName)
      && (!Truthy(file.db) ==> s.db == base.db)
      && (!Truthy(file.customSql) ==> s.customSql == base.customSql)
      && s.columns == base.columns
  {
  }

  /** With the class's own defaults no configuration variable can turn off
      table creation, truncation or the key column, or set the columns. */
  lemma DefaultsCannotBeSwitchedOff(argCsv: string, file: ConfigFile)
    ensures var s := Merge(Defaults(), argCsv, file);
      s.create && s.truncate && s.firstColumnKey && s.columns == []
  {
    MergeNeverClears(Defaults(), argCsv, file);
  }

  /** The table name made from a csv path: its base name with every `.csv`
      deleted, then sanitized. */
  function DefaultTableName(csv: string): string
  {
    Sanitize(RemoveAll(".csv", Basename(csv)))
  }

  /** The constructor's name defaulting: a falsy table name is made from the
      csv path, and a falsy database name becomes the table name. */
  function ResolveNames(s: Settings): Settings
  {
    var table := if Truthy(s.tableName) then s.tableName else DefaultTableName(s.csv);
    s.(tableName := table, db := if Truthy(s.db) then s.db else table)
  }

  /** Everything the constructor settles before it connects. */
  function Resolve(base: Settings, argCsv: string, file: ConfigFile): Settings
  {
    ResolveNames(Merge(base, argCsv, file))
  }

  /** Configured names are kept; a missing table name is derived from the csv
      file and is clean; a missing database name is the table name; nothing
      else changes. */
  lemma ResolvedNames(s: Settings)
    ensures var r := ResolveNames(s);
      && r == s.(tableName := r.tableName, db := r.db)
      && (Truthy(s.tableName) ==> r.tableName == s.tableName)
      && (!Truthy(s.tableName) ==> r.tableName == DefaultTableName(s.csv) && IsClean(r.tableName))
      && r.db == (if Truthy(s.db) then s.db else r.tableName)
  {
    SanitizeIsClean(RemoveAll(".csv", Basename(s.csv)));
  }

  /** For a csv file `dir/stem.csv` the default table name is `stem` with
      every `.csv` deleted, sanitized; when `stem` holds no `.csv` it is just
      `stem` sanitized. */
  lemma DefaultTableNameOfCsvFile(dir: string, stem: string)
    requires dir == [] || dir[|dir| - 1] == '/'
    requires '/' !in stem
    ensures DefaultTableName(dir + stem + ".csv") == Sanitize(RemoveAll(".csv", stem))
    ensures (forall i :: !OccursAt(".csv", stem, i)) ==>
              DefaultTableName(dir + stem + ".csv") == Sanitize(stem)
  {
    assert dir + stem + ".csv" == dir + (stem + ".csv");
    assert '/' !in stem + ".csv";
    BasenameOfFile(dir, stem + ".csv");
    CsvExtensionRemoved(stem);
    if forall i :: !OccursAt(".csv", stem, i) {
      RemoveAllNoOccurrence(".csv", stem);
    }
  }
}
