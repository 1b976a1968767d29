/** The text of the SQL statements and the shell command the importer issues,
    and the column list its CREATE TABLE is built from. */
module Statements {
  import opened PhpStrings
  import opened Sanitizer

  /** The name a column gets when its header cell sanitizes to nothing. */
  const Placeholder: string := "NONE_SUPPLIED"

  /** One entry of the column list after `create_table` has rewritten it:
      sanitized, and replaced by the placeholder when PHP's `empty()` rejects
      the result (`""` or `"0"`). */
  function ColumnName(raw: string): string
  {
    var name := Sanitize(raw);
    if Truthy(name) then name else Placeholder
  }

  /** Letters, digits and `_`: none of them is a space or reserved. */
  predicate IsNameChar(c: char)
  {
    ('A' <= c <= 'Z') || ('a' <= c <= 'z') || ('0' <= c <= '9') || c == '_'
  }

  lemma NameCharsAreClean(s: string)
    requires forall i :: 0 <= i < |s| ==> IsNameChar(s[i])
    ensures IsClean(s)
  {
    forall j | 0 <= j < |Reserved| ensures !IsNameChar(Reserved[j]) {
    }
  }

  /** Every column name is a non-empty clean identifier: the sanitized cell
      when that is non-empty, the placeholder otherwise. */
  lemma ColumnNameIsIdentifier(raw: string)
    ensures Truthy(ColumnName(raw)) && IsClean(ColumnName(raw))
    ensures Truthy(Sanitize(raw)) ==> ColumnName(raw) == Sanitize(raw)
    ensures !Truthy(Sanitize(raw)) ==> ColumnName(raw) == Placeholder
  {
    SanitizeIsClean(raw);
    NameCharsAreClean(Placeholder);
  }

  /** The header record `create_table` reads. A file with no record gives
      `false`, which PHP 5 counts as one entry that reads as null: a single
      empty cell. */
  function HeaderRecord(records: seq<seq<string>>): seq<string>
  {
    if records == [] then [""] else records[0]
  }

  /** The configured column list when it is non-empty, the header otherwise. */
  function ChosenColumns(configured: seq<string>, records: seq<seq<string>>): seq<string>
  {
    if configured == [] then HeaderRecord(records) else configured
  }

  /** The column list after the rewrite, entry by entry. */
  function ColumnNames(names: seq<string>): seq<string>
  {
    seq(|names|, i requires 0 <= i < |names| => ColumnName(names[i]))
  }

  /** The columns of the created table: one per entry of the configured list
      (or of the header when none is configured), in order, duplicates kept;
      each a clean non-empty identifier. */
  lemma ColumnListShape(configured: seq<string>, records: seq<seq<string>>)
    ensures var source := ChosenColumns(configured, records);
      var cols := ColumnNames(source);
      && (configured != [] ==> source == configured)
      && (configured == [] && records != [] ==> source == records[0])
      && |cols| == |source|
      && forall i :: 0 <= i < |cols| ==>
           && Truthy(cols[i]) && IsClean(cols[i])
           && (Truthy(Sanitize(source[i])) ==> cols[i] == Sanitize(source[i]))
           && (!Truthy(Sanitize(source[i])) ==> cols[i] == Placeholder)
  {
    var source := ChosenColumns(configured, records);
    forall i | 0 <= i < |source| {
      ColumnNameIsIdentifier(source[i]);
    }
  }

  /** A list whose every entry is the column name of the matching entry of
      `names` is the rewritten list. */
  lemma ColumnNamesPointwise(names: seq<string>, cols: seq<string>)
    requires |cols| == |names|
    requires forall k :: 0 <= k < |cols| ==> cols[k] == ColumnName(names[k])
    ensures cols == ColumnNames(names)
  {
  }

  /** A header whose every cell sanitizes to nothing (or to `"0"`) gives the
      placeholder for every column, once per cell: the repeated name is kept. */
  lemma BlankHeaderColumns(header: seq<string>)
    requires forall i :: 0 <= i < |header| ==> !Truthy(Sanitize(header[i]))
    ensures |ColumnNames(header)| == |header|
    ensures forall i :: 0 <= i < |header| ==> ColumnNames(header)[i] == Placeholder
  {
  }

  /** For instance three empty cells, as a line of two commas gives them. */
  lemma BlankHeaderExample()
    ensures ColumnNames(["", "", ""]) == [Placeholder, Placeholder, Placeholder]
  {
    SanitizeByCharacter("");
  }

  /** `<name> VARCHAR(<width>)`. */
  function ColumnDef(name: string, width: int): string
  {
    name + " VARCHAR(" + IntToString(width) + ")"
  }

  function ColumnDefs(cols: seq<string>, width: int): seq<string>
  {
    seq(|cols|, i requires 0 <= i < |cols| => ColumnDef(cols[i], width))
  }

  /** The text `create_table` starts its statement with. */
  function CreatePrefix(table: string): string
  {
    "CREATE TABLE IF NOT EXISTS " + table + " ("
  }

  /** The CREATE TABLE statement: the column definitions separated by `", "`
      inside parentheses. An empty column list leaves only the table name and
      the closing parenthesis, since the trim then cuts the ` (`. */
  function CreateSql(table: string, cols: seq<string>, width: int): string
  {
    if cols == [] then "CREATE TABLE IF NOT EXISTS " + table + ")"
    else CreatePrefix(table) + Join(", ", ColumnDefs(cols, width)) + ")"
  }

  /** What the loop of `create_table` has appended once it has gone past
      the first `n` columns: each definition followed by `", "`. */
  function Terminated(cols: seq<string>, n: nat, width: int): string
    requires n <= |cols|
  {
    if n == 0 then "" else Terminated(cols, n - 1, width) + ColumnDef(cols[n - 1], width) + ", "
  }

  /** The text depends only on the columns already gone past. */
  lemma {:induction false} TerminatedReadsPrefix(a: seq<string>, b: seq<string>, n: nat, width: int)
    requires n <= |a| && n <= |b|
    requires forall k :: 0 <= k < n ==> a[k] == b[k]
    ensures Terminated(a, n, width) == Terminated(b, n, width)
  {
    if n > 0 {
      TerminatedReadsPrefix(a, b, n - 1, width);
    }
  }

  lemma {:induction false} TerminatedIsJoinWithSeparator(cols: seq<string>, n: nat, width: int)
    requires 0 < n <= |cols|
    ensures Terminated(cols, n, width) == Join(", ", ColumnDefs(cols[..n], width)) + ", "
  {
    var last := ColumnDef(cols[n - 1], width);
    assert Terminated(cols, n, width) == Terminated(cols, n - 1, width) + last + ", ";
    if n == 1 {
      assert ColumnDefs(cols[..n], width) == [last];
    } else {
      TerminatedIsJoinWithSeparator(cols, n - 1, width);
      var defs := ColumnDefs(cols[..n - 1], width);
      assert ColumnDefs(cols[..n], width) == defs + [last];
      JoinSnoc(", ", defs, last);
      calc {
        Terminated(cols, n, width);
        (Join(", ", defs) + ", ") + last + ", ";
        { assert (Join(", ", defs) + ", ") + last == Join(", ", defs) + ", " + last; }
        Join(", ", defs + [last]) + ", ";
      }
    }
  }

  /** One turn of the loop of `create_table`: the text grows by the new
      column's definition and `", "`. */
  lemma CreateLoopStep(table: string, cols: seq<string>, i: nat, width: int, name: string, text: string)
    requires i < |cols|
    requires text == CreatePrefix(table) + Terminated(cols, i, width)
    ensures text + ColumnDef(name, width) + ", " == CreatePrefix(table) + Terminated(cols[i := name], i + 1, width)
  {
    var after := cols[i := name];
    TerminatedReadsPrefix(cols, after, i, width);
    var done := Terminated(cols, i, width);
    var def := ColumnDef(name, width);
    assert Terminated(after, i + 1, width) == done + def + ", ";
    ConcatAssociative(CreatePrefix(table), done, def, ", ");
  }

  /** Cutting the last two characters off the loop's text and closing the
      parenthesis gives the CREATE TABLE statement: no trailing comma remains. */
  lemma CreateSqlFromLoopText(table: string, cols: seq<string>, width: int, text: string)
    requires text == CreatePrefix(table) + Terminated(cols, |cols|, width)
    ensures |text| >= 2 && text[..|text| - 2] + ")" == CreateSql(table, cols, width)
  {
    if cols == [] {
      assert text[..|text| - 2] == "CREATE TABLE IF NOT EXISTS " + table;
    } else {
      TerminatedIsJoinWithSeparator(cols, |cols|, width);
      assert cols[..|cols|] == cols;
      var body := CreatePrefix(table) + Join(", ", ColumnDefs(cols, width));
      assert text == body + ", ";
      assert text[..|text| - 2] == body;
    }
  }

  /** `DROP TABLE IF EXISTS <table>`. */
  function DropSql(table: string): string
  {
    "DROP TABLE IF EXISTS " + table
  }

  /** `TRUNCATE <table>`. */
  function TruncateSql(table: string): string
  {
    "TRUNCATE " + table
  }

  /** The statement that adds `<table>_id` as an auto-increment primary key
      in front of the other columns. */
  function AlterSql(table: string): string
  {
    "ALTER TABLE " + table + " ADD " + table + "_id int(11) NOT NULL PRIMARY KEY AUTO_INCREMENT FIRST"
  }

  /** The `mysql` client command `post_process` runs a custom SQL file with. */
  function ScriptCommand(host: string, user: string, password: string, db: string, file: string): string
  {
    "mysql -h" + host + " -u" + user + " -p" + password + " " + db + " < " + file
  }

  /** Each field run through the escape function, in order (`array_map`). */
  function EscapeAll(escape: string -> string, fields: seq<string>): seq<string>
  {
    seq(|fields|, i requires 0 <= i < |fields| => escape(fields[i]))
  }

  /** `'("' . implode('","', $data) . '")'`. */
  function ValuesTuple(escaped: seq<string>): string
  {
    "(\"" + Join("\",\"", escaped) + "\")"
  }

  /** The INSERT statement of one record. `$ignore` is `IGNORE` or the empty
      string, so without it two spaces separate `INSERT` and `INTO`. */
  function InsertSql(table: string, ignore: bool, escaped: seq<string>): string
  {
    "INSERT " + (if ignore then "IGNORE" else "") + " INTO " + table + " VALUES " + ValuesTuple(escaped)
  }

  function Quote(v: string): string
  {
    "\"" + v + "\""
  }

  function QuoteAll(vs: seq<string>): seq<string>
  {
    seq(|vs|, i requires 0 <= i < |vs| => Quote(vs[i]))
  }

  lemma {:induction false} JoinQuoted(vs: seq<string>)
    requires vs != []
    ensures "\"" + Join("\",\"", vs) + "\"" == Join(",", QuoteAll(vs))
    decreases |vs|
  {
    if |vs| > 1 {
      JoinQuoted(vs[1..]);
      assert QuoteAll(vs)[1..] == QuoteAll(vs[1..]);
      assert "\"" + Join("\",\"", vs) + "\""
          == Quote(vs[0]) + "," + ("\"" + Join("\",\"", vs[1..]) + "\"");
    }
  }

  /** The VALUES tuple of a record holds one double-quoted value per field,
      in field order, separated by commas. */
  lemma ValuesTupleQuotesEachField(escaped: seq<string>)
    requires escaped != []
    ensures ValuesTuple(escaped) == "(" + Join(",", QuoteAll(escaped)) + ")"
  {
    JoinQuoted(escaped);
    assert ValuesTuple(escaped) == "(" + ("\"" + Join("\",\"", escaped) + "\"") + ")";
  }

  /** A record with no fields gives the same tuple as one empty field. */
  lemma ValuesTupleOfNoFields()
    ensures ValuesTuple([]) == ValuesTuple([""]) == "(\"\")"
  {
  }

  /** `IGNORE` stands between `INSERT` and `INTO` exactly when insert_ignore
      is set, and the statement is otherwise the same. */
  lemma InsertIgnoreIff(table: string, ignore: bool, escaped: seq<string>)
    ensures InsertSql(table, ignore, escaped)[7..13] == "IGNORE" <==> ignore
    ensures var plain := InsertSql(table, false, escaped);
      InsertSql(table, true, escaped) == plain[..7] + "IGNORE" + plain[7..]
  {
    var rest := " INTO " + table + " VALUES " + ValuesTuple(escaped);
    assert InsertSql(table, true, escaped) == "INSERT " + "IGNORE" + rest;
    assert InsertSql(table, false, escaped) == "INSERT " + rest;
    assert (InsertSql(table, false, escaped))[7..13] == rest[..6];
    assert rest[0] == ' ' && "IGNORE"[0] == 'I';
  }
}
