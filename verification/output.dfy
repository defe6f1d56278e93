/**
 * What the program writes: one text file per table, holding its five
 * templates under fixed labels, and the run over all tables, which stops at
 * the first table without a primary key.
 */
module Output {
  import opened Wrappers
  import opened Strings
  import opened Quoting
  import opened Templates

  /** The text of a table's file: each label, a newline and its template; two blank lines between sections. */
  function FileContent(q: Queries): string {
    "Insert Query\n" + q.insert + "\n\n\n" +
    "Update Query\n" + q.update + "\n\n\n" +
    "Delete Query\n" + q.delete + "\n\n\n" +
    "Select All Field Query\n" + q.selectAll + "\n\n\n" +
    "Select Specific Field Query\n" + q.selectSpecific
  }

  /**
   * The file read line by line: label, template, two blank lines, five
   * times over, with no blank lines after the last template.
   */
  function FileLines(q: Queries): seq<string> {
    ["Insert Query", q.insert, "", "",
     "Update Query", q.update, "", "",
     "Delete Query", q.delete, "", "",
     "Select All Field Query", q.selectAll, "", "",
     "Select Specific Field Query", q.selectSpecific]
  }

  /** A line holds no newline. */
  predicate SingleLine(s: string) {
    '\n' !in s
  }

  /** No template of `q` spans several lines. */
  predicate SingleLineQueries(q: Queries) {
    && SingleLine(q.insert) && SingleLine(q.update) && SingleLine(q.delete)
    && SingleLine(q.selectAll) && SingleLine(q.selectSpecific)
  }

  /** Appending a section after some lines: two blank lines, the label, the template. */
  lemma NextSection(lines: seq<string>, heading: string, body: string)
    requires |lines| > 0
    ensures Join("\n", lines + ["", "", heading, body])
      == Join("\n", lines) + "\n\n\n" + (heading + "\n") + body
  {
    AppendLines(lines, heading, body);
    SectionShape(lines, heading, body);
    BlankLines(Join("\n", lines), heading, body);
  }

  /** Four lines appended one at a time are the four appended at once. */
  lemma SectionShape(lines: seq<string>, heading: string, body: string)
    ensures lines + [""] + [""] + [heading] + [body] == lines + ["", "", heading, body]
  {
  }

  /** Joining four more lines, one at a time. */
  lemma AppendLines(lines: seq<string>, heading: string, body: string)
    requires |lines| > 0
    ensures Join("\n", lines + [""] + [""] + [heading] + [body])
      == Join("\n", lines) + "\n" + "" + "\n" + "" + "\n" + heading + "\n" + body
  {
    var l1 := lines + [""];
    JoinSnoc("\n", lines, "");
    var l2 := l1 + [""];
    JoinSnoc("\n", l1, "");
    var l3 := l2 + [heading];
    JoinSnoc("\n", l2, heading);
    JoinSnoc("\n", l3, body);
  }

  /** Two empty lines between newlines make the three-newline separator. */
  lemma BlankLines(j: string, heading: string, body: string)
    ensures j + "\n" + "" + "\n" + "" + "\n" + heading + "\n" + body
      == j + "\n\n\n" + (heading + "\n") + body
  {
    assert "\n" + "" + "\n" + "" + "\n" == "\n\n\n";
    calc {
      j + "\n" + "" + "\n" + "" + "\n" + heading + "\n" + body;
      j + ("\n" + "" + "\n" + "" + "\n") + heading + "\n" + body;
      j + "\n\n\n" + heading + "\n" + body;
      j + "\n\n\n" + (heading + "\n") + body;
    }
  }

  /** The file content is its lines joined with newlines. */
  lemma FileContentJoin(q: Queries)
    ensures FileContent(q) == Join("\n", FileLines(q))
  {
    var s0 := ["Insert Query", q.insert];
    JoinPair("\n", "Insert Query", q.insert);
    var s1 := s0 + ["", "", "Update Query", q.update];
    NextSection(s0, "Update Query", q.update);
    var s2 := s1 + ["", "", "Delete Query", q.delete];
    NextSection(s1, "Delete Query", q.delete);
    var s3 := s2 + ["", "", "Select All Field Query", q.selectAll];
    NextSection(s2, "Select All Field Query", q.selectAll);
    var s4 := s3 + ["", "", "Select Specific Field Query", q.selectSpecific];
    NextSection(s3, "Select Specific Field Query", q.selectSpecific);
    assert s4 == FileLines(q);
    assert "Insert Query" + "\n" == "Insert Query\n";
    assert "Update Query" + "\n" == "Update Query\n";
    assert "Delete Query" + "\n" == "Delete Query\n";
    assert "Select All Field Query" + "\n" == "Select All Field Query\n";
    assert "Select Specific Field Query" + "\n" == "Select Specific Field Query\n";
  }

  /**
   * When no template spans several lines, reading the file back line by line
   * yields exactly the five labels in order, each followed by its template,
   * with two blank lines between sections and none after the last.
   */
  lemma FileContentRoundTrip(q: Queries)
    requires SingleLineQueries(q)
    ensures Split(FileContent(q), "\n") == FileLines(q)
  {
    var lines := FileLines(q);
    assert forall i :: 0 <= i < |lines| ==> SingleLine(lines[i]);
    FileContentJoin(q);
    SplitJoin("\n", lines);
  }

  /** A placeholder is on one line when its column name is. */
  lemma PlaceholderSingleLine(name: string, quoted: bool)
    requires '\n' !in name
    ensures '\n' !in Placeholder(name, quoted)
  {
  }

  /** The column list is on one line when every column name is. */
  lemma ColumnListSingleLine(cols: seq<Column>)
    requires forall i :: 0 <= i < |cols| ==> SingleLine(cols[i].name)
    ensures SingleLine(ColumnList(cols))
  {
    JoinExcludes(", ", Names(cols), '\n');
  }

  /** The VALUES list is on one line when every column name is. */
  lemma ValueListSingleLine(cols: seq<Column>)
    requires forall i :: 0 <= i < |cols| ==> SingleLine(cols[i].name)
    ensures SingleLine(ValueList(cols))
  {
    var values := ValuePlaceholders(cols);
    forall i | 0 <= i < |values|
      ensures '\n' !in values[i]
    {
      PlaceholderSingleLine(cols[i].name, RequiresQuotes(cols[i].colType));
    }
    JoinExcludes(", ", values, '\n');
  }

  /** The SET clause is on one line when every column name is. */
  lemma SetClauseSingleLine(cols: seq<Column>, pk: string)
    requires forall i :: 0 <= i < |cols| ==> SingleLine(cols[i].name)
    ensures SingleLine(SetClause(cols, pk))
  {
    var kept := NonKey(cols, pk);
    var entries := Assignments(kept);
    forall i | 0 <= i < |entries|
      ensures '\n' !in entries[i]
    {
      assert kept[i] in cols;
      PlaceholderSingleLine(kept[i].name, RequiresQuotes(kept[i].colType));
    }
    JoinExcludes(", ", entries, '\n');
  }

  /** No template spans several lines when neither the table name nor any column name holds a newline. */
  lemma QueriesSingleLine(t: string, cols: seq<Column>, pk: string)
    requires SingleLine(t) && SingleLine(pk)
    requires forall i :: 0 <= i < |cols| ==> SingleLine(cols[i].name)
    ensures SingleLineQueries(Render(t, cols, pk))
  {
    ColumnListSingleLine(cols);
    ValueListSingleLine(cols);
    SetClauseSingleLine(cols, pk);
    WhereClauseSingleLine(pk);
    var w := WhereClause(pk);
    InsertSingleLine(t, ColumnList(cols), ValueList(cols));
    assert SingleLine("UPDATE ") && SingleLine(" SET ");
    GlueSingleLine("UPDATE " + t, " SET ", SetClause(cols, pk), w);
    assert SingleLine("DELETE FROM ") && SingleLine("SELECT * FROM ");
    GlueSingleLine("DELETE FROM ", t, w, "");
    GlueSingleLine("SELECT * FROM ", t, w, "");
    assert SingleLine("SELECT ") && SingleLine(" FROM ");
    GlueSingleLine("SELECT " + ColumnList(cols), " FROM ", t, w);
  }

  /** The WHERE clause is on one line when the key's name is. */
  lemma WhereClauseSingleLine(pk: string)
    requires SingleLine(pk)
    ensures SingleLine(WhereClause(pk))
  {
    PlaceholderSingleLine(pk, false);
  }

  /** Gluing one-line pieces gives one line. */
  lemma GlueSingleLine(a: string, b: string, c: string, d: string)
    requires SingleLine(a) && SingleLine(b) && SingleLine(c) && SingleLine(d)
    ensures SingleLine(a + b + c + d)
  {
  }

  /** The INSERT template is on one line when its two lists and the table name are. */
  lemma InsertSingleLine(t: string, cl: string, vl: string)
    requires SingleLine(t) && SingleLine(cl) && SingleLine(vl)
    ensures SingleLine("INSERT INTO " + t + " (" + cl + ") VALUES (" + vl + ");")
  {
  }

  /** The file of a table with one-line names reads back as its five labelled templates. */
  lemma TableFileLines(t: string, cols: seq<Column>, pk: string)
    requires SingleLine(t) && SingleLine(pk)
    requires forall i :: 0 <= i < |cols| ==> SingleLine(cols[i].name)
    ensures Split(FileContent(Render(t, cols, pk)), "\n") == FileLines(Render(t, cols, pk))
  {
    QueriesSingleLine(t, cols, pk);
    FileContentRoundTrip(Render(t, cols, pk));
  }

  /** What the program knows of one table: its name, its column listing and its primary-key listing. */
  datatype TableInfo = TableInfo(name: string, columns: seq<Column>, keyRows: seq<seq<string>>)

  /** One file written: its path and its whole content. */
  datatype FileWrite = FileWrite(path: string, content: string)

  /** The file for table `t` inside the folder named after the database. */
  function FilePath(database: string, t: string): string {
    database + "/" + t + ".txt"
  }

  /** Whether the table's key listing yields a primary key. */
  predicate HasKey(table: TableInfo) {
    PrimaryKey(table.keyRows).Some?
  }

  /** The file the program writes for a table that has a primary key. */
  function TableFile(database: string, table: TableInfo): FileWrite
    requires HasKey(table)
  {
    FileWrite(FilePath(database, table.name),
              FileContent(Render(table.name, table.columns, PrimaryKey(table.keyRows).value)))
  }

  /**
   * The run over all tables, in listing order. A table without a primary key
   * raises, ending the run: the files of the tables before it stay written
   * and no later table is processed.
   */
  method GenerateDatabase(database: string, tables: seq<TableInfo>)
    returns (writes: seq<FileWrite>, completed: bool)
    ensures completed <==> forall i :: 0 <= i < |tables| ==> HasKey(tables[i])
    ensures completed ==> |writes| == |tables|
    ensures !completed ==> |writes| < |tables| && !HasKey(tables[|writes|])
    ensures forall i :: 0 <= i < |writes| ==> HasKey(tables[i]) && writes[i] == TableFile(database, tables[i])
  {
    writes := [];
    var k := 0;
    while k < |tables|
      invariant 0 <= k <= |tables|
      invariant |writes| == k
      invariant forall i :: 0 <= i < k ==> HasKey(tables[i]) && writes[i] == TableFile(database, tables[i])
    {
      var table := tables[k];
      var queries := GenerateTable(table.name, table.columns, table.keyRows);
      if queries.None? {
        return writes, false;
      }
      var content := FileContent(queries.value);
      writes := writes + [FileWrite(FilePath(database, table.name), content)];
      k := k + 1;
    }
    completed := true;
  }
}
