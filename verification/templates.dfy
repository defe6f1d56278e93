/**
 * The per-table template generator: from a table's name, its columns in
 * schema order and the rows of its primary-key listing, the five SQL
 * templates INSERT, UPDATE, DELETE, SELECT * and SELECT <columns>.
 *
 * Placeholders are literal fill-in-the-blank text, `${name}` between
 * backticks, itself between single quotes when the column's type is quoted.
 */
module Templates {
  import opened Wrappers
  import opened Strings
  import opened Quoting

  /** One row of the column listing: the column's name and its declared type. */
  datatype Column = Column(name: string, colType: string)

  /** The five templates generated for one table. */
  datatype Queries = Queries(
    insert: string,
    update: string,
    delete: string,
    selectAll: string,
    selectSpecific: string)

  /** The placeholder text standing for the value of column `name`. */
  function Placeholder(name: string, quoted: bool): string {
    if quoted then "'`${" + name + "}`'" else "`${" + name + "}`"
  }

  /** Reads back the column name and the quoting of a placeholder. */
  function ParsePlaceholder(p: string): Option<(string, bool)> {
    if |p| >= 7 && p[..4] == "'`${" && p[|p| - 3..] == "}`'" then Some((p[4..|p| - 3], true))
    else if |p| >= 5 && p[..3] == "`${" && p[|p| - 2..] == "}`" then Some((p[3..|p| - 2], false))
    else None
  }

  /** Every placeholder names its column and tells whether it is quoted. */
  lemma PlaceholderRoundTrip(name: string, quoted: bool)
    ensures ParsePlaceholder(Placeholder(name, quoted)) == Some((name, quoted))
  {
    var p := Placeholder(name, quoted);
    if quoted {
      assert p[..4] == "'`${" && p[|p| - 3..] == "}`'";
      assert p[4..|p| - 3] == name;
    } else {
      assert p[..4] != "'`${" by { assert p[0] == '`'; }
      assert p[..3] == "`${" && p[|p| - 2..] == "}`";
      assert p[3..|p| - 2] == name;
    }
  }

  /** A column's value placeholder, quoted as its declared type demands. */
  function ValuePlaceholder(c: Column): string {
    Placeholder(c.name, RequiresQuotes(c.colType))
  }

  /** One entry of an UPDATE's SET clause. */
  function Assignment(c: Column): string {
    c.name + " = " + ValuePlaceholder(c)
  }

  /** The WHERE condition on the primary key; its placeholder is never quoted. */
  function Condition(pk: string): string {
    pk + " = " + Placeholder(pk, false)
  }

  /** The column names, in schema order. */
  function Names(cols: seq<Column>): seq<string> {
    seq(|cols|, i requires 0 <= i < |cols| => cols[i].name)
  }

  /** One value placeholder per column, in schema order. */
  function ValuePlaceholders(cols: seq<Column>): seq<string> {
    seq(|cols|, i requires 0 <= i < |cols| => ValuePlaceholder(cols[i]))
  }

  /** One SET entry per given column, in order. */
  function Assignments(cols: seq<Column>): seq<string> {
    seq(|cols|, i requires 0 <= i < |cols| => Assignment(cols[i]))
  }

  /** The columns other than the primary key, in schema order. */
  function NonKey(cols: seq<Column>, pk: string): (rest: seq<Column>)
    ensures |rest| <= |cols|
    ensures forall i :: 0 <= i < |rest| ==> rest[i] in cols && rest[i].name != pk
    decreases |cols|
  {
    if |cols| == 0 then []
    else if cols[0].name != pk then [cols[0]] + NonKey(cols[1..], pk)
    else NonKey(cols[1..], pk)
  }

  /** The column list shared by INSERT and SELECT <columns>. */
  function ColumnList(cols: seq<Column>): string {
    Join(", ", Names(cols))
  }

  /** The VALUES list of the INSERT. */
  function ValueList(cols: seq<Column>): string {
    Join(", ", ValuePlaceholders(cols))
  }

  /** The SET clause of the UPDATE. */
  function SetClause(cols: seq<Column>, pk: string): string {
    Join(", ", Assignments(NonKey(cols, pk)))
  }

  /** The WHERE clause closing UPDATE, DELETE and both SELECTs. */
  function WhereClause(pk: string): string {
    " WHERE " + Condition(pk) + ";"
  }

  /** The five templates of table `t` with primary key `pk`. */
  function Render(t: string, cols: seq<Column>, pk: string): Queries {
    Queries(
      "INSERT INTO " + t + " (" + ColumnList(cols) + ") VALUES (" + ValueList(cols) + ");",
      "UPDATE " + t + " SET " + SetClause(cols, pk) + WhereClause(pk),
      "DELETE FROM " + t + WhereClause(pk),
      "SELECT * FROM " + t + WhereClause(pk),
      "SELECT " + ColumnList(cols) + " FROM " + t + WhereClause(pk))
  }

  /**
   * The primary key's column name: field 4 (Column_name) of the first row of
   * the key listing. No rows, or a first row too short, raises in the
   * program; here it gives `None`.
   */
  function PrimaryKey(rows: seq<seq<string>>): Option<string> {
    if |rows| == 0 || |rows[0]| < 5 then None else Some(rows[0][4])
  }

  /** Only the first row of the key listing matters; a missing row means no key. */
  lemma PrimaryKeyOfFirstRow(row: seq<string>, more: seq<seq<string>>)
    ensures PrimaryKey([]) == None
    ensures PrimaryKey([row] + more) == PrimaryKey([row])
    ensures PrimaryKey([row]).Some? <==> |row| > 4
    ensures PrimaryKey([row]).Some? ==> PrimaryKey([row]).value == row[4]
  {
  }

  /** Filtering distributes over concatenation: the filter keeps order. */
  lemma {:induction false} NonKeyAppend(a: seq<Column>, b: seq<Column>, pk: string)
    ensures NonKey(a + b, pk) == NonKey(a, pk) + NonKey(b, pk)
    decreases |a|
  {
    if |a| > 0 {
      assert (a + b)[1..] == a[1..] + b;
      NonKeyAppend(a[1..], b, pk);
    } else {
      assert a + b == b;
    }
  }

  /** A column survives the filter exactly when its name differs from the key. */
  lemma {:induction false} NonKeyMembers(cols: seq<Column>, pk: string, c: Column)
    ensures c in NonKey(cols, pk) <==> c in cols && c.name != pk
    decreases |cols|
  {
    if |cols| > 0 {
      NonKeyMembers(cols[1..], pk, c);
      assert cols == [cols[0]] + cols[1..];
    }
  }

  /** A key that names no column filters nothing out. */
  lemma {:induction false} NonKeyWithoutKey(cols: seq<Column>, pk: string)
    requires forall i :: 0 <= i < |cols| ==> cols[i].name != pk
    ensures NonKey(cols, pk) == cols
    decreases |cols|
  {
    if |cols| > 0 {
      NonKeyWithoutKey(cols[1..], pk);
    }
  }

  /** When every column is the key, nothing is left and the SET clause is empty. */
  lemma {:induction false} OnlyKeyColumns(t: string, cols: seq<Column>, pk: string)
    requires forall i :: 0 <= i < |cols| ==> cols[i].name == pk
    ensures NonKey(cols, pk) == []
    ensures SetClause(cols, pk) == ""
    ensures Render(t, cols, pk).update == "UPDATE " + t + " SET " + WhereClause(pk)
    decreases |cols|
  {
    if |cols| > 0 {
      OnlyKeyColumns(t, cols[1..], pk);
    }
  }

  /**
   * A name that can be read back from a comma separated list of
   * `name = value` entries: no comma, for the list, and no space, for " = ".
   */
  predicate PlainName(name: string) {
    ',' !in name && ' ' !in name
  }

  /** The INSERT's and the SELECT's column list splits back into the column names, in schema order. */
  lemma ColumnListRoundTrip(cols: seq<Column>)
    requires |cols| > 0
    requires forall i :: 0 <= i < |cols| ==> ',' !in cols[i].name
    ensures Split(ColumnList(cols), ", ") == Names(cols)
  {
    SplitJoin(", ", Names(cols));
  }

  /**
   * The INSERT's VALUES list splits into one placeholder per column, in
   * schema order, each naming its column and quoted exactly when the
   * column's type requires quotes.
   */
  lemma ValueListRoundTrip(cols: seq<Column>)
    requires |cols| > 0
    requires forall i :: 0 <= i < |cols| ==> ',' !in cols[i].name
    ensures |Split(ValueList(cols), ", ")| == |cols|
    ensures forall i :: 0 <= i < |cols| ==>
      ParsePlaceholder(Split(ValueList(cols), ", ")[i]) == Some((cols[i].name, RequiresQuotes(cols[i].colType)))
  {
    var values := ValuePlaceholders(cols);
    forall i | 0 <= i < |values|
      ensures ',' !in values[i]
    {
    }
    SplitJoin(", ", values);
    forall i | 0 <= i < |cols|
      ensures ParsePlaceholder(values[i]) == Some((cols[i].name, RequiresQuotes(cols[i].colType)))
    {
      PlaceholderRoundTrip(cols[i].name, RequiresQuotes(cols[i].colType));
    }
  }

  /** An assignment splits at " = " into the column's name and its placeholder. */
  lemma AssignmentRoundTrip(c: Column)
    requires ' ' !in c.name
    ensures Split(Assignment(c), " = ") == [c.name, ValuePlaceholder(c)]
  {
    SplitCons(c.name, " = ", ValuePlaceholder(c));
    SplitUncut(ValuePlaceholder(c), " = ");
  }

  /**
   * The UPDATE's SET clause splits into one `name = placeholder` entry per
   * non-key column, in schema order; no entry assigns the primary key.
   */
  lemma SetClauseRoundTrip(cols: seq<Column>, pk: string)
    requires forall i :: 0 <= i < |cols| ==> PlainName(cols[i].name)
    requires |NonKey(cols, pk)| > 0
    ensures |Split(SetClause(cols, pk), ", ")| == |NonKey(cols, pk)|
    ensures forall i :: 0 <= i < |NonKey(cols, pk)| ==>
      Split(Split(SetClause(cols, pk), ", ")[i], " = ") == [NonKey(cols, pk)[i].name, ValuePlaceholder(NonKey(cols, pk)[i])]
    ensures forall i :: 0 <= i < |NonKey(cols, pk)| ==>
      Split(Split(SetClause(cols, pk), ", ")[i], " = ")[0] != pk
  {
    var kept := NonKey(cols, pk);
    var entries := Assignments(kept);
    forall i | 0 <= i < |kept|
      ensures PlainName(kept[i].name)
    {
      assert kept[i] in cols;
    }
    SplitJoin(", ", entries);
    forall i | 0 <= i < |kept|
      ensures Split(entries[i], " = ") == [kept[i].name, ValuePlaceholder(kept[i])]
    {
      AssignmentRoundTrip(kept[i]);
    }
  }

  /** `x` ends `s`. */
  predicate IsSuffix(x: string, s: string) {
    |x| <= |s| && s[|s| - |x|..] == x
  }

  /** `w` ends `x + w`. */
  lemma SuffixOfAppend(x: string, w: string)
    ensures IsSuffix(w, x + w)
  {
    assert (x + w)[|x + w| - |w|..] == w;
  }

  /** UPDATE, DELETE, SELECT * and SELECT <columns> all end with the same WHERE clause. */
  lemma SharedWhereClause(t: string, cols: seq<Column>, pk: string)
    ensures var q := Render(t, cols, pk); var w := WhereClause(pk);
      IsSuffix(w, q.update) && IsSuffix(w, q.delete) && IsSuffix(w, q.selectAll) && IsSuffix(w, q.selectSpecific)
  {
    var w := WhereClause(pk);
    SuffixOfAppend("UPDATE " + t + " SET " + SetClause(cols, pk), w);
    SuffixOfAppend("DELETE FROM " + t, w);
    SuffixOfAppend("SELECT * FROM " + t, w);
    SuffixOfAppend("SELECT " + ColumnList(cols) + " FROM " + t, w);
  }

  /** `x` occurs in `a + x + b` right after `a`. */
  lemma OccursBetween(a: string, x: string, b: string)
    ensures OccursAt(a + x + b, x, |a|)
  {
    assert (a + x + b)[|a|..|a| + |x|] == x;
  }

  /**
   * The INSERT and the SELECT of named columns hold the very same column
   * list: after "INSERT INTO <table> (" in the one and after "SELECT " in the
   * other.
   */
  lemma SharedColumnList(t: string, cols: seq<Column>, pk: string)
    ensures var q := Render(t, cols, pk);
      && OccursAt(q.insert, ColumnList(cols), |t| + 14)
      && OccursAt(q.selectSpecific, ColumnList(cols), 7)
  {
    InsertHoldsList(t, ColumnList(cols), ValueList(cols));
    SelectHoldsList(t, ColumnList(cols), WhereClause(pk));
  }

  /** The column list of an INSERT follows "INSERT INTO <table> (". */
  lemma InsertHoldsList(t: string, cl: string, vl: string)
    ensures OccursAt("INSERT INTO " + t + " (" + cl + ") VALUES (" + vl + ");", cl, |t| + 14)
  {
    var pre := "INSERT INTO " + t + " (";
    var post := ") VALUES (" + vl + ");";
    assert "INSERT INTO " + t + " (" + cl + ") VALUES (" + vl + ");" == pre + cl + post;
    OccursBetween(pre, cl, post);
  }

  /** The column list of a SELECT of named columns follows "SELECT ". */
  lemma SelectHoldsList(t: string, cl: string, w: string)
    ensures OccursAt("SELECT " + cl + " FROM " + t + w, cl, 7)
  {
    var post := " FROM " + t + w;
    assert "SELECT " + cl + " FROM " + t + w == "SELECT " + cl + post;
    OccursBetween("SELECT ", cl, post);
  }

  /**
   * The WHERE condition reads back as the key compared with an unquoted
   * placeholder of the key, whatever the key column's type.
   */
  lemma ConditionRoundTrip(pk: string)
    requires ' ' !in pk
    ensures Split(Condition(pk), " = ") == [pk, Placeholder(pk, false)]
    ensures ParsePlaceholder(Split(Condition(pk), " = ")[1]) == Some((pk, false))
  {
    SplitCons(pk, " = ", Placeholder(pk, false));
    SplitUncut(Placeholder(pk, false), " = ");
    PlaceholderRoundTrip(pk, false);
  }

  /** The VALUES entries, built column by column as the program's loop does. */
  method BuildValueStrings(cols: seq<Column>) returns (values: seq<string>)
    ensures |values| == |cols|
    ensures forall i :: 0 <= i < |cols| ==> values[i] == ValuePlaceholder(cols[i])
    ensures forall i :: 0 <= i < |cols| ==>
      ParsePlaceholder(values[i]) == Some((cols[i].name, RequiresQuotes(cols[i].colType)))
  {
    values := [];
    for k := 0 to |cols|
      invariant |values| == k
      invariant forall i :: 0 <= i < k ==> values[i] == ValuePlaceholder(cols[i])
      invariant forall i :: 0 <= i < k ==>
        ParsePlaceholder(values[i]) == Some((cols[i].name, RequiresQuotes(cols[i].colType)))
    {
      var name, ty := cols[k].name, cols[k].colType;
      PlaceholderRoundTrip(name, RequiresQuotes(ty));
      if RequiresQuotes(ty) {
        values := values + ["'`${" + name + "}`'"];
      } else {
        values := values + ["`${" + name + "}`"];
      }
    }
  }

  /** The placeholder text written out as the program spells it. */
  lemma PlaceholderText(name: string)
    ensures Placeholder(name, true) == "'`${" + name + "}`'"
    ensures Placeholder(name, false) == "`${" + name + "}`"
  {
  }

  /** An assignment written out as the program spells it. */
  lemma AssignmentText(c: Column)
    ensures RequiresQuotes(c.colType) ==> Assignment(c) == c.name + " = '`${" + c.name + "}`'"
    ensures !RequiresQuotes(c.colType) ==> Assignment(c) == c.name + " = `${" + c.name + "}`"
  {
    var n := c.name;
    if RequiresQuotes(c.colType) {
      calc {
        Assignment(c);
        n + " = " + ("'`${" + n + "}`'");
        { assert " = " + ("'`${" + n + "}`'") == " = '`${" + n + "}`'"; }
        n + (" = '`${" + n + "}`'");
      }
    } else {
      calc {
        Assignment(c);
        n + " = " + ("`${" + n + "}`");
        { assert " = " + ("`${" + n + "}`") == " = `${" + n + "}`"; }
        n + (" = `${" + n + "}`");
      }
    }
  }

  /** Filtering one more column filters it alone and appends the result. */
  lemma NonKeySnoc(cols: seq<Column>, k: nat, pk: string)
    requires k < |cols|
    ensures NonKey(cols[..k + 1], pk) == NonKey(cols[..k], pk) + NonKey([cols[k]], pk)
  {
    assert cols[..k + 1] == cols[..k] + [cols[k]];
    NonKeyAppend(cols[..k], [cols[k]], pk);
  }

  /** The SET entries of two column runs are the entries of each, one after the other. */
  lemma AssignmentsAppend(a: seq<Column>, b: seq<Column>)
    ensures Assignments(a + b) == Assignments(a) + Assignments(b)
  {
  }

  /** The SET entries, built column by column, skipping the primary key. */
  method BuildSetParts(cols: seq<Column>, pk: string) returns (parts: seq<string>)
    ensures parts == Assignments(NonKey(cols, pk))
  {
    parts := [];
    for k := 0 to |cols|
      invariant parts == Assignments(NonKey(cols[..k], pk))
    {
      var name, ty := cols[k].name, cols[k].colType;
      ghost var before := parts;
      if name != pk {
        var entry;
        if RequiresQuotes(ty) {
          entry := name + " = '`${" + name + "}`'";
        } else {
          entry := name + " = `${" + name + "}`";
        }
        AssignmentText(cols[k]);
        parts := parts + [entry];
        assert parts == before + Assignments([cols[k]]);
      }
      assert parts == before + Assignments(NonKey([cols[k]], pk));
      NonKeySnoc(cols, k, pk);
      AssignmentsAppend(NonKey(cols[..k], pk), NonKey([cols[k]], pk));
    }
    assert cols[..|cols|] == cols;
  }

  /**
   * The templates for one table, in the program's order: the INSERT first,
   * then the key lookup, which fails on an empty or short key listing, then
   * the rest.
   */
  method GenerateTable(tableName: string, cols: seq<Column>, keyRows: seq<seq<string>>)
    returns (r: Option<Queries>)
    ensures r.None? <==> |keyRows| == 0 || |keyRows[0]| < 5
    ensures r.Some? ==> r.value == Render(tableName, cols, keyRows[0][4])
  {
    var fieldNames := Join(", ", Names(cols));
    var valueStrs := BuildValueStrings(cols);
    assert valueStrs == ValuePlaceholders(cols);
    var valuePart := Join(", ", valueStrs);
    var insert := "INSERT INTO " + tableName + " (" + fieldNames + ") VALUES (" + valuePart + ");";

    var primary := PrimaryKey(keyRows);
    if primary.None? {
      return None;
    }
    var pk := primary.value;
    var setParts := BuildSetParts(cols, pk);
    var setPart := Join(", ", setParts);
    var condition := pk + " = `${" + pk + "}`";
    PlaceholderText(pk);
    assert condition == Condition(pk);
    var where := " WHERE " + condition + ";";

    var update := "UPDATE " + tableName + " SET " + setPart + where;
    var delete := "DELETE FROM " + tableName + where;
    var selectAll := "SELECT * FROM " + tableName + where;
    var selectSpecific := "SELECT " + Join(", ", Names(cols)) + " FROM " + tableName + where;
    r := Some(Queries(insert, update, delete, selectAll, selectSpecific));
  }
}
