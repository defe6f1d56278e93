/**
 * The templates generated for a `users` table whose key column `id` has an
 * unquoted type and whose second column `name` has a quoted one, written out
 * in full.
 */
module UsersExample {
  import opened Strings
  import opened Quoting
  import opened Templates

  /** The complete output for `users(id int, name varchar(50))` keyed on `id`. */
  lemma IntKeyVarcharName()
    ensures Render("users", [Column("id", "int"), Column("name", "varchar(50)")], "id") == Queries(
      "INSERT INTO users (id, name) VALUES (`${id}`, '`${name}`');",
      "UPDATE users SET name = '`${name}`' WHERE id = `${id}`;",
      "DELETE FROM users WHERE id = `${id}`;",
      "SELECT * FROM users WHERE id = `${id}`;",
      "SELECT id, name FROM users WHERE id = `${id}`;")
  {
    UnquotedWhenCharsMissing("int", 'c', 'e', 'd', 'm');
    QuotedWhenContains("varchar(50)", "char", 3);
    Users("int", "varchar(50)");
  }

  /** The same output for any unquoted key type and any quoted name type. */
  lemma Users(idType: string, nameType: string)
    requires !RequiresQuotes(idType) && RequiresQuotes(nameType)
    ensures Render("users", [Column("id", idType), Column("name", nameType)], "id") == Queries(
      "INSERT INTO users (id, name) VALUES (`${id}`, '`${name}`');",
      "UPDATE users SET name = '`${name}`' WHERE id = `${id}`;",
      "DELETE FROM users WHERE id = `${id}`;",
      "SELECT * FROM users WHERE id = `${id}`;",
      "SELECT id, name FROM users WHERE id = `${id}`;")
  {
    var cols := [Column("id", idType), Column("name", nameType)];
    Lists(idType, nameType);
    SetPart(idType, nameType);
    WhereId();
    InsertText("users", ColumnList(cols), ValueList(cols));
    UpdateText("users", SetClause(cols, "id"), WhereClause("id"));
    DeleteText("users", WhereClause("id"));
    SelectAllText("users", WhereClause("id"));
    SelectSpecificText("users", ColumnList(cols), WhereClause("id"));
  }

  /** The column list and the VALUES list of the example. */
  lemma Lists(idType: string, nameType: string)
    requires !RequiresQuotes(idType) && RequiresQuotes(nameType)
    ensures ColumnList([Column("id", idType), Column("name", nameType)]) == "id, name"
    ensures ValueList([Column("id", idType), Column("name", nameType)]) == "`${id}`, '`${name}`'"
  {
    var id, name := Column("id", idType), Column("name", nameType);
    var cols := [id, name];
    assert Names(cols) == ["id", "name"];
    assert ValuePlaceholder(id) == "`${id}`";
    assert ValuePlaceholder(name) == "'`${name}`'";
    assert ValuePlaceholders(cols) == [ValuePlaceholder(id), ValuePlaceholder(name)];
    JoinPair(", ", "id", "name");
    JoinPair(", ", ValuePlaceholder(id), ValuePlaceholder(name));
  }

  /** The SET clause keeps only `name`. */
  lemma SetPart(idType: string, nameType: string)
    requires RequiresQuotes(nameType)
    ensures SetClause([Column("id", idType), Column("name", nameType)], "id") == "name = '`${name}`'"
  {
    var id, name := Column("id", idType), Column("name", nameType);
    assert NonKey([id, name], "id") == [name];
    assert Assignment(name) == "name = '`${name}`'";
    assert Assignments([name]) == [Assignment(name)];
  }

  /** The WHERE clause on `id`. */
  lemma WhereId()
    ensures WhereClause("id") == " WHERE id = `${id}`;"
  {
    assert " WHERE " + "id = `${id}`" == " WHERE id = `${id}`";
  }

  /**
   * The following lemmas glue the pieces into each template, one step at a
   * time. Each names the pieces as parameters pinned to their text, so that
   * the verifier compares short strings at each step instead of unfolding
   * one long literal concatenation at once.
   */
  lemma InsertText(t: string, names: string, values: string)
    requires t == "users" && names == "id, name" && values == "`${id}`, '`${name}`'"
    ensures "INSERT INTO " + t + " (" + names + ") VALUES (" + values + ");"
      == "INSERT INTO users (id, name) VALUES (`${id}`, '`${name}`');"
  {
    var s := "INSERT INTO " + t + " (";
    assert s == "INSERT INTO users (";
    s := s + names;
    assert s == "INSERT INTO users (id, name";
    s := s + ") VALUES (";
    assert s == "INSERT INTO users (id, name) VALUES (";
    s := s + values;
    assert s == "INSERT INTO users (id, name) VALUES (`${id}`, '`${name}`'";
  }

  lemma UpdateText(t: string, setPart: string, where: string)
    requires t == "users" && setPart == "name = '`${name}`'" && where == " WHERE id = `${id}`;"
    ensures "UPDATE " + t + " SET " + setPart + where == "UPDATE users SET name = '`${name}`' WHERE id = `${id}`;"
  {
    var s := "UPDATE " + t + " SET ";
    assert s == "UPDATE users SET ";
    s := s + setPart;
    assert s == "UPDATE users SET name = '`${name}`'";
  }

  lemma DeleteText(t: string, where: string)
    requires t == "users" && where == " WHERE id = `${id}`;"
    ensures "DELETE FROM " + t + where == "DELETE FROM users WHERE id = `${id}`;"
  {
    assert "DELETE FROM " + t == "DELETE FROM users";
  }

  lemma SelectAllText(t: string, where: string)
    requires t == "users" && where == " WHERE id = `${id}`;"
    ensures "SELECT * FROM " + t + where == "SELECT * FROM users WHERE id = `${id}`;"
  {
    assert "SELECT * FROM " + t == "SELECT * FROM users";
  }

  lemma SelectSpecificText(t: string, names: string, where: string)
    requires t == "users" && names == "id, name" && where == " WHERE id = `${id}`;"
    ensures "SELECT " + names + " FROM " + t + where == "SELECT id, name FROM users WHERE id = `${id}`;"
  {
    var s := "SELECT " + names;
    assert s == "SELECT id, name";
    s := s + " FROM " + t;
    assert s == "SELECT id, name FROM users";
  }
}
