# MySQL query-template generator, modelled in Dafny

The program connects to a MySQL database. For every table it writes a text
file `<database>/<table>.txt` holding five SQL templates. They are
fill-in-the-blank text, not statements with bind parameters:

- INSERT, listing every column and one value placeholder per column;
- UPDATE, assigning every column except the primary key;
- DELETE;
- SELECT *;
- SELECT of every column by name.

The last four share one WHERE condition on the primary key. A placeholder is
the literal text `` `${name}` ``. It is wrapped in single quotes,
`` '`${name}`' ``, when the column's declared type is classified as quoted.

This project models the part of the program that turns database metadata into
text:

- the quoting classifier `requires_quotes`;
- the primary-key lookup;
- the per-table template construction;
- the file content;
- the run over all tables.

The metadata the program fetches becomes input values: table names, column
rows `(name, type)` and primary-key rows.

Modules:

- `Wrappers` (`wrappers.dfy`): `Option`. `None` stands for the program's
  `IndexError`.
- `Strings` (`strings.dfy`): the two Python built-ins the program relies on,
  modelled with their Python meaning: the substring test `sub in s`
  (`Contains`) and `sep.join(parts)` (`Join`). It adds `s.split(sep)`
  (`Split`), which the program never calls: the lemmas use it to read the
  generated text back. It also proves that `Split` undoes `Join`
  (`SplitJoin`).
- `Quoting` (`quoting.dfy`): the classifier. Its table is kept in the
  dictionary literal's insertion order. `FirstMatch` is the early-returning
  scan, and the fallback is `false`.
- `Templates` (`templates.dfy`): columns, placeholders, the three lists, the
  WHERE clause, `Render` (the five templates as a reference definition), and
  the program's loops as methods (`BuildValueStrings`, `BuildSetParts`,
  `GenerateTable`).
- `Output` (`output.dfy`): the file content with its five labels, and the run
  over all tables (`GenerateDatabase`), which stops at the first table without
  a primary key.
- `UsersExample` (`users_example.dfy`): the complete output for a two-column
  table, worked out in full.

The classifier tests substrings, checking the quoted keywords before the
unquoted ones, so any type containing a quoted keyword is quoted: `int`
occurring in a type never overrides a quoted keyword. "datetime" is caught by
its own entry, which comes before "date". "time" is not a keyword, so a TIME
column falls back to unquoted, like `decimal(10,2)` and any other type no
keyword matches. `TimeExample` and `DecimalExample` record this.

Points where a reader might expect something else, and what the program
actually does:

- The condition is written `pk = `${pk}``, with spaces around `=`.
- Sections in the file are separated by `"\n\n\n"`.
- A table whose key listing is empty raises `IndexError`. The program does not
  handle it, so the run ends there. Files already written stay written. The
  model returns `None` for that table and `completed == false` for the run.
- Dictionary iteration follows insertion order.

## Model

| member | source | states |
|---|---|---|
| Quoting.FirstMatchSpec | index.py:55-58 | The scan answers something exactly when some keyword occurs in the type. When it answers, the answer is the flag of the first occurring keyword in table order. |
| Quoting.QuotedFirst | index.py:42-58 | For a table whose quoted rules all come before the unquoted ones, the answer is `true` exactly when some quoted keyword occurs. |
| Quoting.UnquotedOnly | index.py:49-58 | A scan over unquoted rules alone never answers `true`, whether or not a keyword matches. |
| Quoting.RequiresQuotesIff | index.py:42-58 | A type needs quotes exactly when one of varchar, text, char, datetime, timestamp or date occurs in it. This holds whatever unquoted keyword also occurs, so quoted keywords win. |
| Quoting.RequiresQuotesCore | index.py:42-58 | The answer is decided by char, text, date and timestamp alone, since varchar contains char and datetime contains date. |
| Quoting.UnquotedWhenNoQuotedKeyword | index.py:49-58 | A type containing none of the quoted keywords is unquoted, whether it matches int, bigint, float, double or nothing. |
| Quoting.UnquotedWhenCharsMissing | index.py:42-58 | A type lacking one character of each deciding keyword is unquoted. |
| Quoting.QuotedWhenContains | index.py:43-48 | A type in which char, text, date or timestamp occurs is quoted. |
| Quoting.VarcharExample | index.py:43-57 | `varchar(255)` is quoted. |
| Quoting.TinytextExample | index.py:44-57 | `tinytext` is quoted. |
| Quoting.TinyintExample | index.py:49-57 | `tinyint` is unquoted: it contains `int` and no quoted keyword. |
| Quoting.BigintExample | index.py:49-57 | `bigint` is unquoted. |
| Quoting.DoubleExample | index.py:52-57 | `double` is unquoted. |
| Quoting.DecimalExample | index.py:55-58 | `decimal(10,2)` matches no keyword and falls back to unquoted. |
| Quoting.TimeExample | index.py:47-58 | `time` is not `timestamp` and matches nothing, so it is unquoted. |
| Templates.PlaceholderRoundTrip | index.py:87-90 | Every placeholder reads back as the column's name and whether it is quoted. |
| Templates.PrimaryKeyOfFirstRow | index.py:70-72 | The key is field 4 of the first key row. Later rows never matter. No rows, or a first row with fewer than five fields, gives no key. |
| Templates.NonKey | index.py:101-103 | The filtered columns are columns of the table, none named as the key, and no more of them than there are columns. |
| Templates.NonKeyMembers | index.py:101-103 | A column survives the filter exactly when it is a column of the table and its name differs from the key. |
| Templates.NonKeyAppend | index.py:101-107 | The filter distributes over concatenation, so it keeps schema order. |
| Templates.NonKeyWithoutKey | index.py:101-103 | A key that names no column filters nothing out. |
| Templates.OnlyKeyColumns | index.py:99-113 | When every column is the key, the SET clause is empty and the UPDATE reads `UPDATE t SET  WHERE …`. |
| Templates.ColumnListRoundTrip | index.py:81 | The column list splits at ", " back into the column names, in schema order. |
| Templates.ValueListRoundTrip | index.py:84-92 | The VALUES list splits into exactly one placeholder per column, in order. Each names its column and is quoted exactly when the column's type requires quotes. |
| Templates.AssignmentRoundTrip | index.py:104-107 | A SET entry splits at " = " into the column's name and its placeholder. |
| Templates.SetClauseRoundTrip | index.py:99-109 | The SET clause splits into one `name = placeholder` entry per non-key column, in schema order. No entry assigns the key. |
| Templates.ConditionRoundTrip | index.py:110 | The condition reads back as the key and an unquoted placeholder of the key, whatever the key's type. |
| Templates.SharedWhereClause | index.py:110-131 | UPDATE, DELETE, SELECT * and SELECT of named columns all end with the same WHERE clause on the key. |
| Templates.SharedColumnList | index.py:95-131 | The INSERT and the SELECT of named columns hold the same column list. It sits after `INSERT INTO <table> (` in the one and after `SELECT ` in the other. |
| Templates.BuildValueStrings | index.py:84-90 | The loop yields one placeholder per column, in order, each reading back as its column and quoting. |
| Templates.BuildSetParts | index.py:99-107 | The loop yields exactly the SET entries of the non-key columns, in schema order. |
| Templates.GenerateTable | index.py:80-131 | A table's generation fails exactly when its key listing is empty or too short. Otherwise it yields the five templates of the reference definition `Render` for the key in field 4 of the first row. |
| Output.FileContentJoin | index.py:135-141 | The file content is the newline join of 18 lines: for each of the five labels in order, the label, then its template, then two blank lines between sections. |
| Output.FileContentRoundTrip | index.py:135-141 | When no template spans several lines, splitting the file at newlines gives back exactly those 18 lines. |
| Output.QueriesSingleLine | index.py:80-131 | No template holds a newline when none of the table name, the key name and the column names does. |
| Output.TableFileLines | index.py:133-141 | The file of a table with one-line names reads back as its five labels in order, each followed by its template. |
| Output.GenerateDatabase | index.py:75-141 | Tables are processed in listing order and one file is written per table. The run completes exactly when every table has a key. Otherwise it stops at the first table without one, after writing the files of all tables before it. |
| UsersExample.IntKeyVarcharName | index.py:80-141 | For `users(id int, name varchar(50))` keyed on `id`, the five templates are exactly the expected strings. |
| UsersExample.Users | index.py:80-131 | The same five templates result for any unquoted key type and any quoted name type. |

## Left out

- Reading the connection details from standard input and connecting to the
  server (index.py:4-14) are left out. Table names, column rows and key rows
  are inputs to the model.
- The metadata queries `SHOW TABLES`, `SHOW COLUMNS FROM …` and
  `SHOW KEYS FROM … WHERE Key_name = 'PRIMARY'` (index.py:13, 70, 77) are
  external calls. Their results are parameters.
- Folder creation and its messages (index.py:16-30) are file-system effects
  and are left out.
- Every `print` is console output and is left out. This includes the INSERT
  printed for a table before its key lookup fails.
- Opening and writing the file (index.py:134-141) is modelled as a list of
  `FileWrite(path, content)` records. Nothing is written to a real file
  system.
- The model assumes column names and types arrive as text. Were a type
  returned as bytes, the substring test at index.py:56 would raise
  `TypeError`; that case is not modelled.
- No SQL escaping or identifier quoting exists in the program, and none is
  modelled. Names are pasted verbatim.
- Templates.ColumnListRoundTrip, ValueListRoundTrip and SetClauseRoundTrip
  assume names without `,`. SetClauseRoundTrip also assumes names without
  spaces. Without that the lists cannot be read back: this is a restriction
  of reading back, not of generation.
- Templates.AssignmentRoundTrip and ConditionRoundTrip assume names without
  spaces, since they split at " = ".
- Output.FileContentRoundTrip and Output.TableFileLines assume names without
  newlines, for the same reason.
