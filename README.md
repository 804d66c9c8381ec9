# Whimsy MySQL helper: the SQL-text layer, modelled in Dafny

Whimsy's MySQL helper describes table columns as typed values and assembles
SQL statements (`use`, `create table`, `insert`, `update`, `delete`) from
them by string concatenation, then hands each statement to a JDBC connection.
This project models the text-rendering layer and the builders' state
machines as the Java code behaves, including null strings and null arrays
passed to the setters, and proves what each operation renders, when it
refuses, and that a refused operation issues no statement. Field names, type
tags, Field array elements and connections are never null in the model; see
"Left out" for what that restriction hides.

Modules, one per source file or component:

- `Lang` (lang.dfy): Java semantics the model needs. `Nullable` is a
  reference that may be null. `Str` is string conversion, under which null
  renders as `null`. `Result` and `Outcome` are the two ways a call can
  complete: normally or by throwing an exception.
- `Text` (text.dfy): decimal rendering of an int, with its inverse. `Join`
  puts a separator between neighbours, the way the source's StringBuilder
  loops do. `Split` cuts a string at one character, and `SplitJoin` proves it
  undoes `Join`.
- `Types` (type.dfy): the `Type` enum. Its INT and VARCHAR constants are
  two shared objects whose text and default value `getType` overwrites in place.
- `Fields` (field.dfy): `Field` as a class, `FieldView` as a snapshot of one
  field, and the rendering of column definitions. The getters `GetName`,
  `GetType` and `GetValue` return the stored fields.
- `Restriction` (restriction.dfy): the four constraint keywords.
- `Operation` (create_table.dfy): `CreateTable`, which finds the first field
  with a given name and attaches a keyword to it.
- `Database` (database.dfy): `LoadDatabase` with the JDBC connection
  replaced by an oracle. The oracle `driver` gives the reply to the n-th
  statement, and the verdict rule of `executeUpdate` is modelled as it is.
  A ghost `log` records every `(sql, kind)` pair issued. `userDatabase`,
  `createTable`, `createTableKey` and `deleteTable` are also here.
- `Sql` (sql.dfy): the statement texts, the where-clause codes, the
  quoting by type tag, and the StringBuilder loops, each proved against a
  specification function.
- `Builder` (property.dfy): `Property`, the state every builder
  accumulates, and its setters. LoadDatabase.java's inner `Property` and
  temporary/Property.java have the same setters line for line (LoadDatabase.java:649-747 and
  temporary/Property.java:64-162), so both revisions share this one class.
  Java subclassing becomes composition: each builder holds a `Property`.
- `Statements` (statements.dfy): the inner `InsertInto`, `Delete` and
  `Update` of LoadDatabase.java.
- `Temporary` (temporary.dfy): `InsertInto` and `Update` of temporary/.
  In this revision, the code that reads field values is commented out.
- `Scenarios` (scenarios.dfy): concrete call sequences showing the
  behaviours listed below.

Behaviours of the code a reader might not expect:

- The model follows the code here:
  - INT's width is appended to the current text, so calls with 3, 4 and 0
    on the one INT constant give `int(3)(4)(0)`.
  - A width of 0 renders `int(0)`, not `int`.
  - The type constants are shared mutable objects, not fresh values.
- A failed default-value check of `getType(int, Object)` leaves the width
  change behind.
- A null varchar default is stored as the text `null`.
- An update whose where clause was never set ends in `null;`.
- `Update.commit` does not check that the column and value arrays have
  equal lengths:
  - extra values are ignored;
  - missing values throw ArrayIndexOutOfBoundsException before any statement
    is issued.
- `Update.commitFields` with no fields returns true.
- `Field.toString` does not render the restriction slot. Only key code 1
  (`primary key`) appears in a column definition.
- `deleteTable` issues `drop table if not exists <t>;` (MySQL's form is
  `drop table if exists`). The text is kept as written.

## Model

| member | source | states |
|---|---|---|
| `Database.Verdict` | src/com/ych/whimsy/mysql/LoadDatabase.java:370-384 | a statement succeeds iff the driver reports 0 rows for "ddl" or exactly 1 row for "dml"; a driver exception, any other count or kind fails |
| `Database.VerdictExclusive` | src/com/ych/whimsy/mysql/LoadDatabase.java:373-378 | no reply succeeds as both kinds; a multi-row manipulation reads as failure |
| `Database.LoadDatabase.ExecuteUpdate` | src/com/ych/whimsy/mysql/LoadDatabase.java:370-384 | exactly one statement is logged and the result is the verdict on the driver's reply to it |
| `Database.LoadDatabase.UserDatabase` | src/com/ych/whimsy/mysql/LoadDatabase.java:240-249 | null/empty name: false and no statement; otherwise issues `use <name>;` as DDL and returns its verdict |
| `Database.CreateTableText` | src/com/ych/whimsy/mysql/LoadDatabase.java:395-414 | the loop renders `create table if not exists <t>(` + each field's toString joined by "," + `);` |
| `Database.LoadDatabase.CreateTable` | src/com/ych/whimsy/mysql/LoadDatabase.java:393-417 | a null Field array throws NullPointerException with no statement; otherwise issues that statement as DDL and returns its verdict |
| `Database.CreateTableKeyText` | src/com/ych/whimsy/mysql/LoadDatabase.java:428-452 | the loop renders each column as `name type`, plus " " and the key text only when the key text is non-empty |
| `Database.KeyedColumn` | src/com/ych/whimsy/mysql/LoadDatabase.java:437-442 | column i from the getters is the i-th keyed definition of the field list: `name type`, plus " " and the key text when it is non-empty |
| `Database.LoadDatabase.CreateTableKey` | src/com/ych/whimsy/mysql/LoadDatabase.java:426-455 | a null Field array throws NullPointerException with no statement; otherwise issues that statement as DDL and returns its verdict |
| `Database.CreateTableVariantsAgree` | src/com/ych/whimsy/mysql/LoadDatabase.java:437-444 | createTable and createTableKey render the same statement for the same fields |
| `Database.LoadDatabase.DeleteTable` | src/com/ych/whimsy/mysql/LoadDatabase.java:463-471 | issues `drop table if not exists <t>;` as DDL |
| `Builder.Property.constructor` | src/com/ych/whimsy/mysql/temporary/Property.java:54-56 | stores the connection; every builder field stays null |
| `Builder.Property.SetDatabase` | src/com/ych/whimsy/mysql/LoadDatabase.java:649-659 | null/empty name: false, name unchanged, no statement; otherwise records the name and issues `use <name>;` as DDL, returning its verdict |
| `Builder.Property.SetTable` | src/com/ych/whimsy/mysql/LoadDatabase.java:667-674 | true iff the name is non-null and non-empty; only the table name changes, and only then |
| `Builder.Property.SetFields` | src/com/ych/whimsy/mysql/LoadDatabase.java:682-694 | true iff the array is non-null and non-empty; only then is it stored |
| `Builder.Property.SetColumns` | src/com/ych/whimsy/mysql/LoadDatabase.java:702-720 | refuses a null/empty array leaving state unchanged; otherwise stores the list text (each element + " ", joined by ",") and the raw array |
| `Builder.Property.SetValues` | src/com/ych/whimsy/mysql/LoadDatabase.java:729-747 | as SetColumns, for the values |
| `Sql.RenderList` | src/com/ych/whimsy/mysql/LoadDatabase.java:707-716 | the counter loop produces each element + " " with "," between neighbours |
| `Sql.ListedRoundTrip` | src/com/ych/whimsy/mysql/LoadDatabase.java:707-717 | the stored list text splits back at "," into the elements (each with its space) when no element contains a comma |
| `Statements.InsertInto.constructor` | src/com/ych/whimsy/mysql/LoadDatabase.java:596-598 | a fresh builder over the connection with nothing set |
| `Statements.InsertInto.Commit` | src/com/ych/whimsy/mysql/LoadDatabase.java:782-791 | null/empty value text: false and no statement; otherwise issues `insert into <t> (<columns>) values(<values>);` as DML |
| `Statements.InsertInto.CommitFields` | src/com/ych/whimsy/mysql/LoadDatabase.java:799-830 | no fields: false and no statement; otherwise inserts the names and quoted values in field order |
| `Sql.RenderInsertLists` | src/com/ych/whimsy/mysql/LoadDatabase.java:806-826 | the loop joins field names and type-quoted values with "," in field order |
| `Sql.LiteralsByTag` | src/com/ych/whimsy/mysql/LoadDatabase.java:812-819 | only `int` and `varchar(255)` get a value: int unquoted, varchar single-quoted; any other tag renders nothing (insert) or null (update, delete, where) |
| `Statements.Delete.constructor` | src/com/ych/whimsy/mysql/LoadDatabase.java:833-835 | a fresh builder over the connection with nothing set |
| `Statements.Delete.SetValues` | src/com/ych/whimsy/mysql/LoadDatabase.java:860-871 | accepts exactly one value and stores it as the value text; the value array is untouched |
| `Statements.Delete.Commit` | src/com/ych/whimsy/mysql/LoadDatabase.java:879-893 | needs non-empty column text and value; issues `delete from <t> where <columns>=<value>;` as DML, else nothing |
| `Statements.Delete.CommitFields` | src/com/ych/whimsy/mysql/LoadDatabase.java:901-924 | exactly one field required, else false and no statement; deletes where its name equals its type-quoted value |
| `Statements.Update.constructor` | src/com/ych/whimsy/mysql/LoadDatabase.java:927-929 | a fresh builder with nothing set and no where clause |
| `Sql.Comparator` | src/com/ych/whimsy/mysql/LoadDatabase.java:973-992 | codes -1, 0, 1, -10, 10 and no others have an operator |
| `Sql.WhereClause` | src/com/ych/whimsy/mysql/LoadDatabase.java:963-995 | a clause exists iff column and value are non-empty and the code is known; it is ` where <c><op><v>`, with `>=` lacking its trailing space |
| `Sql.WhereCodeRecoverable` | src/com/ych/whimsy/mysql/LoadDatabase.java:973-988 | distinct codes give distinct clauses, so the clause determines the comparison |
| `Statements.Update.SetWhere` | src/com/ych/whimsy/mysql/LoadDatabase.java:963-995 | true iff WhereClause exists, and then stores it; on refusal the old clause stays |
| `Statements.Update.SetWhereField` | src/com/ych/whimsy/mysql/LoadDatabase.java:1004-1021 | null field refused; otherwise the field's name and type-quoted value go through SetWhere |
| `Sql.RenderSetList` | src/com/ych/whimsy/mysql/LoadDatabase.java:1040-1047 | pairs `c = v` joined by " , "; fewer values than columns throws ArrayIndexOutOfBounds |
| `Sql.SetListIgnoresExtraValues` | src/com/ych/whimsy/mysql/LoadDatabase.java:1041-1042 | values beyond the column count do not change the statement |
| `Statements.Update.Commit` | src/com/ych/whimsy/mysql/LoadDatabase.java:1029-1051 | empty arrays: false, no statement; too few values: throws, no statement; else issues `update <t> set <pairs><where>;` with an unset where rendered `null` |
| `Sql.UpdateArrays` | src/com/ych/whimsy/mysql/LoadDatabase.java:1065-1080 | the loop fills the column array with names and the value array with type-quoted values, null for unknown tags |
| `Statements.Update.CommitFields` | src/com/ych/whimsy/mysql/LoadDatabase.java:1059-1086 | no fields: true, nothing changes; otherwise stores those arrays and their texts and commits them |
| `Temporary.InsertInto.constructor` | src/com/ych/whimsy/mysql/temporary/InsertInto.java:26-28 | a fresh builder over the connection with nothing set |
| `Temporary.InsertInto.Commit` | src/com/ych/whimsy/mysql/temporary/InsertInto.java:37-46 | null/empty value text: false and no statement; otherwise issues the insert as DML |
| `Temporary.InsertInto.CommitFields` | src/com/ych/whimsy/mysql/temporary/InsertInto.java:54-85 | no fields: false, no statement; otherwise always `insert into <t> () values();` whatever the fields |
| `Temporary.Update.constructor` | src/com/ych/whimsy/mysql/temporary/Update.java:28-30 | a fresh builder with nothing set and no where clause |
| `Temporary.Update.SetWhere` | src/com/ych/whimsy/mysql/temporary/Update.java:45-77 | true iff WhereClause exists, and then stores it; on refusal the old clause stays |
| `Temporary.Update.SetWhereField` | src/com/ych/whimsy/mysql/temporary/Update.java:86-103 | always false and the clause unchanged, since the value handed on is null |
| `Temporary.Update.Commit` | src/com/ych/whimsy/mysql/temporary/Update.java:111-133 | as the LoadDatabase revision of commit |
| `Temporary.NameArrays` | src/com/ych/whimsy/mysql/temporary/Update.java:147-162 | the column array holds the field names and the value array only nulls |
| `Temporary.NullValuesRenderNull` | src/com/ych/whimsy/mysql/temporary/Update.java:122-129 | with null values every pair renders `<column> = null` |
| `Temporary.Update.CommitFields` | src/com/ych/whimsy/mysql/temporary/Update.java:141-168 | no fields: true, nothing changes; otherwise commits the names with null values |
| `Types.Type.Int` | src/com/ych/whimsy/mysql/Type.java:18 | the INT constant starts as `int` with no default |
| `Types.Type.Varchar` | src/com/ych/whimsy/mysql/Type.java:75 | the VARCHAR constant starts as `varchar(255)` with no default |
| `Types.Type.GetType` | src/com/ych/whimsy/mysql/Type.java:26-88 | INT: width outside 0..10 throws, nothing changes, else "(w)" is appended to the current text; VARCHAR: outside 0..65535 throws, else the text becomes `varchar(l)` |
| `Types.AppendedWidthReadable` | src/com/ych/whimsy/mysql/Type.java:31 | the appended width can be read back from the end of the text |
| `Text.NatText` | src/com/ych/whimsy/mysql/Type.java:31 | an int renders as a non-empty string of decimal digits |
| `Text.NatTextRoundTrip` | src/com/ych/whimsy/mysql/Type.java:88 | the rendered digits denote the number again |
| `Text.NatTextNoLeadingZero` | src/com/ych/whimsy/mysql/Type.java:88 | the rendering has no leading zero except for 0 |
| `Types.Type.GetTypeWithDefault` | src/com/ych/whimsy/mysql/Type.java:45-117 | INT: null/empty default throws NullPointer and non-digits ClassCast, both before any change; then the width as GetType, and too many digits (more than w, or 10 for w = 0) throws after the width change; otherwise the default is stored. VARCHAR: text replaced first, a default longer than the length in UTF-16 units throws, else the quoted default is stored |
| `Lang.Utf16Length` | src/com/ych/whimsy/mysql/Type.java:58 | `length()` counts UTF-16 units: at least one and at most two per character, zero only for the empty string |
| `Lang.Utf16LengthInPlane` | src/com/ych/whimsy/mysql/Type.java:107 | for text without supplementary characters `length()` is the character count |
| `Types.VarcharStoredDefault` | src/com/ych/whimsy/mysql/Type.java:105-116 | VARCHAR stores `''`, `'d'`, or the text `null` for a null default; never shorter than two characters |
| `Types.VarcharDefaultQuoted` | src/com/ych/whimsy/mysql/Type.java:111-116 | a given default is quoted and recoverable between the quotes; a null one is the text `null` |
| `Types.DefaultClause` | src/com/ych/whimsy/mysql/Type.java:163-167 | empty exactly when there is no default |
| `Types.Type.GetDefaultValue` | src/com/ych/whimsy/mysql/Type.java:163-167 | empty iff no default is stored, else `default <stored default>` |
| `Types.RenderedShape` | src/com/ych/whimsy/mysql/Type.java:174-176 | toString is the type text alone, or text + " default " + stored default |
| `Types.Type.ToString` | src/com/ych/whimsy/mysql/Type.java:174-176 | the object's type text, followed by ` default <stored default>` only when a default is stored |
| `Fields.Field.constructor` | src/com/ych/whimsy/mysql/Field.java:65-68 | stores name and type; value null, key 0 |
| `Fields.Field.WithValue` | src/com/ych/whimsy/mysql/Field.java:54-57 | stores name, type and value; key 0 |
| `Fields.Field.SetKey` | src/com/ych/whimsy/mysql/Field.java:76-78 | stores any int as the key; nothing else changes |
| `Fields.Field.GetValue` | src/com/ych/whimsy/mysql/Field.java:85-87 | the stored value, null included |
| `Fields.Field.GetType` | src/com/ych/whimsy/mysql/Field.java:94-96 | the stored type tag |
| `Fields.Field.GetName` | src/com/ych/whimsy/mysql/Field.java:103-105 | the stored name |
| `Fields.KeyText` | src/com/ych/whimsy/mysql/Field.java:112-118 | `primary key` exactly for key 1, else the empty string |
| `Fields.Field.GetKey` | src/com/ych/whimsy/mysql/Field.java:112-118 | the key text of the object's key |
| `Fields.DefinitionShape` | src/com/ych/whimsy/mysql/Field.java:124-131 | toString is `name type`, plus ` primary key` only for key 1 |
| `Fields.Field.ToString` | src/com/ych/whimsy/mysql/Field.java:124-131 | the object's definition text in that shape |
| `Restriction.KeywordsPadded` | src/com/ych/whimsy/mysql/Restriction.java:8-23 | every keyword begins and ends with a space |
| `Restriction.KeywordsDistinct` | src/com/ych/whimsy/mysql/Restriction.java:8-23 | the four keywords are pairwise distinct |
| `Operation.CreateTable.Create` | src/com/ych/whimsy/mysql/operation/CreateTable.java:26-31 | a null connection throws NullPointer; otherwise a table object with no fields |
| `Operation.CreateTable.SetFields` | src/com/ych/whimsy/mysql/operation/CreateTable.java:43-48 | a null/empty list throws NullPointer and changes nothing; otherwise it is stored |
| `Operation.CreateTable.CheckArguments` | src/com/ych/whimsy/mysql/operation/CreateTable.java:56-65 | passes iff the name is non-empty and a non-empty list is stored; else NullPointer |
| `Operation.FirstIndex` | src/com/ych/whimsy/mysql/operation/CreateTable.java:77-79 | the least index holding the name, or none iff the name is absent |
| `Operation.CreateTable.SelectRestriction` | src/com/ych/whimsy/mysql/operation/CreateTable.java:75-98 | true iff some field has the name (and the keyword is one of the four); only the first such field's restriction changes |
| `Operation.CreateTable.SetNotNull` | src/com/ych/whimsy/mysql/operation/CreateTable.java:107-118 | throws on a bad name or no fields; otherwise attaches ` not null ` to the first matching field |
| `Operation.CreateTable.SetAutoIncrement` | src/com/ych/whimsy/mysql/operation/CreateTable.java:128-139 | the same with ` auto_increment ` |
| `Operation.CreateTable.SetUnique` | src/com/ych/whimsy/mysql/operation/CreateTable.java:148-159 | the same with ` unique ` |
| `Operation.CreateTable.SetPrimaryKey` | src/com/ych/whimsy/mysql/operation/CreateTable.java:168-179 | the same with ` primary key ` |

## Left out

- JDBC plumbing is foreign library code and is not modelled:
  - driver loading and connection setup (LoadDatabase.java:52-229);
  - the Statement, ResultSet and RowSet accessors, and `close`.
  The driver's reply to each statement is an oracle parameter.
- Query printing (`inquireTable`, `inquireResultSet`, `inquireTableMessage`)
  iterates result sets and prints to the console. It is not modelled.
- Diagnostic output is console text with no logic. This covers every
  `System.err` message and `log/Log.java`.
- The static `driverName` global is not modelled.
- A Field's name and type tag, the elements of a Field array and the
  connection handed to a builder are never null in the model. This is a
  restriction of the model, and it hides these Java behaviours:
  - `createTable` appends a null array element as `null`
    (LoadDatabase.java:405), and it renders a null name or tag as `null`.
  - `createTableKey` renders a null name or tag as `null`.
  - `InsertInto.commitFields` and `Update.commitFields` render a null name as
    `null`.
  - The `switch` on a null type tag throws NullPointerException, as does
    `getName().equals` on a null name (operation/CreateTable.java:79).
  - A builder accepts a null connection (temporary/Update.java:28-30). A
    later call that reaches `executeUpdate` on it, `setDatabase` or a commit
    that gets past its own refusals, throws NullPointerException; a call
    that refuses first still returns false.
- Arrays passed to the setters are stored as sequence values. A caller that
  later writes into its own array would change the builder's Java array; the
  model does not capture that aliasing. It does capture aliasing of Field
  objects: CreateTable changes the caller's Field objects in place.
- Java subclassing is modelled as composition. The base-class `setValues` is
  therefore still reachable on a Delete's `state`, although Java's dispatch
  would always choose `Delete.SetValues`.
- Three mismatches between source files are bridged, not modelled:
  - `Field.setRestriction` is called by CreateTable but missing from
    Field.java; the model adds a restriction slot to Field.
  - `executeUpdate` is private in LoadDatabase.java but called by the
    temporary/ classes; the model makes it public.
  - temporary/Update.java:154-158 compares a String tag with `Field.Type`
    constants that do not exist. Those lines are commented out, like the
    other temporary/ switches (which use `Field.INT` and `Field.STRING_255`),
    so nothing reads them.
- `Types.Type.GetType`: Java `int` arguments are unbounded `int` here. The
  range check rejects every value that a 32-bit width would overflow, so
  nothing else differs.
