/** LoadDatabase.java with the JDBC connection replaced by an oracle: the
    statements the helpers issue, the verdict rule of `executeUpdate`, and the
    table-level helpers `userDatabase`, `createTable`, `createTableKey` and
    `deleteTable`. */
module Database {
  import opened Lang
  import opened Text
  import opened Fields

  /** The `ddlOrDml` argument values. */
  const DDL: string := "ddl"
  const DML: string := "dml"

  /** What the driver's `Statement.executeUpdate` does with one statement:
      report an affected-row count, or throw an SQLException. */
  datatype DriverReply = Affected(rows: int) | SqlError

  /** One statement handed to the driver, with its kind. */
  datatype Issued = Issued(sql: string, kind: string)

  /** The verdict rule of `executeUpdate`: a definition statement succeeds when
      no row is affected, a manipulation statement when exactly one is; any
      other count, any other kind, and a driver exception are failures. */
  function Verdict(reply: DriverReply, kind: string): (ok: bool)
    ensures ok <==> (reply == Affected(0) && kind == DDL) || (reply == Affected(1) && kind == DML)
  {
    match reply
    case SqlError => false
    case Affected(i) =>
      if i == 0 && DDL == kind then true
      else if i == 1 && DML == kind then true
      else false
  }

  /** No reply is a success for both kinds, and a multi-row update or delete
      reads as a failure. */
  lemma VerdictExclusive(reply: DriverReply)
    ensures !(Verdict(reply, DDL) && Verdict(reply, DML))
    ensures reply.Affected? && reply.rows > 1 ==> !Verdict(reply, DML)
  {
  }

  /** The text of `createTable` / `createTableKey` for the given column definitions. */
  function CreateTableSql(tableName: JString, definitions: seq<string>): string
  {
    "create table " + "if not exists " + Str(tableName) + "(" + Join(definitions, ",") + ");"
  }

  function Definitions(vs: seq<FieldView>): (ds: seq<string>)
    ensures |ds| == |vs| && forall i :: 0 <= i < |vs| ==> ds[i] == Definition(vs[i])
  {
    seq(|vs|, i requires 0 <= i < |vs| => Definition(vs[i]))
  }

  function KeyedDefinitions(vs: seq<FieldView>): (ds: seq<string>)
    ensures |ds| == |vs| && forall i :: 0 <= i < |vs| ==> ds[i] == KeyedDefinition(vs[i])
  {
    seq(|vs|, i requires 0 <= i < |vs| => KeyedDefinition(vs[i]))
  }

  /** `createTable` and `createTableKey` issue the same statement for the same
      fields. */
  lemma CreateTableVariantsAgree(tableName: JString, vs: seq<FieldView>)
    ensures CreateTableSql(tableName, Definitions(vs)) == CreateTableSql(tableName, KeyedDefinitions(vs))
  {
    forall i | 0 <= i < |vs|
      ensures Definitions(vs)[i] == KeyedDefinitions(vs)[i]
    {
      DefinitionShape(vs[i]);
    }
    assert Definitions(vs) == KeyedDefinitions(vs);
  }

  /** The i-th column definition of both renderings belongs to the i-th field. */
  lemma ColumnAt(fields: seq<Field>, i: nat)
    requires i < |fields|
    ensures Definitions(Views(fields))[i] == Definition(fields[i].View())
    ensures KeyedDefinitions(Views(fields))[i] == KeyedDefinition(fields[i].View())
  {
    assert Views(fields)[i] == fields[i].View();
  }

  /** One turn of the `createTable` loop: appending column i, and "," unless
      it is the last, extends the joined prefix by one column. */
  lemma DefinitionStep(fields: seq<Field>, i: nat, body: string, definition: string)
    requires i < |fields|
    requires body == JoinedPrefix(Definitions(Views(fields)), ",", i)
    requires definition == fields[i].ToString()
    ensures body + definition + (if i + 1 < |fields| then "," else "")
            == JoinedPrefix(Definitions(Views(fields)), ",", i + 1)
  {
    ColumnAt(fields, i);
    JoinedPrefixStep(Definitions(Views(fields)), ",", i);
  }

  /** One turn of the `createTableKey` loop, as DefinitionStep. */
  lemma KeyedStep(fields: seq<Field>, i: nat, body: string, definition: string)
    requires i < |fields|
    requires body == JoinedPrefix(KeyedDefinitions(Views(fields)), ",", i)
    requires definition == KeyedDefinitions(Views(fields))[i]
    ensures body + definition + (if i + 1 < |fields| then "," else "")
            == JoinedPrefix(KeyedDefinitions(Views(fields)), ",", i + 1)
  {
    JoinedPrefixStep(KeyedDefinitions(Views(fields)), ",", i);
  }

  /** The StringBuffer loop of `createTable`: each field's `toString`, with ","
      between neighbours, inside `create table if not exists <t>(` ... `);`. */
  method CreateTableText(tableName: JString, fields: seq<Field>) returns (sql: string)
    ensures sql == CreateTableSql(tableName, Definitions(Views(fields)))
  {
    var body := "";
    for i := 0 to |fields|
      invariant body == JoinedPrefix(Definitions(Views(fields)), ",", i)
    {
      var definition := fields[i].ToString();
      DefinitionStep(fields, i, body, definition);
      body := body + definition;
      if i < |fields| - 1 {
        body := body + ",";
      }
    }
    JoinedPrefixAll(Definitions(Views(fields)), ",");
    sql := "create table " + "if not exists " + Str(tableName) + "(" + body + ");";
  }

  /** Column i of `createTableKey`: name and type from the getters, and " "
      plus `getKey()` only when the key text is not empty. */
  method KeyedColumn(fields: seq<Field>, i: nat) returns (definition: string)
    requires i < |fields|
    ensures definition == KeyedDefinitions(Views(fields))[i]
  {
    var field := fields[i];
    if field.GetKey() == "" {
      definition := field.GetName() + " " + field.GetType();
    } else {
      definition := field.GetName() + " " + field.GetType() + " " + field.GetKey();
    }
    ColumnAt(fields, i);
  }

  /** The StringBuffer loop of `createTableKey`: each column as KeyedColumn
      renders it, with "," between neighbours. */
  method CreateTableKeyText(tableName: JString, fields: seq<Field>) returns (sql: string)
    ensures sql == CreateTableSql(tableName, KeyedDefinitions(Views(fields)))
  {
    var body := "";
    for i := 0 to |fields|
      invariant body == JoinedPrefix(KeyedDefinitions(Views(fields)), ",", i)
    {
      var definition := KeyedColumn(fields, i);
      KeyedStep(fields, i, body, definition);
      body := body + definition;
      if i < |fields| - 1 {
        body := body + ",";
      }
    }
    JoinedPrefixAll(KeyedDefinitions(Views(fields)), ",");
    sql := "create table " + "if not exists " + Str(tableName) + "(" + body + ");";
  }

  /** The connection object. The driver is an oracle: the reply to the n-th
      statement issued through this object, given its text. */
  class LoadDatabase {
    const driver: (nat, string) -> DriverReply
    /** Statements issued so far. */
    var calls: nat
    /** Every statement issued so far, in order. */
    ghost var log: seq<Issued>

    constructor (driver: (nat, string) -> DriverReply)
      ensures this.driver == driver && calls == 0 && log == []
    {
      this.driver := driver;
      calls := 0;
      log := [];
    }

    /** `executeUpdate`: hand the statement to the driver and judge its reply. */
    method ExecuteUpdate(sql: string, kind: string) returns (ok: bool)
      modifies this`calls, this`log
      ensures Executed(this, old(log), old(calls), sql, kind, ok)
    {
      var reply := driver(calls, sql);
      log := log + [Issued(sql, kind)];
      calls := calls + 1;
      ok := Verdict(reply, kind);
    }

    /** `userDatabase`: a null or empty name is refused without a statement;
        otherwise `use <name>;` is issued as a definition statement. */
    method UserDatabase(databaseName: JString) returns (ok: bool)
      modifies this`calls, this`log
      ensures NullOrEmpty(databaseName) ==> !ok && Silent(this, old(log), old(calls))
      ensures !NullOrEmpty(databaseName) ==>
        Executed(this, old(log), old(calls), "use " + databaseName.v + ";", DDL, ok)
    {
      if databaseName.Null? || databaseName.v == "" {
        return false;
      }
      var sqlUseData := "use " + databaseName.v + ";";
      ok := ExecuteUpdate(sqlUseData, DDL);
    }

    /** `createTable`: a null Field array throws NullPointerException at
        `fields.length` before any statement; otherwise one definition
        statement is issued. */
    method CreateTable(tableName: JString, fields: Nullable<seq<Field>>) returns (r: Result<bool>)
      modifies this`calls, this`log
      ensures fields.Null? ==> r == Throw(NullPointer) && Silent(this, old(log), old(calls))
      ensures fields.Val? ==> r.Return?
      ensures fields.Val? && r.Return? ==>
        Executed(this, old(log), old(calls),
                 CreateTableSql(tableName, Definitions(Views(fields.v))), DDL, r.value)
    {
      if fields.Null? {
        return Throw(NullPointer);
      }
      var sql := CreateTableText(tableName, fields.v);
      var ok := ExecuteUpdate(sql, DDL);
      return Return(ok);
    }

    /** `createTableKey`: as CreateTable, with the key-aware column text. */
    method CreateTableKey(tableName: JString, fields: Nullable<seq<Field>>) returns (r: Result<bool>)
      modifies this`calls, this`log
      ensures fields.Null? ==> r == Throw(NullPointer) && Silent(this, old(log), old(calls))
      ensures fields.Val? ==> r.Return?
      ensures fields.Val? && r.Return? ==>
        Executed(this, old(log), old(calls),
                 CreateTableSql(tableName, KeyedDefinitions(Views(fields.v))), DDL, r.value)
    {
      if fields.Null? {
        return Throw(NullPointer);
      }
      var sql := CreateTableKeyText(tableName, fields.v);
      var ok := ExecuteUpdate(sql, DDL);
      return Return(ok);
    }

    /** `deleteTable`: issues `drop table if not exists <t>;` as written. */
    method DeleteTable(tableName: JString) returns (ok: bool)
      modifies this`calls, this`log
      ensures Executed(this, old(log), old(calls), "drop table if not exists " + Str(tableName) + ";", DDL, ok)
    {
      var sql := "drop table if not exists " + Str(tableName) + ";";
      ok := ExecuteUpdate(sql, DDL);
    }
  }

  /** Exactly one statement, `sql` of kind `kind`, was issued since the log
      was `log0`, and `ok` is the verdict on the driver's reply to it. */
  ghost predicate Executed(db: LoadDatabase, log0: seq<Issued>, calls0: nat, sql: string, kind: string, ok: bool)
    reads db
  {
    db.log == log0 + [Issued(sql, kind)] && db.calls == calls0 + 1 &&
    ok == Verdict(db.driver(calls0, sql), kind)
  }

  /** No statement was issued since the log was `log0`. */
  ghost predicate Silent(db: LoadDatabase, log0: seq<Issued>, calls0: nat)
    reads db
  {
    db.log == log0 && db.calls == calls0
  }
}
