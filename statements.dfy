/** The builder inner classes of LoadDatabase.java: InsertInto, Delete and
    Update. Each is a one-shot accumulator over a Property object; its commit
    renders the accumulated state into one manipulation statement. */
module Statements {
  import opened Lang
  import opened Text
  import opened Fields
  import opened Database
  import opened Sql
  import opened Builder

  class InsertInto {
    const state: Property

    /** `createInsertInto()`: a builder with nothing set. */
    constructor (db: LoadDatabase)
      ensures fresh(state) && state.db == db && state.Unset()
    {
      state := new Property(db);
    }

    /** `commit`: without a value list nothing is executed; otherwise
        `insert into <t> (<columns>) values(<values>);` is issued. The table
        name and the column list are not checked and render "null" when unset. */
    method Commit() returns (ok: bool)
      modifies state.db`calls, state.db`log
      ensures NullOrEmpty(state.values) ==> !ok && Silent(state.db, old(state.db.log), old(state.db.calls))
      ensures !NullOrEmpty(state.values) ==>
        Executed(state.db, old(state.db.log), old(state.db.calls),
                 InsertSql(state.tableName, Str(state.columns), state.values.v), DML, ok)
    {
      if state.values.Null? || state.values.v == "" {
        return false;
      }
      var sqlInsertInto := InsertSql(state.tableName, Str(state.columns), state.values.v);
      ok := state.db.ExecuteUpdate(sqlInsertInto, DML);
    }

    /** `commitFields`: refuses a missing or empty field list; otherwise issues
        an insert of every field's name and quoted value, in field order. */
    method CommitFields() returns (ok: bool)
      modifies state.db`calls, state.db`log
      ensures state.fields.Null? || state.fields.v == [] ==>
        !ok && Silent(state.db, old(state.db.log), old(state.db.calls))
      ensures state.fields.Val? && state.fields.v != [] ==>
        var vs := Views(state.fields.v);
        Executed(state.db, old(state.db.log), old(state.db.calls),
                 InsertSql(state.tableName, Join(Names(vs), ","), Join(InsertLiterals(vs), ",")), DML, ok)
    {
      if state.fields.Null? || |state.fields.v| == 0 {
        return false;
      }
      var columns, values := RenderInsertLists(state.fields.v);
      var sqlInsertInto := InsertSql(state.tableName, columns, values);
      ok := state.db.ExecuteUpdate(sqlInsertInto, DML);
    }
  }

  class Delete {
    const state: Property

    /** `createDelete()`: a builder with nothing set. */
    constructor (db: LoadDatabase)
      ensures fresh(state) && state.db == db && state.Unset()
    {
      state := new Property(db);
    }

    /** Delete's own `setValues`: exactly one value is accepted and stored as
        the value text itself; the raw value array is left alone. */
    method SetValues(values: Nullable<seq<JString>>) returns (ok: bool)
      modifies state`values
      ensures ok <==> values.Val? && |values.v| == 1
      ensures state.values == if ok then values.v[0] else old(state.values)
    {
      if values.Null? || |values.v| == 0 {
        return false;
      }
      if |values.v| > 1 {
        return false;
      }
      state.values := values.v[0];
      return true;
    }

    /** `commit`: needs a column text and a value; issues
        `delete from <t> where <columns>=<value>;`. */
    method Commit() returns (ok: bool)
      modifies state.db`calls, state.db`log
      ensures NullOrEmpty(state.columns) || NullOrEmpty(state.values) ==>
        !ok && Silent(state.db, old(state.db.log), old(state.db.calls))
      ensures !NullOrEmpty(state.columns) && !NullOrEmpty(state.values) ==>
        Executed(state.db, old(state.db.log), old(state.db.calls),
                 DeleteSql(state.tableName, state.columns.v, state.values.v), DML, ok)
    {
      if state.columns.Null? || state.columns.v == "" {
        return false;
      }
      if state.values.Null? || state.values.v == "" {
        return false;
      }
      var sqlDelete := DeleteSql(state.tableName, state.columns.v, state.values.v);
      ok := state.db.ExecuteUpdate(sqlDelete, DML);
    }

    /** `commitFields`: needs exactly one field; deletes where its name equals
        its value, quoted by its type tag ("null" for an unknown tag). */
    method CommitFields() returns (ok: bool)
      modifies state.db`calls, state.db`log
      ensures state.fields.Null? || |state.fields.v| != 1 ==>
        !ok && Silent(state.db, old(state.db.log), old(state.db.calls))
      ensures state.fields.Val? && |state.fields.v| == 1 ==>
        var f := state.fields.v[0].View();
        Executed(state.db, old(state.db.log), old(state.db.calls),
                 DeleteSql(state.tableName, f.name, Str(WhereLiteral(f))), DML, ok)
    {
      if state.fields.Null? || |state.fields.v| == 0 {
        return false;
      }
      if |state.fields.v| > 1 {
        return false;
      }
      var field := state.fields.v[0];
      var v: JString := Null;
      if field.GetType() == INT {
        v := field.GetValue();
      } else if field.GetType() == STRING_255 {
        v := Val("'" + Str(field.GetValue()) + "'");
      }
      var sqlDelete := DeleteSql(state.tableName, field.GetName(), Str(v));
      ok := state.db.ExecuteUpdate(sqlDelete, DML);
    }
  }

  class Update {
    const state: Property
    /** The where clause; null until a `setWhere` succeeds. */
    var where: JString

    /** `createUpdate()`: a builder with nothing set. */
    constructor (db: LoadDatabase)
      ensures fresh(state) && state.db == db && state.Unset() && where == Null
    {
      state := new Property(db);
      where := Null;
    }

    /** `setWhere(column, compare, value)`: stores the clause of WhereClause,
        or refuses and leaves the old clause in place. */
    method SetWhere(column: JString, compare: int, value: JString) returns (ok: bool)
      modifies this`where
      ensures ok <==> WhereClause(column, compare, value).Some?
      ensures where == if ok then Val(WhereClause(column, compare, value).value) else old(where)
    {
      if column.Null? || column.v == "" {
        return false;
      }
      if value.Null? || value.v == "" {
        return false;
      }
      if compare == -1 {
        where := Val(" where " + column.v + " < " + value.v);
      } else if compare == 0 {
        where := Val(" where " + column.v + " = " + value.v);
      } else if compare == 1 {
        where := Val(" where " + column.v + " > " + value.v);
      } else if compare == -10 {
        where := Val(" where " + column.v + " <= " + value.v);
      } else if compare == 10 {
        where := Val(" where " + column.v + " >=" + value.v);
      } else {
        return false;
      }
      return true;
    }

    /** `setWhere(Field, compare)`: a null field is refused; otherwise the
        field's name and its value, quoted by type tag, go to SetWhere. */
    method SetWhereField(field: Field?, compare: int) returns (ok: bool)
      modifies this`where
      ensures field == null ==> !ok && where == old(where)
      ensures field != null ==>
        var w := WhereClause(Val(field.name), compare, WhereLiteral(field.View()));
        ok == w.Some? && where == if ok then Val(w.value) else old(where)
    {
      if field == null {
        return false;
      }
      var v: JString := Null;
      if field.GetType() == INT {
        v := field.GetValue();
      } else if field.GetType() == STRING_255 {
        v := Val("'" + Str(field.GetValue()) + "'");
      }
      ok := SetWhere(Val(field.GetName()), compare, v);
    }

    /** `commit`: needs non-empty column and value arrays; issues
        `update <t> set c1 = v1 , c2 = v2<where>;`, reading one value per
        column, so extra values are ignored and missing ones throw before any
        statement is issued. Nothing checks the table name or the clause. */
    method Commit() returns (r: Result<bool>)
      modifies state.db`calls, state.db`log
      ensures state.ArraysMissing() ==> r == Return(false) && Silent(state.db, old(state.db.log), old(state.db.calls))
      ensures !state.ArraysMissing() && |state.valuesArrays.v| < |state.columnsArrays.v| ==>
        r == Throw(IndexOutOfBounds) && Silent(state.db, old(state.db.log), old(state.db.calls))
      ensures !state.ArraysMissing() && |state.columnsArrays.v| <= |state.valuesArrays.v| ==>
        r.Return? &&
        Executed(state.db, old(state.db.log), old(state.db.calls),
                 UpdateSql(state.tableName, SetList(state.columnsArrays.v, state.valuesArrays.v), where), DML, r.value)
    {
      if state.columnsArrays.Null? || |state.columnsArrays.v| == 0 {
        return Return(false);
      }
      if state.valuesArrays.Null? || |state.valuesArrays.v| == 0 {
        return Return(false);
      }
      var setList := RenderSetList(state.columnsArrays.v, state.valuesArrays.v);
      if setList.Throw? {
        return Throw(setList.exception);
      }
      var sqlUpdate := UpdateSql(state.tableName, setList.value, where);
      var ok := state.db.ExecuteUpdate(sqlUpdate, DML);
      return Return(ok);
    }

    /** `commitFields`: with no fields it reports success and does nothing;
        otherwise it stores the names and quoted values as the column and value
        arrays (and their list texts) and commits them. */
    method CommitFields() returns (r: Result<bool>)
      modifies state`columns, state`columnsArrays, state`values, state`valuesArrays
      modifies state.db`calls, state.db`log
      ensures state.fields.Null? || state.fields.v == [] ==>
        r == Return(true) && Silent(state.db, old(state.db.log), old(state.db.calls)) &&
        state.columnsArrays == old(state.columnsArrays) && state.valuesArrays == old(state.valuesArrays) &&
        state.columns == old(state.columns) && state.values == old(state.values)
      ensures state.fields.Val? && state.fields.v != [] ==>
        var vs := Views(state.fields.v);
        state.columnsArrays == Val(NameArray(vs)) && state.valuesArrays == Val(UpdateLiterals(vs)) &&
        state.columns == Val(Listed(NameArray(vs))) && state.values == Val(Listed(UpdateLiterals(vs))) &&
        r.Return? &&
        Executed(state.db, old(state.db.log), old(state.db.calls),
                 UpdateSql(state.tableName, SetList(NameArray(vs), UpdateLiterals(vs)), where), DML, r.value)
    {
      if state.fields.Null? || |state.fields.v| == 0 {
        return Return(true);
      }
      ghost var vs := Views(state.fields.v);
      var columns, values := UpdateArrays(state.fields.v);
      assert |columns| == |values| == |vs| > 0;
      var _ := state.SetColumns(Val(columns));
      var _ := state.SetValues(Val(values));
      assert Views(state.fields.v) == vs;
      assert !state.ArraysMissing() && |state.columnsArrays.v| <= |state.valuesArrays.v|;
      r := Commit();
    }
  }
}
