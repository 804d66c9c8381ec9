/** The second revision of the builders, under temporary/: InsertInto and
    Update as top-level classes over the same Property state. In this revision
    the loops and switches that read the fields' values are commented out, so
    the Field-based entry points render no values. */
module Temporary {
  import opened Lang
  import opened Fields
  import opened Database
  import opened Sql
  import opened Builder

  /** An array of `n` nulls (a fresh `new String[n]`). */
  function Nulls(n: nat): (ns: seq<JString>)
    ensures |ns| == n && forall i :: 0 <= i < n ==> ns[i] == Null
  {
    seq(n, i => Null)
  }

  /** With every value null, each pair of the set list reads `c = null`. */
  lemma NullValuesRenderNull(columns: seq<JString>)
    ensures forall i :: 0 <= i < |columns| ==>
      Assignments(columns, Nulls(|columns|))[i] == Str(columns[i]) + " = null"
  {
  }

  /** The loop of `commitFields` in temporary/Update.java: it fills the column
      array with the field names; the switch that filled the value array is
      commented out, so every value slot keeps its null. */
  method NameArrays(fields: seq<Field>) returns (columns: seq<JString>, values: seq<JString>)
    ensures columns == NameArray(Views(fields))
    ensures values == Nulls(|fields|)
  {
    ghost var vs := Views(fields);
    var cs := new JString[|fields|](_ => Null);
    var ls := new JString[|fields|](_ => Null);
    var index := 0;
    while index < |fields|
      invariant 0 <= index <= |fields|
      invariant forall j :: 0 <= j < index ==> cs[j] == Val(vs[j].name)
      modifies cs
    {
      var field := fields[index];
      assert field.View() == vs[index];
      cs[index] := Val(field.GetName());
      index := index + 1;
    }
    columns, values := cs[..], ls[..];
  }

  class InsertInto {
    const state: Property

    /** `new InsertInto(loadDatabase)`. */
    constructor (db: LoadDatabase)
      ensures fresh(state) && state.db == db && state.Unset()
    {
      state := new Property(db);
    }

    /** `commit`: returns false with no statement when the value text is null
        or empty; otherwise issues `insert into <t> (<columns>) values(<values>);`. */
    method Commit() returns (ok: bool)
      modifies state.db`calls, state.db`log
      ensures NullOrEmpty(state.values) ==> !ok && Silent(state.db, old(state.db.log), old(state.db.calls))
      ensures !NullOrEmpty(state.values) ==>
        Executed(state.db, old(state.db.log), old(state.db.calls),
                 InsertSql(state.tableName, Str(state.columns), state.values.v), DML, ok)
    {
      if state.values.Null? || state.values.v == "" {
        return false;
      }
      var sqlInsertInto := InsertSql(state.tableName, Str(state.columns), state.values.v);
      ok := state.db.ExecuteUpdate(sqlInsertInto, DML);
    }

    /** `commitFields`: refuses a missing or empty field list; otherwise,
        the loop being commented out, issues `insert into <t> () values();`
        whatever the fields are. */
    method CommitFields() returns (ok: bool)
      modifies state.db`calls, state.db`log
      ensures state.fields.Null? || state.fields.v == [] ==>
        !ok && Silent(state.db, old(state.db.log), old(state.db.calls))
      ensures state.fields.Val? && state.fields.v != [] ==>
        Executed(state.db, old(state.db.log), old(state.db.calls), InsertSql(state.tableName, "", ""), DML, ok)
    {
      if state.fields.Null? || |state.fields.v| == 0 {
        return false;
      }
      var columns := "";
      var values := "";
      var sqlInsertInto := InsertSql(state.tableName, columns, values);
      ok := state.db.ExecuteUpdate(sqlInsertInto, DML);
    }
  }

  class Update {
    const state: Property
    /** The where clause; null until a `setWhere` succeeds. */
    var where: JString

    /** `new Update(loadDatabase)`. */
    constructor (db: LoadDatabase)
      ensures fresh(state) && state.db == db && state.Unset() && where == Null
    {
      state := new Property(db);
      where := Null;
    }

    /** `setWhere(column, compare, value)`, as in LoadDatabase.java. */
    method SetWhere(column: JString, compare: int, value: JString) returns (ok: bool)
      modifies this`where
      ensures ok <==> WhereClause(column, compare, value).Some?
      ensures where == if ok then Val(WhereClause(column, compare, value).value) else old(where)
    {
      if column.Null? || column.v == "" {
        return false;
      }
      if value.Null? || value.v == "" {
        return false;
      }
      if compare == -1 {
        where := Val(" where " + column.v + " < " + value.v);
      } else if compare == 0 {
        where := Val(" where " + column.v + " = " + value.v);
      } else if compare == 1 {
        where := Val(" where " + column.v + " > " + value.v);
      } else if compare == -10 {
        where := Val(" where " + column.v + " <= " + value.v);
      } else if compare == 10 {
        where := Val(" where " + column.v + " >=" + value.v);
      } else {
        return false;
      }
      return true;
    }

    /** `setWhere(Field, compare)`: the switch that read the value is
        commented out, so the value handed on is always null and every call
        is refused, leaving the clause as it was. */
    method SetWhereField(field: Field?, compare: int) returns (ok: bool)
      modifies this`where
      ensures !ok && where == old(where)
    {
      if field == null {
        return false;
      }
      var v: JString := Null;
      ok := SetWhere(Val(field.GetName()), compare, v);
    }

    /** `commit`, as in LoadDatabase.java. */
    method Commit() returns (r: Result<bool>)
      modifies state.db`calls, state.db`log
      ensures state.ArraysMissing() ==> r == Return(false) && Silent(state.db, old(state.db.log), old(state.db.calls))
      ensures !state.ArraysMissing() && |state.valuesArrays.v| < |state.columnsArrays.v| ==>
        r == Throw(IndexOutOfBounds) && Silent(state.db, old(state.db.log), old(state.db.calls))
      ensures !state.ArraysMissing() && |state.columnsArrays.v| <= |state.valuesArrays.v| ==>
        r.Return? &&
        Executed(state.db, old(state.db.log), old(state.db.calls),
                 UpdateSql(state.tableName, SetList(state.columnsArrays.v, state.valuesArrays.v), where), DML, r.value)
    {
      if state.columnsArrays.Null? || |state.columnsArrays.v| == 0 {
        return Return(false);
      }
      if state.valuesArrays.Null? || |state.valuesArrays.v| == 0 {
        return Return(false);
      }
      var setList := RenderSetList(state.columnsArrays.v, state.valuesArrays.v);
      if setList.Throw? {
        return Throw(setList.exception);
      }
      var sqlUpdate := UpdateSql(state.tableName, setList.value, where);
      var ok := state.db.ExecuteUpdate(sqlUpdate, DML);
      return Return(ok);
    }

    /** `commitFields`: with no fields it reports success and does nothing;
        otherwise the column array holds the names and the value array only
        nulls, so every pair of the statement reads `<name> = null`. */
    method CommitFields() returns (r: Result<bool>)
      modifies state`columns, state`columnsArrays, state`values, state`valuesArrays
      modifies state.db`calls, state.db`log
      ensures state.fields.Null? || state.fields.v == [] ==>
        r == Return(true) && Silent(state.db, old(state.db.log), old(state.db.calls)) &&
        state.columnsArrays == old(state.columnsArrays) && state.valuesArrays == old(state.valuesArrays) &&
        state.columns == old(state.columns) && state.values == old(state.values)
      ensures state.fields.Val? && state.fields.v != [] ==>
        var vs := Views(state.fields.v);
        state.columnsArrays == Val(NameArray(vs)) && state.valuesArrays == Val(Nulls(|vs|)) &&
        state.columns == Val(Listed(NameArray(vs))) && state.values == Val(Listed(Nulls(|vs|))) &&
        r.Return? &&
        Executed(state.db, old(state.db.log), old(state.db.calls),
                 UpdateSql(state.tableName, SetList(NameArray(vs), Nulls(|vs|)), where), DML, r.value)
    {
      if state.fields.Null? || |state.fields.v| == 0 {
        return Return(true);
      }
      ghost var vs := Views(state.fields.v);
      var columns, values := NameArrays(state.fields.v);
      assert |columns| == |values| == |vs| > 0;
      var _ := state.SetColumns(Val(columns));
      var _ := state.SetValues(Val(values));
      assert Views(state.fields.v) == vs;
      assert !state.ArraysMissing() && |state.columnsArrays.v| <= |state.valuesArrays.v|;
      r := Commit();
    }
  }
}
