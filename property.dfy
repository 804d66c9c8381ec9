/** The state every statement builder accumulates (the abstract class
    `Property`, once as an inner class of LoadDatabase.java and once as
    temporary/Property.java, with the same setters) and its setters. Each
    builder variant holds one Property object and reads it when it commits. */
module Builder {
  import opened Lang
  import opened Fields
  import opened Database
  import opened Sql

  class Property {
    /** The connection statements go through (the enclosing LoadDatabase of
        the inner class; the constructor argument of temporary/Property.java). */
    const db: LoadDatabase
    var databaseName: JString
    var tableName: JString
    var fields: Nullable<seq<Field>>
    /** The rendered column list and the raw column array. */
    var columns: JString
    var columnsArrays: Nullable<seq<JString>>
    /** The rendered value list and the raw value array. */
    var values: JString
    var valuesArrays: Nullable<seq<JString>>

    /** Every builder field starts out null. */
    predicate Unset()
      reads this
    {
      databaseName.Null? && tableName.Null? && fields.Null? &&
      columns.Null? && columnsArrays.Null? && values.Null? && valuesArrays.Null?
    }

    /** What makes an update's `commit` return false before rendering
        anything: a missing or empty column or value array. */
    predicate ArraysMissing()
      reads this
    {
      columnsArrays.Null? || columnsArrays.v == [] || valuesArrays.Null? || valuesArrays.v == []
    }

    /** The constructor of temporary/Property.java stores the connection and
        nothing else, so every other field is still null. */
    constructor (db: LoadDatabase)
      ensures this.db == db && Unset()
    {
      this.db := db;
      databaseName, tableName, fields := Null, Null, Null;
      columns, columnsArrays, values, valuesArrays := Null, Null, Null, Null;
    }

    /** `setDatabase`: a null or empty name is refused with no statement;
        otherwise the name is recorded and `use <name>;` is issued as a
        definition statement, whose verdict is the result. */
    method SetDatabase(databaseName: JString) returns (ok: bool)
      modifies this`databaseName, db`calls, db`log
      ensures NullOrEmpty(databaseName) ==>
        !ok && this.databaseName == old(this.databaseName) && Silent(db, old(db.log), old(db.calls))
      ensures !NullOrEmpty(databaseName) ==>
        this.databaseName == databaseName &&
        Executed(db, old(db.log), old(db.calls), "use " + databaseName.v + ";", DDL, ok)
    {
      if databaseName.Null? || databaseName.v == "" {
        return false;
      }
      this.databaseName := databaseName;
      var sqlUser := "use " + databaseName.v + ";";
      ok := db.ExecuteUpdate(sqlUser, DDL);
    }

    /** `setTable`: refuses a null or empty name; otherwise only the table
        name changes. */
    method SetTable(tableName: JString) returns (ok: bool)
      modifies this`tableName
      ensures ok <==> !NullOrEmpty(tableName)
      ensures this.tableName == if ok then tableName else old(this.tableName)
    {
      if tableName.Null? || tableName.v == "" {
        return false;
      }
      this.tableName := tableName;
      return true;
    }

    /** `setFields`: refuses a null or empty array, otherwise stores it. */
    method SetFields(fields: Nullable<seq<Field>>) returns (ok: bool)
      modifies this`fields
      ensures ok <==> fields.Val? && |fields.v| > 0
      ensures this.fields == if ok then fields else old(this.fields)
    {
      if fields.Null? || |fields.v| == 0 {
        return false;
      }
      this.fields := fields;
      return true;
    }

    /** `setColumns`: refuses a null or empty array; otherwise stores the
        list text (each element and a space, "," between) and the raw array. */
    method SetColumns(columns: Nullable<seq<JString>>) returns (ok: bool)
      modifies this`columns, this`columnsArrays
      ensures ok <==> columns.Val? && |columns.v| > 0
      ensures ok ==> this.columns == Val(Listed(columns.v)) && columnsArrays == columns
      ensures !ok ==> this.columns == old(this.columns) && columnsArrays == old(columnsArrays)
    {
      if columns.Null? || |columns.v| == 0 {
        return false;
      }
      var text := RenderList(columns.v);
      this.columns := Val(text);
      this.columnsArrays := columns;
      return true;
    }

    /** `setValues`: the same as SetColumns, for the value list. */
    method SetValues(values: Nullable<seq<JString>>) returns (ok: bool)
      modifies this`values, this`valuesArrays
      ensures ok <==> values.Val? && |values.v| > 0
      ensures ok ==> this.values == Val(Listed(values.v)) && valuesArrays == values
      ensures !ok ==> this.values == old(this.values) && valuesArrays == old(valuesArrays)
    {
      if values.Null? || |values.v| == 0 {
        return false;
      }
      var text := RenderList(values.v);
      this.values := Val(text);
      this.valuesArrays := values;
      return true;
    }
  }
}
