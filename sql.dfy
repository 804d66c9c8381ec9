/** The SQL text the statement builders assemble, and the StringBuilder loops
    that assemble it. Both revisions of the builders (the inner classes of
    LoadDatabase.java and the classes under temporary/) share these. */
module Sql {
  import opened Lang
  import opened Text
  import opened Fields

  /** Each element of a `setColumns` / `setValues` array as the loop appends
      it: its string form followed by one space. */
  function Spaced(xs: seq<JString>): (ps: seq<string>)
    ensures |ps| == |xs| && forall i :: 0 <= i < |xs| ==> ps[i] == Str(xs[i]) + " "
  {
    seq(|xs|, i requires 0 <= i < |xs| => Str(xs[i]) + " ")
  }

  /** The text `setColumns` / `setValues` store: `a ,b ` for ["a", "b"]. */
  function Listed(xs: seq<JString>): string
  {
    Join(Spaced(xs), ",")
  }

  /** The StringBuilder loop of `setColumns` / `setValues`, with its counter. */
  method RenderList(xs: seq<JString>) returns (text: string)
    requires 1 <= |xs|
    ensures text == Listed(xs)
  {
    ghost var parts := Spaced(xs);
    var builder := "";
    var num := 1;
    for i := 0 to |xs|
      invariant num == i + 1 || (i == |xs| && num == |xs|)
      invariant builder == JoinedPrefix(parts, ",", i)
    {
      JoinedPrefixStep(parts, ",", i);
      builder := builder + Str(xs[i]) + " ";
      if num == |xs| {
        continue;
      }
      builder := builder + ",";
      num := num + 1;
    }
    JoinedPrefixAll(parts, ",");
    text := builder;
  }

  /** The stored list text keeps every element: when no element contains a
      comma, splitting it at "," gives back each element and its space. */
  lemma {:induction false} ListedRoundTrip(xs: seq<JString>)
    requires 1 <= |xs|
    requires forall i :: 0 <= i < |xs| ==> ',' !in Str(xs[i])
    ensures Split(Listed(xs), ',') == Spaced(xs)
  {
    var ps := Spaced(xs);
    forall i | 0 <= i < |ps|
      ensures ',' !in ps[i]
    {
      assert ps[i] == Str(xs[i]) + " ";
    }
    SplitJoin(ps, ',');
  }

  /** The comparison operator for an update's `compare` code: -1, 0, 1, -10
      and 10 stand for <, =, >, <= and >= (the last with no space after it). */
  function Comparator(code: int): (op: Option<string>)
    ensures op.Some? <==> code in {-1, 0, 1, -10, 10}
  {
    if code == -1 then Some(" < ")
    else if code == 0 then Some(" = ")
    else if code == 1 then Some(" > ")
    else if code == -10 then Some(" <= ")
    else if code == 10 then Some(" >=")
    else None
  }

  /** The where clause `setWhere(column, compare, value)` stores, or None when
      it refuses: for an empty column, an empty value or an unknown code. */
  function WhereClause(column: JString, code: int, value: JString): (w: Option<string>)
    ensures w.Some? <==> !NullOrEmpty(column) && !NullOrEmpty(value) && code in {-1, 0, 1, -10, 10}
    ensures w.Some? ==> w.value == " where " + column.v + Comparator(code).value + value.v
  {
    if NullOrEmpty(column) || NullOrEmpty(value) then None
    else match Comparator(code)
      case None => None
      case Some(op) => Some(" where " + column.v + op + value.v)
  }

  /** Distinct codes give distinct clauses for the same column and value, so
      the stored clause determines which comparison was asked for. */
  lemma WhereCodeRecoverable(column: JString, code1: int, code2: int, value: JString)
    requires WhereClause(column, code1, value).Some?
    requires WhereClause(column, code1, value) == WhereClause(column, code2, value)
    ensures code1 == code2
  {
    var w := WhereClause(column, code1, value).value;
    var k := |" where " + column.v|;
    var op1, op2 := Comparator(code1).value, Comparator(code2).value;
    assert w == " where " + column.v + op1 + value.v;
    assert w == " where " + column.v + op2 + value.v;
    assert |op1| == |op2|;
    assert w[k + 1] == op1[1] == op2[1];
    assert w[k + 2] == op1[2] == op2[2];
  }

  /** One `column = value` pair of an update. */
  function Assignment(column: JString, value: JString): string
  {
    Str(column) + " = " + Str(value)
  }

  function Assignments(columns: seq<JString>, values: seq<JString>): (ps: seq<string>)
    requires |columns| <= |values|
    ensures |ps| == |columns| && forall i :: 0 <= i < |columns| ==> ps[i] == Assignment(columns[i], values[i])
  {
    seq(|columns|, i requires 0 <= i < |columns| => Assignment(columns[i], values[i]))
  }

  /** The `set` list of an update: pairs joined by " , ". */
  function SetList(columns: seq<JString>, values: seq<JString>): string
    requires |columns| <= |values|
  {
    Join(Assignments(columns, values), " , ")
  }

  /** Values beyond the column count never reach the statement. */
  lemma SetListIgnoresExtraValues(columns: seq<JString>, values: seq<JString>, extra: seq<JString>)
    requires |columns| <= |values|
    ensures SetList(columns, values + extra) == SetList(columns, values)
  {
    assert Assignments(columns, values + extra) == Assignments(columns, values);
  }

  /** The StringBuilder loop of `Update.commit`: it reads `values[i]` for every
      column index, so fewer values than columns throws
      ArrayIndexOutOfBoundsException when index `|values|` is reached. */
  method RenderSetList(columns: seq<JString>, values: seq<JString>) returns (r: Result<string>)
    ensures |columns| <= |values| ==> r == Return(SetList(columns, values))
    ensures |values| < |columns| ==> r == Throw(IndexOutOfBounds)
  {
    ghost var fits := |columns| <= |values|;
    ghost var parts := if fits then Assignments(columns, values) else [];
    var builder := "";
    for i := 0 to |columns|
      invariant i <= |values| || fits
      invariant fits ==> builder == JoinedPrefix(parts, " , ", i)
    {
      if i >= |values| {
        return Throw(IndexOutOfBounds);
      }
      var pair := Str(columns[i]) + " = " + Str(values[i]);
      if fits {
        assert pair == parts[i];
        JoinedPrefixStep(parts, " , ", i);
      }
      builder := builder + pair;
      if i == |columns| - 1 {
        continue;
      }
      builder := builder + " , ";
    }
    JoinedPrefixAll(parts, " , ");
    return Return(builder);
  }

  /** `update <t> set <pairs><where>;`: an unset where clause renders as "null". */
  function UpdateSql(tableName: JString, setList: string, where: JString): string
  {
    "update " + Str(tableName) + " set " + setList + Str(where) + ";"
  }

  /** `insert into <t> (<columns>) values(<values>);` */
  function InsertSql(tableName: JString, columns: string, values: string): string
  {
    "insert into " + Str(tableName) + " (" + columns + ") values(" + values + ");"
  }

  /** `delete from <t> where <column>=<value>;` */
  function DeleteSql(tableName: JString, column: string, value: string): string
  {
    "delete from " + Str(tableName) + " where " + column + "=" + value + ";"
  }

  /** How the Field-based entry points of LoadDatabase.java's builders quote a
      value. Insert: an int value unquoted with a trailing space, a
      varchar(255) value in single quotes, any other tag nothing at all. */
  function InsertLiteral(f: FieldView): string
  {
    if f.typeTag == INT then Str(f.value) + " "
    else if f.typeTag == STRING_255 then "'" + Str(f.value) + "'"
    else ""
  }

  /** Update's `commitFields` fills a String array: the same quoting as
      InsertLiteral, and the array's null for any other tag. */
  function UpdateLiteral(f: FieldView): JString
  {
    if f.typeTag == INT then Val(Str(f.value) + " ")
    else if f.typeTag == STRING_255 then Val("'" + Str(f.value) + "'")
    else Null
  }

  /** Delete's `commitFields` and update's `setWhere(Field, int)`: an int value
      as stored (possibly null, no trailing space), a varchar(255) value in
      single quotes, null for any other tag. */
  function WhereLiteral(f: FieldView): JString
  {
    if f.typeTag == INT then f.value
    else if f.typeTag == STRING_255 then Val("'" + Str(f.value) + "'")
    else Null
  }

  /** Only the two known type tags get a value: every other tag renders as
      nothing in an insert and as null in an update, delete or where clause;
      the quoting of the known tags is the same in all three. */
  lemma LiteralsByTag(f: FieldView)
    ensures f.typeTag != INT && f.typeTag != STRING_255 ==>
      InsertLiteral(f) == "" && UpdateLiteral(f) == Null && WhereLiteral(f) == Null
    ensures f.typeTag == INT || f.typeTag == STRING_255 ==> UpdateLiteral(f) == Val(InsertLiteral(f))
    ensures f.typeTag == STRING_255 ==> WhereLiteral(f) == UpdateLiteral(f)
    ensures f.typeTag == INT ==> Str(UpdateLiteral(f)) == Str(WhereLiteral(f)) + " "
  {
  }

  function Names(vs: seq<FieldView>): (ns: seq<string>)
    ensures |ns| == |vs| && forall i :: 0 <= i < |vs| ==> ns[i] == vs[i].name
  {
    seq(|vs|, i requires 0 <= i < |vs| => vs[i].name)
  }

  function InsertLiterals(vs: seq<FieldView>): (ls: seq<string>)
    ensures |ls| == |vs| && forall i :: 0 <= i < |vs| ==> ls[i] == InsertLiteral(vs[i])
  {
    seq(|vs|, i requires 0 <= i < |vs| => InsertLiteral(vs[i]))
  }

  /** The two StringBuilder loops of InsertInto's `commitFields` in
      LoadDatabase.java: names and quoted values, in field order, "," between
      neighbours. */
  method RenderInsertLists(fields: seq<Field>) returns (columns: string, values: string)
    requires 1 <= |fields|
    ensures columns == Join(Names(Views(fields)), ",")
    ensures values == Join(InsertLiterals(Views(fields)), ",")
  {
    ghost var vs := Views(fields);
    ghost var names, literals := Names(vs), InsertLiterals(vs);
    columns, values := "", "";
    var num := 1;
    for i := 0 to |fields|
      invariant num == i + 1 || (i == |fields| && num == |fields|)
      invariant columns == JoinedPrefix(names, ",", i)
      invariant values == JoinedPrefix(literals, ",", i)
    {
      JoinedPrefixStep(names, ",", i);
      JoinedPrefixStep(literals, ",", i);
      var field := fields[i];
      assert field.View() == vs[i];
      columns := columns + field.GetName();
      var literal;
      if field.GetType() == INT {
        literal := Str(field.GetValue()) + " ";
      } else if field.GetType() == STRING_255 {
        literal := "'" + Str(field.GetValue()) + "'";
      } else {
        literal := "";
      }
      assert literal == literals[i];
      values := values + literal;
      if num == |fields| {
        continue;
      }
      columns := columns + ",";
      values := values + ",";
      num := num + 1;
    }
    JoinedPrefixAll(names, ",");
    JoinedPrefixAll(literals, ",");
  }

  /** A column array filled with the field names. */
  function NameArray(vs: seq<FieldView>): (cs: seq<JString>)
    ensures |cs| == |vs| && forall i :: 0 <= i < |vs| ==> cs[i] == Val(vs[i].name)
  {
    seq(|vs|, i requires 0 <= i < |vs| => Val(vs[i].name))
  }

  function UpdateLiterals(vs: seq<FieldView>): (ls: seq<JString>)
    ensures |ls| == |vs| && forall i :: 0 <= i < |vs| ==> ls[i] == UpdateLiteral(vs[i])
  {
    seq(|vs|, i requires 0 <= i < |vs| => UpdateLiteral(vs[i]))
  }

  /** The loop of Update's `commitFields` in LoadDatabase.java: two fresh
      String arrays filled by index, names in one and quoted values in the
      other; slots of fields with an unknown tag keep the array's null. */
  method UpdateArrays(fields: seq<Field>) returns (columns: seq<JString>, values: seq<JString>)
    ensures columns == NameArray(Views(fields))
    ensures values == UpdateLiterals(Views(fields))
  {
    ghost var vs := Views(fields);
    var cs := new JString[|fields|](_ => Null);
    var ls := new JString[|fields|](_ => Null);
    var index := 0;
    while index < |fields|
      invariant 0 <= index <= |fields|
      invariant forall j :: 0 <= j < index ==> cs[j] == Val(vs[j].name) && ls[j] == UpdateLiteral(vs[j])
      invariant forall j :: index <= j < |fields| ==> ls[j] == Null
    {
      var field := fields[index];
      assert field.View() == vs[index];
      cs[index] := Val(field.GetName());
      if field.GetType() == INT {
        ls[index] := Val(Str(field.GetValue()) + " ");
      } else if field.GetType() == STRING_255 {
        ls[index] := Val("'" + Str(field.GetValue()) + "'");
      }
      index := index + 1;
    }
    columns, values := cs[..], ls[..];
  }
}
