/** Client code: concrete call sequences and what the model says they do,
    for the behaviours of the source that differ from what one might expect. */
module Scenarios {
  import opened Lang
  import opened Text
  import opened Types
  import opened Fields
  import opened Database
  import opened Sql
  import Statements

  /** INT's width accumulates on the one INT object: getType(3), getType(4)
      and getType(0) render "int(3)(4)(0)". */
  method IntWidthAccumulates() {
    var t := new Type.Int();
    var r := t.GetType(3);
    r := t.GetType(4);
    assert t.ToString() == "int(3)(4)";
    r := t.GetType(0);
    assert t.ToString() == "int(3)(4)(0)";
  }

  /** A default with too many digits throws, but the width was already
      appended; the next call appends its width again. */
  method FailedDefaultKeepsWidth() {
    var t := new Type.Int();
    var r := t.GetTypeWithDefault(4, Val("12345"));
    assert r == Throw(NumberOutOfRange);
    assert t.ToString() == "int(4)";
    r := t.GetTypeWithDefault(4, Val("123"));
    assert t.ToString() == "int(4)(4) default 123";
  }

  /** On the one VARCHAR object: a null default is stored as the text "null",
      an empty one as two quotes, and a default longer than the length throws
      after the length was set, keeping the previous default. */
  method VarcharDefaults() {
    var t := new Type.Varchar();
    var r := t.GetTypeWithDefault(5, Null);
    assert t.ToString() == "varchar(5) default null";
    VarcharEmptyDefault(t);
    VarcharDefaultTooLong(t);
  }

  method VarcharEmptyDefault(t: Type)
    requires t.variant == VarcharVariant
    modifies t
  {
    var r := t.GetTypeWithDefault(5, Val(""));
    assert t.ToString() == "varchar(5) default ''";
  }

  method VarcharDefaultTooLong(t: Type)
    requires t.variant == VarcharVariant
    modifies t
  {
    var before := t.defaultValue;
    var r := t.GetTypeWithDefault(3, Val("abcd"));
    assert r == Throw(NumberOutOfRange) && t.text == "varchar(3)" && t.defaultValue == before;
  }

  /** A character outside the Basic Multilingual Plane is two UTF-16 units,
      so it does not fit a varchar(1) default. */
  method VarcharSupplementaryDefault(t: Type)
    requires t.variant == VarcharVariant
    modifies t
  {
    var r := t.GetTypeWithDefault(1, Val("\U{1F600}"));
    assert r == Throw(NumberOutOfRange);
  }

  /** An update whose where clause was never set ends in "null". */
  method UpdateWithoutWhere(driver: (nat, string) -> DriverReply) {
    var db := new LoadDatabase(driver);
    var u := new Statements.Update(db);
    var _ := u.state.SetTable(Val("t"));
    var _ := u.state.SetColumns(Val([Val("a")]));
    var _ := u.state.SetValues(Val([Val("1"), Val("2")]));
    assert u.where == Null && u.state.tableName == Val("t");
    assert u.state.columnsArrays == Val([Val("a")]) && u.state.valuesArrays == Val([Val("1"), Val("2")]);
    var r := u.Commit();
    UpdateWithoutWhereText();
    assert db.log == [Issued("update t set a = 1null;", DML)];
  }

  /** The statement of UpdateWithoutWhere: one pair, the extra value ignored,
      and the unset clause rendered as "null". */
  lemma UpdateWithoutWhereText()
    ensures UpdateSql(Val("t"), SetList([Val("a")], [Val("1"), Val("2")]), Null) == "update t set a = 1null;"
  {
    assert SetList([Val("a")], [Val("1"), Val("2")]) == "a = 1";
  }

  /** A delete with two values is refused and issues nothing. */
  method DeleteTwoValues(driver: (nat, string) -> DriverReply) {
    var db := new LoadDatabase(driver);
    var d := new Statements.Delete(db);
    var _ := d.state.SetTable(Val("t"));
    var _ := d.state.SetColumns(Val([Val("id")]));
    var ok := d.SetValues(Val([Val("5"), Val("6")]));
    assert !ok;
    ok := d.Commit();
    assert !ok && db.log == [];
  }
}
