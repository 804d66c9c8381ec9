/** operation/CreateTable.java: attaches a column constraint keyword to the
    first field of a stored field list that has a given name. The Field objects
    are the caller's, so the change is visible through every reference to them. */
module Operation {
  import opened Lang
  import opened Fields
  import opened Database
  import Restriction

  /** The position of the first name equal to `x`, if any. */
  function FirstIndex(names: seq<string>, x: string): (r: Option<nat>)
    ensures r.None? <==> x !in names
    ensures r.Some? ==> r.value < |names| && names[r.value] == x
    ensures r.Some? ==> forall j :: 0 <= j < r.value ==> names[j] != x
  {
    if |names| == 0 then None
    else if names[0] == x then Some(0)
    else match FirstIndex(names[1..], x)
      case None => None
      case Some(k) => Some(k + 1)
  }

  function FieldNames(fs: seq<Field>): (ns: seq<string>)
    reads set i | 0 <= i < |fs| :: fs[i]
    ensures |ns| == |fs| && forall i :: 0 <= i < |fs| ==> ns[i] == fs[i].name
  {
    seq(|fs|, i requires 0 <= i < |fs| reads set j | 0 <= j < |fs| :: fs[j] => fs[i].name)
  }

  class CreateTable {
    const db: LoadDatabase
    /** The field list `setFields` stored; null until then. */
    var fields: Nullable<seq<Field>>

    constructor (db: LoadDatabase)
      ensures this.db == db && fields == Null
    {
      this.db := db;
      fields := Null;
    }

    /** `new CreateTable(loadDatabase)`: a null connection throws
        NullPointerException. */
    static method Create(db: LoadDatabase?) returns (r: Result<CreateTable>)
      ensures db == null <==> r.Throw?
      ensures db == null ==> r.exception == NullPointer
      ensures r.Return? ==> fresh(r.value) && r.value.db == db && r.value.fields == Null
    {
      if db == null {
        return Throw(NullPointer);
      }
      var table := new CreateTable(db);
      return Return(table);
    }

    /** The Field objects of the stored list. */
    function FieldObjects(): set<Field>
      reads this
    {
      if fields.Null? then {} else set i | 0 <= i < |fields.v| :: fields.v[i]
    }

    /** `setFields`: a null or empty list throws NullPointerException and
        changes nothing; otherwise the list is stored. */
    method SetFields(fields: Nullable<seq<Field>>) returns (o: Outcome)
      modifies this`fields
      ensures o == if fields.Null? || fields.v == [] then Throws(NullPointer) else Normal
      ensures this.fields == if o.Normal? then fields else old(this.fields)
    {
      if fields.Null? || |fields.v| == 0 {
        return Throws(NullPointer);
      }
      this.fields := fields;
      return Normal;
    }

    /** `isNull`: the check every restriction setter makes first. */
    function CheckArguments(fieldName: JString): (o: Outcome)
      reads this
      ensures o.Normal? <==> !NullOrEmpty(fieldName) && fields.Val? && fields.v != []
      ensures o.Throws? ==> o.exception == NullPointer
    {
      if NullOrEmpty(fieldName) then Throws(NullPointer)
      else if fields.Null? || |fields.v| == 0 then Throws(NullPointer)
      else Normal
    }

    /** `selectRestriction`: walk the stored list, and on the first field whose
        name is `fieldName` store the keyword and answer true; when the
        keyword is not one of the four, the switch has no case for it and the
        walk goes on. Only that one field object changes, only in its
        restriction. */
    method SelectRestriction(fieldName: string, restriction: string) returns (found: bool)
      requires fields.Val?
      modifies FieldObjects()
      ensures found <==> Restriction.IsKeyword(restriction) && fieldName in FieldNames(fields.v)
      ensures Unaltered(fields.v)
      ensures forall j :: 0 <= j < |fields.v| ==>
        fields.v[j].restriction ==
          if found && fields.v[j] == fields.v[FirstIndex(FieldNames(fields.v), fieldName).value]
          then Val(restriction) else old(fields.v[j].restriction)
    {
      var fs := fields.v;
      ghost var names := FieldNames(fs);
      for i := 0 to |fs|
        invariant forall j :: 0 <= j < i ==> names[j] != fieldName || !Restriction.IsKeyword(restriction)
        invariant forall j :: 0 <= j < |fs| ==> fs[j].View() == old(fs[j].View())
        invariant forall j :: 0 <= j < |fs| ==> fs[j].restriction == old(fs[j].restriction)
      {
        var field := fs[i];
        if field.GetName() == fieldName {
          if Restriction.IsKeyword(restriction) {
            field.SetRestriction(restriction);
            assert FieldNames(fs) == names;
            return true;
          }
        }
      }
      assert FieldNames(fs) == names;
      return false;
    }

    /** Every field of `fs` has the name, type tag, value and key it had before. */
    twostate predicate Unaltered(fs: seq<Field>)
      reads set i | 0 <= i < |fs| :: fs[i]
    {
      forall j :: 0 <= j < |fs| ==> fs[j].View() == old(fs[j].View())
    }

    /** `setNotNull`. */
    method SetNotNull(fieldName: JString) returns (r: Result<bool>)
      modifies FieldObjects()
      ensures CheckArguments(fieldName).Throws? ==> r == Throw(NullPointer) && unchanged(FieldObjects())
      ensures CheckArguments(fieldName).Normal? ==> Applied(fields.v, fieldName.v, Restriction.NOT_NULL, r)
    {
      var check := CheckArguments(fieldName);
      if check.Throws? {
        return Throw(check.exception);
      }
      var isSet := SelectRestriction(fieldName.v, Restriction.NOT_NULL);
      return Return(isSet);
    }

    /** `setAutoIncrement`. */
    method SetAutoIncrement(fieldName: JString) returns (r: Result<bool>)
      modifies FieldObjects()
      ensures CheckArguments(fieldName).Throws? ==> r == Throw(NullPointer) && unchanged(FieldObjects())
      ensures CheckArguments(fieldName).Normal? ==> Applied(fields.v, fieldName.v, Restriction.AUTO_INCREMENT, r)
    {
      var check := CheckArguments(fieldName);
      if check.Throws? {
        return Throw(check.exception);
      }
      var isSet := SelectRestriction(fieldName.v, Restriction.AUTO_INCREMENT);
      return Return(isSet);
    }

    /** `setUnique`. */
    method SetUnique(fieldName: JString) returns (r: Result<bool>)
      modifies FieldObjects()
      ensures CheckArguments(fieldName).Throws? ==> r == Throw(NullPointer) && unchanged(FieldObjects())
      ensures CheckArguments(fieldName).Normal? ==> Applied(fields.v, fieldName.v, Restriction.UNIQUE, r)
    {
      var check := CheckArguments(fieldName);
      if check.Throws? {
        return Throw(check.exception);
      }
      var isSet := SelectRestriction(fieldName.v, Restriction.UNIQUE);
      return Return(isSet);
    }

    /** `setPrimaryKey`. */
    method SetPrimaryKey(fieldName: JString) returns (r: Result<bool>)
      modifies FieldObjects()
      ensures CheckArguments(fieldName).Throws? ==> r == Throw(NullPointer) && unchanged(FieldObjects())
      ensures CheckArguments(fieldName).Normal? ==> Applied(fields.v, fieldName.v, Restriction.PRIMARY_KEY, r)
    {
      var check := CheckArguments(fieldName);
      if check.Throws? {
        return Throw(check.exception);
      }
      var isSet := SelectRestriction(fieldName.v, Restriction.PRIMARY_KEY);
      return Return(isSet);
    }
  }

  /** The outcome of a restriction setter that passed its checks: it answers
      whether some field is called `name`; the first such field now carries
      `keyword`, and no other field and no other attribute changed. */
  twostate predicate Applied(fs: seq<Field>, name: string, keyword: string, new r: Result<bool>)
    reads set i | 0 <= i < |fs| :: fs[i]
  {
    r.Return? && (r.value <==> name in FieldNames(fs)) &&
    (forall j :: 0 <= j < |fs| ==> fs[j].View() == old(fs[j].View())) &&
    forall j :: 0 <= j < |fs| ==>
      fs[j].restriction ==
        if r.value && fs[j] == fs[FirstIndex(FieldNames(fs), name).value] then Val(keyword)
        else old(fs[j].restriction)
  }
}
