/** Field.java: one column of a table, with its name, its type tag, the value
    to write into it and an integer key code. */
module Fields {
  import opened Lang

  /** Type tag of an int column; the builders render its value unquoted. */
  const INT: string := "int"
  /** Type tag of a varchar(255) column; the builders single-quote its value. */
  const STRING_255: string := "varchar(255)"
  /** Type tag of a 16 MB blob column; no builder has a case for it. */
  const MEDIUMBLOB: string := "mediumblob"
  /** The one key code with a meaning. */
  const PRIMARY_KEY: int := 1

  /** The state of a Field object at one moment, as the renderers see it. */
  datatype FieldView = FieldView(name: string, typeTag: string, value: JString, key: int)

  /** `getKey`: the key clause of a column definition. */
  function KeyText(key: int): (s: string)
    ensures s == "primary key" <==> key == PRIMARY_KEY
    ensures s == "" <==> key != PRIMARY_KEY
  {
    if key == PRIMARY_KEY then "primary key" else ""
  }

  /** `toString`: the column definition used by `createTable`. */
  function Definition(f: FieldView): string
  {
    if f.key == PRIMARY_KEY then f.name + " " + f.typeTag + " " + KeyText(f.key)
    else f.name + " " + f.typeTag
  }

  /** The column definition `createTableKey` assembles from the getters. */
  function KeyedDefinition(f: FieldView): string
  {
    if KeyText(f.key) == "" then f.name + " " + f.typeTag
    else f.name + " " + f.typeTag + " " + KeyText(f.key)
  }

  /** The two ways of writing a column definition agree: a definition is the
      name, one space, the type tag, and " primary key" exactly for key 1. */
  lemma DefinitionShape(f: FieldView)
    ensures Definition(f) == KeyedDefinition(f)
    ensures Definition(f) == f.name + " " + f.typeTag + (if f.key == PRIMARY_KEY then " primary key" else "")
  {
  }

  class Field {
    var name: string
    var typeTag: string
    var value: JString
    var key: int
    /** The constraint keyword that CreateTable attaches (Field.java itself has
        no such field, although CreateTable calls its setter). */
    var restriction: JString

    /** Field(name, type): the value stays null and the key 0. */
    constructor (name: string, typeTag: string)
      ensures View() == FieldView(name, typeTag, Null, 0)
      ensures restriction == Null
    {
      this.name := name;
      this.typeTag := typeTag;
      this.value := Null;
      this.key := 0;
      this.restriction := Null;
    }

    /** Field(name, type, value). */
    constructor WithValue(name: string, typeTag: string, value: JString)
      ensures View() == FieldView(name, typeTag, value, 0)
      ensures restriction == Null
    {
      this.name := name;
      this.typeTag := typeTag;
      this.value := value;
      this.key := 0;
      this.restriction := Null;
    }

    function View(): FieldView
      reads this
    {
      FieldView(name, typeTag, value, key)
    }

    /** `setKey` stores any int and nothing else changes. */
    method SetKey(key: int)
      modifies this`key
      ensures View() == old(View()).(key := key)
    {
      this.key := key;
    }

    method SetRestriction(restriction: string)
      modifies this`restriction
      ensures this.restriction == Val(restriction)
    {
      this.restriction := Val(restriction);
    }

    function GetName(): (r: string)
      reads this
      ensures r == name && r == View().name
    {
      name
    }

    function GetType(): (r: string)
      reads this
      ensures r == typeTag && r == View().typeTag
    {
      typeTag
    }

    function GetValue(): (r: JString)
      reads this
      ensures r == value && r == View().value
    {
      value
    }

    function GetKey(): (s: string)
      reads this
      ensures s == "primary key" <==> key == PRIMARY_KEY
      ensures s == "" <==> key != PRIMARY_KEY
    {
      KeyText(key)
    }

    function ToString(): (s: string)
      reads this
      ensures s == name + " " + typeTag + (if key == PRIMARY_KEY then " primary key" else "")
    {
      DefinitionShape(View());
      Definition(View())
    }
  }

  /** The state of every field of a list, in order. */
  function Views(fs: seq<Field>): (vs: seq<FieldView>)
    reads set i | 0 <= i < |fs| :: fs[i]
    ensures |vs| == |fs| && forall i :: 0 <= i < |fs| ==> vs[i] == fs[i].View()
  {
    seq(|fs|, i requires 0 <= i < |fs| reads set j | 0 <= j < |fs| :: fs[j] => fs[i].View())
  }
}
