/** Type.java: the enum of column types. Each of its two constants, INT and
    VARCHAR, is one shared object whose `type` text and default value every
    `getType` call overwrites in place; a caller that holds the constant sees
    what any other caller did to it. */
module Types {
  import opened Lang
  import opened Text

  datatype Variant = IntVariant | VarcharVariant

  const MAX_INT_WIDTH: int := 10
  const MAX_VARCHAR_LENGTH: int := 65535
  /** Digits an int default may have when the width is 0. */
  const UNSET_WIDTH_DIGITS: int := 10

  /** `getDefaultValue`: nothing without a default, else a `default` clause. */
  function DefaultClause(d: JString): (s: string)
    ensures s == "" <==> d.Null?
  {
    match d
    case Null => ""
    case Val(v) => "default " + v
  }

  /** `toString`: the type text, followed by the default clause if there is one. */
  function Rendered(text: string, d: JString): string
  {
    if d.Null? then text else text + " " + DefaultClause(d)
  }

  /** Whether an int default of `digits` characters is short enough for width `w`. */
  predicate IntDefaultFits(digits: nat, w: int)
  {
    if w == 0 then digits <= UNSET_WIDTH_DIGITS else digits <= w
  }

  /** What VARCHAR stores as its default: the value in single quotes, two
      quotes for the empty string, and for a null default the text "null"
      (the result of `"" + null`). */
  function VarcharStoredDefault(d: JString): (s: string)
    ensures 2 <= |s|
  {
    match d
    case Null => "" + Str(Null)
    case Val(v) => if v == "" then "''" else "'" + v + "'"
  }

  /** A given default is stored quoted and can be read back from between the
      quotes, the empty string included; a null default is not quoted. */
  lemma VarcharDefaultQuoted(d: JString)
    ensures d.Val? ==> var s := VarcharStoredDefault(d);
      s[0] == '\'' && s[|s| - 1] == '\'' && s[1..|s| - 1] == d.v
    ensures d.Null? ==> VarcharStoredDefault(d) == "null"
  {
  }

  class Type {
    const variant: Variant
    /** The type text (`type` in Type.java). */
    var text: string
    /** The stored default (`defaulteValue` in Type.java); null when unset. */
    var defaultValue: JString

    /** The INT constant as the enum creates it. */
    constructor Int()
      ensures variant == IntVariant && text == "int" && defaultValue == Null
    {
      variant := IntVariant;
      text := "int";
      defaultValue := Null;
    }

    /** The VARCHAR constant as the enum creates it. */
    constructor Varchar()
      ensures variant == VarcharVariant && text == "varchar(255)" && defaultValue == Null
    {
      variant := VarcharVariant;
      text := "varchar(255)";
      defaultValue := Null;
    }

    /** `getType(int)`. INT appends "(w)" to whatever text it already has;
        VARCHAR replaces its text by "varchar(l)". Out of range, it throws and
        nothing changes. */
    method GetType(i: int) returns (r: Result<Type>)
      modifies this`text
      ensures variant == IntVariant ==>
        if 0 <= i <= MAX_INT_WIDTH then r == Return(this) && text == old(text) + "(" + NatText(i) + ")"
        else r == Throw(NumberOutOfRange) && text == old(text)
      ensures variant == VarcharVariant ==>
        if 0 <= i <= MAX_VARCHAR_LENGTH then r == Return(this) && text == "varchar(" + NatText(i) + ")"
        else r == Throw(NumberOutOfRange) && text == old(text)
    {
      if variant == IntVariant {
        if i < 0 || i > MAX_INT_WIDTH {
          return Throw(NumberOutOfRange);
        }
        text := text + "(" + NatText(i) + ")";
        return Return(this);
      } else {
        if i < 0 || i > MAX_VARCHAR_LENGTH {
          return Throw(NumberOutOfRange);
        }
        text := "varchar(" + NatText(i) + ")";
        return Return(this);
      }
    }

    /** `getType(int, Object)` with the default's string form `d`.
        INT: a null or empty default throws NullPointerException and a
        non-digit one ClassCastException, both before anything changes; then
        the width is appended as by GetType, and a default with more digits
        than the width (10 when the width is 0) throws after that append.
        VARCHAR: the text is replaced first; a default longer than the length
        (counted in UTF-16 units, as `String.length()` counts)
        then throws; otherwise the quoted default (or the text "null") is stored. */
    method GetTypeWithDefault(i: int, d: JString) returns (r: Result<Type>)
      modifies this`text, this`defaultValue
      ensures variant == IntVariant ==>
        if NullOrEmpty(d) then
          r == Throw(NullPointer) && text == old(text) && defaultValue == old(defaultValue)
        else if !AllDigits(d.v) then
          r == Throw(ClassCast) && text == old(text) && defaultValue == old(defaultValue)
        else if !(0 <= i <= MAX_INT_WIDTH) then
          r == Throw(NumberOutOfRange) && text == old(text) && defaultValue == old(defaultValue)
        else
          text == old(text) + "(" + NatText(i) + ")" &&
          if IntDefaultFits(Utf16Length(d.v), i) then r == Return(this) && defaultValue == d
          else r == Throw(NumberOutOfRange) && defaultValue == old(defaultValue)
      ensures variant == VarcharVariant ==>
        if !(0 <= i <= MAX_VARCHAR_LENGTH) then
          r == Throw(NumberOutOfRange) && text == old(text) && defaultValue == old(defaultValue)
        else
          text == "varchar(" + NatText(i) + ")" &&
          if d.Val? && Utf16Length(d.v) > i then r == Throw(NumberOutOfRange) && defaultValue == old(defaultValue)
          else r == Return(this) && defaultValue == Val(VarcharStoredDefault(d))
    {
      if variant == IntVariant {
        if d.Null? || d.v == "" {
          return Throw(NullPointer);
        }
        if !AllDigits(d.v) {
          return Throw(ClassCast);
        }
        var widened := GetType(i);
        if widened.Throw? {
          return widened;
        }
        var length := Utf16Length(d.v);
        if i == 0 {
          if length > UNSET_WIDTH_DIGITS {
            return Throw(NumberOutOfRange);
          }
        } else if length > i {
          return Throw(NumberOutOfRange);
        }
        defaultValue := d;
        return Return(this);
      } else {
        var lengthened := GetType(i);
        if lengthened.Throw? {
          return lengthened;
        }
        if d.Val? {
          var l := Utf16Length(d.v);
          if l > i {
            return Throw(NumberOutOfRange);
          }
          if d.v == "" {
            defaultValue := Val("''");
          } else {
            defaultValue := Val("'" + d.v + "'");
          }
        } else {
          defaultValue := Val("" + Str(d));
        }
        return Return(this);
      }
    }

    /** `getDefaultValue`: empty without a default, else "default " and the
        stored default. */
    function GetDefaultValue(): (s: string)
      reads this
      ensures s == "" <==> defaultValue.Null?
      ensures defaultValue.Val? ==> s == "default " + defaultValue.v
    {
      DefaultClause(defaultValue)
    }

    /** `toString`: the type text, followed by the default clause when a
        default is stored. */
    function ToString(): (s: string)
      reads this
      ensures defaultValue.Null? ==> s == text
      ensures defaultValue.Val? ==> s == text + " default " + defaultValue.v
    {
      RenderedShape(text, defaultValue);
      Rendered(text, defaultValue)
    }
  }

  /** What a type renders as: its text alone without a default, and otherwise
      its text, " default " and the stored default. */
  lemma RenderedShape(text: string, d: JString)
    ensures d.Null? ==> Rendered(text, d) == text
    ensures d.Val? ==> Rendered(text, d) == text + " default " + d.v
  {
  }

  /** After INT's `getType(w)` the appended width can be read back from the
      end of the text: the text ends in ")" and the digits just before it,
      after the "(", denote w. */
  lemma {:induction false} AppendedWidthReadable(text: string, w: nat)
    ensures var t := text + "(" + NatText(w) + ")";
      t[|t| - 1] == ')' && t[|text|] == '(' &&
      AllDigits(t[|text| + 1..|t| - 1]) && DigitsValue(t[|text| + 1..|t| - 1]) == w
  {
    var t := text + "(" + NatText(w) + ")";
    assert t[|text| + 1..|t| - 1] == NatText(w);
    NatTextRoundTrip(w);
  }
}
