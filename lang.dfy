/** The pieces of Java's semantics that the model needs: references that may be
    null, string conversion of a possibly-null String, and thrown exceptions. */
module Lang {

  /** A Java reference that may be null. */
  datatype Nullable<+T> = Null | Val(v: T)

  /** A java.lang.String reference. */
  type JString = Nullable<string>

  datatype Option<+T> = None | Some(value: T)

  /** The exceptions the modelled code throws. */
  datatype Exception =
    | NullPointer            // java.lang.NullPointerException
    | ClassCast              // java.lang.ClassCastException
    | NumberOutOfRange       // com.mysql.cj.exceptions.NumberOutOfRange
    | IndexOutOfBounds       // java.lang.ArrayIndexOutOfBoundsException

  /** How a value-returning Java method completes. */
  datatype Result<+T> = Return(value: T) | Throw(exception: Exception)

  /** How a void Java method completes. */
  datatype Outcome = Normal | Throws(exception: Exception)

  /** String conversion as done by `+` on strings and by String.valueOf:
      a null reference renders as the four letters "null". */
  function Str(s: JString): string
  {
    match s
    case Null => "null"
    case Val(t) => t
  }

  /** `String.length()`: the number of UTF-16 code units, so a character
      outside the Basic Multilingual Plane counts twice. */
  function Utf16Length(s: string): (n: nat)
    ensures |s| <= n <= 2 * |s|
    ensures n == 0 <==> s == []
  {
    if s == [] then 0
    else Utf16Length(s[..|s| - 1]) + (if s[|s| - 1] as int > 0xFFFF then 2 else 1)
  }

  /** Without characters outside the Basic Multilingual Plane, `length()`
      is the number of characters. */
  lemma {:induction false} Utf16LengthInPlane(s: string)
    requires forall i :: 0 <= i < |s| ==> s[i] as int <= 0xFFFF
    ensures Utf16Length(s) == |s|
  {
    if s != [] {
      Utf16LengthInPlane(s[..|s| - 1]);
    }
  }

  /** `Objects.isNull(s) || s.isEmpty()` */
  predicate NullOrEmpty(s: JString)
  {
    s.Null? || s.v == ""
  }
}
