/** Text helpers shared by the renderers: decimal rendering of a Java int and
    the "append a separator except after the last element" join that every
    StringBuilder loop of the builders performs. */
module Text {

  predicate IsDigit(c: char)
  {
    '0' <= c <= '9'
  }

  /** Java's `\d*` regular expression on a whole string: ASCII digits only. */
  predicate AllDigits(s: string)
  {
    forall i :: 0 <= i < |s| ==> IsDigit(s[i])
  }

  function DigitChar(d: nat): (c: char)
    requires d < 10
    ensures IsDigit(c)
  {
    ('0' as int + d) as char
  }

  /** Decimal text of a non-negative int, as `"" + n` renders it in Java. */
  function NatText(n: nat): (s: string)
    ensures 1 <= |s|
    ensures AllDigits(s)
    ensures n < 10 <==> |s| == 1
  {
    if n < 10 then [DigitChar(n)] else NatText(n / 10) + [DigitChar(n % 10)]
  }

  /** The value a string of decimal digits denotes (the inverse of NatText). */
  function DigitsValue(s: string): nat
    requires AllDigits(s)
  {
    if s == [] then 0
    else DigitsValue(s[..|s| - 1]) * 10 + ((s[|s| - 1] as int) - ('0' as int))
  }

  /** The rendered width or length can be read back: NatText loses nothing. */
  lemma {:induction false} NatTextRoundTrip(n: nat)
    ensures DigitsValue(NatText(n)) == n
  {
    var s := NatText(n);
    if n >= 10 {
      NatTextRoundTrip(n / 10);
      assert s[..|s| - 1] == NatText(n / 10);
    }
  }

  /** NatText is canonical: no leading zero except for zero itself. */
  lemma {:induction false} NatTextNoLeadingZero(n: nat)
    ensures NatText(n)[0] == '0' <==> n == 0
  {
    if n >= 10 {
      NatTextNoLeadingZero(n / 10);
    }
  }

  /** `parts` joined with `sep` between neighbours, built left to right the way
      the source's loops append. */
  function Join(parts: seq<string>, sep: string): string
  {
    if |parts| == 0 then ""
    else if |parts| == 1 then parts[0]
    else Join(parts[..|parts| - 1], sep) + sep + parts[|parts| - 1]
  }

  /** What a join loop holds after handling the first `i` parts: the joined
      prefix, followed by the separator while elements remain. */
  function JoinedPrefix(parts: seq<string>, sep: string, i: nat): string
    requires i <= |parts|
  {
    Join(parts[..i], sep) + (if 0 < i < |parts| then sep else "")
  }

  lemma JoinedPrefixStep(parts: seq<string>, sep: string, i: nat)
    requires i < |parts|
    ensures JoinedPrefix(parts, sep, i) + parts[i] + (if i + 1 < |parts| then sep else "")
            == JoinedPrefix(parts, sep, i + 1)
  {
    assert parts[..i + 1][..i] == parts[..i];
  }

  lemma JoinedPrefixAll(parts: seq<string>, sep: string)
    ensures JoinedPrefix(parts, sep, |parts|) == Join(parts, sep)
  {
    assert parts[..|parts|] == parts;
  }

  /** Splitting at every occurrence of `c`, keeping empty pieces. */
  function Split(s: string, c: char): (pieces: seq<string>)
    ensures 1 <= |pieces|
  {
    if |s| == 0 then [""]
    else
      var rest := Split(s[1..], c);
      if s[0] == c then [""] + rest else [[s[0]] + rest[0]] + rest[1..]
  }

  lemma {:induction false} SplitNoSeparator(s: string, c: char)
    requires c !in s
    ensures Split(s, c) == [s]
  {
    if |s| > 0 {
      SplitNoSeparator(s[1..], c);
      assert [s[0]] + s[1..] == s;
    }
  }

  lemma {:induction false} SplitAppend(a: string, c: char, b: string)
    requires c !in b
    ensures Split(a + [c] + b, c) == Split(a, c) + [b]
  {
    if |a| == 0 {
      assert a + [c] + b == [c] + b;
      assert ([c] + b)[1..] == b;
      SplitNoSeparator(b, c);
    } else {
      var t := a + [c] + b;
      assert t[0] == a[0];
      assert t[1..] == a[1..] + [c] + b;
      SplitAppend(a[1..], c, b);
    }
  }

  /** Joining with a one-character separator that no part contains can be
      undone by splitting at that character. */
  lemma {:induction false} SplitJoin(parts: seq<string>, c: char)
    requires 1 <= |parts|
    requires forall i :: 0 <= i < |parts| ==> c !in parts[i]
    ensures Split(Join(parts, [c]), c) == parts
  {
    if |parts| == 1 {
      SplitNoSeparator(parts[0], c);
    } else {
      var init := parts[..|parts| - 1];
      SplitJoin(init, c);
      SplitAppend(Join(init, [c]), c, parts[|parts| - 1]);
      assert init + [parts[|parts| - 1]] == parts;
    }
  }
}
