/** The column-level constraint keywords of Restriction.java. Each keyword is
    padded with a space on both sides so that it can be pasted after a column
    definition. */
module Restriction {

  const AUTO_INCREMENT: string := " auto_increment "
  const NOT_NULL: string := " not null "
  const UNIQUE: string := " unique "
  const PRIMARY_KEY: string := " primary key "

  /** The strings the `switch (restriction)` of CreateTable has a case for. */
  predicate IsKeyword(s: string)
  {
    s == AUTO_INCREMENT || s == NOT_NULL || s == UNIQUE || s == PRIMARY_KEY
  }

  /** Every keyword begins and ends with a space and has a word in between. */
  lemma KeywordsPadded(s: string)
    requires IsKeyword(s)
    ensures 3 <= |s| && s[0] == ' ' && s[|s| - 1] == ' ' && s[1] != ' '
  {
  }

  /** The four keywords are pairwise distinct, so the switch cases never overlap. */
  lemma KeywordsDistinct()
    ensures AUTO_INCREMENT != NOT_NULL && AUTO_INCREMENT != UNIQUE && AUTO_INCREMENT != PRIMARY_KEY
    ensures NOT_NULL != UNIQUE && NOT_NULL != PRIMARY_KEY && UNIQUE != PRIMARY_KEY
  {
  }
}
