/**
 * The date pattern `^([1-2][0-9]{3}(-[0-1][0-9](-[0-3][0-9])?)?)$` attached to
 * every date field. Each piece of the expression has a fixed width, so matching
 * never backtracks: the predicate below consumes the year, then the optional
 * month group, then the optional day group inside it, and `$` requires that
 * nothing is left over (Rust's `$` does not match before a trailing newline).
 * The check is textual, not calendar-aware: month `19` and day `39` pass.
 */
module DatePattern {

  /** `[0-9]`: an ASCII digit. */
  predicate IsDigit(c: char) {
    '0' <= c <= '9'
  }

  /** `[1-2][0-9]{3}` */
  predicate Year(s: string) {
    |s| == 4 && '1' <= s[0] <= '2' && IsDigit(s[1]) && IsDigit(s[2]) && IsDigit(s[3])
  }

  /** `-[0-1][0-9]` */
  predicate MonthPart(s: string) {
    |s| == 3 && s[0] == '-' && '0' <= s[1] <= '1' && IsDigit(s[2])
  }

  /** `-[0-3][0-9]` */
  predicate DayPart(s: string) {
    |s| == 3 && s[0] == '-' && '0' <= s[1] <= '3' && IsDigit(s[2])
  }

  /** `(-[0-3][0-9])?` up to the end of the text. */
  predicate OptDayGroup(s: string) {
    s == [] || DayPart(s)
  }

  /** `(-[0-1][0-9](-[0-3][0-9])?)?` up to the end of the text. */
  predicate OptMonthGroup(s: string) {
    s == [] || (|s| >= 3 && MonthPart(s[..3]) && OptDayGroup(s[3..]))
  }

  /** The whole anchored expression. */
  predicate MatchesDatePattern(s: string) {
    |s| >= 4 && Year(s[..4]) && OptMonthGroup(s[4..])
  }

  // ---------------------------------------------------------------------------
  // A position-wise reference reading of the same language

  /** The character class the pattern puts at position `i`. */
  predicate ClassAt(i: nat, c: char) {
    if i == 0 then '1' <= c <= '2'
    else if i == 4 || i == 7 then c == '-'
    else if i == 5 then '0' <= c <= '1'
    else if i == 8 then '0' <= c <= '3'
    else IsDigit(c)
  }

  /** `YYYY`, `YYYY-MM` or `YYYY-MM-DD`, each position in its class. */
  predicate DateShape(s: string) {
    (|s| == 4 || |s| == 7 || |s| == 10) && forall i :: 0 <= i < |s| ==> ClassAt(i, s[i])
  }

  /** The structured predicate and the position-wise one accept the same strings. */
  lemma MatchesIffShape(s: string)
    ensures MatchesDatePattern(s) <==> DateShape(s)
  {
  }

  /** Only strings of length 4, 7 or 10 match. */
  lemma MatchLengths(s: string)
    requires MatchesDatePattern(s)
    ensures |s| == 4 || |s| == 7 || |s| == 10
  {
  }

  /** Cutting a matching date back to its year, or to its year and month, still matches. */
  lemma TruncationMatches(s: string)
    requires MatchesDatePattern(s)
    ensures MatchesDatePattern(s[..4])
    ensures |s| >= 7 ==> MatchesDatePattern(s[..7])
  {
  }

  /** Accepted examples, calendar-invalid month and day included. */
  lemma AcceptedExamples()
    ensures MatchesDatePattern("2021")
    ensures MatchesDatePattern("2021-06")
    ensures MatchesDatePattern("2021-06-15")
    ensures MatchesDatePattern("2021-19-39")
  {
  }

  /** Rejected examples: a short year, another separator, words, a year from 3000, a trailing newline. */
  lemma RejectedExamples()
    ensures !MatchesDatePattern("21-06-15")
    ensures !MatchesDatePattern("2021/06/15")
    ensures !MatchesDatePattern("June 2021")
    ensures !MatchesDatePattern("3021")
    ensures !MatchesDatePattern("2021-06-15\n")
    ensures !MatchesDatePattern("")
  {
  }
}
