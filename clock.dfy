// Clock times of day. The storefront keeps times as "HH:MM" strings and
// does arithmetic on them through JavaScript `Date` objects; here a time of
// day is a number of minutes after midnight, with a parser and a formatter
// (`toTimeString().slice(0, 5)`) that are inverse to each other.

module Clock {
  import opened Wrappers
  import Text

  const MinutesPerDay: nat := 1440

  function DigitValue(c: char): nat
    requires Text.IsDigit(c)
  {
    c as nat - '0' as nat
  }

  function DigitChar(d: nat): (c: char)
    requires d < 10
    ensures Text.IsDigit(c) && DigitValue(c) == d
  {
    ('0' as nat + d) as char
  }

  /** Value of a two-digit decimal field. */
  function TwoDigits(a: char, b: char): nat
    requires Text.IsDigit(a) && Text.IsDigit(b)
  {
    10 * DigitValue(a) + DigitValue(b)
  }

  /** A well-formed 24-hour clock time "HH:MM". */
  predicate IsTime(s: string)
  {
    && |s| == 5
    && Text.IsDigit(s[0]) && Text.IsDigit(s[1]) && s[2] == ':'
    && Text.IsDigit(s[3]) && Text.IsDigit(s[4])
    && TwoDigits(s[0], s[1]) <= 23 && TwoDigits(s[3], s[4]) <= 59
  }

  /** Minutes after midnight of "HH:MM"; None where the source's Date would be invalid (NaN). */
  function ParseTime(s: string): (r: Option<nat>)
    ensures r.Some? <==> IsTime(s)
    ensures r.Some? ==> r.value < MinutesPerDay
  {
    if IsTime(s) then Some(60 * TwoDigits(s[0], s[1]) + TwoDigits(s[3], s[4])) else None
  }

  /** Zero-padded two-digit rendering of `n`. */
  function Pad2(n: nat): (r: string)
    requires n < 100
    ensures |r| == 2 && Text.IsDigit(r[0]) && Text.IsDigit(r[1])
    ensures TwoDigits(r[0], r[1]) == n
  {
    [DigitChar(n / 10), DigitChar(n % 10)]
  }

  /** "HH:MM" of a time of day, as `toTimeString().slice(0, 5)` prints it. */
  function FormatTime(m: nat): (r: string)
    requires m < MinutesPerDay
    ensures IsTime(r)
  {
    Pad2(m / 60) + ":" + Pad2(m % 60)
  }

  /** Formatting then parsing gives the time back. */
  lemma ParseFormat(m: nat)
    requires m < MinutesPerDay
    ensures ParseTime(FormatTime(m)) == Some(m)
  {
    var r := FormatTime(m);
    assert r[0..2] == Pad2(m / 60) && r[3..5] == Pad2(m % 60);
  }

  /** Padding a two-digit field's value gives the field back. */
  lemma Pad2Digits(a: char, b: char)
    requires Text.IsDigit(a) && Text.IsDigit(b)
    ensures Pad2(TwoDigits(a, b)) == [a, b]
  {
    var q, r := DigitValue(a), DigitValue(b);
    var n := 10 * q + r;
    assert n / 10 == q && n % 10 == r;
  }

  /** Parsing then formatting gives the string back. */
  lemma FormatParse(s: string)
    requires IsTime(s)
    ensures FormatTime(ParseTime(s).value) == s
  {
    var h, mi := TwoDigits(s[0], s[1]), TwoDigits(s[3], s[4]);
    var m := 60 * h + mi;
    assert m / 60 == h && m % 60 == mi;
    Pad2Digits(s[0], s[1]);
    Pad2Digits(s[3], s[4]);
    assert s == [s[0], s[1]] + ":" + [s[3], s[4]];
  }

  /** Distinct times of day have distinct renderings. */
  lemma FormatInjective(m1: nat, m2: nat)
    requires m1 < MinutesPerDay && m2 < MinutesPerDay
    ensures FormatTime(m1) == FormatTime(m2) ==> m1 == m2
  {
    ParseFormat(m1);
    ParseFormat(m2);
  }

  /**
   * The clock time `d` minutes after `m`: `setMinutes(getMinutes() + d)` followed by
   * `toTimeString()`, which wraps past midnight (daylight-saving shifts aside).
   */
  function AddMinutes(m: nat, d: nat): (r: nat)
    requires m < MinutesPerDay
    ensures r < MinutesPerDay
    ensures m + d < MinutesPerDay ==> r == m + d
    ensures (r - m - d) % MinutesPerDay == 0
  {
    (m + d) % MinutesPerDay
  }
}
