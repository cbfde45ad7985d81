// The card fields of the checkout's payment step. Each keystroke's text is
// reduced to its digits, cut to the field's length and laid out: the card
// number in groups of four, the expiry as MM/YY, the CVC as bare digits.

module PaymentFormat {
  import Seqs
  import Text

  /** `val.replace(/(.{4})/g, '$1 ')`: a space after every complete group of four characters. */
  function SpaceAfterFours(d: string): (r: string)
    decreases |d|
  {
    if |d| < 4 then d else d[..4] + " " + SpaceAfterFours(d[4..])
  }

  /** `trim()` for a string whose only blanks are spaces. */
  function TrimSpaces(s: string): (r: string)
    ensures r == [] || (r[0] != ' ' && r[|r| - 1] != ' ')
    decreases |s|
  {
    if s == [] then s
    else if s[0] == ' ' then TrimSpaces(s[1..])
    else if s[|s| - 1] == ' ' then TrimSpaces(s[..|s| - 1])
    else s
  }

  /** The card number field's new value. */
  function FormatCard(input: string): string
  {
    TrimSpaces(SpaceAfterFours(Text.Take(Text.DigitsOf(input), 16)))
  }

  /** Groups of four digits joined by single spaces: the card field's intended layout. */
  function GroupFours(d: string): (r: string)
    decreases |d|
  {
    if |d| <= 4 then d else d[..4] + " " + GroupFours(d[4..])
  }

  /** The regex output is the grouped string, with one trailing space when the last group is full. */
  lemma {:induction false} SpacedIsGroupedPlus(d: string)
    ensures SpaceAfterFours(d) == GroupFours(d) + (if |d| > 0 && |d| % 4 == 0 then " " else "")
    decreases |d|
  {
    if |d| == 4 {
      assert SpaceAfterFours(d[4..]) == [];
    } else if |d| > 4 {
      SpacedIsGroupedPlus(d[4..]);
    }
  }

  /** A grouped non-empty digit string starts and ends with a digit. */
  lemma {:induction false} GroupFoursEnds(d: string)
    requires Text.AllDigits(d) && d != []
    ensures GroupFours(d) != [] && Text.IsDigit(GroupFours(d)[0]) && Text.IsDigit(GroupFours(d)[|GroupFours(d)| - 1])
    decreases |d|
  {
    if |d| > 4 {
      GroupFoursEnds(d[4..]);
    }
  }

  /** Spacing then trimming a digit string gives its groups of four. */
  lemma SpacedAndTrimmedIsGrouped(d: string)
    requires Text.AllDigits(d)
    ensures TrimSpaces(SpaceAfterFours(d)) == GroupFours(d)
  {
    SpacedIsGroupedPlus(d);
    if d != [] {
      var g := GroupFours(d);
      GroupFoursEnds(d);
      if |d| % 4 == 0 {
        var s := g + " ";
        assert s[0] == g[0] && s[|s| - 1] == ' ';
        assert s[..|s| - 1] == g;
      }
    }
  }

  /** Every character of a grouped digit string is a digit exactly off the fifth positions. */
  lemma {:induction false} GroupFoursShape(d: string)
    requires Text.AllDigits(d)
    ensures |GroupFours(d)| == if d == [] then 0 else |d| + (|d| - 1) / 4
    ensures forall i :: 0 <= i < |GroupFours(d)| ==>
      (GroupFours(d)[i] == ' ' <==> i % 5 == 4) && (GroupFours(d)[i] != ' ' ==> Text.IsDigit(GroupFours(d)[i]))
    decreases |d|
  {
    if |d| > 4 {
      GroupFoursShape(d[4..]);
      var t := GroupFours(d[4..]);
      var r := GroupFours(d);
      assert r == d[..4] + " " + t;
      forall i | 0 <= i < |r|
        ensures (r[i] == ' ' <==> i % 5 == 4) && (r[i] != ' ' ==> Text.IsDigit(r[i]))
      {
        if i >= 5 {
          assert r[i] == t[i - 5];
        }
      }
    }
  }

  /** The digits of a grouped digit string are the digit string. */
  lemma {:induction false} GroupFoursDigits(d: string)
    requires Text.AllDigits(d)
    ensures Text.DigitsOf(GroupFours(d)) == d
    decreases |d|
  {
    if |d| <= 4 {
      Text.DigitsOfDigits(d);
    } else {
      GroupFoursDigits(d[4..]);
      Seqs.FilterAppend(d[..4] + " ", GroupFours(d[4..]), Text.IsDigit);
      Seqs.FilterAppend(d[..4], " ", Text.IsDigit);
      Text.DigitsOfDigits(d[..4]);
      assert d == d[..4] + d[4..];
    }
  }

  /**
   * The card number field holds the first sixteen digits typed, in groups of four separated
   * by single spaces, with no space at either end: a space at every fifth position and a
   * digit everywhere else, n + ceil(n / 4) - 1 characters for n digits.
   */
  lemma FormatCardSpec(input: string)
    ensures var d := Text.Take(Text.DigitsOf(input), 16);
      && FormatCard(input) == GroupFours(d)
      && Text.DigitsOf(FormatCard(input)) == d
      && |FormatCard(input)| == (if d == [] then 0 else |d| + (|d| - 1) / 4)
      && forall i :: 0 <= i < |FormatCard(input)| ==>
           (FormatCard(input)[i] == ' ' <==> i % 5 == 4) && (FormatCard(input)[i] != ' ' ==> Text.IsDigit(FormatCard(input)[i]))
  {
    var d := Text.Take(Text.DigitsOf(input), 16);
    assert Text.AllDigits(d);
    SpacedAndTrimmedIsGrouped(d);
    GroupFoursDigits(d);
    GroupFoursShape(d);
  }

  /** Formatting the field's own value leaves it unchanged. */
  lemma FormatCardIdempotent(input: string)
    ensures FormatCard(FormatCard(input)) == FormatCard(input)
  {
    var d := Text.Take(Text.DigitsOf(input), 16);
    FormatCardSpec(input);
    FormatCardSpec(FormatCard(input));
  }

  /** The expiry field's new value: up to four digits, with a slash after the second when there are more. */
  function FormatExpiry(input: string): string
  {
    var v := Text.Take(Text.DigitsOf(input), 4);
    if |v| > 2 then v[..2] + "/" + v[2..] else v
  }

  /** Dropping the slash from `MM/Y...` gives the digits back. */
  lemma DigitsOfSlashed(v: string)
    requires Text.AllDigits(v) && |v| > 2
    ensures Text.DigitsOf(v[..2] + "/" + v[2..]) == v
  {
    Seqs.FilterAppend(v[..2] + "/", v[2..], Text.IsDigit);
    Seqs.FilterAppend(v[..2], "/", Text.IsDigit);
    Text.DigitsOfDigits(v[..2]);
    Text.DigitsOfDigits(v[2..]);
    assert v == v[..2] + v[2..];
  }

  /**
   * The expiry field holds the first four digits typed; with three or four digits it reads
   * MM/Y or MM/YY, otherwise just the digits.
   */
  lemma FormatExpirySpec(input: string)
    ensures var v := Text.Take(Text.DigitsOf(input), 4);
      && Text.DigitsOf(FormatExpiry(input)) == v
      && |FormatExpiry(input)| == (if |v| > 2 then |v| + 1 else |v|)
      && (|v| > 2 ==> FormatExpiry(input)[2] == '/' && FormatExpiry(input)[..2] == v[..2])
      && (|v| <= 2 ==> FormatExpiry(input) == v)
  {
    var v := Text.Take(Text.DigitsOf(input), 4);
    if |v| > 2 {
      DigitsOfSlashed(v);
    } else {
      Text.DigitsOfDigits(v);
    }
  }

  /** Formatting the expiry field again changes nothing. */
  lemma FormatExpiryIdempotent(input: string)
    ensures FormatExpiry(FormatExpiry(input)) == FormatExpiry(input)
  {
    FormatExpirySpec(input);
    var v := Text.Take(Text.DigitsOf(input), 4);
    assert Text.Take(Text.DigitsOf(FormatExpiry(input)), 4) == v;
  }

  /** The CVC field's new value. */
  function FormatCvc(input: string): (r: string)
    ensures Text.AllDigits(r) && |r| <= 4
  {
    Text.Take(Text.DigitsOf(input), 4)
  }

  /** The CVC keeps the first four digits typed, and formatting it again changes nothing. */
  lemma FormatCvcSpec(input: string)
    ensures FormatCvc(input) <= Text.DigitsOf(input)
    ensures |Text.DigitsOf(input)| >= 4 ==> |FormatCvc(input)| == 4
    ensures FormatCvc(FormatCvc(input)) == FormatCvc(input)
  {
    Text.DigitsOfDigits(FormatCvc(input));
  }
}
