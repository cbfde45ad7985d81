// Small building blocks shared by every part of the model: optional values,
// the outcome of a call into the hosted document store, generic sequence
// operations (JavaScript's filter / reduce) and the string helpers the
// storefront relies on (digit stripping, lower-casing, substring search).

module Wrappers {

  datatype Option<+T> = None | Some(value: T)

  /** A value, or the error a JavaScript caller would see thrown or rejected. */
  datatype Result<+T, +E> = Ok(value: T) | Err(error: E)

  /** Outcome of a document-store write that assigns a fresh id (`addDoc`). */
  datatype AddResult = Added(id: string) | AddFailed

}

module Seqs {

  /** `r` can be obtained from `s` by deleting elements: same order, nothing new. */
  predicate IsSubsequence<T(==)>(r: seq<T>, s: seq<T>)
    decreases |s|
  {
    if r == [] then true
    else if s == [] then false
    else if r[0] == s[0] then IsSubsequence(r[1..], s[1..])
    else IsSubsequence(r, s[1..])
  }

  /** JavaScript's `s.filter(p)`: the elements satisfying `p`, in their original order. */
  function Filter<T(==)>(s: seq<T>, p: T -> bool): (r: seq<T>)
    ensures |r| <= |s|
    ensures forall i :: 0 <= i < |r| ==> r[i] in s && p(r[i])
    ensures forall i :: 0 <= i < |s| && p(s[i]) ==> s[i] in r
  {
    if s == [] then []
    else if p(s[0]) then [s[0]] + Filter(s[1..], p)
    else Filter(s[1..], p)
  }

  /** A filter keeps the relative order of what it keeps. */
  lemma {:induction false} FilterIsSubsequence<T>(s: seq<T>, p: T -> bool)
    ensures IsSubsequence(Filter(s, p), s)
  {
    if s != [] {
      FilterIsSubsequence(s[1..], p);
    }
  }

  /** A filter whose predicate holds of every element returns its input. */
  lemma {:induction false} FilterKeepsAll<T>(s: seq<T>, p: T -> bool)
    requires forall i :: 0 <= i < |s| ==> p(s[i])
    ensures Filter(s, p) == s
  {
    if s != [] {
      FilterKeepsAll(s[1..], p);
    }
  }

  /** Filtering twice with the same predicate changes nothing more. */
  lemma {:induction false} FilterIdempotent<T>(s: seq<T>, p: T -> bool)
    ensures Filter(Filter(s, p), p) == Filter(s, p)
  {
    var r := Filter(s, p);
    assert forall i :: 0 <= i < |r| ==> p(r[i]);
    FilterKeepsAll(r, p);
  }

  /** Predicates that agree on every element filter alike. */
  lemma {:induction false} FilterSame<T>(s: seq<T>, p: T -> bool, q: T -> bool)
    requires forall i :: 0 <= i < |s| ==> p(s[i]) == q(s[i])
    ensures Filter(s, p) == Filter(s, q)
  {
    if s != [] {
      FilterSame(s[1..], p, q);
    }
  }

  /** Filtering a concatenation filters each part. */
  lemma {:induction false} FilterAppend<T>(a: seq<T>, b: seq<T>, p: T -> bool)
    ensures Filter(a + b, p) == Filter(a, p) + Filter(b, p)
  {
    if a == [] {
      assert a + b == b;
    } else {
      assert (a + b)[0] == a[0] && (a + b)[1..] == a[1..] + b;
      FilterAppend(a[1..], b, p);
    }
  }

  /** JavaScript's `s.reduce((acc, x) => acc + f(x), 0)`, folded from the left. */
  function Sum<T>(s: seq<T>, f: T -> int): int
  {
    if s == [] then 0 else Sum(s[..|s| - 1], f) + f(s[|s| - 1])
  }

  lemma {:induction false} SumAppend<T>(a: seq<T>, b: seq<T>, f: T -> int)
    ensures Sum(a + b, f) == Sum(a, f) + Sum(b, f)
  {
    if b == [] {
      assert a + b == a;
    } else {
      var b' := b[..|b| - 1];
      assert (a + b)[..|a + b| - 1] == a + b';
      SumAppend(a, b', f);
    }
  }

  lemma {:induction false} SumNonNegative<T>(s: seq<T>, f: T -> int)
    requires forall i :: 0 <= i < |s| ==> f(s[i]) >= 0
    ensures Sum(s, f) >= 0
  {
    if s != [] {
      SumNonNegative(s[..|s| - 1], f);
    }
  }

  /** Sequences whose elements contribute the same amounts have the same sum. */
  lemma {:induction false} SumSame<T>(a: seq<T>, b: seq<T>, f: T -> int)
    requires |a| == |b|
    requires forall i :: 0 <= i < |a| ==> f(a[i]) == f(b[i])
    ensures Sum(a, f) == Sum(b, f)
  {
    if a != [] {
      SumSame(a[..|a| - 1], b[..|b| - 1], f);
    }
  }

  /** Changing the element at `k` alone changes the sum by exactly that element's difference. */
  lemma {:induction false} SumDiffAt<T>(a: seq<T>, b: seq<T>, k: int, f: T -> int)
    requires |a| == |b| && 0 <= k < |a|
    requires forall i :: 0 <= i < |a| && i != k ==> f(a[i]) == f(b[i])
    ensures Sum(b, f) == Sum(a, f) + f(b[k]) - f(a[k])
  {
    var n := |a| - 1;
    if k == n {
      SumSame(a[..n], b[..n], f);
    } else {
      SumDiffAt(a[..n], b[..n], k, f);
    }
  }

  /** Sum of the first element plus the rest, the other way of unfolding the fold. */
  lemma SumCons<T>(x: T, s: seq<T>, f: T -> int)
    ensures Sum([x] + s, f) == f(x) + Sum(s, f)
  {
    SumAppend([x], s, f);
    assert [x][..0] == [];
  }

  /** Elements that satisfy `p` as a count. */
  function Count<T>(s: seq<T>, p: T -> bool): (n: nat)
    ensures n <= |s|
  {
    if s == [] then 0 else Count(s[..|s| - 1], p) + (if p(s[|s| - 1]) then 1 else 0)
  }

  /** Every element equal to `x` removed, the order of the rest kept. */
  function Without<T(==)>(s: seq<T>, x: T): (r: seq<T>)
  {
    Filter(s, y => y != x)
  }

  /** No value occurs twice. */
  predicate Distinct<T(==)>(s: seq<T>)
  {
    forall i, j :: 0 <= i < j < |s| ==> s[i] != s[j]
  }

  /** Filtering out exactly the element at `k` takes exactly its amount off the sum. */
  lemma {:induction false} SumFilterDropsOne<T>(s: seq<T>, k: int, p: T -> bool, f: T -> int)
    requires 0 <= k < |s| && !p(s[k])
    requires forall i :: 0 <= i < |s| && i != k ==> p(s[i])
    ensures Sum(Filter(s, p), f) == Sum(s, f) - f(s[k])
  {
    var rest := s[1..];
    assert s == [s[0]] + rest;
    SumCons(s[0], rest, f);
    if k == 0 {
      assert forall i :: 0 <= i < |rest| ==> p(rest[i]) by {
        forall i | 0 <= i < |rest| ensures p(rest[i]) { assert rest[i] == s[i + 1]; }
      }
      FilterKeepsAll(rest, p);
    } else {
      assert forall i :: 0 <= i < |rest| && i != k - 1 ==> p(rest[i]) by {
        forall i | 0 <= i < |rest| && i != k - 1 ensures p(rest[i]) { assert rest[i] == s[i + 1]; }
      }
      SumFilterDropsOne(rest, k - 1, p, f);
      SumCons(s[0], Filter(rest, p), f);
    }
  }

  /** Every element of a subsequence is an element of the whole. */
  lemma {:induction false} SubsequenceMembers<T>(r: seq<T>, s: seq<T>)
    requires IsSubsequence(r, s)
    ensures forall i :: 0 <= i < |r| ==> exists m :: 0 <= m < |s| && s[m] == r[i]
    decreases |s|
  {
    if r != [] {
      if r[0] == s[0] {
        SubsequenceMembers(r[1..], s[1..]);
        forall i | 0 <= i < |r| ensures exists m :: 0 <= m < |s| && s[m] == r[i]
        {
          if i == 0 {
            assert s[0] == r[0];
          } else {
            assert r[i] == r[1..][i - 1];
            var m :| 0 <= m < |s[1..]| && s[1..][m] == r[i];
            assert s[m + 1] == r[i];
          }
        }
      } else {
        SubsequenceMembers(r, s[1..]);
        forall i | 0 <= i < |r| ensures exists m :: 0 <= m < |s| && s[m] == r[i]
        {
          var m :| 0 <= m < |s[1..]| && s[1..][m] == r[i];
          assert s[m + 1] == r[i];
        }
      }
    }
  }

  /** A subsequence of a sequence whose elements have pairwise different keys has the same property. */
  lemma {:induction false} SubsequenceKeysDistinct<T, K>(r: seq<T>, s: seq<T>, key: T -> K)
    requires IsSubsequence(r, s)
    requires forall i, j :: 0 <= i < j < |s| ==> key(s[i]) != key(s[j])
    ensures forall i, j :: 0 <= i < j < |r| ==> key(r[i]) != key(r[j])
    decreases |s|
  {
    if r != [] {
      var rest := s[1..];
      assert forall i, j :: 0 <= i < j < |rest| ==> key(rest[i]) != key(rest[j]) by {
        forall i, j | 0 <= i < j < |rest| ensures key(rest[i]) != key(rest[j])
        {
          assert rest[i] == s[i + 1] && rest[j] == s[j + 1];
        }
      }
      if r[0] == s[0] {
        SubsequenceKeysDistinct(r[1..], rest, key);
        SubsequenceMembers(r[1..], rest);
        forall i, j | 0 <= i < j < |r| ensures key(r[i]) != key(r[j])
        {
          assert r[j] == r[1..][j - 1];
          if i == 0 {
            var m :| 0 <= m < |rest| && rest[m] == r[j];
            assert s[m + 1] == r[j];
          } else {
            assert r[i] == r[1..][i - 1];
          }
        }
      } else {
        SubsequenceKeysDistinct(r, rest, key);
      }
    }
  }
}

module Text {
  import opened Wrappers
  import Seqs

  predicate IsDigit(c: char)
  {
    '0' <= c <= '9'
  }

  predicate AllDigits(s: string)
  {
    forall i :: 0 <= i < |s| ==> IsDigit(s[i])
  }

  /** `s.replace(/\D/g, '')`: only the ASCII digits of `s`, in order. */
  function DigitsOf(s: string): (r: string)
    ensures AllDigits(r)
    ensures Seqs.IsSubsequence(r, s)
    ensures |r| <= |s|
  {
    Seqs.FilterIsSubsequence(s, IsDigit);
    Seqs.Filter(s, IsDigit)
  }

  /** A string that is only digits is its own digit string. */
  lemma DigitsOfDigits(s: string)
    requires AllDigits(s)
    ensures DigitsOf(s) == s
  {
    Seqs.FilterKeepsAll(s, IsDigit);
  }

  /** The longest prefix of `s` made of digits. */
  function LeadingDigits(s: string): (r: string)
    ensures r <= s && AllDigits(r)
    ensures |r| < |s| ==> !IsDigit(s[|r|])
  {
    if s == [] || !IsDigit(s[0]) then [] else [s[0]] + LeadingDigits(s[1..])
  }

  /** The number a string of decimal digits denotes. */
  function DecimalValue(s: string): nat
    requires AllDigits(s)
  {
    if s == [] then 0 else 10 * DecimalValue(s[..|s| - 1]) + (s[|s| - 1] as int - '0' as int)
  }

  predicate IsHexDigit(c: char)
  {
    IsDigit(c) || 'a' <= c <= 'f' || 'A' <= c <= 'F'
  }

  predicate AllHexDigits(s: string)
  {
    forall i :: 0 <= i < |s| ==> IsHexDigit(s[i])
  }

  function HexDigitValue(c: char): (v: nat)
    requires IsHexDigit(c)
    ensures v < 16
    ensures IsDigit(c) ==> v == c as int - '0' as int
  {
    if IsDigit(c) then c as int - '0' as int
    else if 'a' <= c <= 'f' then c as int - 'a' as int + 10
    else c as int - 'A' as int + 10
  }

  /** The longest prefix of `s` made of hexadecimal digits. */
  function LeadingHexDigits(s: string): (r: string)
    ensures r <= s && AllHexDigits(r)
    ensures |r| < |s| ==> !IsHexDigit(s[|r|])
  {
    if s == [] || !IsHexDigit(s[0]) then [] else [s[0]] + LeadingHexDigits(s[1..])
  }

  /** The number a string of hexadecimal digits denotes. */
  function HexValue(s: string): nat
    requires AllHexDigits(s)
  {
    if s == [] then 0 else 16 * HexValue(s[..|s| - 1]) + HexDigitValue(s[|s| - 1])
  }

  /** Without a radix, `parseInt` reads the digits after a `0x` or `0X` as hexadecimal. */
  predicate HasHexPrefix(u: string)
  {
    |u| >= 2 && u[0] == '0' && (u[1] == 'x' || u[1] == 'X')
  }

  /** `s` without its leading sign, if it has one. */
  function Unsigned(s: string): (u: string)
    ensures u <= s || (|s| > 0 && u == s[1..])
  {
    if |s| > 0 && (s[0] == '-' || s[0] == '+') then s[1..] else s
  }

  /** The magnitude `parseInt` reads from an unsigned string: hexadecimal after `0x`, decimal otherwise. */
  function UnsignedValue(u: string): (r: Option<nat>)
    ensures HasHexPrefix(u) ==> (r.None? <==> LeadingHexDigits(u[2..]) == [])
    ensures !HasHexPrefix(u) ==> (r.None? <==> LeadingDigits(u) == [])
  {
    if HasHexPrefix(u) then
      var hs := LeadingHexDigits(u[2..]);
      if hs == [] then None else Some(HexValue(hs))
    else
      var ds := LeadingDigits(u);
      if ds == [] then None else Some(DecimalValue(ds))
  }

  /**
   * `parseInt(s)` with no radix, for a string without leading blanks: an optional sign, then
   * the leading hexadecimal digits after a `0x`/`0X` prefix or else the leading decimal digits;
   * None (NaN) when no digit follows.
   */
  function ParseInt(s: string): (r: Option<int>)
    ensures r.None? <==>
      if HasHexPrefix(Unsigned(s)) then LeadingHexDigits(Unsigned(s)[2..]) == [] else LeadingDigits(Unsigned(s)) == []
    ensures r.Some? && |s| > 0 && s[0] == '-' ==> r.value <= 0
    ensures r.Some? && (|s| == 0 || s[0] != '-') ==> r.value >= 0
  {
    match UnsignedValue(Unsigned(s))
    case None => None
    case Some(v) => Some(if |s| > 0 && s[0] == '-' then 0 - v as int else v as int)
  }

  /** The digits of a digit string followed by a non-digit are exactly that string. */
  lemma {:induction false} LeadingDigitsOfNumeral(s: string, t: string)
    requires AllDigits(s)
    requires t == [] || !IsDigit(t[0])
    ensures LeadingDigits(s + t) == s
  {
    if s != [] {
      assert (s + t)[1..] == s[1..] + t;
      LeadingDigitsOfNumeral(s[1..], t);
    }
  }

  /** The same for hexadecimal digits. */
  lemma {:induction false} LeadingHexDigitsOfNumeral(s: string, t: string)
    requires AllHexDigits(s)
    requires t == [] || !IsHexDigit(t[0])
    ensures LeadingHexDigits(s + t) == s
  {
    if s != [] {
      assert (s + t)[1..] == s[1..] + t;
      LeadingHexDigitsOfNumeral(s[1..], t);
    }
  }

  /**
   * `parseInt` reads a decimal numeral and ignores whatever non-digit text follows it,
   * unless the text is `0x...`, which it reads as hexadecimal.
   */
  lemma ParseIntNumeral(s: string, t: string)
    requires s != [] && AllDigits(s)
    requires t == [] || !IsDigit(t[0])
    requires !HasHexPrefix(s + t)
    ensures ParseInt(s + t) == Some(DecimalValue(s))
  {
    LeadingDigitsOfNumeral(s, t);
    assert Unsigned(s + t) == s + t;
  }

  /** After `0x`, the magnitude is the value of the hexadecimal digits up to the first other character. */
  lemma UnsignedValueHex(x: char, h: string, t: string)
    requires x == 'x' || x == 'X'
    requires AllHexDigits(h)
    requires t == [] || !IsHexDigit(t[0])
    ensures UnsignedValue(['0', x] + h + t) == if h == [] then None else Some(HexValue(h))
  {
    var u := ['0', x] + h + t;
    assert HasHexPrefix(u);
    assert u[2..] == h + t;
    LeadingHexDigitsOfNumeral(h, t);
  }

  /**
   * In front of a string that starts with a digit, a sign is all `Unsigned` drops, and
   * `parseInt` reads the rest's magnitude, negated after `-`.
   */
  lemma ParseIntAfterSign(sign: string, u: string)
    requires sign == [] || sign == "-" || sign == "+"
    requires u != [] && IsDigit(u[0])
    ensures UnsignedValue(u).None? ==> ParseInt(sign + u).None?
    ensures UnsignedValue(u).Some? && sign == "-" ==> ParseInt(sign + u) == Some(0 - UnsignedValue(u).value as int)
    ensures UnsignedValue(u).Some? && sign != "-" ==> ParseInt(sign + u) == Some(UnsignedValue(u).value as int)
  {
    if sign != [] {
      assert (sign + u)[1..] == u;
      assert Unsigned(sign + u) == u;
    } else {
      assert sign + u == u;
    }
  }

  /**
   * `parseInt("0x" + h + t)`, with or without a sign and with either case of `x`, is the
   * hexadecimal value of `h`, negated after a `-`; a `0x` with no hexadecimal digit after it is NaN.
   */
  lemma ParseIntHex(sign: string, x: char, h: string, t: string)
    requires sign == [] || sign == "-" || sign == "+"
    requires x == 'x' || x == 'X'
    requires AllHexDigits(h)
    requires t == [] || !IsHexDigit(t[0])
    ensures h == [] ==> ParseInt(sign + (['0', x] + h + t)).None?
    ensures h != [] && sign == "-" ==> ParseInt(sign + (['0', x] + h + t)) == Some(0 - HexValue(h) as int)
    ensures h != [] && sign != "-" ==> ParseInt(sign + (['0', x] + h + t)) == Some(HexValue(h) as int)
  {
    UnsignedValueHex(x, h, t);
    ParseIntAfterSign(sign, ['0', x] + h + t);
  }

  /** For instance, `parseInt("0x1f")` is 31 ... */
  lemma ParseIntHexExample()
    ensures ParseInt("0x1f") == Some(31)
  {
    assert "1f"[..1] == "1" && "1"[..0] == "";
    assert HexValue("1f") == 31;
    ParseIntHex([], 'x', "1f", []);
    assert [] + (['0', 'x'] + "1f" + []) == "0x1f";
  }

  /** ... `parseInt("0xg")` is NaN ... */
  lemma ParseIntHexNaNExample()
    ensures ParseInt("0xg") == None
  {
    ParseIntHex([], 'x', [], "g");
    assert [] + (['0', 'x'] + [] + "g") == "0xg";
  }

  /** ... and `parseInt("12px")` is 12. */
  lemma ParseIntDecimalExample()
    ensures ParseInt("12px") == Some(12)
  {
    assert "12"[..1] == "1" && "1"[..0] == "";
    assert DecimalValue("12") == 12;
    ParseIntNumeral("12", "px");
    assert "12" + "px" == "12px";
  }

  /** `s.substring(0, n)` for a non-negative `n`. */
  function Take(s: string, n: nat): (r: string)
    ensures |r| == if |s| < n then |s| else n
    ensures r <= s
  {
    if |s| <= n then s else s[..n]
  }

  /** `toLowerCase` on the ASCII letters; other characters are kept. */
  function LowerChar(c: char): (d: char)
    ensures !('A' <= d <= 'Z')
    ensures 'A' <= c <= 'Z' || d == c
  {
    if 'A' <= c <= 'Z' then (c as int + 32) as char else c
  }

  function ToLower(s: string): (r: string)
    ensures |r| == |s|
    ensures forall i :: 0 <= i < |s| ==> r[i] == LowerChar(s[i])
  {
    seq(|s|, i requires 0 <= i < |s| => LowerChar(s[i]))
  }

  /** `hay.includes(needle)`: `needle` occurs in `hay` at some position. */
  predicate Contains(hay: string, needle: string)
    decreases |hay|
  {
    needle <= hay || (hay != [] && Contains(hay[1..], needle))
  }

  /** The empty string occurs in every string, so an empty search matches anything. */
  lemma ContainsEmpty(hay: string)
    ensures Contains(hay, "")
  {
  }
}
