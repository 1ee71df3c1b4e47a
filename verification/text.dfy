/** The optional value used where a collaborator may have nothing to return. */
module Wrappers {
  datatype Option<T> = None | Some(value: T)
}

/**
 * String helpers that the command layer relies on: ASCII lower-casing
 * (StringUtils::ToLower), the comparisons it performs (CStdString::Equals,
 * StringUtils::EqualsNoCase / StartsWith / StartsWithNoCase / EndsWithNoCase),
 * StringUtils::TrimRight with a character set of one character,
 * StringUtils::JoinString, and the C library's atoi/atol.
 */
module Text {

  /** True when `s` holds no upper-case ASCII letter. */
  predicate IsLowerCase(s: string) {
    forall i :: 0 <= i < |s| ==> !('A' <= s[i] <= 'Z')
  }

  /** `tolower` in the "C" locale: only 'A'..'Z' change. */
  function LowerChar(c: char): char {
    if 'A' <= c <= 'Z' then (c as int + 32) as char else c
  }

  /** StringUtils::ToLower. */
  function Lower(s: string): (r: string)
    ensures |r| == |s| && IsLowerCase(r)
    ensures IsLowerCase(s) ==> r == s
  {
    seq(|s|, i requires 0 <= i < |s| => LowerChar(s[i]))
  }

  lemma LowerIdempotent(s: string)
    ensures Lower(Lower(s)) == Lower(s)
  {
  }

  /** StringUtils::EqualsNoCase: the strings agree character by character once lower-cased. */
  predicate EqualsNoCase(a: string, b: string) {
    |a| == |b| && forall i :: 0 <= i < |a| ==> LowerChar(a[i]) == LowerChar(b[i])
  }

  /** EqualsNoCase compares the lower-cased strings. */
  lemma EqualsNoCaseMeansLowerEqual(a: string, b: string)
    ensures EqualsNoCase(a, b) <==> Lower(a) == Lower(b)
  {
    if Lower(a) == Lower(b) {
      forall i | 0 <= i < |a|
        ensures LowerChar(a[i]) == LowerChar(b[i])
      {
        assert Lower(a)[i] == Lower(b)[i];
      }
    }
  }

  /** A character appended to both sides does not change EqualsNoCase. */
  lemma EqualsNoCaseAppend(a: string, b: string, c: char)
    requires |a| == |b|
    ensures EqualsNoCase(a + [c], b + [c]) <==> EqualsNoCase(a, b)
  {
    if EqualsNoCase(a + [c], b + [c]) {
      forall i | 0 <= i < |a|
        ensures LowerChar(a[i]) == LowerChar(b[i])
      {
        assert (a + [c])[i] == a[i] && (b + [c])[i] == b[i];
      }
    }
  }

  /**
   * CStdString::Equals. Whether it ignores case is a property of the string
   * class, which is not part of this model, so it is a parameter here.
   */
  predicate Equals(a: string, b: string, ignoreCase: bool) {
    if ignoreCase then EqualsNoCase(a, b) else a == b
  }

  /** Strings of the same length differ at some position, whatever Equals does with case. */
  lemma DifferAt(a: string, b: string, i: nat, ignoreCase: bool)
    requires i < |a| && i < |b| && LowerChar(a[i]) != LowerChar(b[i])
    ensures !Equals(a, b, ignoreCase)
  {
  }

  /** On operands without upper-case letters both readings of Equals agree with `==`. */
  lemma EqualsOnLowerCase(a: string, b: string, ignoreCase: bool)
    requires IsLowerCase(a) && IsLowerCase(b)
    ensures Equals(a, b, ignoreCase) <==> a == b
  {
  }

  /** StringUtils::StartsWith (case-sensitive). */
  predicate StartsWith(s: string, prefix: string) {
    |prefix| <= |s| && s[..|prefix|] == prefix
  }

  /** StringUtils::StartsWithNoCase. */
  predicate StartsWithNoCase(s: string, prefix: string) {
    |prefix| <= |s| && EqualsNoCase(s[..|prefix|], prefix)
  }

  /** StringUtils::EndsWithNoCase. */
  predicate EndsWithNoCase(s: string, suffix: string) {
    |suffix| <= |s| && EqualsNoCase(s[|s| - |suffix|..], suffix)
  }

  /** StringUtils::TrimRight(s, chars) for a one-character set: drops every trailing `c`. */
  function TrimRight(s: string, c: char): (r: string)
    ensures |r| <= |s| && r == s[..|r|]
    ensures |r| == 0 || r[|r| - 1] != c
    ensures forall i :: |r| <= i < |s| ==> s[i] == c
  {
    if |s| > 0 && s[|s| - 1] == c then TrimRight(s[..|s| - 1], c) else s
  }

  /** StringUtils::JoinString: the parts with `sep` between neighbours. */
  function Join(parts: seq<string>, sep: string): string {
    if |parts| == 0 then ""
    else if |parts| == 1 then parts[0]
    else parts[0] + sep + Join(parts[1..], sep)
  }

  /** Position of the first `c` in `s`, or `|s|` when there is none. */
  function IndexOf(s: string, c: char): (k: nat)
    ensures k <= |s|
    ensures forall i :: 0 <= i < k ==> s[i] != c
    ensures k < |s| ==> s[k] == c
  {
    if |s| == 0 then 0 else if s[0] == c then 0 else 1 + IndexOf(s[1..], c)
  }

  /** The first `c` of `prefix + rest` is the one that starts `rest` when `prefix` has none. */
  lemma {:induction false} IndexOfBehindPrefix(prefix: string, rest: string, c: char)
    requires c !in prefix && |rest| > 0 && rest[0] == c
    ensures IndexOf(prefix + rest, c) == |prefix|
    decreases |prefix|
  {
    if |prefix| > 0 {
      assert (prefix + rest)[1..] == prefix[1..] + rest;
      IndexOfBehindPrefix(prefix[1..], rest, c);
    }
  }

  predicate IsDigit(c: char) {
    '0' <= c <= '9'
  }

  /** The characters `isspace` accepts in the "C" locale. */
  predicate IsSpace(c: char) {
    c == ' ' || c == '\t' || c == '\n' || c == '\r' || c == '\U{B}' || c == '\U{C}'
  }

  /** The value of the longest run of decimal digits at the start of `s`, read left to right. */
  function DigitsValue(s: string, acc: nat): nat
    decreases |s|
  {
    if |s| > 0 && IsDigit(s[0]) then DigitsValue(s[1..], acc * 10 + (s[0] as int - '0' as int)) else acc
  }

  /**
   * atoi/atol: leading white space, an optional sign, then decimal digits up to
   * the first other character; 0 when no digit follows. Integers are unbounded,
   * so the out-of-range behaviour of the C functions is not modelled.
   */
  function Atoi(s: string): int {
    if |s| > 0 && IsSpace(s[0]) then Atoi(s[1..])
    else if |s| > 0 && s[0] == '-' then -(DigitsValue(s[1..], 0) as int)
    else if |s| > 0 && s[0] == '+' then DigitsValue(s[1..], 0)
    else DigitsValue(s, 0)
  }

  /** Decimal rendering of a natural number, the inverse that Atoi is checked against. */
  function NatToString(n: nat): (r: string)
    ensures |r| > 0 && forall i :: 0 <= i < |r| ==> IsDigit(r[i])
  {
    if n < 10 then [('0' as int + n) as char] else NatToString(n / 10) + [('0' as int + n % 10) as char]
  }

  /** Signed decimal rendering: a '-' in front of negative values. */
  function IntToString(n: int): string {
    if n < 0 then "-" + NatToString(-n) else NatToString(n)
  }

  lemma {:induction false} DigitsValueAppend(d: string, c: char, acc: nat)
    requires forall i :: 0 <= i < |d| ==> IsDigit(d[i])
    requires IsDigit(c)
    ensures DigitsValue(d + [c], acc) == DigitsValue(d, acc) * 10 + (c as int - '0' as int)
  {
    if |d| == 0 {
      assert (d + [c])[1..] == [];
    } else {
      assert (d + [c])[1..] == d[1..] + [c];
      DigitsValueAppend(d[1..], c, acc * 10 + (d[0] as int - '0' as int));
    }
  }

  lemma {:induction false} DigitsValueOfNat(n: nat)
    ensures DigitsValue(NatToString(n), 0) == n
  {
    if n >= 10 {
      DigitsValueOfNat(n / 10);
      DigitsValueAppend(NatToString(n / 10), ('0' as int + n % 10) as char, 0);
    }
  }

  /** atoi reads back every decimal rendering. */
  lemma AtoiRoundTrip(n: int)
    ensures Atoi(IntToString(n)) == n
  {
    if n < 0 {
      DigitsValueOfNat(-n);
      assert ("-" + NatToString(-n))[1..] == NatToString(-n);
    } else {
      DigitsValueOfNat(n);
    }
  }

  /** A string whose first character is neither white space, a sign nor a digit reads as 0. */
  lemma AtoiNonNumeric(s: string)
    requires |s| > 0 && !IsSpace(s[0]) && !IsDigit(s[0]) && s[0] != '-' && s[0] != '+'
    ensures Atoi(s) == 0
  {
  }
}
