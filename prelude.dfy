/**
 * Values and string operations of the JavaScript runtime that the image
 * service relies on: bytes, optional values, `String.prototype.startsWith`,
 * `String.prototype.includes`, the `||` default for strings, and the decimal
 * rendering of a non-negative number inside a template literal.
 */
module Prelude {

  newtype byte = x: int | 0 <= x < 256

  datatype Option<+T> = None | Some(value: T)

  datatype Result<+T, +E> = Success(value: T) | Failure(error: E)

  /** `s.startsWith(prefix)` */
  predicate StartsWith(s: string, prefix: string) {
    |prefix| <= |s| && s[..|prefix|] == prefix
  }

  /** `s.endsWith(suffix)` */
  predicate EndsWith(s: string, suffix: string) {
    |suffix| <= |s| && s[|s| - |suffix|..] == suffix
  }

  /** `s.includes(needle)`: substring containment, computed by scanning start positions. */
  predicate Contains(s: string, needle: string)
    ensures StartsWith(s, needle) ==> Contains(s, needle)
    ensures Contains(s, needle) ==> |needle| <= |s|
    decreases |s|
  {
    StartsWith(s, needle) || (|s| > 0 && Contains(s[1..], needle))
  }

  /** Reference definition of containment: `needle` occurs in `s` at index `i`. */
  ghost predicate OccursAt(s: string, needle: string, i: int) {
    0 <= i && i + |needle| <= |s| && s[i..i + |needle|] == needle
  }

  lemma {:induction false} ContainsIffOccurs(s: string, needle: string)
    ensures Contains(s, needle) <==> exists i :: OccursAt(s, needle, i)
    decreases |s|
  {
    if StartsWith(s, needle) {
      assert OccursAt(s, needle, 0);
    } else {
      assert |needle| <= |s| ==> s[0..|needle|] == s[..|needle|];
      assert !OccursAt(s, needle, 0);
      if |s| > 0 {
        ContainsIffOccurs(s[1..], needle);
        forall i | OccursAt(s[1..], needle, i) ensures OccursAt(s, needle, i + 1) {
          assert s[1..][i..i + |needle|] == s[i + 1..i + 1 + |needle|];
        }
        forall i | OccursAt(s, needle, i) ensures OccursAt(s[1..], needle, i - 1) {
          assert i > 0;
          assert s[1..][i - 1..i - 1 + |needle|] == s[i..i + |needle|];
        }
      }
    }
  }

  /** Every string contains the empty string. */
  lemma EverythingContainsEmpty(s: string)
    ensures Contains(s, "")
  {
  }

  /** The parts separated by `sep`; the model renders a list of validation issues with it. */
  function Join(parts: seq<string>, sep: string): string
    decreases |parts|
  {
    if |parts| == 0 then "" else if |parts| == 1 then parts[0] else parts[0] + sep + Join(parts[1..], sep)
  }

  lemma OccursShift(a: string, s: string, needle: string, i: int)
    requires OccursAt(s, needle, i)
    ensures OccursAt(a + s, needle, |a| + i)
  {
  }

  /** Every part occurs in the joined text; `i` is where part `k` starts. */
  lemma {:induction false} JoinMentionsEveryPart(parts: seq<string>, sep: string, k: nat) returns (i: nat)
    requires k < |parts|
    ensures OccursAt(Join(parts, sep), parts[k], i)
    decreases |parts|
  {
    if |parts| == 1 {
      i := 0;
      assert Join(parts, sep)[0..|parts[0]|] == parts[0];
    } else {
      var head, rest := parts[0] + sep, Join(parts[1..], sep);
      assert Join(parts, sep) == head + rest;
      if k == 0 {
        i := 0;
        assert (head + rest)[0..|parts[0]|] == parts[0];
      } else {
        var j := JoinMentionsEveryPart(parts[1..], sep, k - 1);
        OccursShift(head, rest, parts[k], j);
        i := |head| + j;
      }
    }
  }

  /** `value || fallback` for a string that may be `undefined`/`null`: the empty string is falsy too. */
  function OrDefault(value: Option<string>, fallback: string): (r: string)
    ensures value.Some? && value.value != "" ==> r == value.value
    ensures value.None? || value.value == "" ==> r == fallback
  {
    match value
    case Some(v) => if v != "" then v else fallback
    case None => fallback
  }

  function DigitChar(d: nat): (c: char)
    requires d < 10
  {
    ('0' as int + d) as char
  }

  function DigitValue(c: char): nat {
    if '0' <= c <= '9' then (c as int - '0' as int) else 0
  }

  /** The text of a non-negative integer as JavaScript renders it: decimal, no leading zeros. */
  function Decimal(n: nat): (s: string)
    decreases n
  {
    if n < 10 then [DigitChar(n)] else Decimal(n / 10) + [DigitChar(n % 10)]
  }

  /** Reads a string of decimal digits back as a number. */
  function DecimalValue(s: string): nat
    decreases |s|
  {
    if s == [] then 0 else DecimalValue(s[..|s| - 1]) * 10 + DigitValue(s[|s| - 1])
  }

  predicate AllDigits(s: string) {
    forall i :: 0 <= i < |s| ==> '0' <= s[i] <= '9'
  }

  /** `Decimal` is a non-empty digit string that denotes its argument, so distinct numbers give distinct text. */
  lemma {:induction false} DecimalRoundTrip(n: nat)
    ensures |Decimal(n)| > 0 && AllDigits(Decimal(n))
    ensures DecimalValue(Decimal(n)) == n
    ensures n > 0 ==> Decimal(n)[0] != '0'
    decreases n
  {
    if n >= 10 {
      DecimalRoundTrip(n / 10);
      var s := Decimal(n / 10) + [DigitChar(n % 10)];
      assert s[..|s| - 1] == Decimal(n / 10);
    }
  }
}
