/**
 * The small part of PHP's semantics that the plugin's logic depends on:
 * `empty()` on strings, `strtolower`/`strtoupper`, decimal conversion of an
 * integer, and the `!` and `===` operators on booleans and strings.
 */
module Php {

  /** `empty($s)` for a string `$s`: true for "" and also for "0". */
  predicate Empty(s: string) {
    s == "" || s == "0"
  }

  predicate IsUpperAscii(c: char) { 'A' <= c <= 'Z' }

  predicate IsLowerAscii(c: char) { 'a' <= c <= 'z' }

  function LowerChar(c: char): char {
    if IsUpperAscii(c) then (c as int + 32) as char else c
  }

  function UpperChar(c: char): char {
    if IsLowerAscii(c) then (c as int - 32) as char else c
  }

  /** `strtolower`: ASCII letters A-Z become a-z, every other character stays. */
  function Lower(s: string): (r: string)
    ensures |r| == |s|
    ensures forall i :: 0 <= i < |s| ==> r[i] == LowerChar(s[i])
    ensures forall i :: 0 <= i < |r| ==> !IsUpperAscii(r[i])
  {
    if s == [] then [] else [LowerChar(s[0])] + Lower(s[1..])
  }

  /** `strtoupper`: ASCII letters a-z become A-Z, every other character stays. */
  function Upper(s: string): (r: string)
    ensures |r| == |s|
    ensures forall i :: 0 <= i < |s| ==> r[i] == UpperChar(s[i])
    ensures forall i :: 0 <= i < |r| ==> !IsLowerAscii(r[i])
  {
    if s == [] then [] else [UpperChar(s[0])] + Upper(s[1..])
  }

  /** Lower-casing a string that is already lower case changes nothing. */
  lemma LowerIdempotent(s: string)
    ensures Lower(Lower(s)) == Lower(s)
  {
    var l := Lower(s);
    assert forall i :: 0 <= i < |l| ==> Lower(l)[i] == l[i];
  }

  function DigitChar(d: nat): char
    requires d < 10
  {
    ('0' as int + d) as char
  }

  /** An integer interpolated into a string (`$order->id . '_'`): its decimal digits. */
  function NatToString(n: nat): (r: string)
    ensures |r| >= 1
    ensures forall i :: 0 <= i < |r| ==> '0' <= r[i] <= '9'
    decreases n
  {
    if n < 10 then [DigitChar(n)] else NatToString(n / 10) + [DigitChar(n % 10)]
  }

  /** The number a string of decimal digits denotes. */
  function DigitsValue(s: string): nat
    requires forall i :: 0 <= i < |s| ==> '0' <= s[i] <= '9'
  {
    if s == [] then 0 else DigitsValue(s[..|s| - 1]) * 10 + (s[|s| - 1] as int - '0' as int)
  }

  /** The digits `NatToString` produces denote `n`, so distinct ids give distinct strings. */
  lemma {:induction false} NatToStringRoundTrip(n: nat)
    ensures DigitsValue(NatToString(n)) == n
    decreases n
  {
    if n >= 10 {
      NatToStringRoundTrip(n / 10);
      var s := NatToString(n);
      assert s[..|s| - 1] == NatToString(n / 10);
    }
  }

  /** Distinct order ids are written as distinct strings. */
  lemma NatToStringInjective(m: nat, n: nat)
    requires NatToString(m) == NatToString(n)
    ensures m == n
  {
    NatToStringRoundTrip(m);
    NatToStringRoundTrip(n);
  }

  /** The two kinds of PHP value the comparison in the pending check involves. */
  datatype Value = Bool(b: bool) | Str(s: string)

  /** PHP's conversion to boolean. */
  predicate Truthy(v: Value) {
    match v
    case Bool(b) => b
    case Str(s) => !Empty(s)
  }

  /** The `!` operator: converts its operand to boolean and negates it; it always yields a boolean. */
  function Not(v: Value): (r: Value)
    ensures r.Bool?
    ensures Truthy(r) <==> !Truthy(v)
  {
    Bool(!Truthy(v))
  }

  /** The `===` operator: true only for values of the same type that are equal. */
  predicate Identical(a: Value, b: Value) {
    a == b
  }

  /** A negation is never identical to a string, whatever its operand. */
  lemma NegationNeverIdenticalToString(v: Value, s: string)
    ensures !Identical(Not(v), Str(s))
  {
  }
}
