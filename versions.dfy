/**
  Server and endpoint versions as the version gate compares them.

  A version string made of digits and dots is split into its maximal runs of digits, each read as a
  decimal number ("2.10" becomes [2, 10]); dots only separate. Two versions compare like Python lists
  of integers: component by component, and a proper prefix is the smaller one ([2] < [2, 0]).
  Comparing numbers rather than characters is what puts "2.9" below "2.10".
*/
module Versions {

  predicate IsDigit(c: char) { '0' <= c <= '9' }

  /** The only version strings this model accepts: digits and dots. */
  predicate IsDottedNumeric(s: string) {
    forall i :: 0 <= i < |s| ==> IsDigit(s[i]) || s[i] == '.'
  }

  predicate AllDigits(s: string) {
    forall i :: 0 <= i < |s| ==> IsDigit(s[i])
  }

  /** Length of the run of digits at the start of `s`. */
  function DigitRun(s: string): (k: nat)
    ensures k <= |s|
    ensures AllDigits(s[..k])
    ensures k < |s| ==> !IsDigit(s[k])
  {
    if s == [] || !IsDigit(s[0]) then 0 else 1 + DigitRun(s[1..])
  }

  /** Decimal value of a string of digits, most significant first. */
  function DigitsValue(d: string): nat
    requires AllDigits(d)
  {
    if d == [] then 0 else 10 * DigitsValue(d[..|d| - 1]) + (d[|d| - 1] as int - '0' as int)
  }

  /** The numeric components of a version string. */
  function Parse(s: string): seq<nat>
    requires IsDottedNumeric(s)
    decreases |s|
  {
    if s == [] then []
    else if s[0] == '.' then Parse(s[1..])
    else
      var k := DigitRun(s);
      [DigitsValue(s[..k])] + Parse(s[k..])
  }

  /** Python's `<` on two lists of integers. */
  predicate Less(a: seq<nat>, b: seq<nat>) {
    if b == [] then false
    else if a == [] then true
    else if a[0] != b[0] then a[0] < b[0]
    else Less(a[1..], b[1..])
  }

  /** Decimal spelling of a number, without leading zeros. */
  function NatToString(n: nat): (s: string)
    ensures |s| >= 1 && AllDigits(s)
  {
    var c := ('0' as int + n % 10) as char;
    if n < 10 then [c] else NatToString(n / 10) + [c]
  }

  /** The canonical dotted spelling of a list of components. */
  function Format(v: seq<nat>): (s: string)
    ensures IsDottedNumeric(s)
  {
    if v == [] then ""
    else if |v| == 1 then NatToString(v[0])
    else NatToString(v[0]) + "." + Format(v[1..])
  }

  lemma {:induction false} DigitsValueOfNatToString(n: nat)
    ensures DigitsValue(NatToString(n)) == n
  {
    var s := NatToString(n);
    if n >= 10 {
      DigitsValueOfNatToString(n / 10);
      assert s[..|s| - 1] == NatToString(n / 10);
    }
  }

  lemma {:induction false} DigitRunStopsAtNonDigit(t: string, r: string)
    requires AllDigits(t)
    requires r == [] || !IsDigit(r[0])
    ensures DigitRun(t + r) == |t|
  {
    if t != [] {
      assert (t + r)[1..] == t[1..] + r;
      DigitRunStopsAtNonDigit(t[1..], r);
    }
  }

  /** Parsing recovers every list of components from its canonical spelling. */
  lemma {:induction false} ParseFormat(v: seq<nat>)
    ensures Parse(Format(v)) == v
  {
    if v == [] {
    } else {
      var t := NatToString(v[0]);
      DigitsValueOfNatToString(v[0]);
      if |v| == 1 {
        DigitRunStopsAtNonDigit(t, "");
        assert t + "" == t;
        assert t[..|t|] == t;
      } else {
        var rest := Format(v[1..]);
        var s := t + "." + rest;
        assert s == t + ("." + rest);
        DigitRunStopsAtNonDigit(t, "." + rest);
        assert s[..|t|] == t;
        assert s[|t|..] == "." + rest;
        assert ("." + rest)[1..] == rest;
        ParseFormat(v[1..]);
      }
    }
  }

  lemma {:induction false} LessIrreflexive(a: seq<nat>)
    ensures !Less(a, a)
  {
    if a != [] { LessIrreflexive(a[1..]); }
  }

  lemma {:induction false} LessTransitive(a: seq<nat>, b: seq<nat>, c: seq<nat>)
    requires Less(a, b) && Less(b, c)
    ensures Less(a, c)
  {
    if a != [] && a[0] == b[0] && b[0] == c[0] {
      LessTransitive(a[1..], b[1..], c[1..]);
    }
  }

  /** Any two versions are ordered one way or the other, or are equal, and never both ways. */
  lemma {:induction false} LessTrichotomy(a: seq<nat>, b: seq<nat>)
    ensures Less(a, b) || a == b || Less(b, a)
    ensures !(Less(a, b) && Less(b, a))
  {
    if a != [] && b != [] && a[0] == b[0] {
      LessTrichotomy(a[1..], b[1..]);
      if a[1..] == b[1..] {
        assert a == [a[0]] + a[1..] && b == [b[0]] + b[1..];
      }
    }
  }

  /** A version that extends another is never below it ("2.0" is not below "2"). */
  lemma {:induction false} PrefixNotLess(a: seq<nat>, b: seq<nat>)
    ensures !Less(a + b, a)
  {
    if a != [] {
      assert (a + b)[1..] == a[1..] + b;
      PrefixNotLess(a[1..], b);
    }
  }

  /** Numeric, not lexical: "2.9" is below "2.10", and "2.10" is not below "2.3". */
  lemma NumericComparison()
    ensures Parse("2.9") == [2, 9] && Parse("2.10") == [2, 10] && Parse("2.3") == [2, 3]
    ensures Less(Parse("2.9"), Parse("2.10"))
    ensures !Less(Parse("2.10"), Parse("2.3"))
  {
    ParseFormat([2, 9]);
    ParseFormat([2, 10]);
    ParseFormat([2, 3]);
    assert Format([2, 9]) == "2.9";
    assert Format([2, 10]) == "2.10";
    assert Format([2, 3]) == "2.3";
  }
}
