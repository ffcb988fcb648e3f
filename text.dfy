/**
 * The two pieces of Java string handling the dispatch code depends on:
 * `String.split(sep, 2)` with a separator that matches literally, and the
 * decimal conversions `Long.parseLong` / `Long.toString`.
 */
module Text {
  import opened Host

  /** True when `sep` occurs in `s` starting at index `i`. */
  predicate OccursAt(s: string, sep: string, i: nat) {
    i + |sep| <= |s| && s[i..i + |sep|] == sep
  }

  /** The first index at or after `i` where `sep` occurs in `s`. */
  function IndexFrom(s: string, sep: string, i: nat): (r: Option<nat>)
    requires i <= |s|
    ensures r.Some? ==> i <= r.value && OccursAt(s, sep, r.value)
    ensures r.Some? ==> forall j :: i <= j < r.value ==> !OccursAt(s, sep, j)
    ensures r.None? ==> forall j :: i <= j <= |s| ==> !OccursAt(s, sep, j)
    decreases |s| - i
  {
    if OccursAt(s, sep, i) then Some(i)
    else if i == |s| then None
    else IndexFrom(s, sep, i + 1)
  }

  /**
   * `s.split(sep, 2)`: the pattern is applied at most once, so the result is
   * `[s]` when `sep` does not occur and otherwise the text before and after
   * the first occurrence (either part may be empty).
   */
  function SplitFirst(s: string, sep: string): (parts: seq<string>)
    requires |sep| > 0
    ensures 1 <= |parts| <= 2
    ensures |parts| == 1 <==> forall j :: 0 <= j <= |s| ==> !OccursAt(s, sep, j)
    ensures |parts| == 1 ==> parts[0] == s
    ensures |parts| == 2 ==> s == parts[0] + sep + parts[1]
    ensures |parts| == 2 ==> forall j :: 0 <= j < |parts[0]| ==> !OccursAt(s, sep, j)
  {
    match IndexFrom(s, sep, 0)
    case None => [s]
    case Some(k) =>
      assert s == s[..k] + sep + s[k + |sep|..] by {
        assert s[k..k + |sep|] == sep;
        assert s == s[..k] + s[k..k + |sep|] + s[k + |sep|..];
      }
      [s[..k], s[k + |sep|..]]
  }

  /** The first occurrence of `sep` is the one right after `a`, when `sep` does not start inside `a`. */
  lemma SplitAt(a: string, sep: string, b: string)
    requires |sep| > 0
    requires forall j :: 0 <= j < |a| ==> !OccursAt(a + sep + b, sep, j)
    ensures SplitFirst(a + sep + b, sep) == [a, b]
  {
    var s := a + sep + b;
    assert s[|a|..|a| + |sep|] == sep;
    assert OccursAt(s, sep, |a|);
    var parts := SplitFirst(s, sep);
    assert |parts| == 2;
    if |parts[0]| < |a| {
      assert parts[0] + sep == s[..|parts[0]| + |sep|];
      assert s[|parts[0]|..|parts[0]| + |sep|] == sep;
      assert OccursAt(s, sep, |parts[0]|);
      assert false;
    }
    assert parts[0] == s[..|a|] == a;
    assert parts[1] == s[|a| + |sep|..] == b;
  }

  /** When the separator's first character does not appear in `a`, it cannot start inside `a`. */
  lemma NotBefore(a: string, sep: string, b: string)
    requires |sep| > 0 && sep[0] !in a
    ensures forall j :: 0 <= j < |a| ==> !OccursAt(a + sep + b, sep, j)
  {
    forall j | 0 <= j < |a|
      ensures !OccursAt(a + sep + b, sep, j)
    {
      var s := a + sep + b;
      assert s[j] == a[j];
    }
  }

  /** A one-character separator occurs exactly when the character is in the string. */
  lemma OccursCharIff(s: string, c: char)
    ensures (exists j :: 0 <= j <= |s| && OccursAt(s, [c], j)) <==> c in s
  {
    if c in s {
      var j :| 0 <= j < |s| && s[j] == c;
      assert s[j..j + 1] == [c];
      assert OccursAt(s, [c], j);
    }
    if exists j :: 0 <= j <= |s| && OccursAt(s, [c], j) {
      var j :| 0 <= j <= |s| && OccursAt(s, [c], j);
      assert s[j] == s[j..j + 1][0] == c;
    }
  }

  /** `s.startsWith(p)`. */
  predicate StartsWith(s: string, p: string) {
    |p| <= |s| && s[..|p|] == p
  }

  // ---------------------------------------------------------------------
  // Decimal numbers


  predicate IsDigit(c: char) { '0' <= c <= '9' }

  predicate AllDigits(s: string) {
    forall i :: 0 <= i < |s| ==> IsDigit(s[i])
  }

  function DigitChar(d: nat): char
    requires d < 10
  {
    ('0' as int + d) as char
  }

  /** The number a string of decimal digits denotes. */
  function DigitsValue(s: string): nat
    requires AllDigits(s)
  {
    if s == [] then 0
    else DigitsValue(s[..|s| - 1]) * 10 + (s[|s| - 1] as int - '0' as int)
  }

  /** The shortest decimal rendering of `n` (no leading zeros). */
  function NatToDigits(n: nat): (s: string)
    ensures |s| > 0 && AllDigits(s)
    ensures |s| > 1 ==> s[0] != '0'
  {
    if n < 10 then [DigitChar(n)]
    else NatToDigits(n / 10) + [DigitChar(n % 10)]
  }

  /**
   * `Long.toString(n)`: a `-` exactly for negative numbers, then the digits
   * of the magnitude with no leading zero.
   */
  function LongToString(n: int): (r: string)
    ensures |r| > 0 && (r[0] == '-' <==> n < 0)
    ensures n < 0 ==> |r| > 1 && AllDigits(r[1..]) && (|r| > 2 ==> r[1] != '0') && DigitsValue(r[1..]) == -n
    ensures n >= 0 ==> AllDigits(r) && (|r| > 1 ==> r[0] != '0') && DigitsValue(r) == n
  {
    if n < 0 then
      DigitsOfNat(-n);
      assert ("-" + NatToDigits(-n))[1..] == NatToDigits(-n);
      "-" + NatToDigits(-n)
    else
      DigitsOfNat(n);
      NatToDigits(n)
  }

  /**
   * `Long.parseLong(s)`: an optional `+` or `-`, then one or more ASCII
   * digits, with the value inside the 64-bit range; anything else raises
   * `NumberFormatException`.
   */
  function ParseLong(s: string): (r: Result<int>)
    ensures r.Success? ==> LongMin <= r.value <= LongMax
    ensures r.Failure? ==> r.error == NumberFormat(s)
    ensures r.Success? ==>
      |s| > 0 && (AllDigits(s) || (|s| > 1 && (s[0] == '-' || s[0] == '+') && AllDigits(s[1..])))
    ensures |s| > 0 && AllDigits(s) ==>
      (r.Success? <==> DigitsValue(s) <= LongMax) && (r.Success? ==> r.value == DigitsValue(s))
    ensures |s| > 1 && s[0] == '+' && AllDigits(s[1..]) ==>
      (r.Success? <==> DigitsValue(s[1..]) <= LongMax) && (r.Success? ==> r.value == DigitsValue(s[1..]))
    ensures |s| > 1 && s[0] == '-' && AllDigits(s[1..]) ==>
      (r.Success? <==> DigitsValue(s[1..]) <= -LongMin) && (r.Success? ==> r.value == -(DigitsValue(s[1..]) as int))
  {
    if |s| == 0 then Failure(NumberFormat(s))
    else if s[0] == '-' || s[0] == '+' then
      if |s| == 1 || !AllDigits(s[1..]) then Failure(NumberFormat(s))
      else
        var m: int := DigitsValue(s[1..]);
        var v: int := if s[0] == '-' then -m else m;
        if LongMin <= v <= LongMax then Success(v) else Failure(NumberFormat(s))
    else if !AllDigits(s) then Failure(NumberFormat(s))
    else if DigitsValue(s) <= LongMax then Success(DigitsValue(s))
    else Failure(NumberFormat(s))
  }

  lemma {:induction false} DigitsOfNat(n: nat)
    ensures DigitsValue(NatToDigits(n)) == n
  {
    if n >= 10 {
      var p := NatToDigits(n / 10);
      var s := NatToDigits(n);
      assert s == p + [DigitChar(n % 10)];
      assert s[..|s| - 1] == p;
      DigitsOfNat(n / 10);
    }
  }

  /** Parsing what `Long.toString` printed gives the number back. */
  lemma ParseLongToString(n: int)
    requires LongMin <= n <= LongMax
    ensures ParseLong(LongToString(n)) == Success(n)
  {
    if n < 0 {
      var d := NatToDigits(-n);
      var s := "-" + d;
      assert s[1..] == d;
      DigitsOfNat(-n);
    } else {
      var d := NatToDigits(n);
      assert IsDigit(d[0]);
      DigitsOfNat(n);
    }
  }

  lemma {:induction false} LeadingNonZero(s: string)
    requires |s| > 0 && AllDigits(s) && s[0] != '0'
    ensures DigitsValue(s) > 0
  {
    if |s| > 1 {
      LeadingNonZero(s[..|s| - 1]);
    }
  }

  /**
   * A digit string without leading zeros is exactly what `Long.toString`
   * prints for its value; otherwise the rendering differs from the text.
   */
  lemma {:induction false} CanonicalDigits(s: string)
    requires |s| > 0 && AllDigits(s) && (|s| == 1 || s[0] != '0')
    ensures NatToDigits(DigitsValue(s)) == s
  {
    if |s| > 1 {
      var p := s[..|s| - 1];
      LeadingNonZero(p);
      CanonicalDigits(p);
      var v := DigitsValue(s);
      assert v / 10 == DigitsValue(p);
      assert DigitChar(v % 10) == s[|s| - 1];
      assert s == p + [s[|s| - 1]];
    }
  }
}
