/** The few PHP built-ins the report card relies on, stated over exact reals and
    strings: round(), round(x, 2), empty() on a string, strtolower() for method
    lookup, and str_replace() of one character. */
module PhpSemantics {

  /** PHP's round($x): to the nearest integer, halves away from zero. */
  function RoundHalfAway(x: real): (n: int)
    ensures x >= 0.0 ==> x - 0.5 < n as real <= x + 0.5
    ensures x < 0.0 ==> x - 0.5 <= n as real < x + 0.5
  {
    if x >= 0.0 then (x + 0.5).Floor else -((-x + 0.5).Floor)
  }

  /** PHP's round($x, 2): to two decimal places, halves away from zero. */
  function Round2(x: real): real {
    RoundHalfAway(x * 100.0) as real / 100.0
  }

  /** round() never decreases when its argument grows. */
  lemma RoundHalfAwayMonotone(x: real, y: real)
    requires x <= y
    ensures RoundHalfAway(x) <= RoundHalfAway(y)
  {
  }

  /** round() leaves integers alone. */
  lemma RoundHalfAwayOfInt(n: int)
    ensures RoundHalfAway(n as real) == n
  {
  }

  /** round($x, 2) moves its argument by at most half a hundredth. */
  lemma Round2Close(x: real)
    ensures -0.005 <= Round2(x) - x <= 0.005
  {
  }

  /** round($x, 2) keeps a value inside any range whose ends are whole numbers. */
  lemma Round2Within(x: real, lo: int, hi: int)
    requires lo as real <= x <= hi as real
    ensures lo as real <= Round2(x) <= hi as real
  {
    RoundHalfAwayMonotone(lo as real * 100.0, x * 100.0);
    RoundHalfAwayMonotone(x * 100.0, hi as real * 100.0);
    RoundHalfAwayOfInt(lo * 100);
    RoundHalfAwayOfInt(hi * 100);
    assert (lo * 100) as real == lo as real * 100.0;
    assert (hi * 100) as real == hi as real * 100.0;
  }

  /** PHP's empty() on a string: true for '' and for '0'. */
  predicate IsPhpEmpty(s: string) {
    s == "" || s == "0"
  }

  function LowerChar(c: char): (d: char)
    ensures 'A' <= c <= 'Z' ==> 'a' <= d <= 'z'
    ensures !('A' <= c <= 'Z') ==> d == c
  {
    if 'A' <= c <= 'Z' then (c as int - 'A' as int + 'a' as int) as char else c
  }

  /** ASCII lower-casing, as PHP does when it looks up a method name. */
  function Lower(s: string): (r: string)
    ensures |r| == |s|
    ensures forall i :: 0 <= i < |s| ==> r[i] == LowerChar(s[i])
  {
    if s == [] then [] else [LowerChar(s[0])] + Lower(s[1..])
  }

  /** Lower-casing a lower-cased name changes nothing. */
  lemma LowerIdempotent(s: string)
    ensures Lower(Lower(s)) == Lower(s)
  {
  }

  /** str_replace($from, $to, $s) for one-character needles. */
  function ReplaceChar(s: string, from: char, to: char): string {
    if s == [] then [] else [if s[0] == from then to else s[0]] + ReplaceChar(s[1..], from, to)
  }

  /** Every occurrence of the needle, and only those, is replaced, in place. */
  lemma {:induction false} ReplaceCharAt(s: string, from: char, to: char)
    ensures |ReplaceChar(s, from, to)| == |s|
    ensures forall i :: 0 <= i < |s| ==>
      ReplaceChar(s, from, to)[i] == if s[i] == from then to else s[i]
  {
    if s != [] {
      ReplaceCharAt(s[1..], from, to);
      var r := ReplaceChar(s, from, to);
      forall i | 0 <= i < |s| ensures r[i] == if s[i] == from then to else s[i] {
        if i > 0 { assert r[i] == ReplaceChar(s[1..], from, to)[i - 1]; }
      }
    }
  }

  /** Replacing back undoes the replacement when the new character did not
      already occur. */
  lemma {:induction false} ReplaceCharRoundTrip(s: string, from: char, to: char)
    requires to !in s
    ensures ReplaceChar(ReplaceChar(s, from, to), to, from) == s
  {
    if s != [] {
      ReplaceCharRoundTrip(s[1..], from, to);
      assert s == [s[0]] + s[1..];
    }
  }
}
