/**
  Fixed-width lowercase hexadecimal text, as written by Python's `'%04x'`
  (the `\uXXXX` escapes of the JSON encoder) and `'%032x'` (the text of a
  UUID), together with the reading of such text back into a number.
 */
module Hex {
  import opened Wrappers

  function Pow16(w: nat): (p: nat)
    ensures p >= 1
  {
    if w == 0 then 1 else 16 * Pow16(w - 1)
  }

  /** The lowercase digit for a value below 16. */
  function Digit(d: nat): (c: char)
    requires d < 16
    ensures '0' <= c <= '9' || 'a' <= c <= 'f'
  {
    if d < 10 then (48 + d) as char else (87 + d) as char
  }

  /** The value of a hexadecimal digit; both cases are read, as JSON allows. */
  function DigitValue(c: char): (r: Option<nat>)
    ensures r.Some? ==> r.value < 16
    ensures r.Some? <==> ('0' <= c <= '9' || 'a' <= c <= 'f' || 'A' <= c <= 'F')
  {
    if '0' <= c <= '9' then Some(c as nat - 48)
    else if 'a' <= c <= 'f' then Some(c as nat - 87)
    else if 'A' <= c <= 'F' then Some(c as nat - 55)
    else None
  }

  lemma DigitRoundTrip(d: nat)
    requires d < 16
    ensures DigitValue(Digit(d)) == Some(d)
  {
  }

  predicate IsLowerHex(c: char) {
    '0' <= c <= '9' || 'a' <= c <= 'f'
  }

  /** `n` written with exactly `w` lowercase digits, most significant first. */
  function Digits(n: nat, w: nat): (s: string)
    requires n < Pow16(w)
    ensures |s| == w
    ensures forall i :: 0 <= i < |s| ==> IsLowerHex(s[i])
  {
    if w == 0 then [] else Digits(n / 16, w - 1) + [Digit(n % 16)]
  }

  /** The number a string of hexadecimal digits denotes. */
  function Value(s: string): (r: Option<nat>)
    ensures r.Some? ==> r.value < Pow16(|s|)
  {
    if s == [] then Some(0)
    else match (Value(s[..|s| - 1]), DigitValue(s[|s| - 1]))
      case (Some(high), Some(low)) => Some(high * 16 + low)
      case _ => None
  }

  /** Reading back a written number gives the number. */
  lemma {:induction false} DigitsRoundTrip(n: nat, w: nat)
    requires n < Pow16(w)
    ensures Value(Digits(n, w)) == Some(n)
  {
    if w > 0 {
      var s := Digits(n, w);
      DigitsRoundTrip(n / 16, w - 1);
      assert s[..|s| - 1] == Digits(n / 16, w - 1);
      DigitRoundTrip(n % 16);
    }
  }

  /** Different numbers are written differently. */
  lemma DigitsInjective(m: nat, n: nat, w: nat)
    requires m < Pow16(w) && n < Pow16(w)
    ensures Digits(m, w) == Digits(n, w) ==> m == n
  {
    DigitsRoundTrip(m, w);
    DigitsRoundTrip(n, w);
  }
}
