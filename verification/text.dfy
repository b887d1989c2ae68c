/**
 * String helpers the badge text relies on: decimal rendering of the numbers
 * `str.format` writes into the bar CSS, and the `&` → `&amp;` substitution
 * applied to artist and song names.
 */
module Text {

  predicate IsDigit(c: char)
  {
    '0' <= c <= '9'
  }

  /** The decimal digits of `n`, without sign or leading zeros (`str(n)` for `n >= 0`). */
  function Decimal(n: nat): (s: string)
    ensures |s| > 0
    ensures forall i :: 0 <= i < |s| ==> IsDigit(s[i])
    ensures |s| > 1 ==> s[0] != '0'
  {
    if n < 10 then [('0' as int + n) as char]
    else Decimal(n / 10) + [('0' as int + n % 10) as char]
  }

  /** The number a non-empty string of digits denotes. */
  function DigitsValue(s: string): nat
    requires forall i :: 0 <= i < |s| ==> IsDigit(s[i])
  {
    if s == [] then 0
    else
      assert IsDigit(s[|s| - 1]);
      10 * DigitsValue(s[..|s| - 1]) + (s[|s| - 1] as int - '0' as int)
  }

  /** Reading back the digits `Decimal` writes gives the number again. */
  lemma {:induction false} DecimalRoundTrip(n: nat)
    ensures DigitsValue(Decimal(n)) == n
  {
    if n >= 10 {
      var s := Decimal(n);
      assert s[..|s| - 1] == Decimal(n / 10);
      DecimalRoundTrip(n / 10);
    }
  }

  /** Two numbers are written the same only if they are equal. */
  lemma DecimalInjective(m: nat, n: nat)
    requires Decimal(m) == Decimal(n)
    ensures m == n
  {
    DecimalRoundTrip(m);
    DecimalRoundTrip(n);
  }

  const Amp: string := "&amp;"

  /** `s.replace("&", "&amp;")`. */
  function EscapeAmp(s: string): (r: string)
    ensures |r| >= |s|
    ensures '&' !in s ==> r == s
  {
    if s == [] then []
    else (if s[0] == '&' then Amp else [s[0]]) + EscapeAmp(s[1..])
  }

  /** Undo `EscapeAmp`: every `&amp;` becomes `&`, everything else is copied. */
  function UnescapeAmp(s: string): string
  {
    if s == [] then []
    else if |s| >= 5 && s[..5] == Amp then "&" + UnescapeAmp(s[5..])
    else [s[0]] + UnescapeAmp(s[1..])
  }

  /** Escaping loses nothing: the original text is recovered from the escaped one. */
  lemma {:induction false} EscapeRoundTrip(s: string)
    ensures UnescapeAmp(EscapeAmp(s)) == s
  {
    if s != [] {
      var rest := EscapeAmp(s[1..]);
      EscapeRoundTrip(s[1..]);
      if s[0] == '&' {
        assert EscapeAmp(s) == Amp + rest;
        assert (Amp + rest)[..5] == Amp && (Amp + rest)[5..] == rest;
      } else {
        assert EscapeAmp(s) == [s[0]] + rest;
        assert ([s[0]] + rest)[1..] == rest;
      }
    }
  }

  /** Every `&` in the escaped text begins an `&amp;`: the only character that is rewritten is `&`. */
  lemma {:induction false} EscapedAmpersandsAreEntities(s: string, i: nat)
    requires i < |EscapeAmp(s)| && EscapeAmp(s)[i] == '&'
    ensures i + 5 <= |EscapeAmp(s)| && EscapeAmp(s)[i..i + 5] == Amp
  {
    var head := if s[0] == '&' then Amp else [s[0]];
    var rest := EscapeAmp(s[1..]);
    var out := head + rest;
    assert EscapeAmp(s) == out;
    if i < |head| {
      AmpStartsOnlyAtZero(i);
      assert out[0..5] == head;
    } else {
      var j := i - |head|;
      assert rest[j] == out[i];
      EscapedAmpersandsAreEntities(s[1..], j);
      assert out[i..i + 5] == rest[j..j + 5];
    }
  }

  lemma AmpStartsOnlyAtZero(i: nat)
    requires i < |Amp| && Amp[i] == '&'
    ensures i == 0
  {
  }

  /** The escaped text grows by four characters for every `&` of the original. */
  function CountAmp(s: string): nat
  {
    if s == [] then 0 else (if s[0] == '&' then 1 else 0) + CountAmp(s[1..])
  }

  lemma {:induction false} EscapeLength(s: string)
    ensures |EscapeAmp(s)| == |s| + 4 * CountAmp(s)
  {
    if s != [] {
      EscapeLength(s[1..]);
    }
  }
}
