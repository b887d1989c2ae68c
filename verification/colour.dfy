/**
 * Colour handling for the bar colour taken from the cover art: the perceived
 * brightness test `isLightOrDark`, the `%02x%02x%02x` rendering of a colour
 * and the loop that picks the first usable extracted colour.
 */
module Colour {
  import opened Wrappers

  type Byte = x: int | 0 <= x < 256

  /** An extracted colour; every channel is in 0..255. */
  datatype Rgb = Rgb(r: Byte, g: Byte, b: Byte)

  datatype Shade = Light | Dark

  /** The threshold `isLightOrDark` uses when none is given. */
  const DefaultThreshold: real := 127.5
  /** The threshold used when judging cover colours. */
  const CoverThreshold: real := 80.0

  /** The square of the perceived brightness `sqrt(0.299 r² + 0.587 g² + 0.114 b²)`. */
  function BrightnessSquared(c: Rgb): real
  {
    0.299 * (c.r * c.r) as real + 0.587 * (c.g * c.g) as real + 0.114 * (c.b * c.b) as real
  }

  /**
   * `isLightOrDark`: light exactly when the perceived brightness exceeds `threshold`.
   * The square root is non-negative, so it exceeds a negative threshold always and a
   * non-negative one exactly when its square exceeds the threshold's square.
   */
  function LightOrDark(c: Rgb, threshold: real): (shade: Shade)
    ensures threshold >= 0.0 ==>
      (shade == Light <==> (299 * (c.r * c.r) + 587 * (c.g * c.g) + 114 * (c.b * c.b)) as real > 1000.0 * threshold * threshold)
    ensures threshold < 0.0 ==> shade == Light
  {
    if threshold < 0.0 || BrightnessSquared(c) > threshold * threshold then Light else Dark
  }

  /** At the cover threshold 80 the test is the integer comparison 299r² + 587g² + 114b² > 6 400 000. */
  lemma LightAtCoverThreshold(c: Rgb)
    ensures LightOrDark(c, CoverThreshold) == Light <==>
      299 * (c.r * c.r) + 587 * (c.g * c.g) + 114 * (c.b * c.b) > 6400000
  {
  }

  /** At the default threshold 127.5 the test is 299r² + 587g² + 114b² > 16 256 250. */
  lemma LightAtDefaultThreshold(c: Rgb)
    ensures LightOrDark(c, DefaultThreshold) == Light <==>
      299 * (c.r * c.r) + 587 * (c.g * c.g) + 114 * (c.b * c.b) > 16256250
  {
  }

  /** White is light and black is dark at the cover threshold. */
  lemma WhiteIsLightBlackIsDark()
    ensures LightOrDark(Rgb(255, 255, 255), CoverThreshold) == Light
    ensures LightOrDark(Rgb(0, 0, 0), CoverThreshold) == Dark
  {
  }

  /** The weights sum to one, so a grey `(v, v, v)` has brightness `v`: it is light iff `v` exceeds the threshold. */
  lemma GreyIsLightIffAboveThreshold(v: Byte, threshold: real)
    ensures LightOrDark(Rgb(v, v, v), threshold) == Light <==> v as real > threshold
  {
    if threshold >= 0.0 {
      var x := v as real;
      assert BrightnessSquared(Rgb(v, v, v)) == x * x;
      assert LightOrDark(Rgb(v, v, v), threshold) == Light <==> x * x > threshold * threshold;
      SquareGreaterIff(x, threshold);
    }
  }

  /** For non-negative reals, comparing squares is comparing the numbers. */
  lemma SquareGreaterIff(x: real, t: real)
    requires x >= 0.0 && t >= 0.0
    ensures x * x > t * t <==> x > t
  {
    assert x * x - t * t == (x - t) * (x + t);
    if x > t {
      RealProductMonotone(x + t, 0.0, x - t);
    } else {
      RealProductMonotone(x + t, x - t, 0.0);
    }
  }

  /** Multiplying by a non-negative factor keeps the order (strictly for a positive one). */
  lemma RealProductMonotone(k: real, a: real, b: real)
    requires k >= 0.0 && a <= b
    ensures k * a <= k * b && a * k <= b * k
    ensures k > 0.0 && a < b ==> k * a < k * b && a * k < b * k
  {
  }

  /** Raising any channel never turns a light colour dark. */
  lemma BrighterStaysLight(c: Rgb, d: Rgb, threshold: real)
    requires c.r <= d.r && c.g <= d.g && c.b <= d.b
    requires LightOrDark(c, threshold) == Light
    ensures LightOrDark(d, threshold) == Light
  {
    SquareMonotone(c.r, d.r);
    SquareMonotone(c.g, d.g);
    SquareMonotone(c.b, d.b);
    assert BrightnessSquared(c) <= BrightnessSquared(d);
  }

  lemma SquareMonotone(x: int, y: int)
    requires 0 <= x <= y
    ensures x * x <= y * y
  {
    assert x * x <= x * y;
    assert x * y <= y * y;
  }

  const HexDigits: string := "0123456789abcdef"

  /** One channel as two lowercase hexadecimal digits (`%02x`). */
  function Hex2(x: Byte): string
  {
    [HexDigits[x / 16], HexDigits[x % 16]]
  }

  /** `"%02x%02x%02x" % (r, g, b)`. */
  function HexColor(c: Rgb): (s: string)
    ensures |s| == 6
    ensures forall i :: 0 <= i < 6 ==> s[i] in HexDigits
  {
    Hex2(c.r) + Hex2(c.g) + Hex2(c.b)
  }

  /** The value of a lowercase hexadecimal digit. */
  function HexDigitValue(ch: char): Option<nat>
  {
    if '0' <= ch <= '9' then Some(ch as int - '0' as int)
    else if 'a' <= ch <= 'f' then Some(ch as int - 'a' as int + 10)
    else None
  }

  function ParseHex2(s: string): Option<Byte>
    requires |s| == 2
  {
    match (HexDigitValue(s[0]), HexDigitValue(s[1]))
    case (Some(hi), Some(lo)) => Some(16 * hi + lo)
    case _ => None
  }

  /** Read a six-digit lowercase colour back. */
  function ParseHexColor(s: string): Option<Rgb>
  {
    if |s| != 6 then None
    else match (ParseHex2(s[0..2]), ParseHex2(s[2..4]), ParseHex2(s[4..6]))
      case (Some(r), Some(g), Some(b)) => Some(Rgb(r, g, b))
      case _ => None
  }

  lemma Hex2RoundTrip(x: Byte)
    ensures ParseHex2(Hex2(x)) == Some(x)
  {
    var hi, lo := x / 16, x % 16;
    assert HexDigitValue(HexDigits[hi]) == Some(hi);
    assert HexDigitValue(HexDigits[lo]) == Some(lo);
  }

  /** The six digits written for a colour denote exactly that colour. */
  lemma HexColorRoundTrip(c: Rgb)
    ensures ParseHexColor(HexColor(c)) == Some(c)
  {
    var s := HexColor(c);
    assert s[0..2] == Hex2(c.r) && s[2..4] == Hex2(c.g) && s[4..6] == Hex2(c.b);
    Hex2RoundTrip(c.r);
    Hex2RoundTrip(c.g);
    Hex2RoundTrip(c.b);
  }

  /** A colour the loop skips: dark at the cover threshold while the theme is `default`. */
  function Skipped(c: Rgb, theme: string): (skip: bool)
    ensures skip <==> theme == "default" && 299 * (c.r * c.r) + 587 * (c.g * c.g) + 114 * (c.b * c.b) <= 6400000
  {
    LightOrDark(c, CoverThreshold) == Dark && theme == "default"
  }

  /** The position of the first extracted colour that is not skipped, if any. */
  function FirstKept(colors: seq<Rgb>, theme: string): (r: Option<nat>)
    ensures r.Some? ==> r.value < |colors| && !Skipped(colors[r.value], theme)
    ensures r.Some? ==> forall k :: 0 <= k < r.value ==> Skipped(colors[k], theme)
    ensures r.None? ==> forall k :: 0 <= k < |colors| ==> Skipped(colors[k], theme)
  {
    if colors == [] then None
    else if !Skipped(colors[0], theme) then Some(0)
    else match FirstKept(colors[1..], theme)
      case None => None
      case Some(k) => Some(k + 1)
  }

  /** The bar colour after the cover colours were considered: the first kept one, else the requested one. */
  function BarColorFromCover(colors: seq<Rgb>, theme: string, barColor: string): (color: string)
    ensures (forall k :: 0 <= k < |colors| ==> Skipped(colors[k], theme)) ==> color == barColor
    ensures forall j :: 0 <= j < |colors| && !Skipped(colors[j], theme) &&
                        (forall k :: 0 <= k < j ==> Skipped(colors[k], theme)) ==>
                        color == HexColor(colors[j])
  {
    match FirstKept(colors, theme)
    case Some(k) => HexColor(colors[k])
    case None => barColor
  }

  /** Off the default theme nothing is skipped: the most prevalent colour wins. */
  lemma OtherThemesTakeFirstColour(colors: seq<Rgb>, theme: string, barColor: string)
    requires theme != "default" && |colors| > 0
    ensures BarColorFromCover(colors, theme, barColor) == HexColor(colors[0])
  {
  }

  /**
   * The loop over the extracted colours: skip dark ones on the default theme,
   * take the first other one, keep the requested colour if none qualifies.
   */
  method PickBarColor(colors: seq<Rgb>, theme: string, barColor: string) returns (color: string)
    ensures (forall k :: 0 <= k < |colors| ==> Skipped(colors[k], theme)) ==> color == barColor
    ensures forall j :: 0 <= j < |colors| && !Skipped(colors[j], theme) &&
                        (forall k :: 0 <= k < j ==> Skipped(colors[k], theme)) ==>
                        color == HexColor(colors[j])
    ensures color == BarColorFromCover(colors, theme, barColor)
  {
    color := barColor;
    var i := 0;
    while i < |colors|
      invariant 0 <= i <= |colors|
      invariant forall k :: 0 <= k < i ==> Skipped(colors[k], theme)
      invariant color == barColor
    {
      if Skipped(colors[i], theme) {
        i := i + 1;
        continue;
      }
      color := HexColor(colors[i]);
      return;
    }
  }
}
