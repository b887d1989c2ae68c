/**
 * Presentation parameters of the badge: the animated bar CSS built by
 * `generate_css_bar`, the bar markup, the layout table and the parameter record
 * `make_svg` hands to the theme template.
 */
module Presentation {
  import opened Wrappers
  import opened Text
  import opened Colour

  /** The most bars any layout uses; the injected animation durations cover at least this many. */
  const MaxBars: nat := 100

  /** What `random.randint(350, 500)` can return. */
  predicate DurationsInRange(anims: seq<int>)
  {
    forall i :: 0 <= i < |anims| ==> 350 <= anims[i] <= 500
  }

  /** One `.bar:nth-child(i)` rule: its position, left offset in px and animation duration in ms. */
  datatype BarRule = BarRule(nth: nat, left: nat, durationMs: nat)

  /** The rules `generate_css_bar(n)` emits, the i-th drawing its duration from `anims[i - 1]`. */
  function BarRules(n: nat, anims: seq<int>): (rules: seq<BarRule>)
    requires |anims| >= n && DurationsInRange(anims)
    ensures |rules| == n
    ensures forall k :: 0 <= k < n ==> rules[k].nth == k + 1
    ensures forall k :: 0 <= k < n ==> rules[k].left == 1 + 4 * (rules[k].nth - 1)
    ensures forall k :: 0 <= k < n ==> 350 <= rules[k].durationMs <= 500 && rules[k].durationMs == anims[k]
  {
    if n == 0 then []
    else BarRules(n - 1, anims) + [BarRule(n, 1 + 4 * (n - 1), anims[n - 1])]
  }

  /** The text of one rule, as `str.format` writes it. */
  function RuleText(rule: BarRule): (text: string)
    ensures |text| == 55 + |Decimal(rule.nth)| + |Decimal(rule.left)| + |Decimal(rule.durationMs)|
    ensures text[..15] == ".bar:nth-child("
    ensures text[15..15 + |Decimal(rule.nth)|] == Decimal(rule.nth)
    ensures text[26 + |Decimal(rule.nth)|..26 + |Decimal(rule.nth)| + |Decimal(rule.left)|] == Decimal(rule.left)
    ensures text[15 + |Decimal(rule.nth)|..26 + |Decimal(rule.nth)|] == ")  { left: "
    ensures text[26 + |Decimal(rule.nth)| + |Decimal(rule.left)|..|text| - 5 - |Decimal(rule.durationMs)|] ==
      "px; animation-duration: "
    ensures text[|text| - 5 - |Decimal(rule.durationMs)|..|text| - 5] == Decimal(rule.durationMs)
    ensures text[|text| - 5..] == "ms; }"
  {
    var head := ".bar:nth-child(" + Decimal(rule.nth) + ")  { left: ";
    var tail := "px; animation-duration: " + Decimal(rule.durationMs) + "ms; }";
    var text := head + Decimal(rule.left) + tail;
    assert text[..|head|] == head;
    assert head[15..15 + |Decimal(rule.nth)|] == Decimal(rule.nth);
    assert head[15 + |Decimal(rule.nth)|..] == ")  { left: ";
    assert tail[..24] == "px; animation-duration: ";
    assert tail[24..|tail| - 5] == Decimal(rule.durationMs);
    assert text[|head|..|head| + |Decimal(rule.left)|] == Decimal(rule.left);
    assert text[|text| - |tail|..] == tail;
    assert tail[|tail| - 5..] == "ms; }";
    text
  }

  /** The rules written one after another, in order. */
  function RenderRules(rules: seq<BarRule>): string
  {
    if rules == [] then ""
    else RenderRules(rules[..|rules| - 1]) + RuleText(rules[|rules| - 1])
  }

  /** The CSS string for `n` bars. */
  function CssBar(n: nat, anims: seq<int>): string
    requires |anims| >= n && DurationsInRange(anims)
  {
    RenderRules(BarRules(n, anims))
  }

  /** `generate_css_bar`: the loop that appends one rule per bar, moving each 4px to the right. */
  method GenerateCssBar(numBar: nat, anims: seq<int>) returns (css: string)
    requires |anims| >= numBar && DurationsInRange(anims)
    ensures css == CssBar(numBar, anims)
  {
    css := "";
    var left := 1;
    for i := 1 to numBar + 1
      invariant left == 1 + 4 * (i - 1)
      invariant css == RenderRules(BarRules(i - 1, anims))
    {
      var anim := anims[i - 1];
      RenderNext(i, anims);
      css := css + RuleText(BarRule(i, left, anim));
      left := left + 4;
    }
  }

  /** Rendering the first `i` rules extends the rendering of the first `i - 1` by rule `i`. */
  lemma RenderNext(i: nat, anims: seq<int>)
    requires 1 <= i <= |anims| && DurationsInRange(anims)
    ensures RenderRules(BarRules(i, anims)) ==
      RenderRules(BarRules(i - 1, anims)) + RuleText(BarRule(i, 1 + 4 * (i - 1), anims[i - 1]))
  {
    var done := BarRules(i, anims);
    assert done[..i - 1] == BarRules(i - 1, anims);
  }

  const BarDiv: string := "<div class='bar'></div>"

  /** `n` copies of `piece`, back to back. */
  function Repeat(piece: string, n: nat): (s: string)
    ensures |s| == n * |piece|
  {
    if n == 0 then "" else piece + Repeat(piece, n - 1)
  }

  /** `a + b` copies are `a` copies followed by `b` copies. */
  lemma {:induction false} RepeatSplit(piece: string, a: nat, b: nat)
    ensures Repeat(piece, a + b) == Repeat(piece, a) + Repeat(piece, b)
  {
    if a > 0 {
      RepeatSplit(piece, a - 1, b);
      assert Repeat(piece, a + b) == piece + Repeat(piece, a - 1 + b);
    }
  }

  /** The i-th copy sits at `i * |piece|`. */
  lemma RepeatAt(piece: string, n: nat, i: nat)
    requires i < n
    ensures i * |piece| + |piece| <= |Repeat(piece, n)|
    ensures Repeat(piece, n)[i * |piece| .. i * |piece| + |piece|] == piece
  {
    RepeatSplit(piece, i, n - i);
    var before := Repeat(piece, i);
    var after := Repeat(piece, n - i);
    assert after == piece + Repeat(piece, n - i - 1);
    assert (before + after)[|before|..|before| + |piece|] == after[..|piece|];
  }

  /** `"".join(["<div class='bar'></div>" for i in range(n)])`. */
  function BarMarkup(n: nat): (s: string)
    ensures |s| == n * |BarDiv|
    ensures n > 0 ==> s[..|BarDiv|] == BarDiv
  {
    if n == 0 then "" else RepeatAt(BarDiv, n, 0); Repeat(BarDiv, n)
  }

  /** The markup for `n` bars is `n` copies of one bar element, back to back: the i-th sits at `i * |BarDiv|`. */
  lemma BarMarkupIsDivs(n: nat, i: nat)
    requires i < n
    ensures i * |BarDiv| + |BarDiv| <= |BarMarkup(n)|
    ensures BarMarkup(n)[i * |BarDiv| .. i * |BarDiv| + |BarDiv|] == BarDiv
  {
    RepeatAt(BarDiv, n, i);
  }

  datatype Layout = Layout(height: nat, numBar: nat)

  /** The height and bar count of each theme. */
  function ThemeLayout(theme: string, coverImage: bool): (layout: Layout)
    ensures 0 < layout.numBar <= MaxBars
    ensures layout.numBar == 100 <==> theme == "natemoo-re" || theme == "novatorem"
    ensures layout.numBar == 75 <==> !(theme == "natemoo-re" || theme == "novatorem")
  {
    if theme == "compact" then Layout(if coverImage then 400 else 100, 75)
    else if theme == "natemoo-re" then Layout(84, 100)
    else if theme == "novatorem" then Layout(100, 100)
    else Layout(if coverImage then 445 else 145, 75)
  }

  /** The layout table, theme by theme; any theme not named falls back to the default sizes. */
  lemma LayoutTable(theme: string, coverImage: bool)
    ensures theme == "compact" ==> ThemeLayout(theme, coverImage) == Layout(if coverImage then 400 else 100, 75)
    ensures theme == "natemoo-re" ==> ThemeLayout(theme, coverImage) == Layout(84, 100)
    ensures theme == "novatorem" ==> ThemeLayout(theme, coverImage) == Layout(100, 100)
    ensures theme !in {"compact", "natemoo-re", "novatorem"} ==>
      ThemeLayout(theme, coverImage) == Layout(if coverImage then 445 else 145, 75)
    ensures ThemeLayout(theme, coverImage).numBar <= MaxBars
  {
  }

  /** Everything `make_svg` passes to the theme template. */
  datatype SvgParams = SvgParams(
    template: string,
    height: nat,
    numBar: nat,
    contentBar: string,
    cssBar: Option<string>,
    titleText: string,
    artistName: string,
    songName: string,
    img: seq<Byte>,        // the cover bytes inlined in base64; none is the empty string
    coverImage: bool,
    barColor: string,
    backgroundColor: string)

  /** `make_svg`, up to the template rendering: the parameter record. */
  function MakeSvg(artistName: string, songName: string, img: seq<Byte>, isNowPlaying: bool,
                   coverImage: bool, theme: string, barColor: string, showOffline: bool,
                   backgroundColor: string, anims: seq<int>): (p: SvgParams)
    requires |anims| >= MaxBars && DurationsInRange(anims)
    ensures p.template == "spotify." + theme + ".html.j2"
    ensures Layout(p.height, p.numBar) == ThemeLayout(theme, coverImage)
    // Now playing: that title and exactly one bar element per bar.
    ensures isNowPlaying ==> p.titleText == "Now playing" && p.contentBar == BarMarkup(p.numBar)
    // Not playing with the offline view requested: no bars and no bar CSS.
    ensures !isNowPlaying && showOffline ==> p.titleText == "Not playing" && p.contentBar == ""
    // Recently played: no bars, but the CSS is still generated.
    ensures !isNowPlaying && !showOffline ==> p.titleText == "Recently played" && p.contentBar == ""
    ensures p.cssBar.None? <==> !isNowPlaying && showOffline
    ensures p.cssBar.Some? ==> p.cssBar.value == CssBar(p.numBar, anims)
    ensures p.artistName == artistName && p.songName == songName && p.img == img
    ensures p.coverImage == coverImage && p.barColor == barColor && p.backgroundColor == backgroundColor
  {
    var layout := ThemeLayout(theme, coverImage);
    var title := if isNowPlaying then "Now playing" else if showOffline then "Not playing" else "Recently played";
    var content := if isNowPlaying then BarMarkup(layout.numBar) else "";
    var css := if !isNowPlaying && showOffline then None else Some(CssBar(layout.numBar, anims));
    SvgParams("spotify." + theme + ".html.j2", layout.height, layout.numBar, content, css, title,
              artistName, songName, img, coverImage, barColor, backgroundColor)
  }
}
