/**
 * `generateCategoryPalette`: four colours for a named category. Seven
 * categories sample hue, saturation and lightness from fixed ranges; the
 * monochrome one fixes a hue and steps the lightness; the sunset one
 * jitters one of three hand-made gradients; the popular one returns one of
 * eight literal combinations; any other name picks a category at random.
 */
module CategoryPalettes {
  import opened Random
  import opened ColorSearch
  import opened ColorFormat

  /**
   * One colour before it is printed: either the integer HSL arguments
   * handed to `hslToHex`, or a hex literal taken verbatim.
   */
  datatype Swatch = Synth(h: int, s: int, l: int) | Literal(hex: string)

  function Render(w: Swatch): string {
    match w
    case Synth(h, s, l) => HslToHex(h as real, s as real, l as real)
    case Literal(hex) => hex
  }

  function RenderAll(ws: seq<Swatch>): (r: seq<string>)
    ensures |r| == |ws|
    ensures forall i :: 0 <= i < |ws| ==> r[i] == Render(ws[i])
  {
    seq(|ws|, i requires 0 <= i < |ws| => Render(ws[i]))
  }

  /** A swatch that renders to a hex colour: arguments in gamut, or a hex literal. */
  predicate Renderable(w: Swatch) {
    match w
    case Synth(_, s, l) => 0 <= s <= 100 && 0 <= l <= 100
    case Literal(hex) => IsValidHex(hex)
  }

  lemma RenderableIsHex(ws: seq<Swatch>)
    requires forall w <- ws :: Renderable(w)
    ensures AllHex(RenderAll(ws))
  {
    forall i | 0 <= i < |ws| ensures IsValidHex(RenderAll(ws)[i]) {
      assert RenderAll(ws)[i] == Render(ws[i]);
      assert ws[i] in ws;
      if ws[i].Synth? {
        HslToHexIsHex(ws[i].h as real, ws[i].s as real, ws[i].l as real);
      }
    }
  }

  /** An inclusive integer range, the two arguments of `randomInRange`. */
  datatype Span = Span(lo: int, hi: int) {
    predicate Holds(x: int) { lo <= x <= hi }
  }

  /**
   * How a sampled category draws its hue: anywhere in [0, 360], one of a
   * list, or one of a list plus a jitter in [-spread, spread].
   */
  datatype HueRule = AnyHue | Listed(hues: seq<int>) | Jittered(hues: seq<int>, spread: nat)

  datatype Policy = Policy(hue: HueRule, sat: Span, light: Span)

  predicate WellFormed(p: Policy) {
    && p.sat.lo <= p.sat.hi && p.light.lo <= p.light.hi
    && match p.hue
       case AnyHue => true
       case Listed(hs) => |hs| > 0
       case Jittered(hs, _) => |hs| > 0
  }

  predicate HueFits(rule: HueRule, h: int) {
    match rule
    case AnyHue => 0 <= h <= 360
    case Listed(hs) => h in hs
    case Jittered(hs, spread) => exists base <- hs :: base - spread <= h <= base + spread
  }

  /** A swatch the policy can produce. */
  predicate Fits(p: Policy, w: Swatch) {
    w.Synth? && HueFits(p.hue, w.h) && p.sat.Holds(w.s) && p.light.Holds(w.l)
  }

  const NeonHues: seq<int> := [300, 120, 180, 60, 0, 240, 330, 270, 90, 210]
  const WarmHues: seq<int> := [0, 15, 30, 45, 60, 350, 25, 40]
  const CoolHues: seq<int> := [180, 200, 220, 240, 260, 280, 190, 210, 230, 250]
  const OceanHues: seq<int> := [180, 190, 200, 210, 220, 170, 185, 195, 205, 215]

  /** The ranges of the seven sampled categories; `None` for the others. */
  function PolicyOf(category: string): (r: Option<Policy>)
    ensures r.Some? ==> WellFormed(r.value)
    ensures r.Some? ==> 0 <= r.value.sat.lo && r.value.sat.hi <= 100
    ensures r.Some? ==> 0 <= r.value.light.lo && r.value.light.hi <= 100
  {
    if category == "Bright" then Some(Policy(AnyHue, Span(85, 100), Span(55, 75)))
    else if category == "Dark" then Some(Policy(AnyHue, Span(40, 90), Span(15, 35)))
    else if category == "Neon" then Some(Policy(Listed(NeonHues), Span(95, 100), Span(65, 85)))
    else if category == "Pastel" then Some(Policy(AnyHue, Span(35, 65), Span(70, 85)))
    else if category == "Warm" then Some(Policy(Jittered(WarmHues, 8), Span(65, 95), Span(45, 70)))
    else if category == "Cool" then Some(Policy(Jittered(CoolHues, 12), Span(55, 85), Span(45, 70)))
    else if category == "Ocean" then Some(Policy(Jittered(OceanHues, 8), Span(70, 95), Span(40, 70)))
    else None
  }

  /** The hue of one sampled colour: the list pick is drawn before the jitter. */
  function SampleHue(rule: HueRule, rnd: Oracle, at: nat): (d: Draw<int>)
    requires rule.Listed? ==> |rule.hues| > 0
    requires rule.Jittered? ==> |rule.hues| > 0
    ensures HueFits(rule, d.value)
  {
    match rule
    case AnyHue => RandomInRange(rnd, at, 0, 360)
    case Listed(hs) => Pick(rnd, at, hs)
    case Jittered(hs, spread) =>
      var base := Pick(rnd, at, hs);
      var offset := RandomInRange(rnd, base.next, -(spread as int), spread);
      Draw(base.value + offset.value, offset.next)
  }

  /** One colour of a sampled category: hue, then saturation, then lightness. */
  function SampleSwatch(p: Policy, rnd: Oracle, at: nat): (d: Draw<Swatch>)
    requires WellFormed(p)
    ensures Fits(p, d.value)
  {
    var hue := SampleHue(p.hue, rnd, at);
    var sat := RandomInRange(rnd, hue.next, p.sat.lo, p.sat.hi);
    var light := RandomInRange(rnd, sat.next, p.light.lo, p.light.hi);
    Draw(Synth(hue.value, sat.value, light.value), light.next)
  }

  /** `Array.from({ length: n }, ...)` over `SampleSwatch`, left to right. */
  function SampleSwatches(p: Policy, n: nat, rnd: Oracle, at: nat): (d: Draw<seq<Swatch>>)
    requires WellFormed(p)
    ensures |d.value| == n
    ensures forall w <- d.value :: Fits(p, w)
    decreases n
  {
    if n == 0 then Draw([], at)
    else
      var first := SampleSwatch(p, rnd, at);
      var rest := SampleSwatches(p, n - 1, rnd, first.next);
      Draw([first.value] + rest.value, rest.next)
  }

  /** The monochrome saturation range: low for the first colour, higher after. */
  function MonochromeSat(index: nat): Span {
    if index == 0 then Span(0, 15) else Span(15, 40)
  }

  /** Colours `index` to 3 of a monochrome palette on hue `hue`. */
  function MonochromeTones(hue: int, index: nat, rnd: Oracle, at: nat): (d: Draw<seq<Swatch>>)
    requires index <= 4
    ensures |d.value| == 4 - index
    ensures forall k :: 0 <= k < |d.value| ==>
      d.value[k].Synth? && d.value[k].h == hue && d.value[k].l == 25 + 18 * (index + k)
      && MonochromeSat(index + k).Holds(d.value[k].s)
    decreases 4 - index
  {
    if index == 4 then Draw([], at)
    else
      var span := MonochromeSat(index);
      var sat := RandomInRange(rnd, at, span.lo, span.hi);
      var rest := MonochromeTones(hue, index + 1, rnd, sat.next);
      Draw([Synth(hue, sat.value, 25 + 18 * index)] + rest.value, rest.next)
  }

  function Monochrome(rnd: Oracle, at: nat): Draw<seq<Swatch>> {
    var hue := RandomInRange(rnd, at, 0, 360);
    MonochromeTones(hue.value, 0, rnd, hue.next)
  }

  /** A colour of a sunset gradient before jitter. */
  datatype Tone = Tone(h: int, s: int, l: int)

  const SunsetVariations: seq<seq<Tone>> := [
    [Tone(15, 85, 65), Tone(0, 80, 60), Tone(330, 75, 70), Tone(280, 65, 55)],
    [Tone(25, 90, 70), Tone(10, 85, 65), Tone(340, 80, 75), Tone(290, 70, 60)],
    [Tone(35, 88, 68), Tone(20, 83, 63), Tone(350, 78, 73), Tone(300, 68, 58)]
  ]

  /** A swatch within the sunset jitter of a tone: hue by 8, the rest by 5. */
  predicate NearTone(w: Swatch, t: Tone) {
    && w.Synth?
    && t.h - 8 <= w.h <= t.h + 8
    && t.s - 5 <= w.s <= t.s + 5
    && t.l - 5 <= w.l <= t.l + 5
  }

  /** `variation.map(...)`: per tone, the hue, saturation and lightness jitters in order. */
  function JitterTones(tones: seq<Tone>, rnd: Oracle, at: nat): (d: Draw<seq<Swatch>>)
    ensures |d.value| == |tones|
    ensures forall i :: 0 <= i < |tones| ==> NearTone(d.value[i], tones[i])
    decreases |tones|
  {
    if tones == [] then Draw([], at)
    else
      var t := tones[0];
      var dh := RandomInRange(rnd, at, -8, 8);
      var ds := RandomInRange(rnd, dh.next, -5, 5);
      var dl := RandomInRange(rnd, ds.next, -5, 5);
      var rest := JitterTones(tones[1..], rnd, dl.next);
      Draw([Synth(t.h + dh.value, t.s + ds.value, t.l + dl.value)] + rest.value, rest.next)
  }

  function Sunset(rnd: Oracle, at: nat): Draw<seq<Swatch>> {
    var variation := Pick(rnd, at, SunsetVariations);
    JitterTones(variation.value, rnd, variation.next)
  }

  /** The eight literal combinations, two per constant. */
  const PopularRows12: seq<seq<HexColor>> := [
    ["#FF6B6B", "#4ECDC4", "#45B7D1", "#96CEB4"],
    ["#FFEAA7", "#DDA0DD", "#98D8C8", "#FDCB6F"]
  ]
  const PopularRows34: seq<seq<HexColor>> := [
    ["#FF7675", "#74B9FF", "#00B894", "#FDCB6E"],
    ["#A29BFE", "#FD79A8", "#FDCB6E", "#6C5CE7"]
  ]
  const PopularRows56: seq<seq<HexColor>> := [
    ["#E17055", "#00B894", "#0984E3", "#6C5CE7"],
    ["#FD79A8", "#FDCB6E", "#00CEC9", "#74B9FF"]
  ]
  const PopularRows78: seq<seq<HexColor>> := [
    ["#E84393", "#00B894", "#0984E3", "#FDCB6E"],
    ["#FF7675", "#A29BFE", "#55A3FF", "#26DE81"]
  ]

  const PopularCombos: seq<seq<HexColor>> := PopularRows12 + PopularRows34 + PopularRows56 + PopularRows78

  function Literals(hexes: seq<string>): (ws: seq<Swatch>)
    ensures |ws| == |hexes|
    ensures forall i :: 0 <= i < |hexes| ==> ws[i] == Literal(hexes[i])
  {
    seq(|hexes|, i requires 0 <= i < |hexes| => Literal(hexes[i]))
  }

  function Popular(rnd: Oracle, at: nat): Draw<seq<Swatch>> {
    var combo := Pick(rnd, at, PopularCombos);
    Draw(Literals(combo.value), combo.next)
  }

  /** The ten categories, in the order the random fallback indexes them. */
  const AllCategories: seq<string> :=
    ["Bright", "Dark", "Neon", "Pastel", "Warm", "Cool", "Monochrome", "Sunset", "Ocean", "Popular"]

  /** `generateCategoryPalette` before printing: the switch on the category name. */
  function CategorySwatches(category: string, rnd: Oracle, at: nat): (d: Draw<seq<Swatch>>)
    decreases if category in AllCategories then 0 else 1
  {
    match PolicyOf(category)
    case Some(p) => SampleSwatches(p, 4, rnd, at)
    case None =>
      if category == "Monochrome" then Monochrome(rnd, at)
      else if category == "Sunset" then Sunset(rnd, at)
      else if category == "Popular" then Popular(rnd, at)
      else
        var pick := Pick(rnd, at, AllCategories);
        CategorySwatches(pick.value, rnd, pick.next)
  }

  function CategoryPalette(category: string, rnd: Oracle, at: nat): Draw<seq<string>> {
    var d := CategorySwatches(category, rnd, at);
    Draw(RenderAll(d.value), d.next)
  }

  /** What a palette of a named category looks like. */
  ghost predicate Conforms(category: string, ws: seq<Swatch>) {
    && |ws| == 4
    && match PolicyOf(category)
       case Some(p) => forall w <- ws :: Fits(p, w)
       case None =>
         if category == "Monochrome" then
           && ws[0].Synth? && 0 <= ws[0].h <= 360
           && forall i :: 0 <= i < 4 ==>
                ws[i].Synth? && ws[i].h == ws[0].h && ws[i].l == 25 + 18 * i
                && MonochromeSat(i).Holds(ws[i].s)
         else if category == "Sunset" then
           exists v <- SunsetVariations :: forall i :: 0 <= i < 4 ==> NearTone(ws[i], v[i])
         else if category == "Popular" then
           exists combo <- PopularCombos :: ws == Literals(combo)
         else false
  }

  /** Every named category yields four colours of its own kind. */
  lemma CategoryConforms(category: string, rnd: Oracle, at: nat)
    requires category in AllCategories
    ensures Conforms(category, CategorySwatches(category, rnd, at).value)
  {
    if PolicyOf(category).Some? {
      SampledConforms(category, rnd, at);
    } else if category == "Monochrome" {
      MonochromeConforms(rnd, at);
    } else if category == "Sunset" {
      SunsetConforms(rnd, at);
    } else {
      PopularConforms(rnd, at);
    }
  }

  lemma SampledConforms(category: string, rnd: Oracle, at: nat)
    requires PolicyOf(category).Some?
    ensures Conforms(category, CategorySwatches(category, rnd, at).value)
  {
  }

  lemma MonochromeConforms(rnd: Oracle, at: nat)
    ensures Conforms("Monochrome", CategorySwatches("Monochrome", rnd, at).value)
  {
    var ws := CategorySwatches("Monochrome", rnd, at).value;
    var hue := RandomInRange(rnd, at, 0, 360);
    assert ws == MonochromeTones(hue.value, 0, rnd, hue.next).value;
  }

  lemma SunsetConforms(rnd: Oracle, at: nat)
    ensures Conforms("Sunset", CategorySwatches("Sunset", rnd, at).value)
  {
    var ws := CategorySwatches("Sunset", rnd, at).value;
    var v := Pick(rnd, at, SunsetVariations);
    assert ws == JitterTones(v.value, rnd, v.next).value;
    assert forall i :: 0 <= i < 4 ==> NearTone(ws[i], v.value[i]);
  }

  lemma PopularConforms(rnd: Oracle, at: nat)
    ensures Conforms("Popular", CategorySwatches("Popular", rnd, at).value)
  {
    var ws := CategorySwatches("Popular", rnd, at).value;
    var combo := Pick(rnd, at, PopularCombos);
    assert ws == Literals(combo.value);
  }

  /**
   * A name outside the ten (the `All` filter among them) draws one of the
   * ten and produces exactly that category's palette from the next draw.
   */
  lemma OtherNameDelegates(category: string, rnd: Oracle, at: nat)
    requires category !in AllCategories
    ensures exists c <- AllCategories ::
      CategorySwatches(category, rnd, at) == CategorySwatches(c, rnd, at + 1)
  {
    var pick := Pick(rnd, at, AllCategories);
    assert CategorySwatches(category, rnd, at) == CategorySwatches(pick.value, rnd, at + 1);
  }

  /** A conforming palette only holds swatches that print as hex colours. */
  lemma ConformingIsRenderable(category: string, ws: seq<Swatch>)
    requires Conforms(category, ws)
    ensures forall w <- ws :: Renderable(w)
  {
    match PolicyOf(category)
    case Some(p) =>
    case None =>
      if category == "Sunset" {
        var v :| v in SunsetVariations && forall i :: 0 <= i < 4 ==> NearTone(ws[i], v[i]);
        assert forall i :: 0 <= i < 4 ==> Renderable(ws[i]);
      } else if category == "Popular" {
        var combo :| combo in PopularCombos && ws == Literals(combo);
        assert forall i :: 0 <= i < 4 ==> Renderable(ws[i]);
      } else {
        assert forall i :: 0 <= i < 4 ==> Renderable(ws[i]);
      }
  }

  /** Whatever the category name, the palette is four valid hex colours. */
  lemma CategoryPaletteIsHex(category: string, rnd: Oracle, at: nat)
    ensures |CategoryPalette(category, rnd, at).value| == 4
    ensures AllHex(CategoryPalette(category, rnd, at).value)
  {
    var name := category;
    var cursor := at;
    if category !in AllCategories {
      OtherNameDelegates(category, rnd, at);
      var c :| c in AllCategories && CategorySwatches(category, rnd, at) == CategorySwatches(c, rnd, at + 1);
      name, cursor := c, at + 1;
    }
    var ws := CategorySwatches(name, rnd, cursor).value;
    CategoryConforms(name, rnd, cursor);
    ConformingIsRenderable(name, ws);
    RenderableIsHex(ws);
  }

  /** The popular category hands back one of its eight combinations verbatim. */
  lemma PopularIsVerbatim(rnd: Oracle, at: nat)
    ensures CategoryPalette("Popular", rnd, at).value in PopularCombos
    ensures CategoryPalette("Popular", rnd, at).next == at + 1
  {
    var combo := Pick(rnd, at, PopularCombos);
    assert RenderAll(Literals(combo.value)) == combo.value;
  }
}
