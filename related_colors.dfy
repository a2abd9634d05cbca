/**
 * `generateRelatedColors`: the base colour followed by a complementary
 * colour and analogous colours, each with saturation and lightness
 * jittered around the base's.
 *
 * As written, saturation is only bounded from below (at 30), so a
 * saturated base plus a positive jitter asks `hslToHex` for saturation
 * above 100, which prints a negative channel. Every function here
 * takes `capped`: `false` is the code as written, which the palette grid
 * runs, and `true` is the evidently intended step, which also caps
 * saturation at 100 and keeps every colour valid hex.
 */
module RelatedColors {
  import opened JsMath
  import opened Random
  import opened ColorSearch
  import opened ColorFormat

  /** How far the hue of `to` lies ahead of `from`, going round the wheel. */
  function Clockwise(from: real, to: real): real {
    Rem(to - from + 360.0, 360.0)
  }

  /** The saturation jitter of step `i`: 20 for the complement, 15 after. */
  function SatSpread(i: nat): real {
    if i == 1 then 20.0 else 15.0
  }

  /** The lightness jitter of step `i`: 15 for the complement, 10 after. */
  function LightSpread(i: nat): real {
    if i == 1 then 15.0 else 10.0
  }

  /**
   * What step `i` (1-based after the base) of a related palette looks like:
   * saturation and lightness within the step's jitter of the base's, then
   * clamped; the hue opposite the base or 30 to 60 degrees beside it.
   */
  predicate Related(base: Hsl, i: nat, c: Hsl, capped: bool) {
    && 0.0 <= c.h < 360.0
    && 20.0 <= c.l <= 80.0
    && Max(20.0, Min(80.0, base.l - LightSpread(i))) <= c.l <= Max(20.0, Min(80.0, base.l + LightSpread(i)))
    && 30.0 <= c.s
    && (capped ==> c.s <= 100.0)
    && base.s - SatSpread(i) <= c.s <= Max(30.0, base.s + SatSpread(i))
    && (i == 1 ==> HueDiff(c.h, base.h) == 180.0)
    && (i == 2 ==> 30.0 <= Clockwise(base.h, c.h) <= 60.0)
    && (i >= 3 ==> 30.0 <= Clockwise(c.h, base.h) <= 60.0)
  }

  /** `Math.max(30, s + delta)`, and with the correction also at most 100. */
  function Saturation(s: real, delta: int, capped: bool): real {
    var raised := Max(30.0, s + delta as real);
    if capped then Min(100.0, raised) else raised
  }

  /** `Math.max(20, Math.min(80, l + delta))`. */
  function Lightness(l: real, delta: int): real {
    Max(20.0, Min(80.0, l + delta as real))
  }

  /**
   * One iteration of the loop: the complement draws saturation then
   * lightness jitter; the analogous colours draw hue offset, saturation
   * and lightness jitter, turning forwards at `i == 2` and backwards after.
   */
  function RelatedStep(base: Hsl, i: nat, capped: bool, rnd: Oracle, at: nat): (d: Draw<Hsl>)
    requires i >= 1
    ensures d.next == at + (if i == 1 then 2 else 3)
  {
    if i == 1 then
      var ds := RandomInRange(rnd, at, -20, 20);
      var dl := RandomInRange(rnd, ds.next, -15, 15);
      Draw(Hsl(Rem(base.h + 180.0, 360.0), Saturation(base.s, ds.value, capped), Lightness(base.l, dl.value)), dl.next)
    else
      var dh := RandomInRange(rnd, at, 30, 60);
      var ds := RandomInRange(rnd, dh.next, -15, 15);
      var dl := RandomInRange(rnd, ds.next, -10, 10);
      var r := dh.value as real;
      var h := if i == 2 then Rem(base.h + r, 360.0) else Rem(base.h - r + 360.0, 360.0);
      Draw(Hsl(h, Saturation(base.s, ds.value, capped), Lightness(base.l, dl.value)), dl.next)
  }

  /** Every step of an in-gamut base has the shape `Related` describes. */
  lemma StepIsRelated(base: Hsl, i: nat, capped: bool, rnd: Oracle, at: nat)
    requires InGamut(base) && i >= 1
    ensures Related(base, i, RelatedStep(base, i, capped, rnd, at).value, capped)
  {
    if i == 1 {
      ComplementIsRelated(base, capped, rnd, at);
    } else {
      AnalogousIsRelated(base, i, capped, rnd, at);
    }
  }

  lemma ComplementIsRelated(base: Hsl, capped: bool, rnd: Oracle, at: nat)
    requires InGamut(base)
    ensures Related(base, 1, RelatedStep(base, 1, capped, rnd, at).value, capped)
  {
    RemBelowTwice(base.h + 180.0, 360.0);
  }

  lemma AnalogousIsRelated(base: Hsl, i: nat, capped: bool, rnd: Oracle, at: nat)
    requires InGamut(base) && i >= 2
    ensures Related(base, i, RelatedStep(base, i, capped, rnd, at).value, capped)
  {
    var c := RelatedStep(base, i, capped, rnd, at).value;
    var dh := RandomInRange(rnd, at, 30, 60);
    var r := dh.value as real;
    RemBelowTwice(base.h + r, 360.0);
    RemBelowTwice(base.h - r + 360.0, 360.0);
    RemBelowTwice(c.h - base.h + 360.0, 360.0);
    RemBelowTwice(base.h - c.h + 360.0, 360.0);
  }

  /** Steps `i` up to `count - 1`, each drawing after the one before. */
  function RelatedTriples(base: Hsl, i: nat, count: int, capped: bool, rnd: Oracle, at: nat): (d: Draw<seq<Hsl>>)
    requires i >= 1
    ensures |d.value| == if i < count then count - i else 0
    decreases count - i
  {
    if i >= count then Draw([], at)
    else
      var step := RelatedStep(base, i, capped, rnd, at);
      var rest := RelatedTriples(base, i + 1, count, capped, rnd, step.next);
      Draw([step.value] + rest.value, rest.next)
  }

  /** Colours `cs` are steps `i`, `i + 1`, ... of a related palette. */
  predicate AllRelated(base: Hsl, i: nat, cs: seq<Hsl>, capped: bool) {
    forall k :: 0 <= k < |cs| ==> Related(base, i + k, cs[k], capped)
  }

  /** Every colour after the base has the shape of its step. */
  lemma {:induction false} TriplesAreRelated(base: Hsl, i: nat, count: int, capped: bool, rnd: Oracle, at: nat)
    requires InGamut(base) && i >= 1
    ensures AllRelated(base, i, RelatedTriples(base, i, count, capped, rnd, at).value, capped)
    decreases count - i
  {
    if i < count {
      var step := RelatedStep(base, i, capped, rnd, at);
      var rest := RelatedTriples(base, i + 1, count, capped, rnd, step.next).value;
      var cs := RelatedTriples(base, i, count, capped, rnd, at).value;
      assert cs == [step.value] + rest;
      StepIsRelated(base, i, capped, rnd, at);
      TriplesAreRelated(base, i + 1, count, capped, rnd, step.next);
      AllRelatedCons(base, i, step.value, rest, capped);
    }
  }

  lemma AllRelatedCons(base: Hsl, i: nat, c: Hsl, rest: seq<Hsl>, capped: bool)
    requires Related(base, i, c, capped) && AllRelated(base, i + 1, rest, capped)
    ensures AllRelated(base, i, [c] + rest, capped)
  {
    var cs := [c] + rest;
    forall k | 0 < k < |cs| ensures Related(base, i + k, cs[k], capped) {
      assert cs[k] == rest[k - 1];
      assert Related(base, (i + 1) + (k - 1), rest[k - 1], capped);
    }
  }

  function RenderHsl(cs: seq<Hsl>): (r: seq<string>)
    ensures |r| == |cs|
    ensures forall k :: 0 <= k < |cs| ==> r[k] == HslToHex(cs[k].h, cs[k].s, cs[k].l)
  {
    seq(|cs|, k requires 0 <= k < |cs| => HslToHex(cs[k].h, cs[k].s, cs[k].l))
  }

  lemma RenderHslSnoc(cs: seq<Hsl>, c: Hsl)
    ensures RenderHsl(cs + [c]) == RenderHsl(cs) + [HslToHex(c.h, c.s, c.l)]
  {
  }

  /**
   * One more iteration keeps the loop's bookkeeping: the triples still to
   * come start with step `i`.
   */
  lemma TriplesUnfold(base: Hsl, i: nat, count: int, capped: bool, rnd: Oracle, at: nat, cursor: nat, pushed: seq<Hsl>)
    requires 1 <= i < count
    requires RelatedTriples(base, 1, count, capped, rnd, at).value
      == pushed + RelatedTriples(base, i, count, capped, rnd, cursor).value
    requires RelatedTriples(base, 1, count, capped, rnd, at).next
      == RelatedTriples(base, i, count, capped, rnd, cursor).next
    ensures var step := RelatedStep(base, i, capped, rnd, cursor);
      var rest := RelatedTriples(base, i + 1, count, capped, rnd, step.next);
      && RelatedTriples(base, 1, count, capped, rnd, at).value == (pushed + [step.value]) + rest.value
      && RelatedTriples(base, 1, count, capped, rnd, at).next == rest.next
  {
    var step := RelatedStep(base, i, capped, rnd, cursor);
    var rest := RelatedTriples(base, i + 1, count, capped, rnd, step.next);
    assert RelatedTriples(base, i, count, capped, rnd, cursor) == Draw([step.value] + rest.value, rest.next);
    assert pushed + ([step.value] + rest.value) == (pushed + [step.value]) + rest.value;
  }

  /**
   * `generateRelatedColors` as a value: the base colour, then one colour
   * per step, and the cursor after the last draw. `capped == false` is the
   * function as written; `capped == true` also caps saturation at 100.
   */
  function RelatedColorList(baseColor: string, count: int, capped: bool, rnd: Oracle, at: nat): (d: Draw<seq<string>>)
    requires IsValidHex(baseColor)
    ensures |d.value| == if count > 1 then count else 1
    ensures d.value[0] == baseColor
  {
    var triples := RelatedTriples(HexToHsl(baseColor), 1, count, capped, rnd, at);
    Draw([baseColor] + RenderHsl(triples.value), triples.next)
  }

  /**
   * `generateRelatedColors` as written: the base colour, then one colour
   * per loop iteration, pushed in order.
   */
  method GenerateRelatedColors(baseColor: string, count: int, rnd: Oracle, at: nat)
    returns (colors: seq<string>, next: nat)
    requires IsValidHex(baseColor)
    ensures Draw(colors, next) == RelatedColorList(baseColor, count, false, rnd, at)
  {
    colors, next := PushRelated(baseColor, HexToHsl(baseColor), count, false, rnd, at);
  }

  /** The loop of `generateRelatedColors`, once the base is converted to `base`. */
  method PushRelated(baseColor: string, base: Hsl, count: int, capped: bool, rnd: Oracle, at: nat)
    returns (colors: seq<string>, next: nat)
    ensures var d := RelatedTriples(base, 1, count, capped, rnd, at);
      colors == [baseColor] + RenderHsl(d.value) && next == d.next
  {
    colors := [baseColor];
    next := at;
    ghost var whole := RelatedTriples(base, 1, count, capped, rnd, at);
    assert whole.value == [] + whole.value;
    ghost var pushed: seq<Hsl> := [];
    var i := 1;
    while i < count
      invariant 1 <= i
      invariant colors == [baseColor] + RenderHsl(pushed)
      invariant whole.value == pushed + RelatedTriples(base, i, count, capped, rnd, next).value
      invariant whole.next == RelatedTriples(base, i, count, capped, rnd, next).next
      decreases count - i
    {
      var step := RelatedStep(base, i, capped, rnd, next);
      TriplesUnfold(base, i, count, capped, rnd, at, next, pushed);
      RenderHslSnoc(pushed, step.value);
      colors := colors + [HslToHex(step.value.h, step.value.s, step.value.l)];
      pushed := pushed + [step.value];
      next := step.next;
      i := i + 1;
    }
    assert pushed + [] == pushed;
  }

  /**
   * With the cap, every colour after the base of an in-gamut base prints as
   * a valid hex colour, because saturation and lightness stay in [0, 100].
   */
  lemma TriplesAreHex(base: Hsl, count: int, rnd: Oracle, at: nat)
    requires InGamut(base)
    ensures AllHex(RenderHsl(RelatedTriples(base, 1, count, true, rnd, at).value))
  {
    var cs := RelatedTriples(base, 1, count, true, rnd, at).value;
    TriplesAreRelated(base, 1, count, true, rnd, at);
    forall j | 0 <= j < |cs| ensures IsValidHex(RenderHsl(cs)[j]) {
      assert AllRelated(base, 1, cs, true);
      assert Related(base, 1 + j, cs[j], true);
      HslToHexIsHex(cs[j].h, cs[j].s, cs[j].l);
    }
  }

  /** So a related palette of a valid hex colour is valid hex throughout. */
  lemma RelatedColorsAreHex(baseColor: string, count: int, rnd: Oracle, at: nat)
    requires IsValidHex(baseColor)
    ensures AllHex(RelatedColorList(baseColor, count, true, rnd, at).value)
  {
    var base := HexToHsl(baseColor);
    HexToHslInGamut(baseColor);
    TriplesAreHex(base, count, rnd, at);
  }

  /**
   * The complement sits opposite the base on the hue wheel; the first
   * analogous colour 30 to 60 degrees ahead of it and the others 30 to 60
   * degrees behind; in each case that is also the circular hue distance.
   */
  lemma {:induction false} HueGeometry(base: Hsl, i: nat, c: Hsl, capped: bool)
    requires InGamut(base) && i >= 1 && Related(base, i, c, capped)
    ensures i == 1 ==> HueDiff(c.h, base.h) == 180.0
    ensures i == 2 ==> 30.0 <= HueDiff(c.h, base.h) <= 60.0 && HueDiff(c.h, base.h) == Clockwise(base.h, c.h)
    ensures i >= 3 ==> 30.0 <= HueDiff(c.h, base.h) <= 60.0 && HueDiff(c.h, base.h) == Clockwise(c.h, base.h)
  {
    RemBelowTwice(c.h - base.h + 360.0, 360.0);
    RemBelowTwice(base.h - c.h + 360.0, 360.0);
  }

  /**
   * The input that shows the missing cap: base `#ff0000` (hue 0,
   * saturation 100, lightness 50), saturation jitter +20 and lightness
   * jitter 0 give `hslToHex(180, 120, 50)`, whose red channel is -25, as
   * the second colour of every related palette of two or more colours.
   */
  lemma UncappedSaturationLeavesHex(count: int, rnd: Oracle, at: nat)
    requires count >= 2
    requires rnd(at) == 40.0 / 41.0 && rnd(at + 1) == 15.0 / 31.0
    ensures !IsValidHex(RelatedColorList("#ff0000", count, false, rnd, at).value[1])
  {
    assert ParseByte('f', 'f') == 255 && ParseByte('0', '0') == 0;
    var base := HexToHsl("#ff0000");
    assert base == Hsl(0.0, 100.0, 50.0);
    HexToHslInGamut("#ff0000");
    var ds := RandomInRange(rnd, at, -20, 20);
    assert ds.value == 20;
    var dl := RandomInRange(rnd, at + 1, -15, 15);
    assert dl.value == 0;
    var step := RelatedStep(base, 1, false, rnd, at);
    RemBelowTwice(180.0, 360.0);
    assert step.value == Hsl(180.0, 120.0, 50.0);
    RemBelowTwice(6.0, 12.0);
    assert Channel(0.0, 180.0, 120.0, 50.0) == -25;
    NegativeRedIsNotHex(180.0, 120.0, 50.0);
    var rest := RelatedTriples(base, 2, count, false, rnd, step.next);
    assert RelatedTriples(base, 1, count, false, rnd, at).value == [step.value] + rest.value;
    assert RelatedColorList("#ff0000", count, false, rnd, at).value[1] == HslToHex(180.0, 120.0, 50.0);
  }
}
