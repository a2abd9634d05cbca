/**
 * The palette detail view: a lightness ramp for one colour, and the
 * complementary, analogous and monochromatic palettes derived from the
 * first colours of a palette.
 */
module PaletteView {
  import opened JsMath
  import opened Text
  import opened ColorSearch
  import opened ColorFormat

  // ---------------------------------------------------------------------
  // Shades

  /** `Math.round(l / 10) * 10`: the ramp step nearest the base lightness. */
  function NearestStep(l: real): (r: int)
    ensures r % 10 == 0 && r as real - 5.0 <= l < r as real + 5.0
    ensures 0.0 <= l <= 100.0 ==> 0 <= r <= 100
  {
    var k := Round(l / 10.0);
    assert k as real * 10.0 == (k * 10) as real;
    k * 10
  }

  /** The loop stops once its lightness passes 90. */
  const StepsEnd: int := 100

  /**
   * The lightness steps the loop has visited before reaching `i`: 10, 20,
   * … below `i`, leaving out `skip`, in step order, each with the base
   * hue and saturation.
   */
  function ShadeSteps(h: real, s: real, skip: int, i: int): seq<Hsl>
    decreases i
  {
    if i <= 10 then []
    else ShadeSteps(h, s, skip, i - 10) + (if i - 10 != skip then [Hsl(h, s, (i - 10) as real)] else [])
  }

  /** `x` is the base hue and saturation at one of the steps 10 … `top`, other than `skip`. */
  ghost predicate IsStep(h: real, s: real, skip: int, top: int, x: Hsl) {
    exists k :: 1 <= k && 10 * k <= top && 10 * k != skip && x == Hsl(h, s, (10 * k) as real)
  }

  /** The steps are exactly those visited, other than the skipped one. */
  lemma {:induction false} StepMembers(h: real, s: real, skip: int, i: int)
    requires i >= 10 && i % 10 == 0
    ensures forall x :: x in ShadeSteps(h, s, skip, i) <==> IsStep(h, s, skip, i - 10, x)
    decreases i
  {
    if i > 10 {
      StepMembers(h, s, skip, i - 10);
      forall x | IsStep(h, s, skip, i - 10, x) ensures x in ShadeSteps(h, s, skip, i) {
        var k :| 1 <= k && 10 * k <= i - 10 && 10 * k != skip && x == Hsl(h, s, (10 * k) as real);
        if 10 * k < i - 10 {
          assert IsStep(h, s, skip, i - 20, x);
        }
      }
      forall x | x in ShadeSteps(h, s, skip, i) ensures IsStep(h, s, skip, i - 10, x) {
        if x !in ShadeSteps(h, s, skip, i - 10) {
          assert 10 * ((i - 10) / 10) == i - 10;
        }
      }
    }
  }

  /** One step per multiple of ten passed, less the skipped one. */
  lemma {:induction false} StepCount(h: real, s: real, skip: int, i: int)
    requires i >= 10 && i % 10 == 0
    ensures |ShadeSteps(h, s, skip, i)| == (i - 10) / 10 - (if skip % 10 == 0 && 10 <= skip < i then 1 else 0)
    decreases i
  {
    if i > 10 {
      StepCount(h, s, skip, i - 10);
    }
  }

  /** Every step has the base saturation and a lightness within 10 … 90. */
  lemma {:induction false} StepsInRange(h: real, s: real, skip: int, i: int)
    requires i <= 100 && i % 10 == 0
    ensures forall x <- ShadeSteps(h, s, skip, i) :: x.s == s && 10.0 <= x.l <= 90.0
    decreases i
  {
    if i > 10 {
      StepsInRange(h, s, skip, i - 10);
    }
  }

  /** `hslToHex` on one triple. */
  function Print(c: Hsl): string {
    HslToHex(c.h, c.s, c.l)
  }

  /** Each triple printed by `show`, in order. */
  function Printed(cs: seq<Hsl>, show: Hsl -> string): (r: seq<string>)
    ensures |r| == |cs|
    ensures forall k :: 0 <= k < |cs| ==> r[k] == show(cs[k])
  {
    seq(|cs|, k requires 0 <= k < |cs| => show(cs[k]))
  }

  /** `show` prints every triple with saturation and lightness in [0, 100] as a valid hex colour. */
  ghost predicate PrintsHex(show: Hsl -> string) {
    forall x: Hsl :: 0.0 <= x.s <= 100.0 && 0.0 <= x.l <= 100.0 ==> IsValidHex(show(x))
  }

  /** `hslToHex` is such a printer. */
  lemma PrintIsHex()
    ensures PrintsHex(Print)
  {
    forall x: Hsl | 0.0 <= x.s <= 100.0 && 0.0 <= x.l <= 100.0 ensures IsValidHex(Print(x)) {
      HslToHexIsHex(x.h, x.s, x.l);
    }
  }

  /** Printing in-range triples with such a printer gives valid hex colours. */
  lemma PrintedIsHex(cs: seq<Hsl>, show: Hsl -> string)
    requires PrintsHex(show)
    requires forall x <- cs :: 0.0 <= x.s <= 100.0 && 0.0 <= x.l <= 100.0
    ensures AllHex(Printed(cs, show))
  {
    forall k | 0 <= k < |cs| ensures IsValidHex(Printed(cs, show)[k]) {
      assert cs[k] in cs;
    }
  }

  /** One more turn of the loop prints the step it reaches, unless that step is skipped. */
  lemma RampStep(h: real, s: real, skip: int, i: int, show: Hsl -> string)
    requires i > 0
    ensures Printed(ShadeSteps(h, s, skip, i + 10), show)
      == Printed(ShadeSteps(h, s, skip, i), show) + (if i != skip then [show(Hsl(h, s, i as real))] else [])
  {
    var steps := ShadeSteps(h, s, skip, i);
    assert ShadeSteps(h, s, skip, i + 10) == steps + (if i != skip then [Hsl(h, s, i as real)] else []);
  }

  /**
   * The pushing loop of `generateShades`, proved for any printer `show`;
   * the detail view passes `hslToHex`.
   */
  method ShadeRamp(h: real, s: real, skip: int, show: Hsl -> string) returns (shades: seq<string>)
    ensures shades == Printed(ShadeSteps(h, s, skip, StepsEnd), show)
  {
    shades := [];
    var i := 10;
    while i <= 90
      invariant 10 <= i <= 100 && i % 10 == 0
      invariant shades == Printed(ShadeSteps(h, s, skip, i), show)
    {
      RampStep(h, s, skip, i, show);
      if i != skip {
        shades := shades + [show(Hsl(h, s, i as real))];
      }
      i := i + 10;
    }
  }

  /** The comparator's key: the lightness `hexToHsl` reads from a colour. */
  function Lightness(c: string): (r: real)
    ensures IsValidHex(c) ==> r == HexToHsl(c).l
  {
    if IsValidHex(c) then HexToHsl(c).l else 0.0
  }

  predicate SortedBy(xs: seq<string>, key: string -> real) {
    forall i, j :: 0 <= i < j < |xs| ==> key(xs[i]) <= key(xs[j])
  }

  /** `xs` is ordered by `key` except possibly across position `j`. */
  predicate SortedExcept(xs: seq<string>, key: string -> real, n: int, j: int) {
    forall p, q :: 0 <= p < q < n && q <= |xs| - 1 && q != j ==> key(xs[p]) <= key(xs[q])
  }

  /** Exchanges two neighbouring elements. */
  method SwapDown(a: array<string>, j: int)
    requires 0 < j < a.Length
    modifies a
    ensures a[..] == old(a[..])[j - 1 := old(a[j])][j := old(a[j - 1])]
    ensures multiset(a[..]) == multiset(old(a[..]))
  {
    a[j - 1], a[j] := a[j], a[j - 1];
  }

  /**
   * One pass of insertion: the element at `i` moves down past every
   * strictly larger key before it, so equal keys keep their order.
   */
  method InsertDown(a: array<string>, i: int, key: string -> real)
    requires 0 <= i < a.Length && SortedBy(a[..i], key)
    modifies a
    ensures SortedBy(a[..i + 1], key)
    ensures a[i + 1..] == old(a[i + 1..])
    ensures multiset(a[..]) == multiset(old(a[..]))
  {
    var j := i;
    while j > 0 && key(a[j - 1]) > key(a[j])
      invariant 0 <= j <= i
      invariant multiset(a[..]) == multiset(old(a[..]))
      invariant a[i + 1..] == old(a[i + 1..])
      invariant SortedExcept(a[..], key, i + 1, j)
      invariant 0 < j < i ==> key(a[j - 1]) <= key(a[j + 1])
    {
      SwapDown(a, j);
      j := j - 1;
    }
  }

  /**
   * `Array.prototype.sort` with the comparator `key(a) - key(b)`: the
   * array ends ordered by the key and holds the same colours.
   */
  method SortBy(a: array<string>, key: string -> real)
    modifies a
    ensures SortedBy(a[..], key)
    ensures multiset(a[..]) == multiset(old(a[..]))
  {
    var i := 0;
    while i < a.Length
      invariant 0 <= i <= a.Length
      invariant SortedBy(a[..i], key)
      invariant multiset(a[..]) == multiset(old(a[..]))
    {
      InsertDown(a, i, key);
      i := i + 1;
    }
    assert a[..a.Length] == a[..];
  }

  /** The ramp, then sorted by lightness. */
  method SortedShades(h: real, s: real, skip: int) returns (shades: seq<string>)
    ensures multiset(shades) == multiset(Printed(ShadeSteps(h, s, skip, StepsEnd), Print))
    ensures SortedBy(shades, Lightness)
  {
    var ramp := ShadeRamp(h, s, skip, Print);
    var a := new string[|ramp|](k requires 0 <= k < |ramp| => ramp[k]);
    assert a[..] == ramp;
    SortBy(a, Lightness);
    shades := a[..];
  }

  /**
   * `generateShades`: the base colour at every lightness step 10 … 90
   * except the one nearest its own, ordered by lightness. That is eight
   * shades, or nine when the nearest step is 0 or 100.
   */
  method GenerateShades(baseColor: string) returns (shades: seq<string>)
    requires IsValidHex(baseColor)
    ensures var c := HexToHsl(baseColor);
      |shades| == if NearestStep(c.l) == 0 || NearestStep(c.l) == 100 then 9 else 8
    ensures var c := HexToHsl(baseColor);
      multiset(shades) == multiset(Printed(ShadeSteps(c.h, c.s, NearestStep(c.l), StepsEnd), Print))
    ensures AllHex(shades)
    ensures SortedBy(shades, Lightness)
  {
    var c := HexToHsl(baseColor);
    HexToHslInGamut(baseColor);
    shades := Shades(c, NearestStep(c.l));
  }

  /** The ramp around `c` without `skip`, sorted, once the base is converted. */
  method Shades(c: Hsl, skip: int) returns (shades: seq<string>)
    requires InGamut(c) && 0 <= skip <= 100 && skip % 10 == 0
    ensures |shades| == if skip == 0 || skip == 100 then 9 else 8
    ensures multiset(shades) == multiset(Printed(ShadeSteps(c.h, c.s, skip, StepsEnd), Print))
    ensures AllHex(shades)
    ensures SortedBy(shades, Lightness)
  {
    shades := SortedShades(c.h, c.s, skip);
    RampFacts(c.h, c.s, skip);
    SameElements(shades, Printed(ShadeSteps(c.h, c.s, skip, StepsEnd), Print));
  }

  /** The printed ramp has eight or nine colours, all valid hex. */
  lemma RampFacts(h: real, s: real, skip: int)
    requires 0.0 <= s <= 100.0 && 0 <= skip <= 100 && skip % 10 == 0
    ensures |Printed(ShadeSteps(h, s, skip, StepsEnd), Print)| == if skip == 0 || skip == 100 then 9 else 8
    ensures AllHex(Printed(ShadeSteps(h, s, skip, StepsEnd), Print))
  {
    var steps := ShadeSteps(h, s, skip, StepsEnd);
    StepCount(h, s, skip, StepsEnd);
    assert (StepsEnd - 10) / 10 == 9;
    assert |steps| == if skip == 0 || skip == 100 then 9 else 8;
    StepsInRange(h, s, skip, StepsEnd);
    PrintIsHex();
    PrintedIsHex(steps, Print);
  }

  /** Rearranging a list keeps its length and its elements. */
  lemma SameElements(xs: seq<string>, ys: seq<string>)
    requires multiset(xs) == multiset(ys)
    ensures |xs| == |ys|
    ensures AllHex(ys) ==> AllHex(xs)
  {
    assert |xs| == |multiset(xs)| == |multiset(ys)| == |ys|;
    forall x <- xs ensures x in ys {
      assert x in multiset(xs);
    }
  }

  // ---------------------------------------------------------------------
  // Related palettes

  /** A palette of the detail view: its colours and its title. */
  datatype Named = Named(colors: seq<string>, name: string)

  /** The arguments `hslToHex` gets for the three other colours of the complementary palette. */
  function ComplementarySides(c: Hsl): seq<Hsl> {
    [Hsl(Rem(c.h + 180.0, 360.0), c.s, c.l),
     Hsl(Rem(c.h + 90.0, 360.0), Max(30.0, c.s - 20.0), Min(80.0, c.l + 10.0)),
     Hsl(Rem(c.h + 270.0, 360.0), Max(30.0, c.s - 20.0), Min(80.0, c.l + 10.0))]
  }

  /** The arguments for the three other colours of the analogous palette. */
  function AnalogousSides(c: Hsl): seq<Hsl> {
    [Hsl(Rem(c.h + 30.0, 360.0), c.s, c.l),
     Hsl(Rem(c.h + 60.0, 360.0), c.s, c.l),
     Hsl(Rem(c.h - 30.0 + 360.0, 360.0), c.s, c.l)]
  }

  /** The arguments for the two darker and the one lighter colour of the monochromatic palette. */
  function MonochromaticSides(c: Hsl): seq<Hsl> {
    [Hsl(c.h, c.s, Max(20.0, c.l - 30.0)),
     Hsl(c.h, c.s, Max(10.0, c.l - 15.0)),
     Hsl(c.h, c.s, Min(90.0, c.l + 15.0))]
  }

  /** Converting a prefix gives the prefix of the conversion. */
  lemma BaseHslPrefix(baseColors: seq<string>, n: nat)
    requires AllHex(baseColors) && n <= |baseColors|
    ensures AllHex(baseColors[..n])
    ensures BaseHsl(baseColors[..n]) == BaseHsl(baseColors)[..n]
  {
    assert AllHex(baseColors[..n]) by {
      forall c <- baseColors[..n] ensures IsValidHex(c) {
        assert c in baseColors;
      }
    }
  }

  /**
   * The three palettes one base colour contributes, numbered `index + 1`,
   * with every side colour printed by `show`; the detail view prints with
   * `hslToHex` (see `Print`).
   */
  function Trio(baseColor: string, c: Hsl, index: nat, show: Hsl -> string): (r: seq<Named>)
    ensures |r| == 3
  {
    var comp := Printed(ComplementarySides(c), show);
    var ana := Printed(AnalogousSides(c), show);
    var mono := Printed(MonochromaticSides(c), show);
    [Named([baseColor] + comp, "Complementary " + Decimal(index + 1)),
     Named([baseColor] + ana, "Analogous " + Decimal(index + 1)),
     Named([mono[0], mono[1], baseColor, mono[2]], "Monochromatic " + Decimal(index + 1))]
  }

  /** Each base colour converted by `hexToHsl`. */
  function BaseHsl(baseColors: seq<string>): (r: seq<Hsl>)
    requires AllHex(baseColors)
    ensures |r| == |baseColors|
  {
    seq(|baseColors|, k requires 0 <= k < |baseColors| && AllHex(baseColors) => HexToHsl(baseColors[k]))
  }

  lemma BaseHslAt(baseColors: seq<string>, k: nat)
    requires AllHex(baseColors) && k < |baseColors|
    ensures BaseHsl(baseColors)[k] == HexToHsl(baseColors[k]) && InGamut(BaseHsl(baseColors)[k])
  {
    assert baseColors[k] in baseColors;
    HexToHslInGamut(baseColors[k]);
  }

  /** The three palettes of every base colour, in order, each numbered by its position. */
  function PerBase(baseColors: seq<string>, hs: seq<Hsl>, show: Hsl -> string): (r: seq<seq<Named>>)
    requires |hs| == |baseColors|
    ensures |r| == |baseColors|
    ensures forall k :: 0 <= k < |r| ==> r[k] == Trio(baseColors[k], hs[k], k, show)
  {
    seq(|baseColors|, k requires 0 <= k < |baseColors| => Trio(baseColors[k], hs[k], k, show))
  }

  predicate AllTriples(parts: seq<seq<Named>>) {
    forall k :: 0 <= k < |parts| ==> |parts[k]| == 3
  }

  /** The first `i` groups, one after another: what the loop has pushed after `i` base colours. */
  function Flatten(parts: seq<seq<Named>>, i: nat): (r: seq<Named>)
    requires i <= |parts|
    ensures AllTriples(parts) ==> |r| == 3 * i
  {
    if i == 0 then [] else Flatten(parts, i - 1) + parts[i - 1]
  }

  /** Position `j` of the flattened triples is entry `j % 3` of group `j / 3`. */
  lemma {:induction false} FlattenAt(parts: seq<seq<Named>>, i: nat, j: nat)
    requires i <= |parts| && AllTriples(parts)
    ensures |Flatten(parts, i)| == 3 * i
    ensures j < 3 * i ==> Flatten(parts, i)[j] == parts[j / 3][j % 3]
    decreases i
  {
    if i > 0 {
      FlattenAt(parts, i - 1, j);
    }
  }

  /** Later groups only append to the earlier ones. */
  lemma {:induction false} FlattenGrow(parts: seq<seq<Named>>, i: nat, n: nat)
    requires i <= n <= |parts| && AllTriples(parts)
    ensures Flatten(parts, n)[..3 * i] == Flatten(parts, i)
    decreases n
  {
    if n > i {
      FlattenGrow(parts, i, n - 1);
      assert Flatten(parts, n)[..3 * (n - 1)] == Flatten(parts, n - 1);
    }
  }

  /** The flattened groups depend only on the groups visited so far. */
  lemma {:induction false} FlattenPrefix(parts: seq<seq<Named>>, others: seq<seq<Named>>, i: nat)
    requires i <= |parts| && i <= |others| && parts[..i] == others[..i]
    ensures Flatten(parts, i) == Flatten(others, i)
    decreases i
  {
    if i > 0 {
      assert parts[i - 1] == parts[..i][i - 1] == others[i - 1];
      assert parts[..i - 1] == parts[..i][..i - 1] && others[..i - 1] == others[..i][..i - 1];
      FlattenPrefix(parts, others, i - 1);
    }
  }

  lemma PerBaseTriples(baseColors: seq<string>, hs: seq<Hsl>, show: Hsl -> string)
    requires |hs| == |baseColors|
    ensures AllTriples(PerBase(baseColors, hs, show))
  {
  }

  /** The pushed palettes cut to the first six. */
  function RelatedPalettes(baseColors: seq<string>, show: Hsl -> string): seq<Named>
    requires AllHex(baseColors)
  {
    var all := Flatten(PerBase(baseColors, BaseHsl(baseColors), show), |baseColors|);
    all[..MinInt(|all|, 6)]
  }

  /**
   * `generateRelatedPalettes`: three palettes per base colour, then
   * `slice(0, 6)`. The conversion of each base colour is pure, so it is
   * done before the loop rather than inside it.
   */
  method GenerateRelatedPalettes(baseColors: seq<string>) returns (related: seq<Named>)
    requires AllHex(baseColors)
    ensures related == RelatedPalettes(baseColors, Print)
  {
    related := PushRelatedPalettes(baseColors, BaseHsl(baseColors), Print);
  }

  /** The `forEach` loop and the slice, given the converted base colours. */
  method PushRelatedPalettes(baseColors: seq<string>, hs: seq<Hsl>, show: Hsl -> string)
    returns (related: seq<Named>)
    requires |hs| == |baseColors|
    ensures var all := Flatten(PerBase(baseColors, hs, show), |baseColors|);
      related == all[..MinInt(|all|, 6)]
  {
    var all := PushAll(baseColors, hs, show);
    related := all[..MinInt(|all|, 6)];
  }

  /** The `forEach` loop: the three palettes of each base colour, pushed in order. */
  method PushAll(baseColors: seq<string>, hs: seq<Hsl>, show: Hsl -> string) returns (all: seq<Named>)
    requires |hs| == |baseColors|
    ensures all == Flatten(PerBase(baseColors, hs, show), |baseColors|)
  {
    ghost var parts := PerBase(baseColors, hs, show);
    all := [];
    var index := 0;
    while index < |baseColors|
      invariant 0 <= index <= |baseColors|
      invariant all == Flatten(parts, index)
    {
      var trio := Trio(baseColors[index], hs[index], index, show);
      assert trio == parts[index];
      all := all + trio;
      index := index + 1;
    }
  }

  /**
   * There are `min(3 * |baseColors|, 6)` related palettes, and palette `j`
   * is palette `j % 3` of the three that base colour `j / 3` contributes.
   */
  lemma RelatedAt(baseColors: seq<string>, j: nat, show: Hsl -> string)
    requires AllHex(baseColors)
    ensures |RelatedPalettes(baseColors, show)| == MinInt(3 * |baseColors|, 6)
    ensures j < |RelatedPalettes(baseColors, show)| ==>
      && j / 3 < 2 && j / 3 < |baseColors|
      && RelatedPalettes(baseColors, show)[j]
         == Trio(baseColors[j / 3], HexToHsl(baseColors[j / 3]), j / 3, show)[j % 3]
  {
    var hs := BaseHsl(baseColors);
    PerBaseTriples(baseColors, hs, show);
    FlattenAt(PerBase(baseColors, hs, show), |baseColors|, j);
    if j < |RelatedPalettes(baseColors, show)| {
      BaseHslAt(baseColors, j / 3);
    }
  }

  /**
   * One base colour gives a complementary, an analogous and a
   * monochromatic palette of four colours each, numbered `index + 1`; the
   * base colour comes first in the first two and third in the last.
   */
  lemma TrioShape(baseColor: string, c: Hsl, index: nat, show: Hsl -> string)
    ensures var t := Trio(baseColor, c, index, show);
      && (forall p <- t :: |p.colors| == 4)
      && t[0].colors[0] == baseColor && t[0].name == "Complementary " + Decimal(index + 1)
      && t[1].colors[0] == baseColor && t[1].name == "Analogous " + Decimal(index + 1)
      && t[2].colors[2] == baseColor && t[2].name == "Monochromatic " + Decimal(index + 1)
  {
  }

  /** Palette `j` of the related palettes, as the detail view titles and lays it out. */
  lemma RelatedLayout(baseColors: seq<string>, j: nat, show: Hsl -> string)
    requires AllHex(baseColors)
    ensures |RelatedPalettes(baseColors, show)| == MinInt(3 * |baseColors|, 6)
    ensures j < |RelatedPalettes(baseColors, show)| ==>
      var p := RelatedPalettes(baseColors, show)[j];
      var k := j / 3;
      && k < 2 && k < |baseColors|
      && |p.colors| == 4
      && (j % 3 == 0 ==> p.colors[0] == baseColors[k] && p.name == "Complementary " + Decimal(k + 1))
      && (j % 3 == 1 ==> p.colors[0] == baseColors[k] && p.name == "Analogous " + Decimal(k + 1))
      && (j % 3 == 2 ==> p.colors[2] == baseColors[k] && p.name == "Monochromatic " + Decimal(k + 1))
  {
    RelatedAt(baseColors, j, show);
    if j < |RelatedPalettes(baseColors, show)| {
      var k := j / 3;
      var t := Trio(baseColors[k], HexToHsl(baseColors[k]), k, show);
      TrioShape(baseColors[k], HexToHsl(baseColors[k]), k, show);
      assert t[j % 3] in t;
    }
  }

  /** Cutting the flattened triples at six keeps only the first two groups. */
  lemma FirstTwoGroups(parts: seq<seq<Named>>, others: seq<seq<Named>>)
    requires AllTriples(parts) && AllTriples(others)
    requires |parts| >= 2 && |others| == 2 && parts[..2] == others[..2]
    ensures Flatten(parts, |parts|)[..MinInt(3 * |parts|, 6)] == Flatten(others, 2)[..6]
  {
    FlattenGrow(parts, 2, |parts|);
    FlattenPrefix(parts, others, 2);
  }

  /** Only the first two base colours matter: the rest are cut off by the slice. */
  lemma OnlyFirstTwoCount(baseColors: seq<string>, show: Hsl -> string)
    requires AllHex(baseColors) && |baseColors| >= 2
    ensures AllHex(baseColors[..2])
    ensures RelatedPalettes(baseColors, show) == RelatedPalettes(baseColors[..2], show)
  {
    var front := baseColors[..2];
    BaseHslPrefix(baseColors, 2);
    var hs := BaseHsl(baseColors);
    var gs := BaseHsl(front);
    var parts := PerBase(baseColors, hs, show);
    var others := PerBase(front, gs, show);
    assert parts[..2] == others[..2] by {
      assert parts[0] == others[0] && parts[1] == others[1];
    }
    PerBaseTriples(baseColors, hs, show);
    PerBaseTriples(front, gs, show);
    FirstTwoGroups(parts, others);
  }

  /**
   * The hue of each side colour, measured from the base hue around the
   * colour wheel: 180, 90 and 90 for the complementary palette, 30, 60
   * and 30 for the analogous one, and the base hue itself for the
   * monochromatic one. The side colours of the complementary palette
   * have saturation at least 30 and lightness at most 80.
   */
  lemma {:induction false} SideHues(c: Hsl)
    requires InGamut(c)
    ensures var cs := ComplementarySides(c);
      && HueDiff(c.h, cs[0].h) == 180.0 && HueDiff(c.h, cs[1].h) == 90.0 && HueDiff(c.h, cs[2].h) == 90.0
      && cs[0].s == c.s && cs[0].l == c.l
      && 30.0 <= cs[1].s <= 100.0 && 10.0 <= cs[1].l <= 80.0 && cs[2].s == cs[1].s && cs[2].l == cs[1].l
    ensures var an := AnalogousSides(c);
      && HueDiff(c.h, an[0].h) == 30.0 && HueDiff(c.h, an[1].h) == 60.0 && HueDiff(c.h, an[2].h) == 30.0
      && forall k :: 0 <= k < 3 ==> an[k].s == c.s && an[k].l == c.l
    ensures var ms := MonochromaticSides(c);
      forall k :: 0 <= k < 3 ==> ms[k].h == c.h && ms[k].s == c.s && 10.0 <= ms[k].l <= 90.0
  {
    RemBelowTwice(c.h + 180.0, 360.0);
    RemBelowTwice(c.h + 90.0, 360.0);
    RemBelowTwice(c.h + 270.0, 360.0);
    RemBelowTwice(c.h + 30.0, 360.0);
    RemBelowTwice(c.h + 60.0, 360.0);
    RemBelowTwice(c.h - 30.0 + 360.0, 360.0);
  }

  /** Every argument triple a side colour is printed from is in gamut. */
  lemma SidesInRange(c: Hsl)
    requires InGamut(c)
    ensures forall x <- ComplementarySides(c) + AnalogousSides(c) + MonochromaticSides(c) ::
      0.0 <= x.s <= 100.0 && 0.0 <= x.l <= 100.0
  {
  }

  /** The palettes of a valid base colour hold valid hex colours only. */
  lemma TrioIsHex(baseColor: string, c: Hsl, index: nat, show: Hsl -> string)
    requires PrintsHex(show)
    requires IsValidHex(baseColor) && InGamut(c)
    ensures forall p <- Trio(baseColor, c, index, show) :: AllHex(p.colors)
  {
    SidesInRange(c);
    PrintedIsHex(ComplementarySides(c), show);
    PrintedIsHex(AnalogousSides(c), show);
    PrintedIsHex(MonochromaticSides(c), show);
  }

  /** Every colour of every related palette is a valid hex colour. */
  lemma RelatedAreHex(baseColors: seq<string>, show: Hsl -> string)
    requires PrintsHex(show)
    requires AllHex(baseColors)
    ensures forall p <- RelatedPalettes(baseColors, show) :: AllHex(p.colors)
  {
    var ps := RelatedPalettes(baseColors, show);
    forall j | 0 <= j < |ps| ensures AllHex(ps[j].colors) {
      RelatedAt(baseColors, j, show);
      var k := j / 3;
      assert baseColors[k] in baseColors;
      HexToHslInGamut(baseColors[k]);
      var t := Trio(baseColors[k], HexToHsl(baseColors[k]), k, show);
      TrioIsHex(baseColors[k], HexToHsl(baseColors[k]), k, show);
      assert t[j % 3] in t;
    }
  }
}
