/**
 * Colour search: hex validation, RGB to HSL conversion, the weighted HSL
 * distance, and the two name tables behind `getSearchColor` and
 * `colorContainsSearch` (src/utils/colorSearch.ts).
 */
module ColorSearch {
  import opened JsMath
  import opened Text

  datatype Option<T> = None | Some(value: T)

  /** Hue in degrees, saturation and lightness in percent. */
  datatype Hsl = Hsl(h: real, s: real, l: real)

  // ---------------------------------------------------------------------
  // Hex notation

  predicate IsHexDigit(c: char) {
    '0' <= c <= '9' || 'a' <= c <= 'f' || 'A' <= c <= 'F'
  }

  /** `/^#[0-9A-Fa-f]{6}$/.test(hex)`. */
  predicate IsValidHex(hex: string) {
    |hex| == 7 && hex[0] == '#'
    && IsHexDigit(hex[1]) && IsHexDigit(hex[2]) && IsHexDigit(hex[3])
    && IsHexDigit(hex[4]) && IsHexDigit(hex[5]) && IsHexDigit(hex[6])
  }

  /** A string the hex pattern accepts. */
  type HexColor = s: string | IsValidHex(s) witness "#000000"

  /** The pattern is case-insensitive: lower-casing never changes the verdict. */
  lemma ValidHexIgnoresCase(s: string)
    ensures IsValidHex(ToLower(s)) <==> IsValidHex(s)
  {
    var t := ToLower(s);
    if |s| == 7 {
      forall i | 0 <= i < 7 ensures IsHexDigit(t[i]) <==> IsHexDigit(s[i]) {
        assert t[i] == LowerChar(s[i]);
      }
      assert t[0] == '#' <==> s[0] == '#';
    }
  }

  /** The sixteen digits of base 16, in order of value. */
  const HexDigits: string := "0123456789abcdef"

  /**
   * The value of one hex digit, either case: its position among `HexDigits`
   * once lower-cased.
   */
  function HexDigitValue(c: char): (v: nat)
    requires IsHexDigit(c)
    ensures v < 16 && HexDigits[v] == LowerChar(c)
  {
    if '0' <= c <= '9' then c as int - '0' as int
    else if 'a' <= c <= 'f' then c as int - 'a' as int + 10
    else c as int - 'A' as int + 10
  }

  /** An upper-case digit has the value of its lower-case form. */
  lemma HexDigitIgnoresCase(c: char)
    requires IsHexDigit(c)
    ensures IsHexDigit(LowerChar(c)) && HexDigitValue(LowerChar(c)) == HexDigitValue(c)
  {
  }

  /**
   * `parseInt(hex.slice(i, i + 2), 16)` on two hex digits.
   */
  function ParseByte(hi: char, lo: char): (v: nat)
    requires IsHexDigit(hi) && IsHexDigit(lo)
    ensures v <= 255
  {
    16 * HexDigitValue(hi) + HexDigitValue(lo)
  }

  /** Its high and low base-16 digits are `hi` and `lo`, lower-cased. */
  lemma ParseByteDigits(hi: char, lo: char)
    requires IsHexDigit(hi) && IsHexDigit(lo)
    ensures var v := ParseByte(hi, lo);
      HexDigits[v / 16] == LowerChar(hi) && HexDigits[v % 16] == LowerChar(lo)
  {
    var high := HexDigitValue(hi);
    var low := HexDigitValue(lo);
    DigitPair(high, low);
    assert ParseByte(hi, lo) / 16 == high;
    assert ParseByte(hi, lo) % 16 == low;
  }

  lemma DigitPair(high: nat, low: nat)
    requires high < 16 && low < 16
    ensures (16 * high + low) / 16 == high && (16 * high + low) % 16 == low
  {
  }

  // ---------------------------------------------------------------------
  // RGB to HSL

  /** The body of `hexToHsl` once the three channels are parsed. */
  function RgbToHsl(red: int, green: int, blue: int): Hsl
    requires 0 <= red <= 255 && 0 <= green <= 255 && 0 <= blue <= 255
  {
    var r := red as real / 255.0;
    var g := green as real / 255.0;
    var b := blue as real / 255.0;
    var mx := Max(Max(r, g), b);
    var mn := Min(Min(r, g), b);
    var l := (mx + mn) / 2.0;
    if mx == mn then
      Hsl(0.0, 0.0, l * 100.0)
    else
      var d := mx - mn;
      var s := if l > 0.5 then d / (2.0 - mx - mn) else d / (mx + mn);
      var h :=
        if mx == r then (g - b) / d + (if g < b then 6.0 else 0.0)
        else if mx == g then (b - r) / d + 2.0
        else (r - g) / d + 4.0;
      Hsl(h / 6.0 * 360.0, s * 100.0, l * 100.0)
  }

  /** `hexToHsl`: defined on strings the hex pattern accepts. */
  function HexToHsl(hex: string): Hsl
    requires IsValidHex(hex)
  {
    RgbToHsl(ParseByte(hex[1], hex[2]), ParseByte(hex[3], hex[4]), ParseByte(hex[5], hex[6]))
  }

  /** Upper- and lower-case spellings of a hex colour convert alike. */
  lemma HexToHslIgnoresCase(hex: string)
    requires IsValidHex(hex)
    ensures IsValidHex(ToLower(hex)) && HexToHsl(ToLower(hex)) == HexToHsl(hex)
  {
    var t := ToLower(hex);
    ValidHexIgnoresCase(hex);
    forall i | 1 <= i < 7 ensures HexDigitValue(t[i]) == HexDigitValue(hex[i]) {
      HexDigitIgnoresCase(hex[i]);
    }
    assert ParseByte(t[1], t[2]) == ParseByte(hex[1], hex[2]);
    assert ParseByte(t[3], t[4]) == ParseByte(hex[3], hex[4]);
    assert ParseByte(t[5], t[6]) == ParseByte(hex[5], hex[6]);
  }

  /** The ranges an HSL triple obtained from a hex colour lies in. */
  predicate InGamut(c: Hsl) {
    0.0 <= c.h < 360.0 && 0.0 <= c.s <= 100.0 && 0.0 <= c.l <= 100.0
  }

  lemma RgbToHslInGamut(red: int, green: int, blue: int)
    requires 0 <= red <= 255 && 0 <= green <= 255 && 0 <= blue <= 255
    ensures InGamut(RgbToHsl(red, green, blue))
    ensures red == green == blue ==> RgbToHsl(red, green, blue).h == 0.0
    ensures RgbToHsl(red, green, blue).s == 0.0 <==> red == green == blue
  {
    var r := red as real / 255.0;
    var g := green as real / 255.0;
    var b := blue as real / 255.0;
    var mx := Max(Max(r, g), b);
    var mn := Min(Min(r, g), b);
    var l := (mx + mn) / 2.0;
    if mx != mn {
      var d := mx - mn;
      if l > 0.5 {
        Ratio(d, 2.0 - mx - mn);
      } else {
        Ratio(d, mx + mn);
      }
      if mx == r {
        Ratio(g - b, d);
      } else if mx == g {
        Ratio(b - r, d);
      } else {
        Ratio(r - g, d);
      }
    }
  }

  /**
   * A valid hex colour converts to hue in [0, 360) and saturation and
   * lightness in [0, 100]; grey levels, and only they, have saturation 0,
   * and their hue is 0.
   */
  lemma HexToHslInGamut(hex: string)
    requires IsValidHex(hex)
    ensures InGamut(HexToHsl(hex))
    ensures var (r, g, b) := (ParseByte(hex[1], hex[2]), ParseByte(hex[3], hex[4]), ParseByte(hex[5], hex[6]));
      && (HexToHsl(hex).s == 0.0 <==> r == g == b)
      && (r == g == b ==> HexToHsl(hex).h == 0.0)
  {
    RgbToHslInGamut(ParseByte(hex[1], hex[2]), ParseByte(hex[3], hex[4]), ParseByte(hex[5], hex[6]));
  }

  // ---------------------------------------------------------------------
  // Perceptual distance

  /** Circular hue difference. */
  function HueDiff(h1: real, h2: real): real {
    Min(Abs(h1 - h2), 360.0 - Abs(h1 - h2))
  }

  /** `colorDistance`: weights 0.5 for hue, 0.3 for saturation, 0.2 for lightness. */
  function ColorDistance(c1: Hsl, c2: Hsl): real {
    HueDiff(c1.h, c2.h) * 0.5 + Abs(c1.s - c2.s) * 0.3 + Abs(c1.l - c2.l) * 0.2
  }

  lemma HueDiffBounds(h1: real, h2: real)
    requires 0.0 <= h1 < 360.0 && 0.0 <= h2 < 360.0
    ensures 0.0 <= HueDiff(h1, h2) <= 180.0
    ensures HueDiff(h1, h2) == HueDiff(h2, h1)
    ensures HueDiff(h1, h2) == 0.0 <==> h1 == h2
  {
  }

  /**
   * On hues in [0, 360) the distance is symmetric, non-negative and zero
   * exactly on identical triples.
   */
  lemma DistanceIsSimilarity(c1: Hsl, c2: Hsl)
    requires 0.0 <= c1.h < 360.0 && 0.0 <= c2.h < 360.0
    ensures ColorDistance(c1, c2) == ColorDistance(c2, c1)
    ensures ColorDistance(c1, c2) >= 0.0
    ensures ColorDistance(c1, c2) == 0.0 <==> c1 == c2
  {
    HueDiffBounds(c1.h, c2.h);
  }

  // ---------------------------------------------------------------------
  // Name tables, in the source's key order

  const RedShades: seq<HexColor> := ["#FF0000", "#DC143C", "#B22222", "#8B0000", "#FF6347", "#FF4500", "#CD5C5C", "#F08080"]
  const GreenShades: seq<HexColor> := ["#00FF00", "#008000", "#228B22", "#32CD32", "#90EE90", "#00FF7F", "#7CFC00", "#ADFF2F"]
  const BlueShades: seq<HexColor> := ["#0000FF", "#000080", "#4169E1", "#6495ED", "#87CEEB", "#4682B4", "#1E90FF", "#00BFFF"]
  const YellowShades: seq<HexColor> := ["#FFFF00", "#FFD700", "#FFFF99", "#F0E68C", "#BDB76B", "#DAA520", "#FAFAD2", "#FFFACD"]
  const OrangeShades: seq<HexColor> := ["#FFA500", "#FF8C00", "#FF7F50", "#FF6347", "#FF4500", "#CD853F", "#D2691E", "#FF8C69"]
  const PurpleShades: seq<HexColor> := ["#800080", "#9932CC", "#9400D3", "#8A2BE2", "#BA55D3", "#DA70D6", "#DDA0DD", "#E6E6FA"]
  const PinkShades: seq<HexColor> := ["#FFC0CB", "#FF69B4", "#FF1493", "#C71585", "#DB7093", "#FFB6C1", "#FF91A4", "#FFA0C9"]
  const BlackShades: seq<HexColor> := ["#000000", "#2F2F2F", "#1C1C1C", "#0D0D0D", "#191970", "#2F4F4F", "#36454F", "#28282B"]
  const WhiteShades: seq<HexColor> := ["#FFFFFF", "#F8F8FF", "#F5F5F5", "#DCDCDC", "#D3D3D3", "#C0C0C0", "#E5E4E2", "#F0F0F0"]
  const GrayShades: seq<HexColor> := ["#808080", "#696969", "#778899", "#708090", "#2F4F4F", "#A9A9A9", "#BEBEBE", "#D3D3D3"]
  const GreyShades: seq<HexColor> := ["#808080", "#696969", "#778899", "#708090", "#2F4F4F", "#A9A9A9", "#BEBEBE", "#D3D3D3"]
  const BrownShades: seq<HexColor> := ["#A52A2A", "#8B4513", "#D2691E", "#CD853F", "#DEB887", "#F4A460", "#D2B48C", "#BC8F8F"]
  const CyanShades: seq<HexColor> := ["#00FFFF", "#E0FFFF", "#00CED1", "#48D1CC", "#40E0D0", "#7FFFD4", "#B0E0E6", "#AFEEEE"]
  const MagentaShades: seq<HexColor> := ["#FF00FF", "#DA70D6", "#BA55D3", "#C71585", "#FF1493", "#FF69B4", "#EE82EE", "#DDA0DD"]
  const LimeShades: seq<HexColor> := ["#00FF00", "#32CD32", "#7CFC00", "#ADFF2F", "#9AFF9A", "#98FB98", "#00FA9A", "#90EE90"]
  const NavyShades: seq<HexColor> := ["#000080", "#191970", "#25025C", "#0F0F50", "#1E1E3F", "#2F2F4F", "#36454F", "#483D8B"]
  const TealShades: seq<HexColor> := ["#008080", "#20B2AA", "#48D1CC", "#00CED1", "#5F9EA0", "#708090", "#2F4F4F", "#4682B4"]
  const SilverShades: seq<HexColor> := ["#C0C0C0", "#D3D3D3", "#DCDCDC", "#E5E4E2", "#BCC6CC", "#A8A8A8", "#B8B8B8", "#BEBEBE"]
  const GoldShades: seq<HexColor> := ["#FFD700", "#DAA520", "#B8860B", "#CD853F", "#DEB887", "#F0E68C", "#EEE8AA", "#FFDF00"]
  const VioletShades: seq<HexColor> := ["#8A2BE2", "#9400D3", "#9932CC", "#BA55D3", "#DA70D6", "#DDA0DD", "#EE82EE", "#E6E6FA"]
  const IndigoShades: seq<HexColor> := ["#4B0082", "#483D8B", "#6A5ACD", "#7B68EE", "#9370DB", "#8470FF", "#9966CC", "#663399"]
  const TurquoiseShades: seq<HexColor> := ["#40E0D0", "#48D1CC", "#00CED1", "#5F9EA0", "#20B2AA", "#7FFFD4", "#AFEEEE", "#B0E0E6"]
  const CoralShades: seq<HexColor> := ["#FF7F50", "#F08080", "#FA8072", "#E9967A", "#FFA07A", "#FF6347", "#FF5722", "#FF4500"]
  const SalmonShades: seq<HexColor> := ["#FA8072", "#FFA07A", "#E9967A", "#F08080", "#CD5C5C", "#BC8F8F", "#FFB07A", "#FF8C69"]
  const SeanShades: seq<HexColor> := ["#7CFC00", "#32CD32", "#00FF7F", "#ADFF2F", "#9AFF9A"]
  const EmeraldShades: seq<HexColor> := ["#50C878", "#00C957", "#4CBB17", "#228B22", "#006A4E"]
  const AquaShades: seq<HexColor> := ["#00FFFF", "#7FFFD4", "#40E0D0", "#48D1CC", "#00CED1"]
  const CrimsonShades: seq<HexColor> := ["#DC143C", "#B22222", "#8B0000", "#A0522D", "#CD5C5C"]
  const AzureShades: seq<HexColor> := ["#F0FFFF", "#E0FFFF", "#B0E0E6", "#87CEEB", "#4682B4"]

  /** `colorNames`: each name with the reference colours matched against. */
  const ColorNames: seq<(string, seq<HexColor>)> := [
    ("red", RedShades),
    ("green", GreenShades),
    ("blue", BlueShades),
    ("yellow", YellowShades),
    ("orange", OrangeShades),
    ("purple", PurpleShades),
    ("pink", PinkShades),
    ("black", BlackShades),
    ("white", WhiteShades),
    ("gray", GrayShades),
    ("grey", GreyShades),
    ("brown", BrownShades),
    ("cyan", CyanShades),
    ("magenta", MagentaShades),
    ("lime", LimeShades),
    ("navy", NavyShades),
    ("teal", TealShades),
    ("silver", SilverShades),
    ("gold", GoldShades),
    ("violet", VioletShades),
    ("indigo", IndigoShades),
    ("turquoise", TurquoiseShades),
    ("coral", CoralShades),
    ("salmon", SalmonShades),
    ("sean", SeanShades),
    ("emerald", EmeraldShades),
    ("aqua", AquaShades),
    ("crimson", CrimsonShades),
    ("azure", AzureShades)
  ]

  /** The keys of `colorRepresentatives`, in declaration order. */
  const RepresentativeNames: seq<string> := [
    "red", "green", "blue", "yellow", "orange", "purple", "pink", "black",
    "white", "gray", "grey", "brown", "cyan", "magenta", "lime", "navy",
    "teal", "silver", "gold", "violet", "indigo", "turquoise", "coral", "salmon",
    "sean", "emerald", "aqua", "crimson", "azure"
  ]

  // The values of `colorRepresentatives`, in the order of their keys, in four runs.
  const RepresentativesRedBlack: seq<HexColor> := ["#FF0000", "#00FF00", "#0000FF", "#FFFF00", "#FFA500", "#800080", "#FFC0CB", "#000000"]
  const RepresentativesWhiteNavy: seq<HexColor> := ["#FFFFFF", "#808080", "#808080", "#A52A2A", "#00FFFF", "#FF00FF", "#00FF00", "#000080"]
  const RepresentativesTealSalmon: seq<HexColor> := ["#008080", "#C0C0C0", "#FFD700", "#8A2BE2", "#4B0082", "#40E0D0", "#FF7F50", "#FA8072"]
  const RepresentativesSeanAzure: seq<HexColor> := ["#32CD32", "#50C878", "#00FFFF", "#DC143C", "#F0FFFF"]

  /** The values of `colorRepresentatives`, in the same order as their keys. */
  const RepresentativeColors: seq<HexColor> :=
    RepresentativesRedBlack + RepresentativesWhiteNavy + RepresentativesTealSalmon + RepresentativesSeanAzure

  /** Keys and values paired up position by position. */
  function Pairs(keys: seq<string>, values: seq<string>): (r: seq<(string, string)>)
    requires |keys| == |values|
    ensures |r| == |keys| && forall i :: 0 <= i < |r| ==> r[i] == (keys[i], values[i])
  {
    seq(|keys|, i requires 0 <= i < |keys| => (keys[i], values[i]))
  }

  /** `colorRepresentatives`: each name with the one colour a search generates from. */
  const ColorRepresentatives: seq<(string, string)> := Pairs(RepresentativeNames, RepresentativeColors)

  function Keys<V>(table: seq<(string, V)>): (ks: seq<string>)
    ensures |ks| == |table| && forall i :: 0 <= i < |table| ==> ks[i] == table[i].0
  {
    seq(|table|, i requires 0 <= i < |table| => table[i].0)
  }

  /** `Array.prototype.find` by position: the first index whose key satisfies `p`. */
  function FindFirst(keys: seq<string>, p: string -> bool): (r: Option<nat>)
    ensures r.Some? ==> r.value < |keys| && p(keys[r.value])
    ensures r.Some? ==> forall j :: 0 <= j < r.value ==> !p(keys[j])
    ensures r.None? ==> forall j :: 0 <= j < |keys| ==> !p(keys[j])
  {
    if keys == [] then None
    else if p(keys[0]) then Some(0)
    else
      match FindFirst(keys[1..], p)
      case None => None
      case Some(i) => Some(i + 1)
  }

  /** `table[key]` on an object literal: the entry with that own key, if any. */
  function Lookup<V>(table: seq<(string, V)>, key: string): (r: Option<V>)
    ensures r.None? <==> forall i :: 0 <= i < |table| ==> table[i].0 != key
    ensures r.Some? ==> exists i :: 0 <= i < |table| && table[i] == (key, r.value)
  {
    match FindFirst(Keys(table), k => k == key)
    case None => None
    case Some(i) => Some(table[i].1)
  }

  // ---------------------------------------------------------------------
  // getSearchColor

  /** `searchTerm.toLowerCase().trim()`. */
  function Normalize(searchTerm: string): string {
    Trim(ToLower(searchTerm))
  }

  /** `name.includes(term) || term.includes(name)`. */
  predicate PartialMatch(name: string, term: string) {
    Includes(name, term) || Includes(term, name)
  }

  /**
   * The name steps of `getSearchColor` over a name table: the entry with
   * the term as its key, else the first entry in table order whose key
   * partially matches the term.
   */
  function ResolveName(table: seq<(string, string)>, term: string): (r: Option<string>)
    ensures r.Some? ==> exists i :: 0 <= i < |table| && table[i].1 == r.value
  {
    match Lookup(table, term)
    case Some(color) => Some(color)
    case None =>
      match FindFirst(Keys(table), name => PartialMatch(name, term))
      case Some(i) => Some(table[i].1)
      case None => None
  }

  /**
   * Name resolution fails exactly when no key partially matches; an exact
   * key wins; otherwise the first partially matching key in table order
   * decides.
   */
  lemma {:induction false} ResolveNameSteps(table: seq<(string, string)>, term: string)
    ensures ResolveName(table, term).None? <==>
      forall i :: 0 <= i < |table| ==> !PartialMatch(table[i].0, term)
    ensures term in Keys(table) ==> ResolveName(table, term) == Lookup(table, term)
    ensures term !in Keys(table) && ResolveName(table, term).Some? ==>
      exists i :: 0 <= i < |table| && PartialMatch(table[i].0, term)
        && ResolveName(table, term).value == table[i].1
        && forall j :: 0 <= j < i ==> !PartialMatch(table[j].0, term)
  {
    var ks := Keys(table);
    if Lookup(table, term).Some? {
      var i :| 0 <= i < |table| && table[i].0 == term;
      IncludesSelf(term);
      assert PartialMatch(table[i].0, term);
    }
    if term in ks {
      var i :| 0 <= i < |ks| && ks[i] == term;
      assert table[i].0 == term;
    } else {
      var f := FindFirst(ks, name => PartialMatch(name, term));
      if f.Some? {
        assert PartialMatch(table[f.value].0, term);
      }
    }
  }

  /** With non-empty keys, the empty term partially matches the first key. */
  lemma ResolveEmptyTerm(table: seq<(string, string)>)
    requires |table| > 0
    requires forall i :: 0 <= i < |table| ==> table[i].0 != ""
    ensures ResolveName(table, "") == Some(table[0].1)
  {
    IncludesEmpty(table[0].0);
    assert PartialMatch(Keys(table)[0], "");
  }

  function GetSearchColor(searchTerm: string): (r: Option<string>)
    ensures r.Some? ==> IsValidHex(r.value)
  {
    var term := Normalize(searchTerm);
    if IsValidHex(term) then Some(term)
    else ResolveName(ColorRepresentatives, term)
  }

  /**
   * A term the hex pattern accepts comes back lower-cased and trimmed;
   * any other term goes through name resolution and finds nothing exactly
   * when no name partially matches it.
   */
  lemma GetSearchColorSteps(searchTerm: string)
    ensures var term := Normalize(searchTerm);
      && (IsValidHex(term) ==> GetSearchColor(searchTerm) == Some(term))
      && (!IsValidHex(term) ==> GetSearchColor(searchTerm) == ResolveName(ColorRepresentatives, term))
      && (GetSearchColor(searchTerm).None? <==>
            !IsValidHex(term)
            && forall i :: 0 <= i < |ColorRepresentatives| ==> !PartialMatch(ColorRepresentatives[i].0, term))
  {
    ResolveNameSteps(ColorRepresentatives, Normalize(searchTerm));
  }

  lemma RepresentativeNamesNonEmpty()
    ensures |ColorRepresentatives| > 0 && ColorRepresentatives[0] == ("red", "#FF0000")
    ensures forall i :: 0 <= i < |ColorRepresentatives| ==> ColorRepresentatives[i].0 != ""
  {
  }

  /** The empty term resolves to the first representative, red. */
  lemma EmptyTermIsRed()
    ensures ResolveName(ColorRepresentatives, "") == Some("#FF0000")
  {
    RepresentativeNamesNonEmpty();
    ResolveEmptyTerm(ColorRepresentatives);
  }

  /** A term that is empty or all whitespace resolves to the first name, red. */
  lemma BlankTermIsRed(searchTerm: string)
    requires forall k :: 0 <= k < |searchTerm| ==> IsWhitespace(ToLower(searchTerm)[k])
    ensures GetSearchColor(searchTerm) == Some("#FF0000")
  {
    TrimEmptyIff(ToLower(searchTerm));
    assert Normalize(searchTerm) == "";
    EmptyTermIsRed();
  }

  lemma LookupFirstKey<V>(table: seq<(string, V)>)
    requires |table| > 0
    ensures Lookup(table, table[0].0) == Some(table[0].1)
  {
  }

  lemma SearchRedExample()
    ensures GetSearchColor("red") == Some("#FF0000")
  {
    LowerUnchanged("red");
    TrimUnpadded("red");
    RepresentativeNamesNonEmpty();
    LookupFirstKey(ColorRepresentatives);
  }

  /** A search term that already is a hex colour, in either case, comes back lower-cased. */
  lemma HexTermIsLowered(searchTerm: string)
    requires IsValidHex(searchTerm)
    ensures GetSearchColor(searchTerm) == Some(ToLower(searchTerm))
  {
    var lower := ToLower(searchTerm);
    ValidHexIgnoresCase(searchTerm);
    TrimUnpadded(lower);
    GetSearchColorSteps(searchTerm);
  }

  // ---------------------------------------------------------------------
  // colorContainsSearch

  predicate AllHex(colors: seq<string>) {
    forall c <- colors :: IsValidHex(c)
  }

  /**
   * `colors.some(color => colorDistance(reference, hexToHsl(color)) < limit)`,
   * where a colour the hex pattern rejects is never near.
   */
  function AnyNear(reference: Hsl, colors: seq<string>, limit: real): (r: bool)
    ensures r <==> exists c :: c in colors && IsValidHex(c) && ColorDistance(reference, HexToHsl(c)) < limit
  {
    if colors == [] then false
    else
      (IsValidHex(colors[0]) && ColorDistance(reference, HexToHsl(colors[0])) < limit)
      || AnyNear(reference, colors[1..], limit)
  }

  /** `references.some(named => colors.some(color => distance < limit))`. */
  function AnyReferenceNear(references: seq<string>, colors: seq<string>, limit: real): (r: bool)
    requires AllHex(references)
    ensures r <==> exists n, c ::
      n in references && c in colors && IsValidHex(c) && ColorDistance(HexToHsl(n), HexToHsl(c)) < limit
  {
    if references == [] then false
    else AnyNear(HexToHsl(references[0]), colors, limit) || AnyReferenceNear(references[1..], colors, limit)
  }

  /** The fallback filter on the names of `colorNames`. */
  predicate Candidate(name: string, term: string) {
    Includes(name, term) || Includes(term, name)
    || (|term| > 2 && StartsWith(ToLower(name), term[..3]))
  }

  /** `Object.keys(colorNames).filter(...)`: the candidates, in table order. */
  function CandidateNames(names: seq<string>, term: string): (r: seq<string>)
    ensures forall n :: n in r <==> n in names && Candidate(n, term)
  {
    if names == [] then []
    else if Candidate(names[0], term) then [names[0]] + CandidateNames(names[1..], term)
    else CandidateNames(names[1..], term)
  }

  /** `table[name]` for a name that is a key of the table. */
  function ReferencesOf(table: seq<(string, seq<HexColor>)>, name: string): (refs: seq<HexColor>)
    requires name in Keys(table)
    ensures exists i :: 0 <= i < |table| && table[i] == (name, refs)
  {
    var i :| 0 <= i < |Keys(table)| && Keys(table)[i] == name;
    assert table[i].0 == name;
    Lookup(table, name).value
  }

  /** `names.some(name => table[name].some(...))` with threshold 80. */
  function AnyNameNear(table: seq<(string, seq<HexColor>)>, names: seq<string>, colors: seq<string>): (r: bool)
    requires forall n <- names :: n in Keys(table)
    ensures r <==> exists n :: n in names && AnyReferenceNear(ReferencesOf(table, n), colors, 80.0)
  {
    if names == [] then false
    else AnyReferenceNear(ReferencesOf(table, names[0]), colors, 80.0) || AnyNameNear(table, names[1..], colors)
  }

  /** The name steps of `colorContainsSearch` over a name table. */
  function NameMatches(table: seq<(string, seq<HexColor>)>, colors: seq<string>, term: string): bool
  {
    match Lookup(table, term)
    case Some(references) => AnyReferenceNear(references, colors, 80.0)
    case None =>
      var candidates := CandidateNames(Keys(table), term);
      if |candidates| > 0 then AnyNameNear(table, candidates, colors) else false
  }

  function ColorContainsSearch(colors: seq<string>, searchTerm: string): bool
  {
    var term := Normalize(searchTerm);
    if IsValidHex(term) then AnyNear(HexToHsl(term), colors, 60.0)
    else NameMatches(ColorNames, colors, term)
  }

  /**
   * A hex term matches a palette exactly when some hex colour of the palette is
   * strictly closer than 60 to it.
   */
  lemma ContainsHexTerm(colors: seq<string>, searchTerm: string)
    requires IsValidHex(Normalize(searchTerm))
    ensures ColorContainsSearch(colors, searchTerm) <==>
      exists c :: c in colors && IsValidHex(c) && ColorDistance(HexToHsl(Normalize(searchTerm)), HexToHsl(c)) < 60.0
  {
  }

  /**
   * An exact name matches exactly when one of its reference colours is
   * strictly closer than 80 to a hex colour of the palette; any other term
   * matches when some candidate name (containing or contained in the term,
   * or sharing its first three characters) has such a reference colour,
   * and never when there is no candidate.
   */
  lemma NameMatchesSteps(table: seq<(string, seq<HexColor>)>, colors: seq<string>, term: string)
    ensures term in Keys(table) ==>
      (NameMatches(table, colors, term) <==>
        exists n, c :: n in ReferencesOf(table, term) && c in colors && IsValidHex(c)
          && ColorDistance(HexToHsl(n), HexToHsl(c)) < 80.0)
    ensures term !in Keys(table) ==>
      (NameMatches(table, colors, term) <==>
        exists name, n, c :: name in Keys(table) && Candidate(name, term)
          && n in ReferencesOf(table, name) && c in colors && IsValidHex(c)
          && ColorDistance(HexToHsl(n), HexToHsl(c)) < 80.0)
  {
    if term in Keys(table) {
      ExactNameMatches(table, colors, term);
    } else {
      CandidateNameMatches(table, colors, term);
    }
  }

  /** A term that is a key of the table is judged by that key's references only. */
  lemma ExactNameMatches(table: seq<(string, seq<HexColor>)>, colors: seq<string>, term: string)
    requires term in Keys(table)
    ensures NameMatches(table, colors, term) == AnyReferenceNear(ReferencesOf(table, term), colors, 80.0)
  {
    var ks := Keys(table);
    var i :| 0 <= i < |ks| && ks[i] == term;
    assert table[i].0 == term;
    assert Lookup(table, term) == Some(ReferencesOf(table, term));
  }

  /** Any other term is judged by the references of every candidate name. */
  lemma CandidateNameMatches(table: seq<(string, seq<HexColor>)>, colors: seq<string>, term: string)
    requires term !in Keys(table)
    ensures NameMatches(table, colors, term) <==>
      exists name :: name in Keys(table) && Candidate(name, term)
        && AnyReferenceNear(ReferencesOf(table, name), colors, 80.0)
  {
    assert Lookup(table, term).None?;
    var candidates := CandidateNames(Keys(table), term);
    if exists name :: name in Keys(table) && Candidate(name, term)
        && AnyReferenceNear(ReferencesOf(table, name), colors, 80.0) {
      var name :| name in Keys(table) && Candidate(name, term)
        && AnyReferenceNear(ReferencesOf(table, name), colors, 80.0);
      assert name in candidates;
    }
  }

  /** No term matches an empty palette. */
  lemma EmptyPaletteNeverMatches(searchTerm: string)
    ensures !ColorContainsSearch([], searchTerm)
  {
  }
}
