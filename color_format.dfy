/**
 * `hslToHex`, the HSL to sRGB formula of CSS Color Module Level 4
 * (section 7) without its hue normalisation, rendered with JavaScript's
 * `toString(16)` and `padStart(2, '0')`. The palette grid and the detail
 * view carry identical copies of it; this module is the one definition.
 */
module ColorFormat {
  import opened JsMath
  import opened Text
  import opened ColorSearch

  /** The lower-case digit `toString(16)` writes for a value below 16. */
  function DigitChar(d: nat): (c: char)
    requires d < 16
    ensures IsHexDigit(c) && !IsUpper(c) && HexDigitValue(c) == d
  {
    if d < 10 then ('0' as int + d) as char else ('a' as int + d - 10) as char
  }

  /** `n.toString(16)` on a natural number. */
  function HexNumeral(n: nat): (r: string)
    ensures n < 16 ==> r == [DigitChar(n)]
    ensures 16 <= n < 256 ==> r == [DigitChar(n / 16), DigitChar(n % 16)]
    ensures n >= 256 ==> |r| >= 3
  {
    if n < 16 then [DigitChar(n)] else HexNumeral(n / 16) + [DigitChar(n % 16)]
  }

  /** `n.toString(16).padStart(2, '0')` on any integer, sign included. */
  function HexByte(n: int): string {
    var numeral := if n < 0 then "-" + HexNumeral(-n) else HexNumeral(n);
    if |numeral| < 2 then "0" + numeral else numeral
  }

  /**
   * A channel in [0, 255] prints as two lower-case hex digits that parse
   * back to it; a negative channel prints with a leading minus sign and one
   * above 255 with three or more digits.
   */
  lemma HexByteRoundTrip(n: int)
    ensures 0 <= n <= 255 ==>
      && |HexByte(n)| == 2
      && IsHexDigit(HexByte(n)[0]) && IsHexDigit(HexByte(n)[1])
      && !IsUpper(HexByte(n)[0]) && !IsUpper(HexByte(n)[1])
      && ParseByte(HexByte(n)[0], HexByte(n)[1]) == n
    ensures n < 0 ==> |HexByte(n)| >= 2 && HexByte(n)[0] == '-'
    ensures n > 255 ==> |HexByte(n)| >= 3
  {
  }

  /** `f(n)` inside `hslToHex`, before it is printed. */
  function Channel(n: real, h: real, s: real, l: real): int {
    var light := l / 100.0;
    var a := s * Min(light, 1.0 - light) / 100.0;
    var k := Rem(n + h / 30.0, 12.0);
    var color := light - a * Max(Min(Min(k - 3.0, 9.0 - k), 1.0), -1.0);
    Round(255.0 * color)
  }

  function HslToHex(h: real, s: real, l: real): string {
    "#" + HexByte(Channel(0.0, h, s, l)) + HexByte(Channel(8.0, h, s, l)) + HexByte(Channel(4.0, h, s, l))
  }

  lemma ProductNonNegative(x: real, y: real)
    requires x >= 0.0 && y >= 0.0
    ensures x * y >= 0.0
  {
  }

  /**
   * For saturation and lightness in [0, 100] and any hue, the clamp factor
   * lies in [-1, 1], the chroma term `a` is at most min(l, 1 - l), and so
   * every channel lands in [0, 255].
   */
  lemma ChannelInRange(n: real, h: real, s: real, l: real)
    requires 0.0 <= s <= 100.0 && 0.0 <= l <= 100.0
    ensures 0 <= Channel(n, h, s, l) <= 255
  {
    var light := l / 100.0;
    var m := Min(light, 1.0 - light);
    var a := s * m / 100.0;
    ProductNonNegative(100.0 - s, m);
    ProductNonNegative(s, m);
    assert 0.0 <= a <= m;
    var k := Rem(n + h / 30.0, 12.0);
    var factor := Max(Min(Min(k - 3.0, 9.0 - k), 1.0), -1.0);
    assert -1.0 <= factor <= 1.0;
    ProductNonNegative(a, 1.0 - factor);
    ProductNonNegative(a, 1.0 + factor);
    assert -a <= a * factor <= a;
  }

  /**
   * For saturation and lightness in [0, 100], `hslToHex` yields `#` and six
   * lower-case hex digits, which the hex pattern accepts, and the three
   * pairs parse back to the red, green and blue channels.
   */
  lemma HslToHexIsHex(h: real, s: real, l: real)
    requires 0.0 <= s <= 100.0 && 0.0 <= l <= 100.0
    ensures var hex := HslToHex(h, s, l);
      && IsValidHex(hex)
      && ToLower(hex) == hex
      && ParseByte(hex[1], hex[2]) == Channel(0.0, h, s, l)
      && ParseByte(hex[3], hex[4]) == Channel(8.0, h, s, l)
      && ParseByte(hex[5], hex[6]) == Channel(4.0, h, s, l)
  {
    ChannelPair(0.0, h, s, l);
    ChannelPair(8.0, h, s, l);
    ChannelPair(4.0, h, s, l);
    HexOfPairs(HexByte(Channel(0.0, h, s, l)), HexByte(Channel(8.0, h, s, l)), HexByte(Channel(4.0, h, s, l)));
  }

  /** One channel prints as two lower-case hex digits that parse back to it. */
  lemma ChannelPair(n: real, h: real, s: real, l: real)
    requires 0.0 <= s <= 100.0 && 0.0 <= l <= 100.0
    ensures var pair := HexByte(Channel(n, h, s, l));
      && |pair| == 2
      && (forall i :: 0 <= i < 2 ==> IsHexDigit(pair[i]) && !IsUpper(pair[i]))
      && ParseByte(pair[0], pair[1]) == Channel(n, h, s, l)
  {
    ChannelInRange(n, h, s, l);
    HexByteRoundTrip(Channel(n, h, s, l));
  }

  /** Three pairs of lower-case hex digits behind `#` make a lower-case hex colour. */
  lemma HexOfPairs(red: string, green: string, blue: string)
    requires |red| == 2 && |green| == 2 && |blue| == 2
    requires forall i :: 0 <= i < 2 ==> IsHexDigit(red[i]) && !IsUpper(red[i])
    requires forall i :: 0 <= i < 2 ==> IsHexDigit(green[i]) && !IsUpper(green[i])
    requires forall i :: 0 <= i < 2 ==> IsHexDigit(blue[i]) && !IsUpper(blue[i])
    ensures var hex := "#" + red + green + blue;
      && IsValidHex(hex) && ToLower(hex) == hex
      && hex[1] == red[0] && hex[2] == red[1]
      && hex[3] == green[0] && hex[4] == green[1]
      && hex[5] == blue[0] && hex[6] == blue[1]
  {
    var hex := "#" + red + green + blue;
    assert hex[1] == red[0] && hex[2] == red[1];
    assert hex[3] == green[0] && hex[4] == green[1];
    assert hex[5] == blue[0] && hex[6] == blue[1];
    LowerUnchanged(hex);
  }

  /**
   * A channel below zero makes the output leave the hex form: its second
   * character is a minus sign.
   */
  lemma NegativeRedIsNotHex(h: real, s: real, l: real)
    requires Channel(0.0, h, s, l) < 0
    ensures !IsValidHex(HslToHex(h, s, l))
  {
    HexByteRoundTrip(Channel(0.0, h, s, l));
    assert HslToHex(h, s, l)[1] == '-';
  }
}
