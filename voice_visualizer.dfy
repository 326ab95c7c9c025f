/**
 * The full-screen voice visualiser: the mean volume of the analyser data, the
 * number and size of the circular bars, and `colorWithAlpha`, which turns a
 * '#rrggbb' colour into an 'rgba(...)' string
 * (src/features/vfx/components/VoiceVisualizer.tsx). Positions, angles and
 * canvas calls are drawing only and are not modelled.
 */
module VoiceVisualizer {
  import opened Common
  import opened Text

  /** `averageVolume`: the loop that adds up the data, then the mean. */
  method AverageVolume(data: seq<Byte>) returns (avg: real)
    requires |data| > 0
    ensures avg == Sum(data) as real / |data| as real
    ensures 0.0 <= avg <= 255.0
  {
    var sum: int := 0;
    var i := 0;
    while i < |data|
      invariant 0 <= i <= |data|
      invariant sum == Sum(data[..i])
    {
      assert data[..i + 1][..i] == data[..i];
      sum := sum + data[i];
      i := i + 1;
    }
    assert data[..i] == data;
    SumOfBytes(data);
    MeanOfBytes(sum, |data|);
    avg := sum as real / |data| as real;
  }

  /** A total of at most 255 per sample has a mean between 0 and 255. */
  lemma MeanOfBytes(total: int, n: nat)
    requires n > 0 && 0 <= total <= 255 * n
    ensures 0.0 <= total as real / n as real <= 255.0
  {
    var m := total as real / n as real;
    assert m * n as real == total as real;
  }

  /** `barCount`: half the samples, at most 64. */
  function BarCount(len: nat): (n: nat)
    ensures n <= 64 && 2 * n <= len
    ensures n == 64 || n == len / 2
  {
    Min(len / 2, 64)
  }

  const MaxBarLength: real := 120.0

  /** One bar of the circle: its length beyond the base radius and its opacity. */
  datatype Bar = Bar(length: real, alpha: real)

  function BarOf(value: Byte): (b: Bar)
    ensures 0.0 <= b.length <= MaxBarLength
    ensures 0.3 <= b.alpha <= 1.0
  {
    Bar(value as real / 255.0 * MaxBarLength, 0.3 + value as real / 255.0 * 0.7)
  }

  /** The bar loop: one bar per sample for the first `barCount` samples; every read is in bounds. */
  method Bars(data: seq<Byte>) returns (bars: seq<Bar>)
    ensures |bars| == BarCount(|data|)
    ensures forall i :: 0 <= i < |bars| ==> bars[i] == BarOf(data[i])
  {
    var barCount := BarCount(|data|);
    bars := [];
    var i := 0;
    while i < barCount
      invariant 0 <= i <= barCount
      invariant |bars| == i
      invariant forall k :: 0 <= k < i ==> bars[k] == BarOf(data[k])
    {
      bars := bars + [BarOf(data[i])];
      i := i + 1;
    }
  }

  // ---------------------------------------------------------------------------
  // parseInt(text, 16)

  predicate IsHexDigit(c: char)
  {
    IsAsciiDigit(c) || 'a' <= c <= 'f' || 'A' <= c <= 'F'
  }

  function HexDigitValue(c: char): (d: nat)
    requires IsHexDigit(c)
    ensures d < 16
  {
    if IsAsciiDigit(c) then c as int - '0' as int
    else if 'a' <= c <= 'f' then c as int - 'a' as int + 10
    else c as int - 'A' as int + 10
  }

  predicate AllHex(s: string)
  {
    forall i :: 0 <= i < |s| ==> IsHexDigit(s[i])
  }

  /** The value of a string of hexadecimal digits. */
  function HexValue(s: string): (v: nat)
    requires AllHex(s)
  {
    if s == [] then 0 else HexValue(s[..|s| - 1]) * 16 + HexDigitValue(s[|s| - 1])
  }

  function TrimStartJsSpace(s: string): (r: string)
    ensures r == [] || !IsJsSpace(r[0])
    ensures |r| <= |s| && r == s[|s| - |r|..]
  {
    if s != [] && IsJsSpace(s[0]) then TrimStartJsSpace(s[1..]) else s
  }

  /** The longest prefix made of hexadecimal digits. */
  function HexPrefix(s: string): (r: string)
    ensures AllHex(r) && StartsWith(s, r)
    ensures |r| < |s| ==> !IsHexDigit(s[|r|])
  {
    if s != [] && IsHexDigit(s[0]) then [s[0]] + HexPrefix(s[1..]) else []
  }

  /**
   * `parseInt(s, 16)`: skip leading white space, take one sign, drop a '0x' or
   * '0X' prefix, then read the longest run of hexadecimal digits; no digit
   * gives NaN (`None`).
   */
  function ParseIntHex(s: string): Option<int>
  {
    var t := TrimStartJsSpace(s);
    var negative := t != [] && t[0] == '-';
    var unsigned := if t != [] && (t[0] == '-' || t[0] == '+') then t[1..] else t;
    var body := if |unsigned| >= 2 && unsigned[0] == '0' && (unsigned[1] == 'x' || unsigned[1] == 'X')
                then unsigned[2..] else unsigned;
    var digits := HexPrefix(body);
    if digits == [] then None
    else
      var value: int := HexValue(digits);
      Some(if negative then -value else value)
  }

  /** `s.slice(start, end)` for `0 <= start <= end`: out-of-range ends are cut to the length. */
  function Slice(s: string, start: nat, end: nat): (r: string)
    requires start <= end
    ensures |r| <= end - start
  {
    s[Min(start, |s|)..Min(end, |s|)]
  }

  /** How a template literal prints a parse result: NaN, or the integer in decimal. */
  function NumberText(n: Option<int>): string
  {
    if n.None? then "NaN" else IntToDecimal(n.value)
  }

  /** The text `rgba(r,g,b,alpha)`. */
  function Rgba(r: string, g: string, b: string, alpha: string): (s: string)
    ensures StartsWith(s, "rgba(") && EndsWith(s, "," + alpha + ")")
  {
    var head := "rgba(" + r + "," + g + "," + b;
    var tail := "," + alpha + ")";
    StartsWithAppend("rgba(", r + "," + g + "," + b + tail);
    EndsWithAppend(head, tail);
    head + tail
  }

  /** `colorWithAlpha(hex, alpha)`, with `alpha` as the text the number prints as. */
  function ColorWithAlpha(hex: string, alpha: string): (r: string)
    ensures StartsWith(r, "rgba(") && EndsWith(r, "," + alpha + ")")
  {
    Rgba(NumberText(ParseIntHex(Slice(hex, 1, 3))), NumberText(ParseIntHex(Slice(hex, 3, 5))),
         NumberText(ParseIntHex(Slice(hex, 5, 7))), alpha)
  }

  // ---------------------------------------------------------------------------
  // Properties

  /** A well-formed colour: '#' then six hexadecimal digits. */
  predicate WellFormedColor(hex: string)
  {
    |hex| == 7 && hex[0] == '#' && forall i :: 1 <= i < 7 ==> IsHexDigit(hex[i])
  }

  lemma {:induction false} HexPrefixOfAllHex(s: string)
    requires AllHex(s)
    ensures HexPrefix(s) == s
  {
    if s != [] {
      HexPrefixOfAllHex(s[1..]);
    }
  }

  /** Two hexadecimal digits parse to their value, which lies in 0..255. */
  lemma TwoDigitsParse(s: string)
    requires |s| == 2 && AllHex(s)
    ensures ParseIntHex(s) == Some(HexValue(s))
    ensures 0 <= HexValue(s) <= 255
  {
    assert !IsJsSpace(s[0]);
    HexPrefixOfAllHex(s);
    assert s[..1] == [s[0]];
  }

  /** Digits `start` and `start + 1` of a well-formed colour parse to their value, in 0..255. */
  lemma ComponentParses(hex: string, start: nat)
    requires WellFormedColor(hex) && 1 <= start <= 5
    ensures Slice(hex, start, start + 2) == hex[start..start + 2]
    ensures ParseIntHex(hex[start..start + 2]) == Some(HexValue(hex[start..start + 2]))
    ensures HexValue(hex[start..start + 2]) <= 255
  {
    TwoDigitsParse(hex[start..start + 2]);
  }

  /** For a well-formed colour, r, g and b are the values of digits 1-2, 3-4 and 5-6, each in 0..255. */
  lemma WellFormedComponents(hex: string, alpha: string)
    requires WellFormedColor(hex)
    ensures var r := HexValue(hex[1..3]); var g := HexValue(hex[3..5]); var b := HexValue(hex[5..7]);
      r <= 255 && g <= 255 && b <= 255
      && ColorWithAlpha(hex, alpha) == Rgba(NatToDecimal(r), NatToDecimal(g), NatToDecimal(b), alpha)
  {
    ComponentParses(hex, 1);
    ComponentParses(hex, 3);
    ComponentParses(hex, 5);
    ParsedText(hex, 1);
    ParsedText(hex, 3);
    ParsedText(hex, 5);
  }

  lemma ParsedText(hex: string, start: nat)
    requires WellFormedColor(hex) && 1 <= start <= 5
    ensures NumberText(ParseIntHex(Slice(hex, start, start + 2))) == NatToDecimal(HexValue(hex[start..start + 2]))
  {
    ComponentParses(hex, start);
  }

  /** The lower-case hexadecimal digit of a value below 16. */
  function HexDigitChar(d: nat): (c: char)
    requires d < 16
    ensures IsHexDigit(c) && HexDigitValue(c) == d
  {
    if d < 10 then ('0' as int + d) as char else ('a' as int + d - 10) as char
  }

  function Hex2(n: Byte): (s: string)
    ensures |s| == 2 && AllHex(s)
  {
    [HexDigitChar(n / 16), HexDigitChar(n % 16)]
  }

  lemma Hex2Value(n: Byte)
    ensures HexValue(Hex2(n)) == n
  {
    var s := Hex2(n);
    assert s[..1] == [s[0]];
    assert HexValue(s[..1]) == n / 16;
    assert HexValue(s) == (n / 16) * 16 + n % 16;
  }

  /** Printing a colour as '#rrggbb' and passing it through `colorWithAlpha` gives back its three components. */
  lemma ColorRoundTrip(r: Byte, g: Byte, b: Byte, alpha: string)
    ensures ColorWithAlpha(HexColor(r, g, b), alpha) == Rgba(NatToDecimal(r), NatToDecimal(g), NatToDecimal(b), alpha)
  {
    HexColorParts(r, g, b);
    WellFormedComponents(HexColor(r, g, b), alpha);
    Hex2Value(r);
    Hex2Value(g);
    Hex2Value(b);
  }

  /** The colour `#rrggbb` with two lower-case hexadecimal digits per component. */
  function HexColor(r: Byte, g: Byte, b: Byte): string
  {
    "#" + Hex2(r) + Hex2(g) + Hex2(b)
  }

  /** `#rrggbb` is well formed, and its digit pairs are the three components' digits. */
  lemma HexColorParts(r: Byte, g: Byte, b: Byte)
    ensures var hex := HexColor(r, g, b);
      WellFormedColor(hex) && hex[1..3] == Hex2(r) && hex[3..5] == Hex2(g) && hex[5..7] == Hex2(b)
  {
    var hex := HexColor(r, g, b);
    assert hex[1..3] == Hex2(r) && hex[3..5] == Hex2(g) && hex[5..7] == Hex2(b);
    forall i | 1 <= i < 7
      ensures IsHexDigit(hex[i])
    {
      if i < 3 {
        assert hex[i] == Hex2(r)[i - 1];
      } else if i < 5 {
        assert hex[i] == Hex2(g)[i - 3];
      } else {
        assert hex[i] == Hex2(b)[i - 5];
      }
    }
  }

  /** A colour too short to hold a component prints NaN for it. */
  lemma EmptyColorIsNaN(alpha: string)
    ensures ColorWithAlpha("", alpha) == Rgba("NaN", "NaN", "NaN", alpha)
  {
  }
}
