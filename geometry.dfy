/**
 * The renderer's pure helpers: percentage positions mapped onto the page (pdf-lib's origin
 * is the bottom-left corner, so y is flipped), and `#RRGGBB` colours (CSS Color Level 4,
 * section 5.2) read with `Number.parseInt(text, 16)` as ECMA-262 defines it.
 */
module Geometry {
  import opened Wrappers
  import opened Js
  import opened Payload
  import opened Draw
  import ImageProcessor

  /** The page size the generator creates: A4 in points. */
  const PageWidth: real := 595.0
  const PageHeight: real := 842.0

  /**
   * `calculatePosition(positionData, elementId, property, defaultValue)`: a missing entry,
   * a missing property or a zero percentage gives the default, and so does any property
   * other than x, y and size.
   */
  function CalculatePosition(pd: PositionData, elementId: string, property: string, default: real,
                             width: real, height: real): real
  {
    if elementId !in pd || property !in pd[elementId] || pd[elementId][property] == 0.0 then default
    else
      var p := pd[elementId][property] / 100.0;
      match property
      case "x" => p * width
      case "y" => height - p * height
      case "size" => p * 2.0
      case _ => default
  }

  /** When the default applies. */
  lemma CalculatePositionDefault(pd: PositionData, elementId: string, property: string, default: real,
                                 width: real, height: real)
    ensures elementId !in pd ==> CalculatePosition(pd, elementId, property, default, width, height) == default
    ensures elementId in pd && property in pd[elementId] && pd[elementId][property] == 0.0
            ==> CalculatePosition(pd, elementId, property, default, width, height) == default
    ensures property !in {"x", "y", "size"} ==> CalculatePosition(pd, elementId, property, default, width, height) == default
  {
  }

  /**
   * A stored percentage p places x at p% of the width and y at p% of the height measured
   * from the top; a size is p% of 2. Reading the percentage back from the coordinate gives p.
   */
  lemma CalculatePositionPercent(pd: PositionData, elementId: string, width: real, height: real, d: real)
    requires width > 0.0 && height > 0.0
    requires elementId in pd
    ensures var e := pd[elementId];
            && ("x" in e && e["x"] != 0.0 ==> CalculatePosition(pd, elementId, "x", d, width, height) * 100.0 / width == e["x"])
            && ("y" in e && e["y"] != 0.0 ==> (height - CalculatePosition(pd, elementId, "y", d, width, height)) * 100.0 / height == e["y"])
            && ("size" in e && e["size"] != 0.0 ==> CalculatePosition(pd, elementId, "size", d, width, height) * 50.0 == e["size"])
  {
  }

  /** A percentage between 0 and 100 keeps the point on the page. */
  lemma CalculatePositionOnPage(pd: PositionData, elementId: string, d: real, width: real, height: real)
    requires width > 0.0 && height > 0.0 && 0.0 <= d && d <= width && d <= height
    requires elementId in pd
    requires forall prop :: prop in pd[elementId] ==> 0.0 <= pd[elementId][prop] <= 100.0
    ensures 0.0 <= CalculatePosition(pd, elementId, "x", d, width, height) <= width
    ensures 0.0 <= CalculatePosition(pd, elementId, "y", d, width, height) <= height
  {
    var e := pd[elementId];
    if "x" in e && e["x"] != 0.0 {
      PositionX(pd, elementId, d, width, height);
      PercentWithin(e["x"], width);
    }
    if "y" in e && e["y"] != 0.0 {
      PositionY(pd, elementId, d, width, height);
      PercentWithin(e["y"], height);
    }
  }

  /** A stored, non-zero x percentage is that share of the width. */
  lemma PositionX(pd: PositionData, elementId: string, d: real, width: real, height: real)
    requires elementId in pd && "x" in pd[elementId] && pd[elementId]["x"] != 0.0
    ensures CalculatePosition(pd, elementId, "x", d, width, height) == pd[elementId]["x"] / 100.0 * width
  {
  }

  /** A stored, non-zero y percentage is that share of the height, measured down from the top. */
  lemma PositionY(pd: PositionData, elementId: string, d: real, width: real, height: real)
    requires elementId in pd && "y" in pd[elementId] && pd[elementId]["y"] != 0.0
    ensures CalculatePosition(pd, elementId, "y", d, width, height) == height - pd[elementId]["y"] / 100.0 * height
  {
  }

  /** A percentage between 0 and 100 of a positive length lies within that length, and so does the rest. */
  lemma PercentWithin(pct: real, w: real)
    requires 0.0 <= pct <= 100.0 && w > 0.0
    ensures 0.0 <= pct / 100.0 * w <= w
    ensures 0.0 <= w - pct / 100.0 * w <= w
  {
    var p := pct / 100.0;
    assert 0.0 <= p <= 1.0;
    assert p * w <= 1.0 * w;
  }

  /** 50% on the A4 page is the centre: x 297.5, y 421, and a size of 1. */
  lemma CalculatePositionCentre()
    ensures var pd := map["logo" := map["x" := 50.0, "y" := 50.0, "size" := 50.0]];
            && CalculatePosition(pd, "logo", "x", 0.0, PageWidth, PageHeight) == 297.5
            && CalculatePosition(pd, "logo", "y", 0.0, PageWidth, PageHeight) == 421.0
            && CalculatePosition(pd, "logo", "size", 0.0, PageWidth, PageHeight) == 1.0
  {
  }

  /** The characters `parseInt` skips before a number (WhiteSpace and LineTerminator of ECMA-262). */
  predicate IsJsSpace(c: char) {
    var n := c as int;
    n == 0x09 || n == 0x0B || n == 0x0C || n == 0x20 || n == 0xA0 || n == 0xFEFF
    || n == 0x0A || n == 0x0D || n == 0x2028 || n == 0x2029
    || n == 0x1680 || (0x2000 <= n <= 0x200A) || n == 0x202F || n == 0x205F || n == 0x3000
  }

  function TrimStart(s: string): (r: string)
    ensures |r| <= |s| && r == s[|s| - |r|..]
    ensures r == [] || !IsJsSpace(r[0])
  {
    if s != [] && IsJsSpace(s[0]) then TrimStart(s[1..]) else s
  }

  /** The value of a hexadecimal digit of either case, or None. */
  function HexDigitValue(c: char): (v: Option<nat>)
    ensures v.Some? ==> v.value < 16
  {
    if '0' <= c <= '9' then Some(c as nat - '0' as nat)
    else if 'a' <= c <= 'f' then Some(c as nat - 'a' as nat + 10)
    else if 'A' <= c <= 'F' then Some(c as nat - 'A' as nat + 10)
    else None
  }

  /** Length of the longest prefix of hexadecimal digits. */
  function HexRun(s: string): (n: nat)
    ensures n <= |s|
    ensures forall k :: 0 <= k < n ==> HexDigitValue(s[k]).Some?
    ensures n < |s| ==> HexDigitValue(s[n]).None?
  {
    if s != [] && HexDigitValue(s[0]).Some? then 1 + HexRun(s[1..]) else 0
  }

  /** The number a string of hexadecimal digits denotes. */
  function HexValue(s: string): (v: nat)
    requires forall k :: 0 <= k < |s| ==> HexDigitValue(s[k]).Some?
    ensures v < Pow16(|s|)
  {
    if s == [] then 0 else HexValue(s[..|s| - 1]) * 16 + HexDigitValue(s[|s| - 1]).value
  }

  function Pow16(n: nat): (p: nat)
    ensures p >= 1
  {
    if n == 0 then 1 else 16 * Pow16(n - 1)
  }

  /** The longest prefix of `w` made of hexadecimal digits. */
  function LeadingHexDigits(w: string): (d: string)
    ensures d == w[..HexRun(w)]
    ensures forall k :: 0 <= k < |d| ==> HexDigitValue(d[k]).Some?
  {
    w[..HexRun(w)]
  }

  /**
   * `Number.parseInt(s, 16)`: skip leading white space, take an optional sign and an optional
   * 0x/0X prefix, then the longest run of hexadecimal digits; NaN when that run is empty.
   */
  function ParseIntHex(s: string): Num {
    var t := TrimStart(s);
    var negative := t != [] && t[0] == '-';
    var u := if t != [] && (t[0] == '-' || t[0] == '+') then t[1..] else t;
    var w := if |u| >= 2 && u[0] == '0' && (u[1] == 'x' || u[1] == 'X') then u[2..] else u;
    var digits := LeadingHexDigits(w);
    if digits == [] then NotANumber
    else
      var v := HexValue(digits) as real;
      Finite(if negative then -v else v)
  }

  lemma HexDigitNotSpace(c: char)
    requires HexDigitValue(c).Some?
    ensures !IsJsSpace(c) && c != '-' && c != '+' && c != 'x' && c != 'X'
  {
  }

  lemma {:induction false} HexRunAll(s: string)
    requires forall k :: 0 <= k < |s| ==> HexDigitValue(s[k]).Some?
    ensures HexRun(s) == |s|
  {
    if s != [] {
      HexRunAll(s[1..]);
    }
  }

  lemma HexValuePair(s: string)
    requires |s| == 2 && HexDigitValue(s[0]).Some? && HexDigitValue(s[1]).Some?
    ensures HexValue(s) == HexDigitValue(s[0]).value * 16 + HexDigitValue(s[1]).value
  {
    assert s[..1] == [s[0]];
    assert s[..1][..0] == [];
  }

  /** Two hexadecimal digits parse to their value, a number in [0, 255]. */
  lemma ParseIntHexPair(s: string)
    requires |s| == 2 && HexDigitValue(s[0]).Some? && HexDigitValue(s[1]).Some?
    ensures ParseIntHex(s) == Finite((HexDigitValue(s[0]).value * 16 + HexDigitValue(s[1]).value) as real)
    ensures 0.0 <= ParseIntHex(s).value <= 255.0
  {
    HexDigitNotSpace(s[0]);
    HexDigitNotSpace(s[1]);
    assert TrimStart(s) == s;
    HexRunAll(s);
    assert s[..2] == s;
    HexValuePair(s);
  }

  /** A text whose first character is no space, sign or digit parses to NaN. */
  lemma ParseIntHexNoDigit(s: string)
    requires s != [] && !IsJsSpace(s[0]) && s[0] != '-' && s[0] != '+' && HexDigitValue(s[0]).None?
    ensures ParseIntHex(s) == NotANumber
  {
    assert TrimStart(s) == s;
  }

  /**
   * `hexToRgb(hex)`: black unless the text is exactly 7 characters long; otherwise each pair
   * of characters after the first is parsed in base 16 and divided by 255. The surrounding
   * catch never runs, because `parseInt` answers NaN instead of throwing.
   */
  function HexToRgb(hex: string): Color {
    if hex == "" || |hex| != 7 then Black
    else Color(DivNum(ParseIntHex(hex[1..3]), 255.0),
               DivNum(ParseIntHex(hex[3..5]), 255.0),
               DivNum(ParseIntHex(hex[5..7]), 255.0))
  }

  /** `#` followed by six hexadecimal digits of either case. */
  predicate IsHexColor(s: string) {
    |s| == 7 && s[0] == '#' && forall k :: 1 <= k < 7 ==> HexDigitValue(s[k]).Some?
  }

  predicate UnitChannel(n: Num) {
    n.Finite? && 0.0 <= n.value <= 1.0
  }

  /** A well-formed colour gives three channels in [0, 1], each the byte value over 255. */
  lemma HexToRgbInRange(hex: string)
    requires IsHexColor(hex)
    ensures var c := HexToRgb(hex);
            UnitChannel(c.r) && UnitChannel(c.g) && UnitChannel(c.b)
    ensures HexToRgb(hex).r.value * 255.0 == (HexDigitValue(hex[1]).value * 16 + HexDigitValue(hex[2]).value) as real
  {
    var r, g, b := hex[1..3], hex[3..5], hex[5..7];
    assert r[0] == hex[1] && r[1] == hex[2];
    assert g[0] == hex[3] && g[1] == hex[4];
    assert b[0] == hex[5] && b[1] == hex[6];
    ParseIntHexPair(r);
    ParseIntHexPair(g);
    ParseIntHexPair(b);
  }

  /** Any length but 7 gives black, whatever the characters. */
  lemma HexToRgbWrongLength(hex: string)
    requires |hex| != 7
    ensures HexToRgb(hex) == Black
  {
  }

  lemma ParseZeroPair(s: string)
    requires s == "00"
    ensures ParseIntHex(s) == Finite(0.0)
  {
    assert TrimStart(s) == s;
    assert HexRun(s) == 2;
    assert s[..2] == s;
    assert HexValue(s) == 0;
  }

  /** The separator's default colour, "#000000", is black. */
  lemma HexToRgbDefault(hex: string)
    requires hex == "#000000"
    ensures HexToRgb(hex) == Black
  {
    ParseZeroPair(hex[1..3]);
    ParseZeroPair(hex[3..5]);
    ParseZeroPair(hex[5..7]);
  }

  /** A 7-character text with no hexadecimal digits does not give black: every channel is NaN. */
  lemma HexToRgbNotHex()
    ensures HexToRgb("#zzzzzz") == Color(NotANumber, NotANumber, NotANumber)
  {
    var hex := "#zzzzzz";
    assert hex[1..3] == "zz" && hex[3..5] == "zz" && hex[5..7] == "zz";
    ParseIntHexNoDigit("zz");
  }

  /** A sign slips through: "#-1ffff" has a red channel of -1/255, outside [0, 1]. */
  lemma HexToRgbSigned()
    ensures HexToRgb("#-1ffff").r == Finite(-1.0 / 255.0)
  {
    assert "#-1ffff"[1..3] == "-1";
    ParseMinusOne();
    assert DivNum(Finite(-1.0), 255.0) == Finite(-1.0 / 255.0);
  }

  /** `parseInt("-1", 16)` is -1: the sign is read, then one hexadecimal digit. */
  lemma ParseMinusOne()
    ensures ParseIntHex("-1") == Finite(-1.0)
  {
    var s := "-1";
    assert TrimStart(s) == s;
    assert s[1..] == "1";
    assert HexRun("1") == 1;
    assert "1"[..1] == "1";
    assert HexValue("1") == 1 by {
      assert "1"[..0] == "";
    }
  }

  /** Upper-case hex text of three bytes, written as a colour, reads back as those bytes over 255. */
  lemma HexToRgbOfBytes(r: ImageProcessor.byte, g: ImageProcessor.byte, b: ImageProcessor.byte)
    ensures var c := HexToRgb("#" + ImageProcessor.HexUpper([r, g, b]));
            c == Color(Finite(r as real / 255.0), Finite(g as real / 255.0), Finite(b as real / 255.0))
  {
    var bs: seq<ImageProcessor.byte> := [r, g, b];
    var x, y, z := ImageProcessor.HexByte(r), ImageProcessor.HexByte(g), ImageProcessor.HexByte(b);
    assert ImageProcessor.HexUpper(bs) == x + y + z by {
      assert bs[1..] == [g, b];
      assert bs[1..][1..] == [b];
      assert bs[1..][1..][1..] == [];
      assert ImageProcessor.HexUpper([b]) == z;
      assert ImageProcessor.HexUpper([g, b]) == y + z;
      assert ImageProcessor.HexUpper(bs) == x + (y + z);
    }
    var hex := "#" + (x + y + z);
    assert hex[1..3] == x && hex[3..5] == y && hex[5..7] == z;
    ChannelOfByte(r);
    ChannelOfByte(g);
    ChannelOfByte(b);
  }

  lemma ChannelOfByte(b: ImageProcessor.byte)
    ensures DivNum(ParseIntHex(ImageProcessor.HexByte(b)), 255.0) == Finite(b as real / 255.0)
  {
    ByteDigits(b);
    ParseIntHexPair(ImageProcessor.HexByte(b));
  }

  lemma ByteDigits(b: ImageProcessor.byte)
    ensures var h := ImageProcessor.HexByte(b);
            && HexDigitValue(h[0]) == Some((b / 16) as nat)
            && HexDigitValue(h[1]) == Some((b % 16) as nat)
            && b as nat == (b / 16) as nat * 16 + (b % 16) as nat
  {
  }
}
