/**
 * The server's image handling: validation of `data:` URLs (RFC 2397, section 3), the
 * image-type classifier, and embedding into a PDF document with a PNG-then-JPEG fallback.
 * Base64 decoding and pdf-lib's embedders are given as parameters; an embedder that
 * throws is an embedder that returns None.
 */
module ImageProcessor {
  import opened Wrappers
  import opened Js

  newtype byte = b: int | 0 <= b < 256

  /** A strictly positive pixel extent, as pdf-lib reports for an embedded image. */
  type Extent = r: real | r > 0.0 witness 1.0

  /** An image embedded in the PDF document. */
  datatype Embedded = Embedded(handle: nat, width: Extent, height: Extent)

  /** The document's `embedPng` and `embedJpg`; None when the call throws. */
  datatype PdfDoc = PdfDoc(embedPng: seq<byte> -> Option<Embedded>, embedJpg: seq<byte> -> Option<Embedded>)

  /** `Buffer.from(text, "base64")`, which never throws on a string. */
  type Decoder = string -> seq<byte>

  /** `maxFileSize`: 50 MiB, counted in characters of the data URL. */
  const MaxFileSize: nat := 50 * 1024 * 1024

  datatype Verdict = Accepted | Rejected(error: string)

  /** `validateImage(imageData)`: four checks, in this order. */
  function ValidateImage(v: Value): Verdict {
    if !Truthy(v) then Rejected("No image data provided")
    else if !v.Str? then Rejected("Invalid image data format")
    else if !StartsWith(v.s, "data:") then Rejected("Invalid data URL format")
    else if |v.s| > MaxFileSize then Rejected("Image file too large")
    else Accepted
  }

  /** Accepted exactly for a string that starts with "data:" and is at most 50 MiB long. */
  lemma ValidateImageAccepts(v: Value)
    ensures ValidateImage(v) == Accepted <==> v.Str? && StartsWith(v.s, "data:") && |v.s| <= MaxFileSize
  {
  }

  /** Each rejection names the first check that fails. */
  lemma ValidateImageOrder(v: Value)
    ensures !Truthy(v) ==> ValidateImage(v) == Rejected("No image data provided")
    ensures Truthy(v) && !v.Str? ==> ValidateImage(v) == Rejected("Invalid image data format")
    ensures v.Str? && v.s != "" && !StartsWith(v.s, "data:") ==> ValidateImage(v) == Rejected("Invalid data URL format")
    ensures v.Str? && StartsWith(v.s, "data:") && |v.s| > MaxFileSize ==> ValidateImage(v) == Rejected("Image file too large")
  {
  }

  datatype Outcome = Processed(processedImageData: Value, message: string) | Failed(message: string)

  /** `processImage(imageData, imageType)`; the conversion step hands the data back as it is. */
  function ProcessImage(v: Value, imageType: string): Outcome {
    match ValidateImage(v)
    case Rejected(error) => Failed(error)
    case Accepted => Processed(v, imageType + " image processed successfully")
  }

  /** Processing succeeds exactly when validation accepts, returns the input unchanged, and otherwise reports the validation error. */
  lemma ProcessImageFollowsValidation(v: Value, imageType: string)
    ensures ProcessImage(v, imageType).Processed? <==> ValidateImage(v) == Accepted
    ensures ProcessImage(v, imageType).Processed? ==> ProcessImage(v, imageType).processedImageData == v
    ensures ValidateImage(v).Rejected? ==> ProcessImage(v, imageType) == Failed(ValidateImage(v).error)
  {
  }

  /** An upper-case hexadecimal digit. */
  function HexDigit(n: nat): (c: char)
    requires n < 16
    ensures '0' <= c <= '9' || 'A' <= c <= 'F'
  {
    if n < 10 then (48 + n) as char else (55 + n) as char
  }

  lemma HexDigitInjective(m: nat, n: nat)
    requires m < 16 && n < 16 && HexDigit(m) == HexDigit(n)
    ensures m == n
  {
  }

  /** One byte as two upper-case hex digits. */
  function HexByte(b: byte): string {
    [HexDigit((b / 16) as nat), HexDigit((b % 16) as nat)]
  }

  lemma HexByteInjective(a: byte, b: byte)
    requires HexByte(a) == HexByte(b)
    ensures a == b
  {
    assert HexByte(a)[0] == HexByte(b)[0] && HexByte(a)[1] == HexByte(b)[1];
    HexDigitInjective((a / 16) as nat, (b / 16) as nat);
    HexDigitInjective((a % 16) as nat, (b % 16) as nat);
  }

  /** `bytes.toString("hex").toUpperCase()` */
  function HexUpper(bs: seq<byte>): (h: string)
    ensures |h| == 2 * |bs|
  {
    if bs == [] then "" else HexByte(bs[0]) + HexUpper(bs[1..])
  }

  lemma {:induction false} HexUpperAppend(a: seq<byte>, b: seq<byte>)
    ensures HexUpper(a + b) == HexUpper(a) + HexUpper(b)
  {
    if a != [] {
      assert (a + b)[1..] == a[1..] + b;
      HexUpperAppend(a[1..], b);
    } else {
      assert a + b == b;
    }
  }

  /** The hex text of bs starts with the hex text of p exactly when bs starts with p. */
  lemma {:induction false} HexUpperPrefix(bs: seq<byte>, p: seq<byte>)
    ensures StartsWith(HexUpper(bs), HexUpper(p)) <==> |p| <= |bs| && bs[..|p|] == p
  {
    if p != [] && |p| <= |bs| {
      var h := HexUpper(bs);
      var hp := HexUpper(p);
      assert h == HexByte(bs[0]) + HexUpper(bs[1..]);
      assert hp == HexByte(p[0]) + HexUpper(p[1..]);
      HexUpperPrefix(bs[1..], p[1..]);
      if StartsWith(h, hp) {
        assert h[..2] == hp[..2];
        assert HexByte(bs[0]) == h[..2] && HexByte(p[0]) == hp[..2];
        HexByteInjective(bs[0], p[0]);
        assert h[2..][..|hp| - 2] == hp[2..];
        assert bs[1..][..|p| - 1] == p[1..];
        assert bs[..|p|] == [bs[0]] + bs[1..][..|p| - 1];
        assert p == [p[0]] + p[1..];
      }
      if bs[..|p|] == p {
        assert bs[0] == p[0];
        assert bs[1..][..|p| - 1] == p[1..];
        assert h[2..][..|hp| - 2] == hp[2..];
        assert h[..|hp|] == h[..2] + h[2..][..|hp| - 2];
      }
    }
  }

  /** The PNG file signature's first four bytes (ISO/IEC 15948, section 5.2), as hex text and as bytes. */
  const PngHex: string := "89504E47"
  const PngSignature: seq<byte> := [0x89, 0x50, 0x4E, 0x47]
  /** The JPEG start-of-image marker FF D8 (ITU-T T.81, Table B.1) and the marker prefix that follows. */
  const JpegHex: string := "FFD8FF"
  const JpegMarker: seq<byte> := [0xFF, 0xD8, 0xFF]
  /** "<svg" in hex. */
  const SvgHex: string := "3C737667"

  lemma SignaturesInHex()
    ensures HexUpper(PngSignature) == PngHex
    ensures HexUpper(JpegMarker) == JpegHex
  {
    assert HexUpper(PngSignature[3..]) == "47";
    assert HexUpper(PngSignature[2..]) == "4E47";
    assert HexUpper(PngSignature[1..]) == "504E47";
    assert HexUpper(JpegMarker[2..]) == "FF";
    assert HexUpper(JpegMarker[1..]) == "D8FF";
  }

  datatype ImageType = Png | Jpeg | Svg | UnknownType

  /** The hex text of at most the first 8 bytes. */
  function Header(bytes: seq<byte>): string {
    HexUpper(if |bytes| <= 8 then bytes else bytes[..8])
  }

  /** The byte-sniffing half of `detectImageType`. */
  function ClassifyHeader(bytes: seq<byte>): ImageType {
    var header := Header(bytes);
    if StartsWith(header, PngHex) then Png
    else if StartsWith(header, JpegHex) then Jpeg
    else if Includes(header, SvgHex) then Svg
    else UnknownType
  }

  lemma {:induction false} HeaderPrefix(bytes: seq<byte>, p: seq<byte>)
    requires |p| <= 8
    ensures StartsWith(Header(bytes), HexUpper(p)) <==> |p| <= |bytes| && bytes[..|p|] == p
  {
    if |bytes| <= 8 {
      HexUpperPrefix(bytes, p);
    } else {
      var front := bytes[..8];
      assert Header(bytes) == HexUpper(front);
      HexUpperPrefix(front, p);
      assert front[..|p|] == bytes[..|p|];
    }
  }

  /** Sniffed as PNG exactly when the bytes start with the PNG signature. */
  lemma ClassifyPng(bytes: seq<byte>)
    ensures ClassifyHeader(bytes) == Png <==> |bytes| >= 4 && bytes[..4] == PngSignature
  {
    SignaturesInHex();
    HeaderPrefix(bytes, PngSignature);
  }

  /** Sniffed as JPEG exactly when the bytes start with FF D8 FF. */
  lemma ClassifyJpeg(bytes: seq<byte>)
    ensures ClassifyHeader(bytes) == Jpeg <==> |bytes| >= 3 && bytes[..3] == JpegMarker
  {
    SignaturesInHex();
    HeaderPrefix(bytes, PngSignature);
    HeaderPrefix(bytes, JpegMarker);
    if |bytes| >= 3 && bytes[..3] == JpegMarker {
      assert bytes[0] == 0xFF;
    }
  }

  /**
   * `detectImageType(imageData)`: MIME substrings first, then the bytes after the first comma.
   * Without a comma there are no such bytes and `Buffer.from(undefined)` throws: Failure.
   */
  function DetectImageType(s: string, decode: Decoder): Result<ImageType, string> {
    if Includes(s, "image/png") then Success(Png)
    else if Includes(s, "image/jpeg") || Includes(s, "image/jpg") then Success(Jpeg)
    else if Includes(s, "image/svg+xml") then Success(Svg)
    else
      var parts := Split(s, ',');
      if |parts| < 2 then Failure("TypeError")
      else Success(ClassifyHeader(decode(parts[1])))
  }

  /** A MIME type named in the URL decides before any byte is looked at. */
  lemma DetectMimeFirst(s: string, decode: Decoder, decode': Decoder)
    ensures Includes(s, "image/png") ==> DetectImageType(s, decode) == Success(Png)
    ensures !Includes(s, "image/png") && Includes(s, "image/jpg") ==> DetectImageType(s, decode) == Success(Jpeg)
    ensures Includes(s, "image/png") || Includes(s, "image/jpeg") || Includes(s, "image/jpg") || Includes(s, "image/svg+xml")
            ==> DetectImageType(s, decode) == DetectImageType(s, decode')
  {
  }

  /** "<svg" in the first 8 bytes is sniffed as SVG. */
  lemma ClassifySvgBytes()
    ensures ClassifyHeader([0x3C, 0x73, 0x76, 0x67]) == Svg
  {
    var h := Header([0x3C, 0x73, 0x76, 0x67]);
    assert h == SvgHex by {
      var bs: seq<byte> := [0x3C, 0x73, 0x76, 0x67];
      assert HexUpper(bs[3..]) == "67";
      assert HexUpper(bs[2..]) == "7667";
      assert HexUpper(bs[1..]) == "737667";
    }
    assert MatchAt(h, SvgHex, 0);
    ClassifyPng([0x3C, 0x73, 0x76, 0x67]);
    ClassifyJpeg([0x3C, 0x73, 0x76, 0x67]);
  }

  /**
   * The SVG test is a substring test on hex text, so it also matches across byte boundaries:
   * 03 C7 37 66 70 has no "<svg" in it, yet its hex text contains "3C737667".
   */
  lemma ClassifySvgOffByNibble()
    ensures ClassifyHeader([0x03, 0xC7, 0x37, 0x66, 0x70]) == Svg
  {
    var bs: seq<byte> := [0x03, 0xC7, 0x37, 0x66, 0x70];
    var h := Header(bs);
    assert h == "03C7376670" by {
      assert HexUpper(bs[4..]) == "70";
      assert HexUpper(bs[3..]) == "6670";
      assert HexUpper(bs[2..]) == "376670";
      assert HexUpper(bs[1..]) == "C7376670";
    }
    assert MatchAt(h, SvgHex, 1);
    ClassifyPng(bs);
    ClassifyJpeg(bs);
  }

  /** The base64 part `embedImageInPDF` decodes: after the first comma, else from the sixth character on. */
  function Base64Part(s: string): string {
    if Includes(s, ",") then
      var parts := Split(s, ',');
      parts[1]
    else if |s| <= 5 then ""
    else s[5..]
  }

  /** `embedImageInPDF(pdfDoc, imageData)`: None for every failure, never an exception. */
  function EmbedImageInPdf(doc: PdfDoc, decode: Decoder, v: Value): Option<Embedded> {
    if !Truthy(v) || !v.Str? then None
    else
      var base64 := Base64Part(v.s);
      if base64 == "" then None
      else
        var bytes := decode(base64);
        match DetectImageType(v.s, decode)
        case Failure(_) => None
        case Success(Png) => doc.embedPng(bytes)
        case Success(Jpeg) => doc.embedJpg(bytes)
        case Success(Svg) => None
        case Success(UnknownType) =>
          if doc.embedPng(bytes).Some? then doc.embedPng(bytes) else doc.embedJpg(bytes)
  }

  /** Missing, non-string, empty-payload and SVG data all embed as nothing. */
  lemma EmbedNullCases(doc: PdfDoc, decode: Decoder, v: Value)
    ensures !Truthy(v) || !v.Str? ==> EmbedImageInPdf(doc, decode, v).None?
    ensures v.Str? && Base64Part(v.s) == "" ==> EmbedImageInPdf(doc, decode, v).None?
    ensures v.Str? && DetectImageType(v.s, decode) == Success(Svg) ==> EmbedImageInPdf(doc, decode, v).None?
  {
  }

  /** With a comma in the URL, the bytes classified are the bytes embedded. */
  lemma EmbedDispatch(doc: PdfDoc, decode: Decoder, s: string)
    requires Includes(s, ",") && Base64Part(s) != ""
    requires !Includes(s, "image/png") && !Includes(s, "image/jpeg") && !Includes(s, "image/jpg") && !Includes(s, "image/svg+xml")
    ensures var bytes := decode(Base64Part(s));
            var r := EmbedImageInPdf(doc, decode, Str(s));
            && (|bytes| >= 4 && bytes[..4] == PngSignature ==> r == doc.embedPng(bytes))
            && (|bytes| >= 3 && bytes[..3] == JpegMarker ==> r == doc.embedJpg(bytes))
            && (ClassifyHeader(bytes) == UnknownType ==>
                  (r.Some? <==> doc.embedPng(bytes).Some? || doc.embedJpg(bytes).Some?)
                  && (doc.embedPng(bytes).Some? ==> r == doc.embedPng(bytes)))
  {
    var bytes := decode(Base64Part(s));
    ClassifyPng(bytes);
    ClassifyJpeg(bytes);
  }

  /** Without a comma and without a MIME type, classification throws and the embed yields nothing. */
  lemma EmbedNoCommaNoMime(doc: PdfDoc, decode: Decoder, s: string)
    requires !Includes(s, ",")
    requires !Includes(s, "image/png") && !Includes(s, "image/jpeg") && !Includes(s, "image/jpg") && !Includes(s, "image/svg+xml")
    ensures EmbedImageInPdf(doc, decode, Str(s)).None?
  {
  }

  /** The embed path never consults validation: a URL rejected as too large still embeds. */
  lemma EmbedIgnoresSizeLimit(doc: PdfDoc, decode: Decoder, s: string)
    requires StartsWith(s, "data:image/png;base64,") && |s| > MaxFileSize
    requires doc.embedPng(decode(Base64Part(s))).Some? && Base64Part(s) != ""
    ensures ValidateImage(Str(s)) == Rejected("Image file too large")
    ensures EmbedImageInPdf(doc, decode, Str(s)).Some?
  {
    var prefix := "data:image/png;base64,";
    assert s[..|prefix|] == prefix;
    assert s[..5] == prefix[..5] == "data:";
    assert s[5..14] == prefix[5..14] == "image/png";
    assert MatchAt(s, "image/png", 5);
  }
}
