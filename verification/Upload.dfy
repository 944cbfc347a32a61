/** Accepting an upload: detection, limits, dimensions and metadata stripping together. */
module Upload {
  import opened Bytes
  import opened Contracts
  import Jpeg
  import Pdf
  import Png
  import Utf8

  /** `Other` is any other declared type, or content that is none of the four. */
  datatype Media = PdfFile | PngImage | JpegImage | Text | Other

  const PDF_SIGNATURE: Data := [0x25, 0x50, 0x44, 0x46, 0x2d]
  const PNG_SIGNATURE: Data := [0x89, 0x50, 0x4e, 0x47] + [0x0d, 0x0a, 0x1a, 0x0a]
  const JPEG_SIGNATURE: Data := [0xff, 0xd8, 0xff]

  const MAX_BYTES := 10 * 1024 * 1024
  const MAX_PAGES := 20
  const MAX_PIXELS := 20_000_000
  const MAX_CHARACTERS := 50_000

  /** The decoded text, without a byte order mark. */
  function TextOf(b: Data): Option<seq<nat>> {
    match Utf8.Decode(b)
    case None => None
    case Some(text) => Some(if text != [] && text[0] == 0xfeff then text[1..] else text)
  }

  /** What the content is, whatever it was declared to be. */
  function Detect(b: Data): Media {
    if PDF_SIGNATURE <= b then PdfFile
    else if PNG_SIGNATURE <= b then PngImage
    else if JPEG_SIGNATURE <= b then JpegImage
    else if TextOf(b).Some? && 0 !in TextOf(b).value then Text
    else Other
  }

  datatype Artifact = Artifact(media: Media, sanitized: Data, pageCount: Option<nat>, size: Option<(nat, nat)>)

  function Dimensions(media: Media, b: Data): Result<(nat, nat)>
    requires media.PngImage? || media.JpegImage?
  {
    if media.PngImage? then
      match Png.DimensionsOf(b)
      case Err(e) => Err(e)
      case Ok(d) => Ok((d.width, d.height))
    else
      match Jpeg.FrameAt(b, 2)
      case Err(e) => Err(e)
      case Ok(d) => Ok((d.width, d.height))
  }

  function AcceptImage(media: Media, b: Data): Result<Artifact>
    requires media.PngImage? || media.JpegImage?
  {
    match Dimensions(media, b)
    case Err(e) => Err(e)
    case Ok((width, height)) =>
      if width * height > MAX_PIXELS then Err("IMAGE_PIXEL_LIMIT")
      else
        match if media.PngImage? then Png.Strip(b) else Jpeg.Strip(b)
        case Err(e) => Err(e)
        case Ok(sanitized) => Ok(Artifact(media, sanitized, None, Some((width, height))))
  }

  function AcceptPdf(b: Data): Result<Artifact> {
    var pages := Pdf.PagesFrom(b, 0);
    if pages == 0 then Err("MALFORMED_FILE")
    else if pages > MAX_PAGES then Err("PDF_PAGE_LIMIT")
    else Ok(Artifact(PdfFile, b, Some(pages), None))
  }

  function AcceptText(b: Data): Result<Artifact> {
    if |TextOf(b).GetOr([])| > MAX_CHARACTERS then Err("TEXT_CHARACTER_LIMIT") else Ok(Artifact(Text, b, None, None))
  }

  function Accept(declared: Media, b: Data): Result<Artifact> {
    if b == [] then Err("EMPTY_FILE")
    else if |b| > MAX_BYTES then Err("FILE_TOO_LARGE")
    else if Detect(b).Other? then Err("UNSUPPORTED_MEDIA_TYPE")
    else if Detect(b) != declared then Err("MEDIA_TYPE_MISMATCH")
    else
      match declared
      case Text => AcceptText(b)
      case PdfFile => AcceptPdf(b)
      case _ => AcceptImage(declared, b)
  }

  method StartsWith(bytes: array<Byte>, signature: Data) returns (matches: bool)
    ensures matches <==> signature <= bytes[..]
  {
    if |signature| > bytes.Length {
      return false;
    }
    for i := 0 to |signature|
      invariant signature[..i] == bytes[..i]
    {
      if bytes[i] != signature[i] {
        assert bytes[..][i] != signature[i];
        return false;
      }
    }
    assert signature[..|signature|] == signature && bytes[..][..|signature|] == bytes[..|signature|];
    matches := true;
  }

  method DetectMediaType(bytes: array<Byte>) returns (media: Media)
    ensures media == Detect(bytes[..])
  {
    var pdf := StartsWith(bytes, PDF_SIGNATURE);
    if pdf { return PdfFile; }
    var png := StartsWith(bytes, PNG_SIGNATURE);
    if png { return PngImage; }
    var jpeg := StartsWith(bytes, JPEG_SIGNATURE);
    if jpeg { return JpegImage; }
    var text := TextOf(bytes[..]);
    media := if text.Some? && 0 !in text.value then Text else Other;
  }

  method AcceptUpload(declared: Media, bytes: array<Byte>) returns (result: Result<Artifact>)
    ensures result == Accept(declared, bytes[..])
  {
    if bytes.Length == 0 { return Err("EMPTY_FILE"); }
    if bytes.Length > MAX_BYTES { return Err("FILE_TOO_LARGE"); }
    var detected := DetectMediaType(bytes);
    if detected.Other? { return Err("UNSUPPORTED_MEDIA_TYPE"); }
    if declared != detected { return Err("MEDIA_TYPE_MISMATCH"); }
    if detected.Text? {
      var text := TextOf(bytes[..]);
      if |text.value| > MAX_CHARACTERS { return Err("TEXT_CHARACTER_LIMIT"); }
      return Ok(Artifact(Text, bytes[..], None, None));
    }
    if detected.PdfFile? {
      var pageCount := Pdf.PagesFrom(bytes[..], 0);
      if pageCount == 0 { return Err("MALFORMED_FILE"); }
      if pageCount > MAX_PAGES { return Err("PDF_PAGE_LIMIT"); }
      return Ok(Artifact(PdfFile, bytes[..], Some(pageCount), None));
    }
    result := SanitizeImage(detected, bytes);
  }

  method SanitizeImage(detected: Media, bytes: array<Byte>) returns (result: Result<Artifact>)
    requires detected.PngImage? || detected.JpegImage?
    ensures result == AcceptImage(detected, bytes[..])
  {
    var width, height;
    if detected.PngImage? {
      var dimensions := Png.DimensionsOf(bytes[..]);
      if dimensions.Err? { return Err(dimensions.error); }
      width, height := dimensions.value.width, dimensions.value.height;
    } else {
      var dimensions := Jpeg.JpegDimensions(bytes);
      if dimensions.Err? { return Err(dimensions.error); }
      width, height := dimensions.value.width, dimensions.value.height;
    }
    if width * height > MAX_PIXELS { return Err("IMAGE_PIXEL_LIMIT"); }
    var stripped;
    if detected.PngImage? {
      stripped := Png.StripPngMetadata(bytes);
    } else {
      stripped := Jpeg.StripJpegMetadata(bytes);
    }
    if stripped.Err? { return Err(stripped.error); }
    result := Ok(Artifact(detected, stripped.value[..], None, Some((width, height))));
  }

  /** The signatures as they are spelled: "%PDF-", 0x89 "PNG" CR LF 0x1a LF, and start of image with a marker. */
  lemma DetectExact(b: Data)
    ensures Detect(b).PdfFile? <==> Ascii("%PDF-") <= b
    ensures Detect(b).PngImage? <==> [0x89] + Ascii("PNG") + [13, 10, 26, 10] <= b
    ensures Detect(b).JpegImage? <==> |b| >= 3 && b[0] == 0xff && b[1] == 0xd8 && b[2] == 0xff
  {
    assert Ascii("%PDF-") == PDF_SIGNATURE && [0x89] + Ascii("PNG") + [13, 10, 26, 10] == PNG_SIGNATURE;
    assert PDF_SIGNATURE[0] == 0x25 && PNG_SIGNATURE[0] == 0x89 && JPEG_SIGNATURE[0] == 0xff;
  }

  /** What is accepted: at most 10 MiB of what was declared, within the limit of its type. */
  lemma AcceptedIff(declared: Media, b: Data)
    ensures Accept(declared, b).Ok? <==>
      && 0 < |b| <= 10_485_760 && declared == Detect(b) && !declared.Other?
      && (declared.Text? ==> |TextOf(b).value| <= 50_000)
      && (declared.PdfFile? ==> 1 <= |Pdf.PageStarts(b, 0)| <= 20)
      && (declared.PngImage? ==>
        Png.Strip(b).Ok? && Png.DimensionsOf(b).Ok?
        && Png.DimensionsOf(b).value.width * Png.DimensionsOf(b).value.height <= 20_000_000)
      && (declared.JpegImage? ==>
        Jpeg.Strip(b).Ok? && Jpeg.FrameAt(b, 2).Ok?
        && Jpeg.FrameAt(b, 2).value.width * Jpeg.FrameAt(b, 2).value.height <= 20_000_000)
  {
    Pdf.PagesExact(b, 0);
  }

  /** Content that does not start like a PDF is taken for text exactly if it encodes characters other than NUL. */
  lemma TextExact(b: Data)
    requires !(PDF_SIGNATURE <= b)
    ensures Detect(b).Text? <==> exists text :: Utf8.Scalars(text) && 0 !in text && Utf8.Encode(text) == b
  {
    if text :| Utf8.Scalars(text) && 0 !in text && Utf8.Encode(text) == b {
      Utf8.DecodeExact(b, text);
    }
    if Detect(b).Text? {
      var text := Utf8.Decode(b).value;
      Utf8.DecodeExact(b, text);
      assert forall c <- text :: c == text[0] || c in text[1..];
    }
  }

  lemma {:induction false} KeptIsShorter(pieces: seq<Data>, removable: Data -> bool)
    ensures |Concat(Kept(pieces, removable))| <= |Concat(pieces)|
  {
    if pieces != [] {
      KeptHead(pieces, removable);
      KeptIsShorter(pieces[1..], removable);
    }
  }

  /** What the formats guarantee: IHDR comes first, a start of frame holds its dimensions. */
  predicate Standard(media: Media, b: Data) {
    match media
    case PngImage => |b| >= 8 && Png.Walk(b[8..]).Ok? && Png.HeaderFirst(Png.Walk(b[8..]).value)
    case JpegImage => Jpeg.Walk(From(b, 2)).Ok? && Jpeg.FrameComplete(Jpeg.Walk(From(b, 2)).value.segments)
    case _ => true
  }

  lemma PngAgain(b: Data, stripped: Data)
    requires Png.Strip(b) == Ok(stripped) && Detect(b).PngImage? && Standard(PngImage, b)
    ensures Detect(stripped).PngImage? && Png.Strip(stripped) == Ok(stripped) && Standard(PngImage, stripped)
    ensures Dimensions(PngImage, stripped) == Dimensions(PngImage, b) && 0 < |stripped| <= |b|
  {
    Png.StripExact(b, stripped);
    Png.StripKeepsDimensions(b, stripped);
    KeptIsShorter(Png.Walk(b[8..]).value, Png.Removable);
    assert PNG_SIGNATURE == b[..8];
  }

  lemma KeptStartsWithSegment(segments: seq<Data>)
    requires Jpeg.AllSegments(segments) && Jpeg.FrameIn(Kept(segments, Jpeg.Removable)).Ok?
    ensures Concat(Kept(segments, Jpeg.Removable)) != [] && Concat(Kept(segments, Jpeg.Removable))[0] == 0xff
  {
    var kept := Kept(segments, Jpeg.Removable);
    KeptIsClean(segments, Jpeg.Removable);
    assert kept[0] in kept && Jpeg.Segment(kept[0]);
  }

  lemma StillJpeg(start: Data, body: Data, tail: Data)
    requires |start| == 2 && start[0] == 0xff && start[1] == 0xd8 && body != [] && body[0] == 0xff
    ensures Detect(start + body + tail).JpegImage?
  {
    var b := start + body + tail;
    assert b[0] == 0xff && b[1] == 0xd8 && b[2] == 0xff;
    assert JPEG_SIGNATURE == b[..3];
    assert PDF_SIGNATURE[0] != b[0] && PNG_SIGNATURE[0] != b[0];
  }

  lemma JpegStaysJpeg(b: Data, stripped: Data)
    requires Jpeg.Strip(b) == Ok(stripped) && Detect(b).JpegImage?
    requires Jpeg.FrameIn(Jpeg.Walk(From(b, 2)).value.segments).Ok?
    ensures Detect(stripped).JpegImage? && 0 < |stripped| <= |b|
  {
    var w := Jpeg.Walk(From(b, 2)).value;
    Jpeg.WalkCuts(From(b, 2));
    Jpeg.KeptHasSameFrame(w.segments);
    KeptStartsWithSegment(w.segments);
    KeptIsShorter(w.segments, Jpeg.Removable);
    assert JPEG_SIGNATURE[0] == b[0] && JPEG_SIGNATURE[1] == b[1];
    StillJpeg(b[..2], Concat(Kept(w.segments, Jpeg.Removable)), w.tail);
  }

  lemma JpegAgain(b: Data, stripped: Data)
    requires Jpeg.Strip(b) == Ok(stripped) && Detect(b).JpegImage? && Standard(JpegImage, b)
    requires Dimensions(JpegImage, b).Ok?
    ensures Detect(stripped).JpegImage? && Jpeg.Strip(stripped) == Ok(stripped)
    ensures Dimensions(JpegImage, stripped) == Dimensions(JpegImage, b) && 0 < |stripped| <= |b|
  {
    Jpeg.StripIdempotent(b, stripped);
    Jpeg.StripKeepsDimensions(b, stripped);
    JpegStaysJpeg(b, stripped);
  }

  /**
   * Accepting what was accepted changes nothing: the sanitized file is detected as the same type,
   * passes every limit, has the same pages or dimensions, and loses not one more byte.
   */
  lemma AcceptedAgain(declared: Media, b: Data, artifact: Artifact)
    requires Accept(declared, b) == Ok(artifact) && Standard(declared, b)
    ensures Accept(declared, artifact.sanitized) == Ok(artifact)
  {
    match declared
    case PngImage => PngAgain(b, artifact.sanitized);
    case JpegImage => JpegAgain(b, artifact.sanitized);
    case _ =>
  }
}
