/** The pure decisions inside `downloadImage`: the canvas the image is drawn
    onto, the MIME type it is encoded with and the name of the saved file.
    What the browser does (fetching, decoding, drawing, encoding, clicking a
    link) is given as an abstract outcome. */
module ImageExport {
  import opened Opt
  import opened Decimal

  const PngMime := "image/png"
  const JpegMime := "image/jpeg"
  const FilePrefix := "image-"

  /** The encoding asked of the canvas: PNG for the "png" format, JPEG for anything else. */
  function MimeType(format: string): (m: string)
    ensures m == PngMime <==> format == "png"
    ensures m == PngMime || m == JpegMime
  {
    if format == "png" then PngMime else JpegMime
  }

  /** The `download` attribute of the link: `image-<id>.<format>`. */
  function FileName(id: int, format: string): string {
    FilePrefix + IntText(id) + "." + format
  }

  /** The first position of `c` in `s`, if any. */
  function IndexOf(s: string, c: char): (r: Option<nat>)
    ensures r.Some? ==> r.value < |s| && s[r.value] == c && c !in s[..r.value]
    ensures r.None? ==> c !in s
    decreases |s|
  {
    if s == [] then None
    else if s[0] == c then Some(0)
    else match IndexOf(s[1..], c)
      case None => None
      case Some(k) => Some(k + 1)
  }

  /** Splits a saved file's name back into the image id and the format. */
  function ParseFileName(name: string): Option<(int, string)> {
    if |name| < |FilePrefix| || name[..|FilePrefix|] != FilePrefix then None
    else
      var rest := name[|FilePrefix|..];
      match IndexOf(rest, '.')
      case None => None
      case Some(k) =>
        match ParseInt(rest[..k])
        case None => None
        case Some(id) => Some((id, rest[k + 1..]))
  }

  /** The file name determines the id and the format it was made from. */
  lemma FileNameRoundTrip(id: int, format: string)
    ensures ParseFileName(FileName(id, format)) == Some((id, format))
  {
    var t := IntText(id);
    var name := FileName(id, format);
    var rest := t + "." + format;
    assert name == FilePrefix + rest;
    assert name[..|FilePrefix|] == FilePrefix;
    assert name[|FilePrefix|..] == rest;
    assert rest[|t|] == '.';
    var k := IndexOf(rest, '.');
    assert forall j :: 0 <= j < |t| ==> rest[j] == t[j];
    assert '.' in rest[..|t| + 1];
    assert k == Some(|t|);
    assert rest[..|t|] == t;
    assert rest[|t| + 1..] == format;
    IntTextRoundTrip(id);
  }

  /** Two downloads save under the same name exactly when id and format agree. */
  lemma FileNameInjective(id1: int, format1: string, id2: int, format2: string)
    ensures FileName(id1, format1) == FileName(id2, format2) <==> id1 == id2 && format1 == format2
  {
    FileNameRoundTrip(id1, format1);
    FileNameRoundTrip(id2, format2);
  }

  /** The decoded source image (`createImageBitmap`). */
  datatype Bitmap = Bitmap(width: int, height: int)

  /** What the browser did: whether `fetch` and `blob` succeeded, what
      `createImageBitmap` decoded (None when it rejected), and whether
      `getContext("2d")` returned a context. */
  datatype Browser = Browser(fetched: bool, decoded: Option<Bitmap>, hasContext: bool)

  datatype Rect = Rect(x: int, y: int, width: int, height: int)

  /** The file handed to the browser: its name, its encoding, the canvas size
      and the rectangle of the canvas the source image was drawn onto. */
  datatype SavedFile = SavedFile(fileName: string, mimeType: string, canvasWidth: int, canvasHeight: int, drawn: Rect)

  /** `downloadImage(url, id, format)` with the component's current `width`
      and `height`. A rejected fetch or decode is caught and nothing is saved;
      so it is when no 2D context is available. */
  function DownloadImage(url: string, id: int, format: string, width: int, height: int, browser: Browser): (r: Option<SavedFile>)
    ensures r.Some? <==> browser.fetched && browser.decoded.Some? && browser.hasContext
    ensures r.Some? ==> r.value.canvasWidth == width && r.value.canvasHeight == height
    ensures r.Some? ==> r.value.drawn == Rect(0, 0, r.value.canvasWidth, r.value.canvasHeight)
    ensures r.Some? ==> r.value.fileName == FileName(id, format) && r.value.mimeType == MimeType(format)
    ensures r.Some? ==> ParseFileName(r.value.fileName) == Some((id, format))
    ensures r.Some? ==> r.value.mimeType == (if format == "png" then PngMime else JpegMime)
  {
    if !browser.fetched || browser.decoded.None? || !browser.hasContext then None
    else
      FileNameRoundTrip(id, format);
      Some(SavedFile(FileName(id, format), MimeType(format), width, height, Rect(0, 0, width, height)))
  }

  /** Stretch to fit: the saved file does not depend on the source image's
      dimensions, so its aspect ratio is not preserved. */
  lemma IgnoresSourceSize(url: string, id: int, format: string, width: int, height: int, browser: Browser, source: Bitmap)
    requires browser.decoded.Some?
    ensures DownloadImage(url, id, format, width, height, browser)
         == DownloadImage(url, id, format, width, height, browser.(decoded := Some(source)))
  {
  }
}
