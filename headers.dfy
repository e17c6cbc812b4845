/**
 * Per-file upload headers: the content type from the extension table and a
 * cache policy chosen by the first matching rule over the file's path.
 */
module Headers {
  import opened Effects
  import opened Text

  const NoCache := "public, max-age=0, must-revalidate"
  const OneYear := "public, max-age=31536000, immutable"
  const FiveMinutes := "public, max-age=300"
  const OctetStream := "application/octet-stream"

  /** The build tool's internal asset directory, matched anywhere in the path. */
  const NextAssetDir := "/_next/"

  /** Extensions of fingerprinted static assets, safe to cache for a year. */
  const FingerprintedExtensions: seq<string> :=
    [".js", ".css", ".png", ".jpg", ".jpeg", ".webp", ".svg", ".ico", ".json", ".woff", ".woff2"]

  datatype Headers = Headers(contentType: string, cacheControl: string)

  /** Python's `any(s.endswith(e) for e in exts)`, scanning the list in order. */
  function EndsWithAny(s: string, exts: seq<string>): bool {
    if exts == [] then false else EndsWith(s, exts[0]) || EndsWithAny(s, exts[1..])
  }

  lemma {:induction false} EndsWithAnyIff(s: string, exts: seq<string>)
    ensures EndsWithAny(s, exts) <==> exists e :: e in exts && EndsWith(s, e)
    decreases |exts|
  {
    if exts != [] {
      EndsWithAnyIff(s, exts[1..]);
      assert forall e :: e in exts <==> e == exts[0] || e in exts[1..];
    }
  }

  predicate IsHtml(path: string) {
    EndsWith(path, ".html")
  }

  /** A path the year-long policy covers, unless an earlier rule matched. */
  predicate IsFingerprinted(path: string) {
    Contains(path, NextAssetDir) || exists e :: e in FingerprintedExtensions && EndsWith(path, e)
  }

  function CachePolicy(path: string): string {
    if EndsWith(path, ".html") then NoCache
    else if Contains(path, NextAssetDir) || EndsWithAny(path, FingerprintedExtensions) then OneYear
    else FiveMinutes
  }

  /**
   * The content type: the table's answer for the path (`mime` stands for the
   * standard extension table), or the generic binary type when the table has
   * no answer or an empty one.
   */
  function ContentType(path: string, mime: string -> Option<string>): (ctype: string)
    ensures ctype != ""
    ensures mime(path).Some? && mime(path).value != "" ==> ctype == mime(path).value
    ensures mime(path).None? ==> ctype == OctetStream
  {
    var guess := mime(path);
    if guess.None? || guess.value == "" then OctetStream else guess.value
  }

  function GuessHeaders(path: string, mime: string -> Option<string>): (h: Headers)
    ensures h.contentType != ""
    ensures h.contentType == ContentType(path, mime)
    ensures h.cacheControl == NoCache || h.cacheControl == OneYear || h.cacheControl == FiveMinutes
  {
    Headers(ContentType(path, mime), CachePolicy(path))
  }

  /** An `.html` path is always revalidated, even under the asset directory. */
  lemma HtmlRevalidates(path: string, mime: string -> Option<string>)
    ensures GuessHeaders(path, mime).cacheControl == NoCache <==> IsHtml(path)
  {
  }

  /** Outside `.html`, the year-long policy applies exactly to the fingerprinted paths. */
  lemma OneYearIffFingerprinted(path: string, mime: string -> Option<string>)
    ensures GuessHeaders(path, mime).cacheControl == OneYear <==> !IsHtml(path) && IsFingerprinted(path)
  {
    EndsWithAnyIff(path, FingerprintedExtensions);
  }

  /** Everything else gets the five-minute default. */
  lemma FiveMinutesOtherwise(path: string, mime: string -> Option<string>)
    ensures GuessHeaders(path, mime).cacheControl == FiveMinutes <==> !IsHtml(path) && !IsFingerprinted(path)
  {
    EndsWithAnyIff(path, FingerprintedExtensions);
  }

  /** Every listed extension, on any path that is not `.html`, is cached for a year. */
  lemma FingerprintedExtensionsCachedForAYear(path: string, ext: string, mime: string -> Option<string>)
    requires ext in FingerprintedExtensions && EndsWith(path, ext)
    ensures GuessHeaders(path, mime).cacheControl == OneYear
  {
    EndsWithAnyIff(path, FingerprintedExtensions);
    assert path[|path| - 1] == ext[|ext| - 1];
    assert ext[|ext| - 1] != 'l';
  }
}
