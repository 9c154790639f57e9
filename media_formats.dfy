/** The two allow-lists, the choice of target format, and the mapping from the caller's
    quality-reduction percentage to the encoder's quality parameter. */
module MediaFormats {
  import opened Wrappers

  /** The video allow-list: lower-case suffixes accepted as video. */
  const VideoExtensions: set<string> :=
    {".mp4", ".avi", ".mov", ".mkv", ".flv", ".wmv", ".m4v", ".mpg", ".mpeg", ".3gp", ".webm"}

  /** The image allow-list: lower-case suffixes accepted as images. */
  const ImageExtensions: set<string> :=
    {".jpg", ".jpeg", ".png", ".gif", ".bmp", ".tiff", ".tif", ".svg", ".webp"}

  /** The quality reduction used when the request does not give one. */
  const DefaultQuality: int := 30

  datatype Kind = Video | Image

  /** No suffix is allowed as both video and image. */
  lemma ExtensionListsDisjoint()
    ensures VideoExtensions * ImageExtensions == {}
  {
  }

  /** The kind of a lower-cased suffix: video is looked up first, then image. */
  function Classify(ext: string): (k: Option<Kind>)
    ensures k == Some(Video) <==> ext in VideoExtensions
    ensures k == Some(Image) <==> ext in ImageExtensions
    ensures k == None <==> ext !in VideoExtensions && ext !in ImageExtensions
  {
    ExtensionListsDisjoint();
    assert ext !in VideoExtensions || ext !in ImageExtensions;
    if ext in VideoExtensions then Some(Video)
    else if ext in ImageExtensions then Some(Image)
    else None
  }

  /** The suffix the converted file gets: WebM for video, WebP for images. Each is
      itself on the allow-list of the same kind, so a converted file would be accepted
      again as what it already is. */
  function TargetSuffix(k: Kind): (s: string)
    ensures Classify(s) == Some(k)
    ensures k == Video ==> s in VideoExtensions && s !in ImageExtensions
    ensures k == Image ==> s in ImageExtensions && s !in VideoExtensions
  {
    match k
    case Video => ".webm"
    case Image => ".webp"
  }

  /** The values a percentage reduction can take, 0 to 100. The page's slider sends 10..90
      in steps of 5; the handler itself checks nothing. */
  predicate InModelledRange(q: int)
  {
    0 <= q <= 100
  }

  /** The VP9 constant rate factor for a quality reduction: `10 + q * 0.6`, truncated. */
  function Crf(q: int): (crf: nat)
    requires InModelledRange(q)
    ensures crf as real <= 10.0 + q as real * 0.6 < crf as real + 1.0
  {
    10 + (6 * q) / 10
  }

  /** On the user interface's slider range 10..90 the CRF lies in 16..64. */
  lemma CrfSliderRange(q: int)
    requires 10 <= q <= 90
    ensures 16 <= Crf(q) <= 64
  {
  }

  /** A larger reduction never gives a lower CRF (that is, never a higher video quality). */
  lemma CrfMonotone(q1: int, q2: int)
    requires InModelledRange(q1) && InModelledRange(q2)
    requires q1 <= q2
    ensures Crf(q1) <= Crf(q2)
  {
  }

  /** The default reduction gives CRF 28. */
  lemma CrfDefault()
    ensures Crf(DefaultQuality) == 28
  {
  }

  /** The WebP quality for a quality reduction: what is not taken away is kept. */
  function WebpQuality(q: int): (wq: nat)
    requires InModelledRange(q)
    ensures wq <= 100 && wq + q == 100
  {
    100 - q
  }

  /** A larger reduction gives a strictly lower WebP quality. */
  lemma WebpQualityStrictlyDecreasing(q1: int, q2: int)
    requires InModelledRange(q1) && InModelledRange(q2)
    requires q1 < q2
    ensures WebpQuality(q1) > WebpQuality(q2)
  {
  }

  /** The default reduction gives WebP quality 70. */
  lemma WebpQualityDefault()
    ensures WebpQuality(DefaultQuality) == 70
  {
  }
}
