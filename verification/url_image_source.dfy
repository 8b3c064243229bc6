/** An image source backed by a file URL: the four requests of the image
    source contract (full-resolution image, raw data, orientation-corrected
    size, thumbnail fitting a size) and its identity. Each request is a pure
    function of the platform calls it makes; the queueing around it is in
    module Delivery. */
module UrlImageSource {
  import opened Wrappers
  import opened Geometry
  import opened ImageProperties
  import opened Exif
  import opened Platform

  // ---------------------------------------------------------------------
  // Steps shared by the requests

  /** The ImageIO source opened on the URL. */
  function Source<Src, Img>(p: Platform<Src, Img>, url: Url): Option<Src>
  {
    p.createWithUrl(url)
  }

  /** The properties of the first image; absent when the source is. */
  function SourceProperties<Src, Img>(p: Platform<Src, Img>, url: Url): (r: Option<Properties>)
    ensures Source(p, url).None? ==> r.None?
  {
    match Source(p, url)
    case None => None
    case Some(s) => p.copyPropertiesAtIndex(s)
  }

  /** The raw Orientation tag, if the properties hold an integer one. */
  function OrientationTag<Src, Img>(p: Platform<Src, Img>, url: Url): Option<int>
  {
    IntegerProperty(SourceProperties(p, url), Orientation)
  }

  /** The decoded first image, before any orientation fix. The properties
      dictionary (possibly absent) is passed as the decoding options. */
  function DecodedImage<Src, Img>(p: Platform<Src, Img>, url: Url): (r: Option<Img>)
    ensures Source(p, url).None? ==> r.None?
  {
    match Source(p, url)
    case None => None
    case Some(s) => p.createImageAtIndex(s, SourceProperties(p, url))
  }

  // ---------------------------------------------------------------------
  // fullResolutionImage

  /** The decoded image, turned upright when the Orientation tag is a valid
      Exif orientation and passed through untouched otherwise. */
  function FullResolutionCGImage<Src, Img>(p: Platform<Src, Img>, url: Url): (r: Option<Img>)
    ensures Source(p, url).None? ==> r.None?
    ensures DecodedImage(p, url).None? ==> r.None?
    ensures var tag := OrientationTag(p, url);
      tag.Some? && 1 <= tag.value <= 8 && DecodedImage(p, url).Some? ==>
        r == p.imageFixedForOrientation(DecodedImage(p, url).value, FromRawValue(tag.value).value)
    ensures var tag := OrientationTag(p, url);
      !(tag.Some? && 1 <= tag.value <= 8) ==> r == DecodedImage(p, url)
  {
    var decoded := DecodedImage(p, url);
    match OrientationTag(p, url).FlatMap(FromRawValue)
    case None => decoded
    case Some(o) => decoded.FlatMap(img => p.imageFixedForOrientation(img, o))
  }

  /** The image handed to the result handler: the upright decoded image
      wrapped by the caller's `make` (the `T(CGImage:)` initializer). */
  function FullResolutionImage<Src, Img, T>(p: Platform<Src, Img>, url: Url, make: Img -> Option<T>): (r: Option<T>)
    ensures Source(p, url).None? ==> r.None?
    ensures DecodedImage(p, url).None? ==> r.None?
    ensures r.Some? ==> FullResolutionCGImage(p, url).Some? && make(FullResolutionCGImage(p, url).value) == r
    ensures FullResolutionCGImage(p, url).Some? ==> r == make(FullResolutionCGImage(p, url).value)
  {
    FullResolutionCGImage(p, url).FlatMap(make)
  }

  /** Without a valid Orientation tag the orientation fix is never called:
      replacing it by any other transform changes nothing. */
  lemma FullResolutionIgnoresFixWithoutValidTag<Src, Img, T>(
    p: Platform<Src, Img>, url: Url, make: Img -> Option<T>,
    otherFix: (Img, ExifOrientation) -> Option<Img>)
    requires var tag := OrientationTag(p, url); !(tag.Some? && 1 <= tag.value <= 8)
    ensures FullResolutionImage(p.(imageFixedForOrientation := otherFix), url, make)
         == FullResolutionImage(p, url, make)
  {
  }

  // ---------------------------------------------------------------------
  // fullResolutionImageData

  /** The file's bytes, verbatim. */
  function FullResolutionImageData<Src, Img>(p: Platform<Src, Img>, url: Url): Option<Bytes>
  {
    p.contentsOfUrl(url)
  }

  /** Reading the data never involves ImageIO: whatever the codec does,
      including failing to open or decode the file, the bytes are the same. */
  lemma ImageDataIndependentOfDecoding<Src, Img>(
    p: Platform<Src, Img>, url: Url,
    create: Url -> Option<Src>,
    properties: Src -> Option<Properties>,
    decode: (Src, Option<Properties>) -> Option<Img>,
    thumbnail: (Src, ThumbnailOptions) -> Option<Img>,
    fix: (Img, ExifOrientation) -> Option<Img>)
    ensures FullResolutionImageData(Platform(create, properties, decode, thumbnail, fix, p.contentsOfUrl), url)
         == FullResolutionImageData(p, url)
  {
  }

  // ---------------------------------------------------------------------
  // imageSize

  /** The displayed size from the raw pixel width, height and Orientation
      tag: absent unless both dimensions are known, and transposed exactly
      when the tag is a valid orientation of the 90/270-degree family. */
  function ReportedSize(width: Option<int>, height: Option<int>, tag: Option<int>): (r: Option<Size>)
    ensures r.Some? <==> width.Some? && height.Some?
    ensures r.Some? && tag.Some? && 5 <= tag.value <= 8 ==>
      r.value.width == height.value && r.value.height == width.value
    ensures r.Some? && !(tag.Some? && 5 <= tag.value <= 8) ==>
      r.value.width == width.value && r.value.height == height.value
  {
    match (width, height)
    case (Some(w), Some(h)) =>
      var swapped := SwapsDimensions(tag);
      Some(Size(if swapped then h else w, if swapped then w else h))
    case _ => None
  }

  /** The orientation-corrected size of the image, read from its
      properties without decoding pixels. */
  function ImageSize<Src, Img>(p: Platform<Src, Img>, url: Url): (r: Option<Size>)
    ensures Source(p, url).None? ==> r.None?
    ensures SourceProperties(p, url).None? ==> r.None?
    ensures r.Some? <==>
      IntegerProperty(SourceProperties(p, url), PixelWidth).Some? &&
      IntegerProperty(SourceProperties(p, url), PixelHeight).Some?
    ensures var props := SourceProperties(p, url);
      var w := IntegerProperty(props, PixelWidth);
      var h := IntegerProperty(props, PixelHeight);
      var tag := IntegerProperty(props, Orientation);
      && (r.Some? && tag.Some? && 5 <= tag.value <= 8 ==> r.value == Size(h.value, w.value))
      && (r.Some? && !(tag.Some? && 5 <= tag.value <= 8) ==> r.value == Size(w.value, h.value))
  {
    var props := SourceProperties(p, url);
    ReportedSize(
      IntegerProperty(props, PixelWidth),
      IntegerProperty(props, PixelHeight),
      IntegerProperty(props, Orientation))
  }

  /** The reported size only reorders the raw dimensions: it is the raw
      size or its transpose, with the same dimensions and pixel count. */
  lemma ReportedSizeIsPermutation(width: Option<int>, height: Option<int>, tag: Option<int>)
    requires width.Some? && height.Some?
    ensures var raw := Size(width.value, height.value);
      var r := ReportedSize(width, height, tag).value;
      && (r == raw || r == Transposed(raw))
      && Dimensions(r) == Dimensions(raw)
      && Area(r) == Area(raw)
  {
  }

  /** Correcting twice for a swapping tag brings the raw size back. */
  lemma ReportedSizeTwiceIsIdentity(width: int, height: int, tag: Option<int>)
    ensures var once := ReportedSize(Some(width), Some(height), tag).value;
      ReportedSize(Some(once.width), Some(once.height), tag) == Some(Size(width, height))
  {
  }

  /** A 100 x 200 grid reads as 200 x 100 under tag 6 (rotated 90 degrees)
      and as stored under tag 1, under a missing tag and under tag 9, which
      is not an orientation; a missing width leaves the size unknown. */
  lemma ReportedSizeExamples()
    ensures ReportedSize(Some(100), Some(200), Some(6)) == Some(Size(200, 100))
    ensures ReportedSize(Some(100), Some(200), Some(1)) == Some(Size(100, 200))
    ensures ReportedSize(Some(100), Some(200), None) == Some(Size(100, 200))
    ensures ReportedSize(Some(100), Some(200), Some(9)) == Some(Size(100, 200))
    ensures ReportedSize(None, Some(200), Some(6)) == None
  {
  }

  /** Reading the size never decodes: the full decode, the thumbnail decode
      and the orientation fix can be anything. */
  lemma ImageSizeNeedsNoDecode<Src, Img>(
    p: Platform<Src, Img>, url: Url,
    decode: (Src, Option<Properties>) -> Option<Img>,
    thumbnail: (Src, ThumbnailOptions) -> Option<Img>,
    fix: (Img, ExifOrientation) -> Option<Img>)
    ensures ImageSize(p.(createImageAtIndex := decode, createThumbnailAtIndex := thumbnail,
                         imageFixedForOrientation := fix), url)
         == ImageSize(p, url)
  {
  }

  /** The decoder yields the pixel grid that the properties describe. */
  ghost predicate DecodesToStatedGrid<Src, Img>(p: Platform<Src, Img>, url: Url, dims: Img -> Size)
  {
    var props := SourceProperties(p, url);
    DecodedImage(p, url).Some? ==>
      && IntegerProperty(props, PixelWidth).Some?
      && IntegerProperty(props, PixelHeight).Some?
      && dims(DecodedImage(p, url).value)
         == Size(IntegerProperty(props, PixelWidth).value, IntegerProperty(props, PixelHeight).value)
  }

  /** The orientation fix turns the grid upright: it transposes the size
      exactly for the swapping orientations. */
  ghost predicate FixTurnsUpright<Src, Img(!new)>(p: Platform<Src, Img>, dims: Img -> Size)
  {
    forall img, o :: p.imageFixedForOrientation(img, o).Some? ==>
      dims(p.imageFixedForOrientation(img, o).value)
      == (if DimensionsSwapped(o) then Transposed(dims(img)) else dims(img))
  }

  /** With a decoder and a fix that behave so, the full-resolution image
      has exactly the size `imageSize` reports. */
  lemma FullResolutionSizeAgreesWithImageSize<Src, Img(!new)>(p: Platform<Src, Img>, url: Url, dims: Img -> Size)
    requires DecodesToStatedGrid(p, url, dims)
    requires FixTurnsUpright(p, dims)
    ensures FullResolutionCGImage(p, url).Some? ==>
      ImageSize(p, url).Some? && dims(FullResolutionCGImage(p, url).value) == ImageSize(p, url).value
  {
  }

  // ---------------------------------------------------------------------
  // imageFittingSize

  /** The thumbnail options: the longer target side as the pixel bound,
      with the orientation transform applied and the thumbnail always made
      from the full image rather than an embedded preview. */
  function ThumbnailOptionsFor(size: TargetSize): (o: ThumbnailOptions)
    ensures o.maxPixelSize >= size.width && o.maxPixelSize >= size.height
    ensures o.maxPixelSize == size.width || o.maxPixelSize == size.height
    ensures o.createThumbnailWithTransform && o.createThumbnailFromImageAlways
  {
    ThumbnailOptions(Max(size.width, size.height), true, true)
  }

  /** The thumbnail ImageIO makes from the source with those options. */
  function ThumbnailImage<Src, Img>(p: Platform<Src, Img>, url: Url, size: TargetSize): (r: Option<Img>)
    ensures Source(p, url).None? ==> r.None?
    ensures Source(p, url).Some? ==> exists o ::
      && r == p.createThumbnailAtIndex(Source(p, url).value, o)
      && o.maxPixelSize >= size.width && o.maxPixelSize >= size.height
      && (o.maxPixelSize == size.width || o.maxPixelSize == size.height)
      && o.createThumbnailWithTransform && o.createThumbnailFromImageAlways
  {
    match Source(p, url)
    case None => None
    case Some(s) =>
      p.createThumbnailAtIndex(s, ThumbnailOptionsFor(size))
  }

  function ImageFittingSize<Src, Img, T>(p: Platform<Src, Img>, url: Url, size: TargetSize, make: Img -> Option<T>): (r: Option<T>)
    ensures Source(p, url).None? ==> r.None?
    ensures r.Some? ==> ThumbnailImage(p, url, size).Some? && make(ThumbnailImage(p, url, size).value) == r
    ensures ThumbnailImage(p, url, size).Some? ==> r == make(ThumbnailImage(p, url, size).value)
  {
    ThumbnailImage(p, url, size).FlatMap(make)
  }

  /** The thumbnail request leaves scaling and orientation to ImageIO: it
      reads no properties, never decodes the full image and never calls
      the orientation fix. */
  lemma ImageFittingSizeUsesOnlyThumbnailDecode<Src, Img, T>(
    p: Platform<Src, Img>, url: Url, size: TargetSize, make: Img -> Option<T>,
    properties: Src -> Option<Properties>,
    decode: (Src, Option<Properties>) -> Option<Img>,
    fix: (Img, ExifOrientation) -> Option<Img>)
    ensures ImageFittingSize(p.(copyPropertiesAtIndex := properties, createImageAtIndex := decode,
                                imageFixedForOrientation := fix), url, size, make)
         == ImageFittingSize(p, url, size, make)
  {
  }

  // ---------------------------------------------------------------------
  // isEqualTo

  /** The kinds of image source a caller may compare against; only the
      URL-backed kind is modelled, the others are told apart by an id. */
  datatype ImageSource = FromUrl(url: Url) | OtherSource(id: nat)

  /** Whether the URL-backed source at `url` equals `other`. */
  function IsEqualTo(url: Url, other: ImageSource): (r: bool)
    ensures r <==> other.FromUrl? && other.url == url
  {
    match other
    case FromUrl(otherUrl) => otherUrl == url
    case OtherSource(_) => false
  }

  /** A URL relative to a base is not equal to the absolute URL it
      resolves to, so the two sources are not equal. */
  lemma IsEqualToComparesRelativeUrls()
    ensures !IsEqualTo(Url("file:///a/b.jpg", None), FromUrl(Url("b.jpg", Some(Url("file:///a/", None)))))
    ensures IsEqualTo(Url("b.jpg", Some(Url("file:///a/", None))), FromUrl(Url("b.jpg", Some(Url("file:///a/", None)))))
  {
  }

  /** Among URL-backed sources `isEqualTo` is an equivalence. */
  lemma IsEqualToIsEquivalence(a: Url, b: Url, c: Url)
    ensures IsEqualTo(a, FromUrl(a))
    ensures IsEqualTo(a, FromUrl(b)) == IsEqualTo(b, FromUrl(a))
    ensures IsEqualTo(a, FromUrl(b)) && IsEqualTo(b, FromUrl(c)) ==> IsEqualTo(a, FromUrl(c))
  {
  }
}
