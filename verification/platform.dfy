/** The foreign calls the image source makes, as opaque partial functions.
    Each may be absent: that is how every failure (unreadable file, corrupt
    data, unsupported format) surfaces. The type parameters stand for the
    ImageIO source handle and the decoded `CGImage`. */
module Platform {
  import opened Wrappers
  import opened ImageProperties
  import opened Exif

  /** An `NSURL`: its string relative to an optional base URL. Two URLs
      are equal (`isEqual:`) when both the relative strings and the base
      URLs are, so `b.jpg` relative to `file:///a/` differs from
      `file:///a/b.jpg`, though both resolve to the same file. */
  datatype Url = Url(relativeString: string, baseUrl: Option<Url>)

  type Bytes = seq<bv8>

  /** The options dictionary passed to `CGImageSourceCreateThumbnailAtIndex`. */
  datatype ThumbnailOptions = ThumbnailOptions(
    maxPixelSize: real,                     // kCGImageSourceThumbnailMaxPixelSize
    createThumbnailWithTransform: bool,     // kCGImageSourceCreateThumbnailWithTransform
    createThumbnailFromImageAlways: bool)   // kCGImageSourceCreateThumbnailFromImageAlways

  datatype Platform<!Src, !Img> = Platform(
    /** CGImageSourceCreateWithURL(url, nil) */
    createWithUrl: Url -> Option<Src>,
    /** CGImageSourceCopyPropertiesAtIndex(source, 0, nil) */
    copyPropertiesAtIndex: Src -> Option<Properties>,
    /** CGImageSourceCreateImageAtIndex(source, 0, options) */
    createImageAtIndex: (Src, Option<Properties>) -> Option<Img>,
    /** CGImageSourceCreateThumbnailAtIndex(source, 0, options) */
    createThumbnailAtIndex: (Src, ThumbnailOptions) -> Option<Img>,
    /** CGImage.imageFixedForOrientation: the pixel-level rotation/mirroring */
    imageFixedForOrientation: (Img, ExifOrientation) -> Option<Img>,
    /** NSData(contentsOfURL:) */
    contentsOfUrl: Url -> Option<Bytes>)
}
