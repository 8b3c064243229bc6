# UrlImageSource, modelled in Dafny

`UrlImageSource` is the image source of the media picker that is backed by a
file URL. It answers four asynchronous requests: the full-resolution image
turned upright according to its Exif orientation, the raw file data, the
orientation-corrected pixel size, and a thumbnail fitted to a target size.
It also decides whether two image sources are the same.

The model keeps the decision logic and treats everything foreign as opaque
partial functions, collected in the `Platform` datatype: the four ImageIO
calls (`CGImageSourceCreateWithURL`, `CGImageSourceCopyPropertiesAtIndex`,
`CGImageSourceCreateImageAtIndex`, `CGImageSourceCreateThumbnailAtIndex`),
the design kit's `imageFixedForOrientation` and `NSData(contentsOfURL:)`.
Each may be absent, which is how every failure surfaces. The caller's
`T(CGImage:)` initializer is the `make` parameter. It is also allowed to be
absent; a non-failable initializer is the special case that always answers.

Modules, leaf first:

- `Wrappers` (wrappers.dfy): `Option` with `FlatMap`, `Map` and `GetOr` (Swift's `flatMap` and `??`).
- `Geometry` (geometry.dfy): integral `Size`, real `TargetSize`, transposition, `Max`.
- `Exif` (exif.dfy): the eight values of the Orientation tag (0x0112) of
  Exif 2.3 (CIPA DC-008), section 4.6.4 A, and the rule that tags 5 to 8
  (the 90/270-degree family) swap width and height.
- `ImageProperties` (image_properties.dfy): the properties dictionary and the
  `options?[key] as? Int` lookup.
- `Platform` (platform.dfy): URL, bytes, thumbnail options, foreign calls. A URL is
  its relative string plus an optional base URL, the two parts `NSURL`'s
  `isEqual:` compares.
- `UrlImageSource` (url_image_source.dfy): the four operations and `isEqualTo`.
- `Delivery` (delivery.dfy): exactly one completion per request, whatever
  the order in which concurrent requests finish.

Three details of the code that the model keeps as written:

- The orientation fix is applied for every valid tag, 1 included, not only
  for non-identity orientations.
- In the full-resolution path a missing properties dictionary does not stop
  decoding: the image is decoded with no options and no fix is applied.
- The properties dictionary itself is passed as the decoding options.

## Model

| member | source | states |
|---|---|---|
| Exif.RawValue | AvitoMediaPicker/Classes/VIPER/MediaPicker/Interactor/UrlImageSource.swift:29 | the stored tag of every orientation is in 1..8 |
| Exif.FromRawValue | AvitoMediaPicker/Classes/VIPER/MediaPicker/Interactor/UrlImageSource.swift:29 | `ExifOrientation(rawValue:)` succeeds exactly for tags 1 to 8, and the orientation it yields has that tag as its stored value |
| Exif.RawValueRoundTrip | AvitoMediaPicker/Classes/VIPER/MediaPicker/Interactor/UrlImageSource.swift:29 | decoding the stored value of any orientation gives that orientation back |
| Exif.RawValueInjective | AvitoMediaPicker/Classes/VIPER/MediaPicker/Interactor/UrlImageSource.swift:29 | distinct orientations have distinct tag values |
| Exif.DimensionsSwappedIffTagFiveToEight | AvitoMediaPicker/Classes/VIPER/MediaPicker/Interactor/UrlImageSource.swift:65 | `dimensionsSwapped` holds exactly for tags 5 to 8 and fails exactly for tags 1 to 4 |
| Exif.SwapsDimensions | AvitoMediaPicker/Classes/VIPER/MediaPicker/Interactor/UrlImageSource.swift:64-65 | an optional raw tag calls for a swap iff it is present and between 5 and 8; an absent or invalid tag means no swap |
| Geometry.TransposedTwice | AvitoMediaPicker/Classes/VIPER/MediaPicker/Interactor/UrlImageSource.swift:67-70 | swapping width and height twice gives the original size back |
| Geometry.TransposedIsPermutation | AvitoMediaPicker/Classes/VIPER/MediaPicker/Interactor/UrlImageSource.swift:67-70 | swapping keeps the multiset of dimensions and the pixel count, and exchanges the two sides |
| Geometry.Max | AvitoMediaPicker/Classes/VIPER/MediaPicker/Interactor/UrlImageSource.swift:90 | the maximum is at least both arguments and equal to one of them |
| ImageProperties.IntegerProperty | AvitoMediaPicker/Classes/VIPER/MediaPicker/Interactor/UrlImageSource.swift:56-58 | a property reads as an integer iff the dictionary is present, holds the key, and the value is an integer; the result is that integer |
| UrlImageSource.SourceProperties | AvitoMediaPicker/Classes/VIPER/MediaPicker/Interactor/UrlImageSource.swift:54-55 | no properties when the source cannot be created |
| UrlImageSource.DecodedImage | AvitoMediaPicker/Classes/VIPER/MediaPicker/Interactor/UrlImageSource.swift:27 | no decoded image when the source cannot be created |
| UrlImageSource.FullResolutionCGImage | AvitoMediaPicker/Classes/VIPER/MediaPicker/Interactor/UrlImageSource.swift:22-31 | absent when the source or the decode fails; with a tag in 1..8 the result is the fix for that tag applied to the decoded image; otherwise the decoded image passes through unchanged |
| UrlImageSource.FullResolutionImage | AvitoMediaPicker/Classes/VIPER/MediaPicker/Interactor/UrlImageSource.swift:22-33 | absent when the source or the decode fails; the result is exactly the caller's wrapper applied to the corrected image whenever there is one, and present only then |
| UrlImageSource.FullResolutionIgnoresFixWithoutValidTag | AvitoMediaPicker/Classes/VIPER/MediaPicker/Interactor/UrlImageSource.swift:29-31 | without a valid tag, replacing the orientation fix by any transform leaves the result unchanged |
| UrlImageSource.FullResolutionImageData | AvitoMediaPicker/Classes/VIPER/MediaPicker/Interactor/UrlImageSource.swift:41-48 | no contract of its own: the result is the single foreign read `NSData(contentsOfURL:)`; its promise is carried by ImageDataIndependentOfDecoding |
| UrlImageSource.ImageDataIndependentOfDecoding | AvitoMediaPicker/Classes/VIPER/MediaPicker/Interactor/UrlImageSource.swift:41-48 | the raw data depends only on reading the file: any codec behaviour, failures included, gives the same bytes |
| UrlImageSource.ReportedSize | AvitoMediaPicker/Classes/VIPER/MediaPicker/Interactor/UrlImageSource.swift:60-71 | present iff both width and height are present; transposed iff the tag is present and in 5..8, otherwise exactly (width, height) |
| UrlImageSource.ImageSize | AvitoMediaPicker/Classes/VIPER/MediaPicker/Interactor/UrlImageSource.swift:54-71 | absent when the source or the properties are missing; present iff both pixel dimensions are integers in the properties; then (height, width) when the Orientation tag is in 5..8 and (width, height) for every other or missing tag |
| UrlImageSource.ReportedSizeIsPermutation | AvitoMediaPicker/Classes/VIPER/MediaPicker/Interactor/UrlImageSource.swift:67-70 | the reported size is the raw size or its transpose, with the same multiset of dimensions and the same pixel count |
| UrlImageSource.ReportedSizeTwiceIsIdentity | AvitoMediaPicker/Classes/VIPER/MediaPicker/Interactor/UrlImageSource.swift:64-70 | correcting the corrected size again under the same tag gives back the raw size |
| UrlImageSource.ReportedSizeExamples | AvitoMediaPicker/Classes/VIPER/MediaPicker/Interactor/UrlImageSource.swift:62-70 | 100x200 with tag 6 reads 200x100; with tag 1, no tag or tag 9 it reads 100x200; a missing width gives no size |
| UrlImageSource.ImageSizeNeedsNoDecode | AvitoMediaPicker/Classes/VIPER/MediaPicker/Interactor/UrlImageSource.swift:54-58 | the size never depends on the full decode, the thumbnail decode or the orientation fix |
| UrlImageSource.FullResolutionSizeAgreesWithImageSize | AvitoMediaPicker/Classes/VIPER/MediaPicker/Interactor/UrlImageSource.swift:22-71 | if the decoder yields the grid the properties describe and the fix transposes exactly for swapping orientations, a present full-resolution image has exactly the size imageSize reports |
| UrlImageSource.ThumbnailOptionsFor | AvitoMediaPicker/Classes/VIPER/MediaPicker/Interactor/UrlImageSource.swift:89-93 | the max pixel size is at least both target sides and equals one of them; transform and create-from-image-always are both on |
| UrlImageSource.ThumbnailImage | AvitoMediaPicker/Classes/VIPER/MediaPicker/Interactor/UrlImageSource.swift:87-95 | no thumbnail when the source cannot be created; otherwise the codec's thumbnail call answers for options whose max pixel size is the larger target side, with the transform and create-from-image-always flags on |
| UrlImageSource.ImageFittingSize | AvitoMediaPicker/Classes/VIPER/MediaPicker/Interactor/UrlImageSource.swift:85-96 | absent when the source cannot be created; the result is exactly the caller's wrapper applied to the thumbnail whenever there is one, and present only then |
| UrlImageSource.ImageFittingSizeUsesOnlyThumbnailDecode | AvitoMediaPicker/Classes/VIPER/MediaPicker/Interactor/UrlImageSource.swift:87-95 | the thumbnail never depends on the properties, the full decode or the orientation fix |
| UrlImageSource.IsEqualTo | AvitoMediaPicker/Classes/VIPER/MediaPicker/Interactor/UrlImageSource.swift:104-110 | true iff the other source is URL-backed with an equal URL; false for every other kind |
| UrlImageSource.IsEqualToComparesRelativeUrls | AvitoMediaPicker/Classes/VIPER/MediaPicker/Interactor/UrlImageSource.swift:106 | `b.jpg` relative to `file:///a/` is not equal to `file:///a/b.jpg`, and equal to itself: URLs compare by relative string and base |
| UrlImageSource.IsEqualToIsEquivalence | AvitoMediaPicker/Classes/VIPER/MediaPicker/Interactor/UrlImageSource.swift:104-110 | among URL-backed sources isEqualTo is reflexive, symmetric and transitive |
| Delivery.Perform | AvitoMediaPicker/Classes/VIPER/MediaPicker/Interactor/UrlImageSource.swift:18-100 | image requests are answered with an optional image, the data request with optional bytes and the size request with an optional size, and never with another kind; each answer is the result of that request's own operation (thumbnail requests with their own target size) |
| Delivery.Deliver | AvitoMediaPicker/Classes/VIPER/MediaPicker/Interactor/UrlImageSource.swift:35-37 | N requests finishing in any order give exactly N completions, each carrying its own request's result, with no handler called twice or never (also lines 44-46, 73-75, 98-100) |

## Left out

- GCD dispatching (the concurrent processing queue and the hop to the main
  queue, lines 7-8, 20, 35, 42, 44, 52, 73, 85, 98): threading is not modelled.
  `Delivery.Deliver` runs the requests one after another, and the completion
  order is a parameter that stands for the scheduler.
- The ImageIO calls, `NSData(contentsOfURL:)`, `T(CGImage:)` and the pixel-level
  `imageFixedForOrientation` (in the design kit, not part of this model): they
  are opaque partial functions supplied by the caller.
- The `ExifOrientation` enum and its `dimensionsSwapped` are not part of this
  model's sources; they are modelled after the Exif 2.3 Orientation tag, with
  tags 5 to 8 swapping.
- `CGFloat` semantics: target sizes are `real`, with no rounding and no NaN.
  Pixel sizes are unbounded integers, and the `Int` to `CGFloat` conversion
  of line 67 is not modelled.
- `contentMode` and `deliveryMode`: accepted but never used by this file.
- The image index: every ImageIO call reads index 0, so the index is not a parameter.
