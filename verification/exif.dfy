/** The Orientation tag (0x0112) of Exif 2.3 (CIPA DC-008), section 4.6.4 A:
    eight values saying where row 0 and column 0 of the stored pixel grid lie
    in the image as it is meant to be displayed. */
module Exif {
  import opened Wrappers

  /** Named row-then-column, as the Exif standard names them: `LeftTop`
      means row 0 is the visual left side and column 0 the visual top. */
  datatype ExifOrientation =
    | TopLeft       // 1: as stored
    | TopRight      // 2: mirrored horizontally
    | BottomRight   // 3: rotated 180 degrees
    | BottomLeft    // 4: mirrored vertically
    | LeftTop       // 5: mirrored and rotated 90 degrees
    | RightTop      // 6: rotated 90 degrees
    | RightBottom   // 7: mirrored and rotated 270 degrees
    | LeftBottom    // 8: rotated 270 degrees

  /** The tag value stored in the file for an orientation. */
  function RawValue(o: ExifOrientation): (raw: int)
    ensures 1 <= raw <= 8
  {
    match o
    case TopLeft => 1
    case TopRight => 2
    case BottomRight => 3
    case BottomLeft => 4
    case LeftTop => 5
    case RightTop => 6
    case RightBottom => 7
    case LeftBottom => 8
  }

  /** The failable `ExifOrientation(rawValue:)`: a tag outside 1..8 is not
      an orientation. */
  function FromRawValue(raw: int): (r: Option<ExifOrientation>)
    ensures r.Some? <==> 1 <= raw <= 8
    ensures r.Some? ==> RawValue(r.value) == raw
  {
    if raw == 1 then Some(TopLeft)
    else if raw == 2 then Some(TopRight)
    else if raw == 3 then Some(BottomRight)
    else if raw == 4 then Some(BottomLeft)
    else if raw == 5 then Some(LeftTop)
    else if raw == 6 then Some(RightTop)
    else if raw == 7 then Some(RightBottom)
    else if raw == 8 then Some(LeftBottom)
    else None
  }

  /** Decoding the stored value of an orientation gives that orientation
      back, so distinct orientations have distinct tag values. */
  lemma RawValueRoundTrip(o: ExifOrientation)
    ensures FromRawValue(RawValue(o)) == Some(o)
  {
  }

  lemma RawValueInjective(a: ExifOrientation, b: ExifOrientation)
    ensures RawValue(a) == RawValue(b) ==> a == b
  {
  }

  /** True for the orientations whose correction turns the grid by 90 or
      270 degrees, with or without mirroring, so that the displayed width is
      the stored height. */
  predicate DimensionsSwapped(o: ExifOrientation)
  {
    o.LeftTop? || o.RightTop? || o.RightBottom? || o.LeftBottom?
  }

  /** The swapping orientations are exactly the tags 5 to 8. */
  lemma DimensionsSwappedIffTagFiveToEight(o: ExifOrientation)
    ensures DimensionsSwapped(o) <==> 5 <= RawValue(o) <= 8
    ensures !DimensionsSwapped(o) <==> 1 <= RawValue(o) <= 4
  {
  }

  /** Whether a possibly absent, possibly invalid tag value calls for a
      width/height swap: an absent or invalid tag means no correction. */
  function SwapsDimensions(tag: Option<int>): (swapped: bool)
    ensures swapped <==> tag.Some? && 5 <= tag.value <= 8
  {
    tag.FlatMap(FromRawValue).Map(DimensionsSwapped).GetOr(false)
  }
}
