/** Sizes: the integral pixel size an image source reports, and the
    real-valued target size a caller asks a thumbnail to fit. */
module Geometry {

  /** A width and a height in pixels, as read from the image properties. */
  datatype Size = Size(width: int, height: int)

  /** A caller's target size; `CGFloat` is modelled as `real`. */
  datatype TargetSize = TargetSize(width: real, height: real)

  /** The size with width and height exchanged. */
  function Transposed(s: Size): Size
  {
    Size(s.height, s.width)
  }

  function Area(s: Size): int
  {
    s.width * s.height
  }

  /** The two dimensions as a multiset, forgetting which is which. */
  function Dimensions(s: Size): multiset<int>
  {
    multiset{s.width, s.height}
  }

  lemma TransposedTwice(s: Size)
    ensures Transposed(Transposed(s)) == s
  {
  }

  /** Transposing only reorders the dimensions: the multiset of dimensions
      and the pixel count are unchanged. */
  lemma TransposedIsPermutation(s: Size)
    ensures Dimensions(Transposed(s)) == Dimensions(s)
    ensures Area(Transposed(s)) == Area(s)
    ensures Transposed(s).width == s.height && Transposed(s).height == s.width
  {
  }

  /** The larger of two reals (Swift's `max` on `CGFloat`, without NaN). */
  function Max(a: real, b: real): (m: real)
    ensures m >= a && m >= b
    ensures m == a || m == b
  {
    if a >= b then a else b
  }
}
