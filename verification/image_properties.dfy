/** The properties dictionary ImageIO returns for the first image of a
    source, and the typed lookup the image source performs on it. */
module ImageProperties {
  import opened Wrappers

  /** The keys this image source reads; any other key is `OtherKey`. */
  datatype PropertyKey =
    | PixelWidth            // kCGImagePropertyPixelWidth
    | PixelHeight           // kCGImagePropertyPixelHeight
    | Orientation           // kCGImagePropertyOrientation
    | OtherKey(name: string)

  /** A dictionary value: either an integer or something that does not
      bridge to `Int`. */
  datatype PropertyValue = IntegerValue(n: int) | OtherValue(description: string)

  type Properties = map<PropertyKey, PropertyValue>

  /** `options?[key] as? Int`: absent when the dictionary is absent, when
      the key is missing, or when its value is not an integer. */
  function IntegerProperty(props: Option<Properties>, key: PropertyKey): (r: Option<int>)
    ensures r.Some? <==> props.Some? && key in props.value && props.value[key].IntegerValue?
    ensures r.Some? ==> props.value[key] == IntegerValue(r.value)
  {
    match props
    case None => None
    case Some(d) =>
      if key in d && d[key].IntegerValue? then Some(d[key].n) else None
  }
}
