/** The optional table dimensions the 3D viewer receives, in centimetres.
    A field that is `None` is a key the caller did not give. */
module ViewerProps {
  import opened JsBuiltins

  datatype Dimensions = Dimensions(
    length: Option<real>,
    width: Option<real>,
    radius: Option<real>,
    squareLength: Option<real>,
    largestDiameter: Option<real>,
    smallestDiameter: Option<real>,
    borderRadius: Option<real>)

  /** `Object.keys(dimensions).length > 0` */
  predicate HasAnyKey(d: Dimensions) {
    d.length.Some? || d.width.Some? || d.radius.Some? || d.squareLength.Some? ||
    d.largestDiameter.Some? || d.smallestDiameter.Some? || d.borderRadius.Some?
  }
}
