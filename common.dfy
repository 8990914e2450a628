/** Values shared by the widget units and the container components: the
    outcome of a fallible conversion, colours, rectangles, transforms, widget
    identities, and a mutable place for the units' in-place updates. */
module Common {

  datatype Option<+T> = None | Some(value: T)

  /** `Result<T, E>` of the source; the unit conversions use `E = ()`. */
  datatype Result<+T, +E> = Ok(value: T) | Err(error: E)

  /** The source's floating-point `Scalar`, modelled as an exact real. */
  type Scalar = real

  /** An RGBA colour. Its default (derived in utils.rs, which is not part of
      this model) has every channel at zero. */
  datatype Color = Color(r: Scalar, g: Scalar, b: Scalar, a: Scalar)

  const DefaultColor: Color := Color(0.0, 0.0, 0.0, 0.0)

  /** Edges of a rectangle (margins, source rectangles); the default is zero. */
  datatype Rect = Rect(left: Scalar, right: Scalar, top: Scalar, bottom: Scalar)

  const DefaultRect: Rect := Rect(0.0, 0.0, 0.0, 0.0)

  /** A widget transform. Units and components only move it around, so its
      contents are not modelled: it is the default or some other value. */
  datatype Transform = DefaultTransform | TransformOf(handle: nat)

  /** The path-like identity of a widget. */
  type WidgetId = string

  /** A mutable place holding a value, as a `&mut T` borrow is in the source:
      the units' `remap_props` update the props of a node in place. */
  class Ref<T> {
    var value: T

    constructor (v: T)
      ensures value == v
    {
      value := v;
    }
  }
}
