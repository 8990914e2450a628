/** The size unit's node, as far as space_box.rs builds it.
    raui-core/src/widget/unit/size.rs is not part of this model: the node's
    remaining fields are kept opaque, as their default or some other value. */
module SizeUnit {
  import Common

  datatype SizeBoxSizeValue = Fill | Exact(value: Common.Scalar)

  /** The fields of a size node other than id, props, width and height. */
  datatype SizeBoxRest = DefaultSizeBoxRest | SizeBoxRestOf(handle: nat)

  datatype SizeBoxNode<P> = SizeBoxNode(
    id: Common.WidgetId,
    props: P,
    width: SizeBoxSizeValue,
    height: SizeBoxSizeValue,
    rest: SizeBoxRest)
}
