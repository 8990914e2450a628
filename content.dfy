/** The content unit's node, as far as containers/content_box.rs builds it.
    raui-core/src/widget/unit/content.rs is not part of this model: the item
    layout (anchors, margin, alignment) is kept opaque, as the default or some
    other value. */
module ContentUnit {
  import Common

  datatype ContentBoxItemLayout = DefaultContentBoxItemLayout | ContentBoxItemLayoutOf(handle: nat)

  /** A pre-expansion content item: a slot node and its layout. */
  datatype ContentBoxItemNode<N> = ContentBoxItemNode(slot: N, layout: ContentBoxItemLayout)

  /** The pre-expansion content node. */
  datatype ContentBoxNode<N, P> = ContentBoxNode(
    id: Common.WidgetId,
    props: P,
    items: seq<ContentBoxItemNode<N>>,
    clipping: bool,
    transform: Common.Transform)
}
