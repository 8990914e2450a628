/** The content box container component (containers/content_box.rs): turns an
    invocation's id, props and listed slots into a content unit node, and its
    navigable variant that strips the navigation markers and forwards. */
module ContentBoxComponent {
  import opened Common
  import opened PropsBag
  import ContentUnit
  import Node

  const ContentBoxTypeName: string := "content_box"

  /** The item made of a props-carrying slot: the slot and its
      `ContentBoxItemLayout` prop, or the default layout. */
  function ItemOf(slot: Node.WidgetNode, props: Props): ContentUnit.ContentBoxItemNode<Node.WidgetNode>
  {
    ContentUnit.ContentBoxItemNode(slot, ReadContentBoxItemLayout(props))
  }

  /** `content_box`: a content unit node with the component's id and props,
      one item per listed slot that carries props (in the slots' order, the
      others dropped), and clipping and transform from the `ContentBoxProps`
      prop, or their defaults (no clipping) when it is absent. */
  function ContentBox(id: WidgetId, props: Props, listedSlots: seq<Node.WidgetNode>): (r: Node.WidgetNode)
    ensures r.Unit? && r.unit.ContentBox?
    ensures var n := r.unit.contentBox;
            && n.id == id && n.props == props
            && |n.items| == |Node.PropsCarryingPositions(listedSlots)| <= |listedSlots|
            && (forall k :: 0 <= k < |n.items| ==>
                  var slot := listedSlots[Node.PropsCarryingPositions(listedSlots)[k]];
                  && n.items[k].slot == slot
                  && n.items[k].layout == ReadContentBoxItemLayout(slot.GetProps().value))
            && n.clipping == ReadContentBoxProps(props).clipping
            && n.transform == ReadContentBoxProps(props).transform
    ensures ContentBoxPropsTag !in props.entries ==>
              !r.unit.contentBox.clipping && r.unit.contentBox.transform == DefaultTransform
  {
    var p := ReadContentBoxProps(props);
    var items := Node.FilterMapSlots(listedSlots, ItemOf);
    Node.Unit(Node.ContentBox(ContentUnit.ContentBoxNode(id, props, items, p.clipping, p.transform)))
  }

  /** `nav_content_box`: invokes `content_box` with the same key and listed
      slots, and with the props less the three navigation markers. */
  function NavContentBox(key: string, props: Props, listedSlots: seq<Node.WidgetNode>): (r: Node.WidgetNode)
    ensures r.Component?
    ensures var c := r.component;
            && c.typeName == ContentBoxTypeName && c.key == Some(key)
            && c.listedSlots == listedSlots && c.namedSlots == map[]
    ensures forall t :: t in NavMarkers ==> t !in r.component.props.entries
    ensures forall t :: t !in NavMarkers ==>
              (t in r.component.props.entries <==> t in props.entries)
    ensures forall t :: t !in NavMarkers && t in props.entries ==>
              r.component.props.entries[t] == props.entries[t]
    ensures props.Valid() ==> r.component.props.Valid()
  {
    Node.Component(Node.WidgetComponent(ContentBoxTypeName, Some(key), WithoutNavMarkers(props), listedSlots, map[]))
  }

  /** Expanding what `nav_content_box` forwards gives the content node
      `content_box` would build from the original props, except that the
      node's own props lack the markers. */
  lemma NavContentBoxForwardsLayout(id: WidgetId, key: string, props: Props, listedSlots: seq<Node.WidgetNode>)
    ensures var c := NavContentBox(key, props, listedSlots).component;
            var forwarded := ContentBox(id, c.props, c.listedSlots).unit.contentBox;
            var direct := ContentBox(id, props, listedSlots).unit.contentBox;
            forwarded == direct.(props := WithoutNavMarkers(props))
  {
    WithoutNavMarkersKeepsReads(props);
  }
}
