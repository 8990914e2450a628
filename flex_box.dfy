/** The flex box container component (containers/flex_box.rs): turns an
    invocation's id, props and listed slots into a flex unit node, and its
    navigable variant that strips the navigation markers and forwards. */
module FlexBoxComponent {
  import opened Common
  import opened PropsBag
  import FlexUnit
  import Node

  const FlexBoxTypeName: string := "flex_box"

  /** The item made of a props-carrying slot: the slot and its
      `FlexBoxItemLayout` prop, or the default layout. */
  function ItemOf(slot: Node.WidgetNode, props: Props): FlexUnit.FlexBoxItemNode<Node.WidgetNode>
  {
    FlexUnit.FlexBoxItemNode(slot, ReadFlexBoxItemLayout(props))
  }

  /** `flex_box`: a flex unit node with the component's id and props, one item
      per listed slot that carries props (in the slots' order, the others
      dropped), and direction, separation, wrap and transform from the
      `FlexBoxProps` prop, or their defaults when it is absent. */
  function FlexBox(id: WidgetId, props: Props, listedSlots: seq<Node.WidgetNode>): (r: Node.WidgetNode)
    ensures r.Unit? && r.unit.FlexBox?
    ensures var n := r.unit.flexBox;
            && n.id == id && n.props == props
            && |n.items| == |Node.PropsCarryingPositions(listedSlots)| <= |listedSlots|
            && (forall k :: 0 <= k < |n.items| ==>
                  var slot := listedSlots[Node.PropsCarryingPositions(listedSlots)[k]];
                  && n.items[k].slot == slot
                  && n.items[k].layout == ReadFlexBoxItemLayout(slot.GetProps().value))
            && n.direction == ReadFlexBoxProps(props).direction
            && n.separation == ReadFlexBoxProps(props).separation
            && n.wrap == ReadFlexBoxProps(props).wrap
            && n.transform == ReadFlexBoxProps(props).transform
    ensures FlexBoxPropsTag !in props.entries ==>
              var n := r.unit.flexBox;
              && n.direction == FlexUnit.HorizontalLeftToRight && n.separation == 0.0
              && !n.wrap && n.transform == DefaultTransform
  {
    var p := ReadFlexBoxProps(props);
    var items := Node.FilterMapSlots(listedSlots, ItemOf);
    Node.Unit(Node.FlexBox(FlexUnit.FlexBoxNode(id, props, items, p.direction, p.separation, p.wrap, p.transform)))
  }

  /** `nav_flex_box`: invokes `flex_box` with the same key and listed slots,
      and with the props less the three navigation markers. */
  function NavFlexBox(key: string, props: Props, listedSlots: seq<Node.WidgetNode>): (r: Node.WidgetNode)
    ensures r.Component?
    ensures var c := r.component;
            && c.typeName == FlexBoxTypeName && c.key == Some(key)
            && c.listedSlots == listedSlots && c.namedSlots == map[]
    ensures forall t :: t in NavMarkers ==> t !in r.component.props.entries
    ensures forall t :: t !in NavMarkers ==>
              (t in r.component.props.entries <==> t in props.entries)
    ensures forall t :: t !in NavMarkers && t in props.entries ==>
              r.component.props.entries[t] == props.entries[t]
    ensures props.Valid() ==> r.component.props.Valid()
  {
    Node.Component(Node.WidgetComponent(FlexBoxTypeName, Some(key), WithoutNavMarkers(props), listedSlots, map[]))
  }

  /** Expanding what `nav_flex_box` forwards gives the flex node `flex_box`
      would build from the original props (with the markers stripped from
      the node's props only): the markers affect no item, direction,
      separation, wrap or transform. */
  lemma NavFlexBoxForwardsLayout(id: WidgetId, key: string, props: Props, listedSlots: seq<Node.WidgetNode>)
    ensures var c := NavFlexBox(key, props, listedSlots).component;
            var forwarded := FlexBox(id, c.props, c.listedSlots).unit.flexBox;
            var direct := FlexBox(id, props, listedSlots).unit.flexBox;
            forwarded == direct.(props := WithoutNavMarkers(props))
  {
    WithoutNavMarkersKeepsReads(props);
  }
}
