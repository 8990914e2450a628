/** The horizontal box component (containers/horizontal_box.rs): a flex box
    laid out along the horizontal axis, reversed on request, never wrapping. */
module HorizontalBoxComponent {
  import opened Common
  import opened PropsBag
  import FlexUnit
  import Node
  import FlexBoxComponent

  /** The flex direction for the `reversed` flag. */
  function DirectionOf(reversed: bool): (d: FlexUnit.FlexBoxDirection)
    ensures d.IsHorizontal()
    ensures d.IsOrderDescending() <==> reversed
  {
    if reversed then FlexUnit.HorizontalRightToLeft else FlexUnit.HorizontalLeftToRight
  }

  /** The right direction for each flag: right to left when reversed, left
      to right otherwise. */
  lemma DirectionOfIsExact(reversed: bool)
    ensures DirectionOf(reversed) == FlexUnit.FlexBoxDirection.FromAxisAndOrder(true, !reversed)
    ensures reversed ==> DirectionOf(reversed) == FlexUnit.HorizontalRightToLeft
    ensures !reversed ==> DirectionOf(reversed) == FlexUnit.HorizontalLeftToRight
  {
    FlexUnit.DirectionFromAxisAndOrder(DirectionOf(reversed));
  }

  /** `horizontal_box`: invokes `flex_box` with the same key and listed slots
      and with props holding only `FlexBoxProps`: a horizontal direction,
      descending exactly when `reversed`, the separation of the
      `HorizontalBoxProps` prop, no wrapping and the default transform. */
  function HorizontalBox(key: string, props: Props, listedSlots: seq<Node.WidgetNode>): (r: Node.WidgetNode)
    ensures r.Component?
    ensures var c := r.component;
            && c.typeName == FlexBoxComponent.FlexBoxTypeName && c.key == Some(key)
            && c.listedSlots == listedSlots && c.namedSlots == map[]
            && c.props.entries.Keys == {FlexBoxPropsTag}
            && c.props.entries[FlexBoxPropsTag].FlexBoxPropsData?
    ensures r.component.props.Valid()
    ensures var h := ReadHorizontalBoxProps(props);
            var f := ReadFlexBoxProps(r.component.props);
            && f.direction.IsHorizontal()
            && (f.direction.IsOrderDescending() <==> h.reversed)
            && f.separation == h.separation
            && !f.wrap
            && f.transform == DefaultTransform
  {
    var h := ReadHorizontalBoxProps(props);
    var flexProps := FlexBoxProps(DirectionOf(h.reversed), h.separation, false, DefaultTransform);
    Node.Component(Node.WidgetComponent(FlexBoxComponent.FlexBoxTypeName, Some(key),
                                        New(FlexBoxPropsData(flexProps)), listedSlots, map[]))
  }

  /** Expanding what `horizontal_box` forwards gives a flex node that flows
      horizontally, descending exactly when `reversed`, never wraps, keeps
      the separation, and holds the same items `flex_box` makes of the
      listed slots. */
  lemma HorizontalBoxExpandsToHorizontalFlex(id: WidgetId, key: string, props: Props, listedSlots: seq<Node.WidgetNode>)
    ensures var c := HorizontalBox(key, props, listedSlots).component;
            var n := FlexBoxComponent.FlexBox(id, c.props, c.listedSlots).unit.flexBox;
            var h := ReadHorizontalBoxProps(props);
            && n.direction.IsHorizontal()
            && (n.direction.IsOrderDescending() <==> h.reversed)
            && n.separation == h.separation && !n.wrap
            && n.items == FlexBoxComponent.FlexBox(id, props, listedSlots).unit.flexBox.items
  {
  }
}
