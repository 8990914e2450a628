/** The space box component (space_box.rs): an empty box of exact size. */
module SpaceBoxComponent {
  import opened Common
  import opened PropsBag
  import SizeUnit
  import Node

  /** `space_box`: a size unit node with the component's id and props whose
      width and height are exactly those of the `SpaceBoxProps` prop (zero
      when it is absent), every other field at its default. */
  function SpaceBox(id: WidgetId, props: Props): (r: Node.WidgetNode)
    ensures r.Unit? && r.unit.SizeBox?
    ensures var n := r.unit.sizeBox;
            && n.id == id && n.props == props
            && n.width == SizeUnit.Exact(ReadSpaceBoxProps(props).width)
            && n.height == SizeUnit.Exact(ReadSpaceBoxProps(props).height)
            && n.rest == SizeUnit.DefaultSizeBoxRest
    ensures SpaceBoxPropsTag !in props.entries ==>
              r.unit.sizeBox.width == SizeUnit.Exact(0.0) && r.unit.sizeBox.height == SizeUnit.Exact(0.0)
  {
    var p := ReadSpaceBoxProps(props);
    Node.Unit(Node.SizeBox(SizeUnit.SizeBoxNode(id, props, SizeUnit.Exact(p.width), SizeUnit.Exact(p.height),
                                                SizeUnit.DefaultSizeBoxRest)))
  }

  /** A space box made from props holding `SpaceBoxProps(w, h)` is exactly
      `w` by `h`. */
  lemma SpaceBoxOfSize(id: WidgetId, props: Props, w: Scalar, h: Scalar)
    ensures var n := SpaceBox(id, props.With(SpaceBoxPropsData(SpaceBoxProps(w, h)))).unit.sizeBox;
            n.width == SizeUnit.Exact(w) && n.height == SizeUnit.Exact(h)
  {
    ReadAfterWith(props, SpaceBoxPropsData(SpaceBoxProps(w, h)));
  }
}
