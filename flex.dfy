/** The flex unit (raui-core/src/widget/unit/flex.rs): per-item layout, the
    four flow directions, the pre-expansion `FlexBoxNode` and its conversion to
    the renderer-facing `FlexBox`. Nodes are generic in the slot node type `N`
    and the props type `P`; the conversion of a slot to a unit (`WidgetUnit::
    try_from`, in a file that is not part of this model) is a parameter
    `convert` returning `Err(())` where the source does. */
module FlexUnit {
  import opened Common

  /** Layout metadata of one flex item. */
  datatype FlexBoxItemLayout = FlexBoxItemLayout(
    basis: Option<Scalar>,
    fill: Scalar,
    grow: Scalar,
    shrink: Scalar,
    margin: Rect,
    align: Scalar)

  const DefaultFlexBoxItemLayout: FlexBoxItemLayout :=
    FlexBoxItemLayout(None, 0.0, 0.0, 0.0, DefaultRect, 0.0)

  /** A converted item: its slot is a unit of type `U`. */
  datatype FlexBoxItem<U> = FlexBoxItem(slot: U, layout: FlexBoxItemLayout)

  /** A pre-expansion item: its slot is a node of type `N`. */
  datatype FlexBoxItemNode<N> = FlexBoxItemNode(slot: N, layout: FlexBoxItemLayout)

  datatype FlexBoxDirection =
    | HorizontalLeftToRight
    | HorizontalRightToLeft
    | VerticalTopToBottom
    | VerticalBottomToTop
  {
    function IsHorizontal(): (b: bool)
      ensures b <==> !IsVertical()
    {
      this == HorizontalLeftToRight || this == HorizontalRightToLeft
    }

    function IsVertical(): bool
    {
      this == VerticalTopToBottom || this == VerticalBottomToTop
    }

    function IsOrderAscending(): (b: bool)
      ensures b <==> !IsOrderDescending()
    {
      this == HorizontalLeftToRight || this == VerticalTopToBottom
    }

    function IsOrderDescending(): bool
    {
      this == HorizontalRightToLeft || this == VerticalBottomToTop
    }

    /** The direction with the given axis and order (reference definition). */
    static function FromAxisAndOrder(horizontal: bool, ascending: bool): (d: FlexBoxDirection)
      ensures d.IsHorizontal() == horizontal && d.IsOrderAscending() == ascending
    {
      if horizontal then
        (if ascending then HorizontalLeftToRight else HorizontalRightToLeft)
      else
        (if ascending then VerticalTopToBottom else VerticalBottomToTop)
    }
  }

  const DefaultFlexBoxDirection: FlexBoxDirection := HorizontalLeftToRight

  /** Axis and order together determine a flex direction. */
  lemma DirectionFromAxisAndOrder(d: FlexBoxDirection)
    ensures FlexBoxDirection.FromAxisAndOrder(d.IsHorizontal(), d.IsOrderAscending()) == d
  {
  }

  /** The default flex direction is horizontal and ascending. */
  lemma DefaultDirectionIsHorizontalAscending()
    ensures DefaultFlexBoxDirection.IsHorizontal() && DefaultFlexBoxDirection.IsOrderAscending()
    ensures DefaultFlexBoxDirection == FlexBoxDirection.FromAxisAndOrder(true, true)
  {
  }

  /** The renderer-facing flex unit. */
  datatype FlexBox<U> = FlexBox(
    id: WidgetId,
    items: seq<FlexBoxItem<U>>,
    direction: FlexBoxDirection,
    separation: Scalar,
    wrap: bool)
  {
    /** `get_children`: the items' slots, one per item, in item order. */
    function GetChildren(): (r: seq<U>)
      ensures |r| == |items|
      ensures forall i :: 0 <= i < |items| ==> r[i] == items[i].slot
    {
      seq(|items|, i requires 0 <= i < |items| => items[i].slot)
    }
  }

  /** The pre-expansion flex node. `transform` is carried by the container
      component (containers/flex_box.rs) and not by the unit, so the conversion
      drops it together with the props. */
  datatype FlexBoxNode<N, P> = FlexBoxNode(
    id: WidgetId,
    props: P,
    items: seq<FlexBoxItemNode<N>>,
    direction: FlexBoxDirection,
    separation: Scalar,
    wrap: bool,
    transform: Transform)

  /** `TryFrom<FlexBoxItemNode> for FlexBoxItem`: succeeds exactly when the
      slot converts, keeping the layout. */
  function ItemTryFrom<N, U>(node: FlexBoxItemNode<N>, convert: N -> Result<U, ()>): (r: Result<FlexBoxItem<U>, ()>)
    ensures r.Ok? <==> convert(node.slot).Ok?
    ensures r.Ok? ==> r.value.slot == convert(node.slot).value && r.value.layout == node.layout
  {
    match convert(node.slot)
    case Ok(slot) => Ok(FlexBoxItem(slot, node.layout))
    case Err(e) => Err(e)
  }

  /** The collection of item conversions into one `Result`: the first failure
      fails the whole; otherwise every item is converted, in order. */
  function ItemsTryFrom<N, U>(items: seq<FlexBoxItemNode<N>>, convert: N -> Result<U, ()>): (r: Result<seq<FlexBoxItem<U>>, ()>)
    ensures r.Err? <==> exists i :: 0 <= i < |items| && convert(items[i].slot).Err?
    ensures r.Ok? ==> |r.value| == |items|
    ensures r.Ok? ==> forall i :: 0 <= i < |items| ==>
              r.value[i] == FlexBoxItem(convert(items[i].slot).value, items[i].layout)
  {
    if items == [] then Ok([])
    else
      match ItemTryFrom(items[0], convert)
      case Err(e) => Err(e)
      case Ok(first) =>
        match ItemsTryFrom(items[1..], convert)
        case Err(e) =>
          ghost var i :| 0 <= i < |items[1..]| && convert(items[1..][i].slot).Err?;
          assert convert(items[i + 1].slot).Err?;
          Err(e)
        case Ok(rest) => Ok([first] + rest)
  }

  /** `TryFrom<FlexBoxNode> for FlexBox`: fails exactly when some item's slot
      fails to convert; on success the items keep their number, order and
      layouts, and id, direction, separation and wrap are copied. */
  function TryFrom<N, U, P>(node: FlexBoxNode<N, P>, convert: N -> Result<U, ()>): (r: Result<FlexBox<U>, ()>)
    ensures r.Err? <==> exists i :: 0 <= i < |node.items| && convert(node.items[i].slot).Err?
    ensures r.Ok? ==> r.value.id == node.id && r.value.direction == node.direction
                      && r.value.separation == node.separation && r.value.wrap == node.wrap
    ensures r.Ok? ==> |r.value.items| == |node.items|
    ensures r.Ok? ==> forall i :: 0 <= i < |node.items| ==>
              r.value.items[i].slot == convert(node.items[i].slot).value
              && r.value.items[i].layout == node.items[i].layout
  {
    match ItemsTryFrom(node.items, convert)
    case Err(e) => Err(e)
    case Ok(items) => Ok(FlexBox(node.id, items, node.direction, node.separation, node.wrap))
  }

  /** The children of a converted flex box are the converted slots of the
      node's items, one per item, in item order. */
  lemma ChildrenAreConvertedSlots<N, U, P>(node: FlexBoxNode<N, P>, convert: N -> Result<U, ()>)
    requires TryFrom(node, convert).Ok?
    ensures |TryFrom(node, convert).value.GetChildren()| == |node.items|
    ensures forall i :: 0 <= i < |node.items| ==>
              convert(node.items[i].slot) == Ok(TryFrom(node, convert).value.GetChildren()[i])
  {
  }

  /** The conversion ignores props and transform: nodes differing only there
      convert alike. */
  lemma TryFromIgnoresPropsAndTransform<N, U, P>(node: FlexBoxNode<N, P>, props: P, transform: Transform, convert: N -> Result<U, ()>)
    ensures TryFrom(node.(props := props, transform := transform), convert) == TryFrom(node, convert)
  {
  }

  /** `FlexBoxNode::remap_props`: the props become `f` of the old props, in
      place; id, items, direction, separation, wrap and transform are kept. */
  method RemapProps<N, P>(node: Ref<FlexBoxNode<N, P>>, f: P -> P)
    modifies node
    ensures node.value == old(node.value).(props := f(old(node.value.props)))
  {
    var props := node.value.props;
    node.value := node.value.(props := f(props));
  }
}
