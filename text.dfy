/** The text unit (raui-core/src/widget/unit/text.rs): alignment, direction and
    size policies, the pre-expansion node `TextBoxNode` and its conversion to
    the renderer-facing `TextBox`. The node is generic in the props type `P`:
    the unit only carries its props and hands them to `remap_props`. */
module TextUnit {
  import opened Common

  datatype TextBoxHorizontalAlign = Left | Center | Right

  const DefaultTextBoxHorizontalAlign: TextBoxHorizontalAlign := Left

  datatype TextBoxVerticalAlign = Top | Middle | Bottom

  const DefaultTextBoxVerticalAlign: TextBoxVerticalAlign := Top

  /** The four flow directions of a text block. */
  datatype TextBoxDirection =
    | HorizontalLeftToRight
    | HorizontalRightToLeft
    | VerticalTopToBottom
    | VerticalBottomToTop
  {
    function IsHorizontal(): (b: bool)
      ensures b <==> !IsVertical()
    {
      this == HorizontalLeftToRight || this == HorizontalRightToLeft
    }

    function IsVertical(): bool
    {
      this == VerticalTopToBottom || this == VerticalBottomToTop
    }

    function IsOrderAscending(): (b: bool)
      ensures b <==> !IsOrderDescending()
    {
      this == HorizontalLeftToRight || this == VerticalTopToBottom
    }

    function IsOrderDescending(): bool
    {
      this == HorizontalRightToLeft || this == VerticalBottomToTop
    }

    /** The direction with the given axis and order: a reference definition
        showing that the two classifications together name each direction. */
    static function FromAxisAndOrder(horizontal: bool, ascending: bool): (d: TextBoxDirection)
      ensures d.IsHorizontal() == horizontal && d.IsOrderAscending() == ascending
    {
      if horizontal then
        (if ascending then HorizontalLeftToRight else HorizontalRightToLeft)
      else
        (if ascending then VerticalTopToBottom else VerticalBottomToTop)
    }
  }

  const DefaultTextBoxDirection: TextBoxDirection := HorizontalLeftToRight

  /** Axis and order determine the direction: classifying a direction and
      rebuilding it from the classification gives it back. */
  lemma DirectionFromAxisAndOrder(d: TextBoxDirection)
    ensures TextBoxDirection.FromAxisAndOrder(d.IsHorizontal(), d.IsOrderAscending()) == d
  {
  }

  /** The default direction flows horizontally, in ascending order. */
  lemma DefaultDirectionIsHorizontalAscending()
    ensures DefaultTextBoxDirection.IsHorizontal() && DefaultTextBoxDirection.IsOrderAscending()
    ensures DefaultTextBoxDirection == TextBoxDirection.FromAxisAndOrder(true, true)
  {
  }

  datatype TextBoxFont = TextBoxFont(name: string, size: Scalar)

  const DefaultTextBoxFont: TextBoxFont := TextBoxFont("", 0.0)

  datatype TextBoxSizeValue = Fill | Exact(value: Scalar)

  const DefaultTextBoxSizeValue: TextBoxSizeValue := Fill

  /** The defaults of the alignment, direction, font and size types. */
  lemma TextBoxDefaults()
    ensures DefaultTextBoxHorizontalAlign == Left
    ensures DefaultTextBoxVerticalAlign == Top
    ensures DefaultTextBoxDirection == HorizontalLeftToRight
    ensures DefaultTextBoxFont.name == "" && DefaultTextBoxFont.size == 0.0
    ensures DefaultTextBoxSizeValue == Fill
  {
  }

  /** The renderer-facing text unit. */
  datatype TextBox = TextBox(
    id: WidgetId,
    text: string,
    width: TextBoxSizeValue,
    height: TextBoxSizeValue,
    horizontalAlign: TextBoxHorizontalAlign,
    verticalAlign: TextBoxVerticalAlign,
    direction: TextBoxDirection,
    font: TextBoxFont,
    color: Color,
    transform: Transform)

  /** The pre-expansion text node: a `TextBox` plus the node's props. */
  datatype TextBoxNode<P> = TextBoxNode(
    id: WidgetId,
    props: P,
    text: string,
    width: TextBoxSizeValue,
    height: TextBoxSizeValue,
    horizontalAlign: TextBoxHorizontalAlign,
    verticalAlign: TextBoxVerticalAlign,
    direction: TextBoxDirection,
    font: TextBoxFont,
    color: Color,
    transform: Transform)

  /** Reference definition of what a node holds beyond its unit: the node
      made of a unit and a props value. */
  function NodeOf<P>(unit: TextBox, props: P): TextBoxNode<P>
  {
    TextBoxNode(unit.id, props, unit.text, unit.width, unit.height, unit.horizontalAlign,
                unit.verticalAlign, unit.direction, unit.font, unit.color, unit.transform)
  }

  /** `TryFrom<TextBoxNode> for TextBox`: never fails, and the unit together
      with the node's props rebuilds the node, so only the props are dropped. */
  function TryFrom<P>(node: TextBoxNode<P>): (r: Result<TextBox, ()>)
    ensures r.Ok?
    ensures NodeOf(r.value, node.props) == node
  {
    Ok(TextBox(node.id, node.text, node.width, node.height, node.horizontalAlign,
               node.verticalAlign, node.direction, node.font, node.color, node.transform))
  }

  /** The other half of the round trip: a unit turned into a node with any
      props converts back to the same unit. */
  lemma TryFromNodeOf<P>(unit: TextBox, props: P)
    ensures TryFrom(NodeOf(unit, props)) == Ok(unit)
  {
  }

  /** Two nodes convert to the same unit exactly when they differ at most in
      their props. */
  lemma TryFromDropsOnlyProps<P>(a: TextBoxNode<P>, b: TextBoxNode<P>)
    ensures TryFrom(a) == TryFrom(b) <==> a.(props := b.props) == b
  {
  }

  /** `TextBoxNode::remap_props`: replaces the node's props by `f` of the old
      props, in place, and changes no other field. */
  method RemapProps<P>(node: Ref<TextBoxNode<P>>, f: P -> P)
    modifies node
    ensures node.value == old(node.value).(props := f(old(node.value.props)))
    ensures TryFrom(node.value) == TryFrom(old(node.value))
  {
    var props := node.value.props;
    node.value := node.value.(props := f(props));
  }
}
