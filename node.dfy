/** The pre-expansion widget node: empty, a component invocation, or a unit
    node whose slots are nodes again. node.rs, which declares it, is not part
    of this model; only what the container components use of it is: the
    component invocation they return, and the props a slot carries. */
module Node {
  import Common
  import opened PropsBag
  import TextUnit
  import FlexUnit
  import ImageUnit
  import ContentUnit
  import SizeUnit

  datatype WidgetNode =
      /** `WidgetNode::None`: no widget. */
    | Empty
    | Component(component: WidgetComponent)
    | Unit(unit: WidgetUnitNode)
  {
    /** `WidgetNode::props`: an empty node carries no props; a component
        invocation and a unit node carry their own. */
    function GetProps(): Common.Option<Props>
    {
      match this
      case Empty => Common.None
      case Component(c) => Common.Some(c.props)
      case Unit(u) => Common.Some(u.GetProps())
    }
  }

  /** `WidgetNode::default()`. */
  const DefaultWidgetNode: WidgetNode := Empty

  /** A component invocation: the component's type name, an optional key, its
      props, its listed slots and its named slots. */
  datatype WidgetComponent = WidgetComponent(
    typeName: string,
    key: Common.Option<string>,
    props: Props,
    listedSlots: seq<WidgetNode>,
    namedSlots: map<string, WidgetNode>)

  /** The primitive unit nodes the container components produce. */
  datatype WidgetUnitNode =
    | ContentBox(contentBox: ContentUnit.ContentBoxNode<WidgetNode, Props>)
    | FlexBox(flexBox: FlexUnit.FlexBoxNode<WidgetNode, Props>)
    | ImageBox(imageBox: ImageUnit.ImageBoxNode<Props>)
    | SizeBox(sizeBox: SizeUnit.SizeBoxNode<Props>)
    | TextBox(textBox: TextUnit.TextBoxNode<Props>)
  {
    function GetProps(): Props
    {
      match this
      case ContentBox(n) => n.props
      case FlexBox(n) => n.props
      case ImageBox(n) => n.props
      case SizeBox(n) => n.props
      case TextBox(n) => n.props
    }
  }

  predicate CarriesProps(slot: WidgetNode)
  {
    slot.GetProps().Some?
  }

  /** The positions, from `from` on, of the slots that carry props: every
      such position exactly once, in increasing order. */
  function PositionsFrom(slots: seq<WidgetNode>, from: nat): (r: seq<nat>)
    requires from <= |slots|
    ensures |r| <= |slots| - from
    ensures forall k :: 0 <= k < |r| ==> from <= r[k] < |slots| && CarriesProps(slots[r[k]])
    ensures forall k, l :: 0 <= k < l < |r| ==> r[k] < r[l]
    ensures forall i :: from <= i < |slots| && CarriesProps(slots[i]) ==> i in r
    decreases |slots| - from
  {
    if from == |slots| then []
    else
      var rest := PositionsFrom(slots, from + 1);
      if CarriesProps(slots[from]) then [from] + rest else rest
  }

  /** The positions of all slots that carry props, in increasing order. */
  function PropsCarryingPositions(slots: seq<WidgetNode>): (r: seq<nat>)
    ensures |r| <= |slots|
    ensures forall k :: 0 <= k < |r| ==> r[k] < |slots| && CarriesProps(slots[r[k]])
    ensures forall k, l :: 0 <= k < l < |r| ==> r[k] < r[l]
    ensures forall i :: 0 <= i < |slots| && CarriesProps(slots[i]) ==> i in r
  {
    PositionsFrom(slots, 0)
  }

  /** The `filter_map` over the listed slots from `from` on: a slot carrying
      props becomes `item(slot, props)`, any other slot is dropped. */
  function FilterMapFrom<T>(slots: seq<WidgetNode>, from: nat, item: (WidgetNode, Props) -> T): (r: seq<T>)
    requires from <= |slots|
    ensures |r| == |PositionsFrom(slots, from)|
    ensures forall k :: 0 <= k < |r| ==>
              var s := slots[PositionsFrom(slots, from)[k]];
              r[k] == item(s, s.GetProps().value)
    decreases |slots| - from
  {
    if from == |slots| then []
    else
      var rest := FilterMapFrom(slots, from + 1, item);
      if CarriesProps(slots[from]) then [item(slots[from], slots[from].GetProps().value)] + rest else rest
  }

  /** The `filter_map` over listed slots that flex_box and content_box apply.
      The result lists the items of exactly the props-carrying slots, in
      their original relative order. */
  function FilterMapSlots<T>(slots: seq<WidgetNode>, item: (WidgetNode, Props) -> T): (r: seq<T>)
    ensures |r| == |PropsCarryingPositions(slots)|
    ensures forall k :: 0 <= k < |r| ==>
              var s := slots[PropsCarryingPositions(slots)[k]];
              r[k] == item(s, s.GetProps().value)
  {
    FilterMapFrom(slots, 0, item)
  }

  /** Filtering keeps the props-carrying slots and nothing else: a slot that
      carries props yields an item, a slot that does not yields none. */
  lemma FilterMapSlotsKeepsExactlyPropsCarrying<T>(slots: seq<WidgetNode>, item: (WidgetNode, Props) -> T)
    ensures |FilterMapSlots(slots, item)| <= |slots|
    ensures forall i :: 0 <= i < |slots| ==>
              (CarriesProps(slots[i]) <==> exists k :: 0 <= k < |FilterMapSlots(slots, item)|
                                              && PropsCarryingPositions(slots)[k] == i)
  {
  }
}
