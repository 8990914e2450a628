/** The variant box component (containers/variant_box.rs): shows the one named
    slot its props select, or nothing. */
module VariantBoxComponent {
  import opened Common
  import opened PropsBag
  import Node

  /** `variant_box`: the named slot called `variant_name` when the props name
      one and it exists; the empty node when no name is given (also when the
      `VariantBoxProps` prop is absent) or no slot has that name. */
  function VariantBox(props: Props, namedSlots: map<string, Node.WidgetNode>): (r: Node.WidgetNode)
    ensures var name := ReadVariantBoxProps(props).variantName;
            && (name.None? ==> r == Node.DefaultWidgetNode)
            && (name.Some? && name.value in namedSlots ==> r == namedSlots[name.value])
            && (name.Some? && name.value !in namedSlots ==> r == Node.DefaultWidgetNode)
    ensures VariantBoxPropsTag !in props.entries ==> r == Node.DefaultWidgetNode
  {
    match ReadVariantBoxProps(props).variantName
    case Some(name) => if name in namedSlots then namedSlots[name] else Node.DefaultWidgetNode
    case None => Node.DefaultWidgetNode
  }

  /** The result depends on no named slot other than the selected one: two
      slot maps that agree on the selected name give the same node. */
  lemma VariantBoxIgnoresOtherSlots(props: Props, a: map<string, Node.WidgetNode>, b: map<string, Node.WidgetNode>)
    requires var name := ReadVariantBoxProps(props).variantName;
             name.Some? ==> (name.value in a <==> name.value in b)
                            && (name.value in a ==> a[name.value] == b[name.value])
    ensures VariantBox(props, a) == VariantBox(props, b)
  {
  }
}
