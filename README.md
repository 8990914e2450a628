# RAUI widget units and container components, in Dafny

This project models the data-model layer of RAUI's primitive widget units, and
the container components that turn a component invocation into a primitive
node.

- **Text, flex and image units** (`unit/text.rs`, `unit/flex.rs`,
  `unit/image.rs`). This covers the four-valued flow directions and their
  axis and order predicates, and the defaults of the size, alignment,
  material and tint types. It also covers the conversion from a
  pre-expansion node (`*Node`) to its renderer-facing unit, and
  `remap_props`, which rewrites a node's props in place.
- **Container components** (`flex_box`, `nav_flex_box`, `content_box`,
  `nav_content_box`, `horizontal_box`, `space_box`, `image_box`,
  `variant_box`). Each is a pure function from an id or key, props, shared
  props and slots to a widget node.

Files and modules:

- `common.dfy` (`Common`): `Result`, `Option`, `Color`, `Rect`, an opaque
  `Transform`, and `Ref<T>`, a mutable place standing for a `&mut` borrow.
- `text.dfy`, `flex.dfy`, `image.dfy` (`TextUnit`, `FlexUnit`, `ImageUnit`):
  the three unit files. Their node records are generic in the props type
  `P`, and the flex node also in its slot node type `N`. The unit files only
  carry those values around.
- `content.dfy`, `size.dfy` (`ContentUnit`, `SizeUnit`): the content and size
  nodes, as far as the components build them.
- `props.dfy` (`PropsBag`): the props bag.
  - It is a map from a type tag to a value, with `with`, `without`, `new`,
    and "read as T, else T's default" for every props type the containers
    read.
  - The props types declared next to each component in the source are
    declared here. The bag has to know them, and the widget node has to know
    the bag.
- `node.dfy` (`Node`): the widget node (empty, component invocation, or unit
  node) and the props a slot carries. It also holds the slot filter that
  `flex_box` and `content_box` share.
- One module per component file: `flex_box.dfy`, `content_box.dfy`,
  `horizontal_box.dfy`, `space_box.dfy`, `image_box.dfy`, `variant_box.dfy`.

Modelling choices:

- `Scalar` is `real`.
- `WidgetUnit::try_from` is passed to the flex conversion as a parameter
  `convert`. It turns a slot node into a unit, or into `Err(())`.
- `containers/flex_box.rs:71` and `image_box.rs:56` set a `transform` on
  the nodes they build. The `FlexBoxNode` and `ImageBoxNode` structs in
  `unit/flex.rs:147-155` and `unit/image.rs:152-160` do not declare that
  field. `horizontal_box.rs:23-31` builds `FlexBoxProps` without a
  `transform`.

  The model follows the component code. Both nodes carry a `transform`
  field, and each conversion drops it together with the props.
  `horizontal_box` forwards the default transform.

## Model

| member | source | states |
|---|---|---|
| `TextUnit.TextBoxDirection.IsHorizontal` | raui-core/src/widget/unit/text.rs:55-61 | a text direction is horizontal exactly when it is not vertical |
| `TextUnit.TextBoxDirection.IsOrderAscending` | raui-core/src/widget/unit/text.rs:63-69 | a text direction is ascending exactly when it is not descending |
| `TextUnit.TextBoxDirection.FromAxisAndOrder` | raui-core/src/widget/unit/text.rs:41-70 | for each (horizontal?, ascending?) pair there is a direction with exactly that classification |
| `TextUnit.DirectionFromAxisAndOrder` | raui-core/src/widget/unit/text.rs:41-70 | a direction's classification determines it, so the four directions and the four (axis, order) pairs correspond one to one |
| `TextUnit.DefaultDirectionIsHorizontalAscending` | raui-core/src/widget/unit/text.rs:48-52 | the default direction is `HorizontalLeftToRight`, which is horizontal and ascending |
| `TextUnit.TextBoxDefaults` | raui-core/src/widget/unit/text.rs:21-90 | the defaults are `Left`, `Top`, `HorizontalLeftToRight`, an empty zero-size font and `Fill` |
| `TextUnit.TryFrom` | raui-core/src/widget/unit/text.rs:122-151 | converting a text node always succeeds, and the unit plus the node's props rebuild the node: id, text, width, height, both alignments, direction, font, colour and transform are copied |
| `TextUnit.TryFromNodeOf` | raui-core/src/widget/unit/text.rs:122-151 | the other half of the round trip: a unit made into a node with any props converts back to itself |
| `TextUnit.TryFromDropsOnlyProps` | raui-core/src/widget/unit/text.rs:125-150 | two nodes convert to the same unit if and only if they differ at most in their props |
| `TextUnit.RemapProps` | raui-core/src/widget/unit/text.rs:169-177 | in place, the props become `f(old props)` and every other field is unchanged, so the node still converts to the same unit |
| `FlexUnit.FlexBoxDirection.IsHorizontal` | raui-core/src/widget/unit/flex.rs:80-86 | a flex direction is horizontal exactly when it is not vertical |
| `FlexUnit.FlexBoxDirection.IsOrderAscending` | raui-core/src/widget/unit/flex.rs:88-94 | a flex direction is ascending exactly when it is not descending |
| `FlexUnit.FlexBoxDirection.FromAxisAndOrder` | raui-core/src/widget/unit/flex.rs:65-95 | for each (horizontal?, ascending?) pair there is a flex direction with exactly that classification |
| `FlexUnit.DirectionFromAxisAndOrder` | raui-core/src/widget/unit/flex.rs:65-95 | axis and order determine a flex direction |
| `FlexUnit.DefaultDirectionIsHorizontalAscending` | raui-core/src/widget/unit/flex.rs:73-77 | the default flex direction is `HorizontalLeftToRight`, which is horizontal and ascending |
| `FlexUnit.FlexBox.GetChildren` | raui-core/src/widget/unit/flex.rs:116-118 | the children are the items' slots, one per item, in item order |
| `FlexUnit.ItemTryFrom` | raui-core/src/widget/unit/flex.rs:39-49 | converting an item succeeds if and only if its slot converts; the slot becomes the converted unit and the layout is kept |
| `FlexUnit.ItemsTryFrom` | raui-core/src/widget/unit/flex.rs:133-136 | collecting the item conversions fails if and only if some item's slot fails; otherwise every item is converted, with the same number and order |
| `FlexUnit.TryFrom` | raui-core/src/widget/unit/flex.rs:121-145 | converting a flex node fails if and only if some item fails. On success the items keep length, order and layouts, and id, direction, separation and wrap are copied |
| `FlexUnit.ChildrenAreConvertedSlots` | raui-core/src/widget/unit/flex.rs:111-145 | the children of a converted flex box are the converted slots of the node's items, in order |
| `FlexUnit.TryFromIgnoresPropsAndTransform` | raui-core/src/widget/unit/flex.rs:124-132 | the conversion does not look at props or transform |
| `FlexUnit.RemapProps` | raui-core/src/widget/unit/flex.rs:157-165 | in place, the props become `f(old props)`; id, items, direction, separation, wrap and transform are unchanged |
| `ImageUnit.DefaultImageIsUntinted` | raui-core/src/widget/unit/image.rs:47-67 | the default image has an empty id, no source rectangle, `Strech` scaling and an opaque white tint (all four channels 1) |
| `ImageUnit.DefaultMaterialIsDefaultColor` | raui-core/src/widget/unit/image.rs:84-88 | the default material is `Color` with the default colour and `Strech` scaling |
| `ImageUnit.DefaultSizeValueIsFill` | raui-core/src/widget/unit/image.rs:96-100 | the default image size value is `Fill` |
| `ImageUnit.TryFrom` | raui-core/src/widget/unit/image.rs:130-150 | converting an image node always succeeds; id, width, height, aspect-ratio policy and material are copied, and the unit plus props and transform rebuild the node |
| `ImageUnit.TryFromNodeOf` | raui-core/src/widget/unit/image.rs:130-150 | a unit made into a node converts back to itself |
| `ImageUnit.RemapProps` | raui-core/src/widget/unit/image.rs:162-170 | in place, the props become `f(old props)`, no other field changes, and the conversion result is unchanged |
| `PropsBag.Props.With` | demos/hello-world/src/ui/components/color_rect.rs:14 | after `with`, the value is stored under its own type's tag, every other entry is unchanged, and a well-formed bag stays well-formed |
| `PropsBag.Props.Without` | raui-core/src/widget/component/containers/flex_box.rs:33-35 | after `without`, the tag is absent, every other entry keeps its value, and a well-formed bag stays well-formed |
| `PropsBag.New` | raui-core/src/widget/component/containers/horizontal_box.rs:23-34 | converting one props value into a bag gives a well-formed bag holding exactly that value, under its tag |
| `PropsBag.WithoutNavMarkers` | raui-core/src/widget/component/containers/flex_box.rs:31-35 | removing the three navigation markers leaves none of them, and keeps every other entry with its value |
| `Node.PositionsFrom` | raui-core/src/widget/component/containers/flex_box.rs:51-61 | the positions (from a start) of the slots carrying props, each exactly once, strictly increasing |
| `Node.PropsCarryingPositions` | raui-core/src/widget/component/containers/flex_box.rs:51-61 | the positions of all props-carrying slots, each exactly once, strictly increasing, at most as many as the slots |
| `Node.FilterMapFrom` | raui-core/src/widget/component/containers/content_box.rs:45-55 | the `filter_map` from a start position: the k-th result is the item built from the k-th props-carrying slot and its props |
| `Node.FilterMapSlots` | raui-core/src/widget/component/containers/flex_box.rs:51-61 | the filtered items are exactly those of the props-carrying slots, in their original relative order |
| `Node.FilterMapSlotsKeepsExactlyPropsCarrying` | raui-core/src/widget/component/containers/content_box.rs:45-55 | a slot yields an item if and only if it carries props; there are no more items than slots |
| `FlexBoxComponent.FlexBox` | raui-core/src/widget/component/containers/flex_box.rs:43-75 | the flex node has the component's id and props. Its items are the props-carrying listed slots in order, each with its `FlexBoxItemLayout` or the default. Direction, separation, wrap and transform come from `FlexBoxProps`; without it they are `HorizontalLeftToRight`, 0, no wrap and the default transform |
| `FlexBoxComponent.NavFlexBox` | raui-core/src/widget/component/containers/flex_box.rs:28-41 | forwards to `flex_box` with the same key and listed slots, and with props less the three navigation markers, all other props kept; a well-formed bag stays well-formed |
| `FlexBoxComponent.NavFlexBoxForwardsLayout` | raui-core/src/widget/component/containers/flex_box.rs:31-39 | expanding the forwarded invocation gives the node `flex_box` builds from the original props, except that the node's props lack the markers |
| `ContentBoxComponent.ContentBox` | raui-core/src/widget/component/containers/content_box.rs:39-67 | the content node has the component's id and props. Its items are the props-carrying listed slots in order, each with its `ContentBoxItemLayout` or the default. Clipping and transform come from `ContentBoxProps`; without it there is no clipping and the transform is the default |
| `ContentBoxComponent.NavContentBox` | raui-core/src/widget/component/containers/content_box.rs:24-37 | forwards to `content_box` with the same key and listed slots, and with props less the three navigation markers, all other props kept; a well-formed bag stays well-formed |
| `ContentBoxComponent.NavContentBoxForwardsLayout` | raui-core/src/widget/component/containers/content_box.rs:27-35 | expanding the forwarded invocation gives the node `content_box` builds from the original props, except that the node's props lack the markers |
| `ImageBoxComponent.FoldAlpha` | raui-core/src/widget/component/image_box.rs:38-46 | for a `Color` material the colour's alpha is multiplied by the shared alpha, with r, g, b and scaling kept. For an `Image` material the tint's alpha is multiplied, with id, source rectangle, scaling and tint r, g, b kept. A `Procedural` material is unchanged |
| `ImageBoxComponent.FoldFullAlphaIsIdentity` | raui-core/src/widget/component/image_box.rs:38-46 | a shared alpha of 1 leaves every material unchanged |
| `ImageBoxComponent.FoldAlphaComposes` | raui-core/src/widget/component/image_box.rs:37-46 | folding alpha a and then alpha b is folding a × b |
| `ImageBoxComponent.ImageBox` | raui-core/src/widget/component/image_box.rs:28-60 | the image node has the component's id and props. Width, height, aspect-ratio policy and transform come from `ImageBoxProps`, and the material is that of the props with the shared alpha folded in. Without `ImageBoxProps` the node is `Fill` × `Fill` with no aspect policy, the default transform and the default material |
| `ImageBoxComponent.ImageBoxFullAlphaKeepsMaterial` | raui-core/src/widget/component/image_box.rs:37-46 | without a shared `WidgetAlpha`, or with one of 1, the material is the props' material |
| `ImageBoxComponent.ImageBoxConverts` | raui-core/src/widget/component/image_box.rs:48-57 | the produced node converts to an image unit with the component's id, the props' sizes and aspect policy, and the alpha-folded material |
| `HorizontalBoxComponent.DirectionOf` | raui-core/src/widget/component/containers/horizontal_box.rs:24-28 | the direction is always horizontal, and it is descending if and only if `reversed` |
| `HorizontalBoxComponent.DirectionOfIsExact` | raui-core/src/widget/component/containers/horizontal_box.rs:24-28 | `reversed` gives `HorizontalRightToLeft`; otherwise the direction is `HorizontalLeftToRight` |
| `HorizontalBoxComponent.HorizontalBox` | raui-core/src/widget/component/containers/horizontal_box.rs:20-37 | forwards to `flex_box` with the same key and listed slots. The props hold one entry, a `FlexBoxProps` stored under its own tag (the bag is well-formed), with a horizontal direction that is descending if and only if `reversed`, the given separation, no wrap and the default transform |
| `HorizontalBoxComponent.HorizontalBoxExpandsToHorizontalFlex` | raui-core/src/widget/component/containers/horizontal_box.rs:22-35 | expanding the forwarded invocation gives a horizontal, non-wrapping flex node with that separation and the same items `flex_box` makes of the slots |
| `SpaceBoxComponent.SpaceBox` | raui-core/src/widget/component/space_box.rs:17-31 | the size node has the component's id and props, `Exact(width)` × `Exact(height)` from `SpaceBoxProps`, and every other field at its default. Without `SpaceBoxProps` it is `Exact(0)` × `Exact(0)` |
| `SpaceBoxComponent.SpaceBoxOfSize` | raui-core/src/widget/component/space_box.rs:19-26 | props holding `SpaceBoxProps(w, h)` give a box exactly w by h |
| `VariantBoxComponent.VariantBox` | raui-core/src/widget/component/containers/variant_box.rs:13-21 | with no variant name (or no `VariantBoxProps`) the result is the empty default node. A name that is a named slot selects that slot's node; a name that is not selects the default node |
| `VariantBoxComponent.VariantBoxIgnoresOtherSlots` | raui-core/src/widget/component/containers/variant_box.rs:15-19 | the result depends on no named slot other than the selected one |

## Left out

- The expansion engine, state store, message bus and layout engine are not
  part of this model. Neither are the widget and props macros, the serde
  derives, or the `*NodeDef` and `*Prefab` records, which only serve
  serialisation.
- The navigation hooks (`use_nav_container_active`, `use_nav_jump`,
  `use_nav_jump_direction_active`, `use_nav_item`) are not modelled. Only
  their three marker types appear, as props tags that the `nav_*` containers
  remove.
- `node.rs` is not part of this model.
  - `WidgetNode` has three cases: empty, component invocation (type name,
    key, props, listed and named slots), and unit node.
  - `WidgetNode::props` is taken to be none for the empty node and the
    node's own props otherwise.
  - `WidgetUnit::try_from` is an arbitrary parameter.
  - The `Into<WidgetNode>` step of `widget!` is modelled as wrapping the unit
    node.
  - Grid units are not modelled.
- `unit/content.rs` and `unit/size.rs` are not part of this model.
  - Content item layouts are opaque: either the default or some other value.
  - The size node's fields other than id, props, width and height are one
    opaque value, either the default or not.
- `utils.rs` is not part of this model. `Color` and `Rect` default to all
  zeros, as their derived `Default` gives. `Transform` is opaque: either the
  default or some other value.
- `component/mod.rs` is not part of this model. The default `WidgetAlpha` is
  taken to be 1 (full opacity).
- `props.rs` is not part of this model. `with`, `without`, `new` and
  `read_cloned_or_default` are modelled from the way the core calls them.
  - The props bag's type-erased storage is a closed sum of the props types
    the containers read, plus an opaque "other" case.
  - Every `read_cloned_or_default` is a map lookup that falls back to the
    type's default.
- Floating point is exact `real` arithmetic. `FoldAlpha`'s product has no
  rounding, so `FoldAlphaComposes` holds only up to rounding in the source.
- TextUnit.RemapProps, FlexUnit.RemapProps, ImageUnit.RemapProps: `f` is a
  pure function, where the source accepts an `FnMut` that may have side
  effects. The default that `mem::take` / `mem::replace` leaves in the field
  for the duration of the call is not observable, so it is not modelled.
