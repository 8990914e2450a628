/** The image unit (raui-core/src/widget/unit/image.rs): scaling, materials,
    size policy, aspect-ratio alignment, the pre-expansion `ImageBoxNode` and
    its conversion to the renderer-facing `ImageBox`. */
module ImageUnit {
  import Common

  datatype ImageBoxImageScaling =
    | Strech
    | Frame(size: Common.Scalar, frameOnly: bool)

  const DefaultImageBoxImageScaling: ImageBoxImageScaling := Strech

  datatype ImageBoxColor = ImageBoxColor(color: Common.Color, scaling: ImageBoxImageScaling)

  const DefaultImageBoxColor: ImageBoxColor :=
    ImageBoxColor(Common.DefaultColor, DefaultImageBoxImageScaling)

  datatype ImageBoxImage = ImageBoxImage(
    id: string,
    sourceRect: Common.Option<Common.Rect>,
    scaling: ImageBoxImageScaling,
    tint: Common.Color)

  /** `ImageBoxImage::default_tint`: opaque white. */
  const DefaultTint: Common.Color := Common.Color(1.0, 1.0, 1.0, 1.0)

  const DefaultImageBoxImage: ImageBoxImage :=
    ImageBoxImage("", Common.None, DefaultImageBoxImageScaling, DefaultTint)

  /** The default image draws the whole source, stretched, untinted: an empty
      id, no source rectangle, `Strech` scaling and a tint that leaves every
      channel of the image at full strength. */
  lemma DefaultImageIsUntinted()
    ensures DefaultImageBoxImage.id == "" && DefaultImageBoxImage.sourceRect.None?
    ensures DefaultImageBoxImage.scaling == Strech
    ensures var t := DefaultImageBoxImage.tint; t.r == t.g == t.b == t.a == 1.0
  {
  }

  datatype ImageBoxProcedural = ImageBoxProcedural(id: string, parameters: map<string, Common.Scalar>)

  datatype ImageBoxMaterial =
    | Color(color: ImageBoxColor)
    | Image(image: ImageBoxImage)
    | Procedural(procedural: ImageBoxProcedural)

  const DefaultImageBoxMaterial: ImageBoxMaterial := Color(DefaultImageBoxColor)

  /** The default material is a plain colour, with the default colour and
      `Strech` scaling. */
  lemma DefaultMaterialIsDefaultColor()
    ensures DefaultImageBoxMaterial.Color?
    ensures DefaultImageBoxMaterial.color == ImageBoxColor(Common.DefaultColor, Strech)
  {
  }

  datatype ImageBoxSizeValue = Fill | Exact(value: Common.Scalar)

  const DefaultImageBoxSizeValue: ImageBoxSizeValue := Fill

  /** A size left unspecified fills the available space. */
  lemma DefaultSizeValueIsFill()
    ensures DefaultImageBoxSizeValue == Fill && !DefaultImageBoxSizeValue.Exact?
  {
  }

  datatype ImageBoxAspectRatio = ImageBoxAspectRatio(horizontalAlignment: Common.Scalar, verticalAlignment: Common.Scalar)

  /** The renderer-facing image unit. */
  datatype ImageBox = ImageBox(
    id: Common.WidgetId,
    width: ImageBoxSizeValue,
    height: ImageBoxSizeValue,
    contentKeepAspectRatio: Common.Option<ImageBoxAspectRatio>,
    material: ImageBoxMaterial)

  /** The pre-expansion image node: an `ImageBox` plus the node's props.
      `transform` is set by the image box component (image_box.rs) and is not
      a field of the unit, so the conversion drops it with the props. */
  datatype ImageBoxNode<P> = ImageBoxNode(
    id: Common.WidgetId,
    props: P,
    width: ImageBoxSizeValue,
    height: ImageBoxSizeValue,
    contentKeepAspectRatio: Common.Option<ImageBoxAspectRatio>,
    material: ImageBoxMaterial,
    transform: Common.Transform)

  /** Reference definition: the node made of a unit, a props value and a
      transform. */
  function NodeOf<P>(unit: ImageBox, props: P, transform: Common.Transform): ImageBoxNode<P>
  {
    ImageBoxNode(unit.id, props, unit.width, unit.height, unit.contentKeepAspectRatio, unit.material, transform)
  }

  /** `TryFrom<ImageBoxNode> for ImageBox`: never fails, and the unit with the
      node's props and transform rebuilds the node: id, width, height,
      aspect-ratio policy and material are copied unchanged. */
  function TryFrom<P>(node: ImageBoxNode<P>): (r: Common.Result<ImageBox, ()>)
    ensures r.Ok?
    ensures NodeOf(r.value, node.props, node.transform) == node
  {
    Common.Ok(ImageBox(node.id, node.width, node.height, node.contentKeepAspectRatio, node.material))
  }

  /** A unit made into a node with any props and transform converts back to
      itself. */
  lemma TryFromNodeOf<P>(unit: ImageBox, props: P, transform: Common.Transform)
    ensures TryFrom(NodeOf(unit, props, transform)) == Common.Ok(unit)
  {
  }

  /** `ImageBoxNode::remap_props`: the props become `f` of the old props, in
      place; no other field changes. */
  method RemapProps<P>(node: Common.Ref<ImageBoxNode<P>>, f: P -> P)
    modifies node
    ensures node.value == old(node.value).(props := f(old(node.value.props)))
    ensures TryFrom(node.value) == TryFrom(old(node.value))
  {
    var props := node.value.props;
    node.value := node.value.(props := f(props));
  }
}
