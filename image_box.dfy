/** The image box component (image_box.rs): turns an invocation's id, props and
    shared props into an image unit node, folding the shared `WidgetAlpha`
    into the alpha of the material's colour or tint. */
module ImageBoxComponent {
  import opened Common
  import opened PropsBag
  import ImageUnit
  import Node

  /** The material with the shared alpha multiplied into the alpha of a
      colour material's colour or an image material's tint; every other part
      of the material, and a procedural material as a whole, is unchanged. */
  function FoldAlpha(material: ImageUnit.ImageBoxMaterial, alpha: Scalar): (r: ImageUnit.ImageBoxMaterial)
    ensures material.Color? ==>
              && r.Color? && r.color.scaling == material.color.scaling
              && r.color.color.r == material.color.color.r
              && r.color.color.g == material.color.color.g
              && r.color.color.b == material.color.color.b
              && r.color.color.a == material.color.color.a * alpha
    ensures material.Image? ==>
              && r.Image? && r.image.id == material.image.id
              && r.image.sourceRect == material.image.sourceRect
              && r.image.scaling == material.image.scaling
              && r.image.tint.r == material.image.tint.r
              && r.image.tint.g == material.image.tint.g
              && r.image.tint.b == material.image.tint.b
              && r.image.tint.a == material.image.tint.a * alpha
    ensures material.Procedural? ==> r == material
  {
    match material
    case Color(image) => ImageUnit.Color(image.(color := image.color.(a := image.color.a * alpha)))
    case Image(image) => ImageUnit.Image(image.(tint := image.tint.(a := image.tint.a * alpha)))
    case Procedural(_) => material
  }

  /** A shared alpha of 1 leaves every material unchanged. */
  lemma FoldFullAlphaIsIdentity(material: ImageUnit.ImageBoxMaterial)
    ensures FoldAlpha(material, 1.0) == material
  {
  }

  /** Folding alpha `a` and then alpha `b` is the same as folding `a * b`. */
  lemma FoldAlphaComposes(material: ImageUnit.ImageBoxMaterial, a: Scalar, b: Scalar)
    ensures FoldAlpha(FoldAlpha(material, a), b) == FoldAlpha(material, a * b)
  {
  }

  /** `image_box`: an image unit node with the component's id and props, the
      width, height, aspect-ratio policy and transform of the `ImageBoxProps`
      prop (or their defaults), and its material with the shared alpha
      folded in. */
  function ImageBox(id: WidgetId, props: Props, sharedProps: Props): (r: Node.WidgetNode)
    ensures r.Unit? && r.unit.ImageBox?
    ensures var n := r.unit.imageBox;
            var p := ReadImageBoxProps(props);
            && n.id == id && n.props == props
            && n.width == p.width && n.height == p.height
            && n.contentKeepAspectRatio == p.contentKeepAspectRatio
            && n.transform == p.transform
            && n.material == FoldAlpha(p.material, ReadWidgetAlpha(sharedProps))
    ensures ImageBoxPropsTag !in props.entries ==>
              var n := r.unit.imageBox;
              && n.width == ImageUnit.Fill && n.height == ImageUnit.Fill
              && n.contentKeepAspectRatio.None? && n.transform == DefaultTransform
              && n.material == ImageUnit.DefaultImageBoxMaterial
  {
    var p := ReadImageBoxProps(props);
    var alpha := ReadWidgetAlpha(sharedProps);
    var material := FoldAlpha(p.material, alpha);
    Node.Unit(Node.ImageBox(ImageUnit.ImageBoxNode(id, props, p.width, p.height, p.contentKeepAspectRatio, material, p.transform)))
  }

  /** Without a shared `WidgetAlpha`, or with one of 1, the material is the
      one in the props. */
  lemma ImageBoxFullAlphaKeepsMaterial(id: WidgetId, props: Props, sharedProps: Props)
    requires WidgetAlphaTag !in sharedProps.entries || sharedProps.entries[WidgetAlphaTag] == WidgetAlphaData(1.0)
    ensures ImageBox(id, props, sharedProps).unit.imageBox.material == ReadImageBoxProps(props).material
  {
    FoldFullAlphaIsIdentity(ReadImageBoxProps(props).material);
  }

  /** The produced node converts to an image unit that keeps the props'
      width, height and aspect-ratio policy and the alpha-folded material. */
  lemma ImageBoxConverts(id: WidgetId, props: Props, sharedProps: Props)
    ensures var u := ImageUnit.TryFrom(ImageBox(id, props, sharedProps).unit.imageBox);
            var p := ReadImageBoxProps(props);
            && u.Ok? && u.value.id == id
            && u.value.width == p.width && u.value.height == p.height
            && u.value.contentKeepAspectRatio == p.contentKeepAspectRatio
            && u.value.material == FoldAlpha(p.material, ReadWidgetAlpha(sharedProps))
  {
  }
}
