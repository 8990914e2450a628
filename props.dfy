/** The props bag: an open mapping from a type tag to a value of that type,
    read as "the stored value, else the type's default". The value types are
    the props data the container components register and read; their
    definitions sit beside the component that uses them in the source
    (containers/flex_box.rs, content_box.rs, horizontal_box.rs,
    variant_box.rs, image_box.rs, space_box.rs). Props of other types are
    kept opaque. */
module PropsBag {
  import opened Common
  import FlexUnit
  import ImageUnit
  import ContentUnit

  /** `FlexBoxProps` (containers/flex_box.rs). */
  datatype FlexBoxProps = FlexBoxProps(
    direction: FlexUnit.FlexBoxDirection,
    separation: Scalar,
    wrap: bool,
    transform: Transform)

  const DefaultFlexBoxProps: FlexBoxProps :=
    FlexBoxProps(FlexUnit.DefaultFlexBoxDirection, 0.0, false, DefaultTransform)

  /** `ContentBoxProps` (containers/content_box.rs). */
  datatype ContentBoxProps = ContentBoxProps(clipping: bool, transform: Transform)

  const DefaultContentBoxProps: ContentBoxProps := ContentBoxProps(false, DefaultTransform)

  /** `HorizontalBoxProps` (containers/horizontal_box.rs). */
  datatype HorizontalBoxProps = HorizontalBoxProps(separation: Scalar, reversed: bool)

  const DefaultHorizontalBoxProps: HorizontalBoxProps := HorizontalBoxProps(0.0, false)

  /** `VariantBoxProps` (containers/variant_box.rs). */
  datatype VariantBoxProps = VariantBoxProps(variantName: Option<string>)

  const DefaultVariantBoxProps: VariantBoxProps := VariantBoxProps(None)

  /** `ImageBoxProps` (image_box.rs). */
  datatype ImageBoxProps = ImageBoxProps(
    width: ImageUnit.ImageBoxSizeValue,
    height: ImageUnit.ImageBoxSizeValue,
    contentKeepAspectRatio: Option<ImageUnit.ImageBoxAspectRatio>,
    material: ImageUnit.ImageBoxMaterial,
    transform: Transform)

  const DefaultImageBoxProps: ImageBoxProps :=
    ImageBoxProps(ImageUnit.DefaultImageBoxSizeValue, ImageUnit.DefaultImageBoxSizeValue, None,
                  ImageUnit.DefaultImageBoxMaterial, DefaultTransform)

  /** `SpaceBoxProps` (space_box.rs). */
  datatype SpaceBoxProps = SpaceBoxProps(width: Scalar, height: Scalar)

  const DefaultSpaceBoxProps: SpaceBoxProps := SpaceBoxProps(0.0, 0.0)

  /** The default `WidgetAlpha`: full opacity. (component/mod.rs, where it is
      declared, is not part of this model.) */
  const DefaultWidgetAlpha: Scalar := 1.0

  /** The type tag under which a props value is stored. */
  datatype PropsTag =
    | FlexBoxPropsTag
    | FlexBoxItemLayoutTag
    | ContentBoxPropsTag
    | ContentBoxItemLayoutTag
    | HorizontalBoxPropsTag
    | VariantBoxPropsTag
    | ImageBoxPropsTag
    | SpaceBoxPropsTag
    | WidgetAlphaTag
    | NavContainerActiveTag
    | NavJumpActiveTag
    | NavItemActiveTag
    | OtherTag(typeName: string)

  /** A props value of one of the registered types. */
  datatype PropsData =
    | FlexBoxPropsData(flexBoxProps: FlexBoxProps)
    | FlexBoxItemLayoutData(flexBoxItemLayout: FlexUnit.FlexBoxItemLayout)
    | ContentBoxPropsData(contentBoxProps: ContentBoxProps)
    | ContentBoxItemLayoutData(contentBoxItemLayout: ContentUnit.ContentBoxItemLayout)
    | HorizontalBoxPropsData(horizontalBoxProps: HorizontalBoxProps)
    | VariantBoxPropsData(variantBoxProps: VariantBoxProps)
    | ImageBoxPropsData(imageBoxProps: ImageBoxProps)
    | SpaceBoxPropsData(spaceBoxProps: SpaceBoxProps)
    | WidgetAlphaData(alpha: Scalar)
      /** The navigation capability markers the `use_nav_*` hooks add. */
    | NavContainerActiveData
    | NavJumpActiveData
    | NavItemActiveData
    | OtherData(typeName: string, handle: nat)

  function TagOf(d: PropsData): PropsTag
  {
    match d
    case FlexBoxPropsData(_) => FlexBoxPropsTag
    case FlexBoxItemLayoutData(_) => FlexBoxItemLayoutTag
    case ContentBoxPropsData(_) => ContentBoxPropsTag
    case ContentBoxItemLayoutData(_) => ContentBoxItemLayoutTag
    case HorizontalBoxPropsData(_) => HorizontalBoxPropsTag
    case VariantBoxPropsData(_) => VariantBoxPropsTag
    case ImageBoxPropsData(_) => ImageBoxPropsTag
    case SpaceBoxPropsData(_) => SpaceBoxPropsTag
    case WidgetAlphaData(_) => WidgetAlphaTag
    case NavContainerActiveData => NavContainerActiveTag
    case NavJumpActiveData => NavJumpActiveTag
    case NavItemActiveData => NavItemActiveTag
    case OtherData(name, _) => OtherTag(name)
  }

  /** The three navigation markers `nav_*` containers strip before forwarding. */
  const NavMarkers: set<PropsTag> := {NavContainerActiveTag, NavJumpActiveTag, NavItemActiveTag}

  datatype Props = Props(entries: map<PropsTag, PropsData>)
  {
    /** Every entry is stored under its own type's tag. */
    ghost predicate Valid()
    {
      forall t :: t in entries ==> TagOf(entries[t]) == t
    }

    /** `Props::with`: stores `d` under its tag, replacing any value there. */
    function With(d: PropsData): (r: Props)
      ensures TagOf(d) in r.entries && r.entries[TagOf(d)] == d
      ensures forall t :: t != TagOf(d) ==> (t in r.entries <==> t in entries)
      ensures forall t :: t != TagOf(d) && t in entries ==> r.entries[t] == entries[t]
      ensures Valid() ==> r.Valid()
    {
      Props(entries[TagOf(d) := d])
    }

    /** `Props::without`: removes the value stored under `t`, if any. */
    function Without(t: PropsTag): (r: Props)
      ensures t !in r.entries
      ensures forall u :: u != t ==> (u in r.entries <==> u in entries)
      ensures forall u :: u != t && u in entries ==> r.entries[u] == entries[u]
      ensures Valid() ==> r.Valid()
    {
      Props(entries - {t})
    }
  }

  const EmptyProps: Props := Props(map[])

  /** `Props::new` / `From<T> for Props`: a bag holding one value. */
  function New(d: PropsData): (r: Props)
    ensures r.Valid()
    ensures r.entries.Keys == {TagOf(d)} && r.entries[TagOf(d)] == d
  {
    EmptyProps.With(d)
  }

  /** `read_cloned_or_default::<FlexBoxProps>`. */
  function ReadFlexBoxProps(p: Props): FlexBoxProps
  {
    if FlexBoxPropsTag in p.entries && p.entries[FlexBoxPropsTag].FlexBoxPropsData?
    then p.entries[FlexBoxPropsTag].flexBoxProps
    else DefaultFlexBoxProps
  }

  /** `read_cloned_or_default::<FlexBoxItemLayout>`. */
  function ReadFlexBoxItemLayout(p: Props): FlexUnit.FlexBoxItemLayout
  {
    if FlexBoxItemLayoutTag in p.entries && p.entries[FlexBoxItemLayoutTag].FlexBoxItemLayoutData?
    then p.entries[FlexBoxItemLayoutTag].flexBoxItemLayout
    else FlexUnit.DefaultFlexBoxItemLayout
  }

  /** `read_cloned_or_default::<ContentBoxProps>`. */
  function ReadContentBoxProps(p: Props): ContentBoxProps
  {
    if ContentBoxPropsTag in p.entries && p.entries[ContentBoxPropsTag].ContentBoxPropsData?
    then p.entries[ContentBoxPropsTag].contentBoxProps
    else DefaultContentBoxProps
  }

  /** `read_cloned_or_default::<ContentBoxItemLayout>`. */
  function ReadContentBoxItemLayout(p: Props): ContentUnit.ContentBoxItemLayout
  {
    if ContentBoxItemLayoutTag in p.entries && p.entries[ContentBoxItemLayoutTag].ContentBoxItemLayoutData?
    then p.entries[ContentBoxItemLayoutTag].contentBoxItemLayout
    else ContentUnit.DefaultContentBoxItemLayout
  }

  /** `read_cloned_or_default::<HorizontalBoxProps>`. */
  function ReadHorizontalBoxProps(p: Props): HorizontalBoxProps
  {
    if HorizontalBoxPropsTag in p.entries && p.entries[HorizontalBoxPropsTag].HorizontalBoxPropsData?
    then p.entries[HorizontalBoxPropsTag].horizontalBoxProps
    else DefaultHorizontalBoxProps
  }

  /** `read_cloned_or_default::<VariantBoxProps>`. */
  function ReadVariantBoxProps(p: Props): VariantBoxProps
  {
    if VariantBoxPropsTag in p.entries && p.entries[VariantBoxPropsTag].VariantBoxPropsData?
    then p.entries[VariantBoxPropsTag].variantBoxProps
    else DefaultVariantBoxProps
  }

  /** `read_cloned_or_default::<ImageBoxProps>`. */
  function ReadImageBoxProps(p: Props): ImageBoxProps
  {
    if ImageBoxPropsTag in p.entries && p.entries[ImageBoxPropsTag].ImageBoxPropsData?
    then p.entries[ImageBoxPropsTag].imageBoxProps
    else DefaultImageBoxProps
  }

  /** `read_cloned_or_default::<SpaceBoxProps>`. */
  function ReadSpaceBoxProps(p: Props): SpaceBoxProps
  {
    if SpaceBoxPropsTag in p.entries && p.entries[SpaceBoxPropsTag].SpaceBoxPropsData?
    then p.entries[SpaceBoxPropsTag].spaceBoxProps
    else DefaultSpaceBoxProps
  }

  /** `read_cloned_or_default::<WidgetAlpha>().0`. */
  function ReadWidgetAlpha(p: Props): Scalar
  {
    if WidgetAlphaTag in p.entries && p.entries[WidgetAlphaTag].WidgetAlphaData?
    then p.entries[WidgetAlphaTag].alpha
    else DefaultWidgetAlpha
  }

  /** Reading a value back after storing it gives that value. */
  lemma ReadAfterWith(p: Props, d: PropsData)
    ensures d.FlexBoxPropsData? ==> ReadFlexBoxProps(p.With(d)) == d.flexBoxProps
    ensures d.FlexBoxItemLayoutData? ==> ReadFlexBoxItemLayout(p.With(d)) == d.flexBoxItemLayout
    ensures d.ContentBoxPropsData? ==> ReadContentBoxProps(p.With(d)) == d.contentBoxProps
    ensures d.ContentBoxItemLayoutData? ==> ReadContentBoxItemLayout(p.With(d)) == d.contentBoxItemLayout
    ensures d.HorizontalBoxPropsData? ==> ReadHorizontalBoxProps(p.With(d)) == d.horizontalBoxProps
    ensures d.VariantBoxPropsData? ==> ReadVariantBoxProps(p.With(d)) == d.variantBoxProps
    ensures d.ImageBoxPropsData? ==> ReadImageBoxProps(p.With(d)) == d.imageBoxProps
    ensures d.SpaceBoxPropsData? ==> ReadSpaceBoxProps(p.With(d)) == d.spaceBoxProps
    ensures d.WidgetAlphaData? ==> ReadWidgetAlpha(p.With(d)) == d.alpha
  {
  }

  /** Removing the navigation markers, one after another as `nav_flex_box`
      and `nav_content_box` do: the markers are gone and every other entry
      is kept with its value. */
  function WithoutNavMarkers(p: Props): (r: Props)
    ensures forall t :: t in NavMarkers ==> t !in r.entries
    ensures forall t :: t !in NavMarkers ==> (t in r.entries <==> t in p.entries)
    ensures forall t :: t !in NavMarkers && t in p.entries ==> r.entries[t] == p.entries[t]
    ensures p.Valid() ==> r.Valid()
  {
    p.Without(NavContainerActiveTag).Without(NavJumpActiveTag).Without(NavItemActiveTag)
  }

  /** Stripping the navigation markers changes none of the reads the
      containers make. */
  lemma WithoutNavMarkersKeepsReads(p: Props)
    ensures ReadFlexBoxProps(WithoutNavMarkers(p)) == ReadFlexBoxProps(p)
    ensures ReadContentBoxProps(WithoutNavMarkers(p)) == ReadContentBoxProps(p)
  {
  }
}
