/**
 GenerateSlidePart: the slide XML built for one picture, as an immutable tree.
 Elements of the source tree that carry no attribute and no child (the empty group-shape
 drawing properties and application drawing properties) are left out of the types.
 */
module SlideFragment {
  import opened Wrappers

  datatype NonVisualDrawingProperties = NonVisualDrawingProperties(id: nat, name: string, description: Option<string>)
  datatype Offset = Offset(x: int, y: int)
  datatype Extents = Extents(cx: int, cy: int)
  datatype TransformGroup = TransformGroup(offset: Offset, extents: Extents, childOffset: Offset, childExtents: Extents)
  datatype NonVisualGroupShapeProperties = NonVisualGroupShapeProperties(drawing: NonVisualDrawingProperties)
  datatype PictureLocks = PictureLocks(noChangeAspect: bool)
  datatype NonVisualPictureProperties = NonVisualPictureProperties(drawing: NonVisualDrawingProperties, locks: PictureLocks)
  datatype FillMode = StretchFillRectangle | Tile
  datatype BlipFill = BlipFill(embed: string, fill: FillMode)
  datatype Transform2D = Transform2D(offset: Offset, extents: Extents)
  datatype ShapeType = Rectangle | OtherPreset(name: string)
  datatype ShapeGuide = ShapeGuide(name: string, formula: string)
  datatype PresetGeometry = PresetGeometry(preset: ShapeType, adjustValues: seq<ShapeGuide>)
  datatype ShapeProperties = ShapeProperties(transform: Transform2D, geometry: PresetGeometry)
  datatype Picture = Picture(properties: NonVisualPictureProperties, blipFill: BlipFill, shape: ShapeProperties)
  datatype ShapeTree = ShapeTree(group: NonVisualGroupShapeProperties, groupTransform: TransformGroup, pictures: seq<Picture>)
  datatype CommonSlideData = CommonSlideData(shapeTree: ShapeTree)
  datatype ColorMapOverride = MasterColorMapping | OverrideColorMapping
  datatype Slide = Slide(commonSlideData: CommonSlideData, colorMapOverride: ColorMapOverride)

  const GroupShapeId: nat := 1
  const PictureId: nat := 4
  /** The slide-local relationship id of the slide's one image. */
  const BlipEmbedId: string := "relId1"
  const PictureOffset: Offset := Offset(100, 100)

  // ---- observers: what a reader of the slide sees ----

  datatype PictureSummary = PictureSummary(name: string, description: string, widthEmu: int, heightEmu: int)

  function Pictures(s: Slide): seq<Picture> {
    s.commonSlideData.shapeTree.pictures
  }

  /** Name, description and size of the slide's picture, when it has exactly one. */
  function PictureOf(s: Slide): Option<PictureSummary> {
    if |Pictures(s)| != 1 then None
    else
      var p := Pictures(s)[0];
      var d := p.properties.drawing;
      var e := p.shape.transform.extents;
      Some(PictureSummary(d.name, if d.description.Some? then d.description.value else "", e.cx, e.cy))
  }

  /** The drawing ids of the slide, group first, in document order. */
  function DrawingIds(s: Slide): seq<nat> {
    [s.commonSlideData.shapeTree.group.drawing.id] + seq(|Pictures(s)|, i requires 0 <= i < |Pictures(s)| => Pictures(s)[i].properties.drawing.id)
  }

  /** The slide-local relationship ids the slide's pictures embed. */
  function ImageReferences(s: Slide): set<string> {
    set p | p in Pictures(s) :: p.blipFill.embed
  }

  predicate IsIdentityTransform(t: TransformGroup) {
    t == TransformGroup(Offset(0, 0), Extents(0, 0), Offset(0, 0), Extents(0, 0))
  }

  /** Every picture keeps its aspect ratio, sits at (100,100) and is a plain rectangle. */
  predicate PicturesFixedPlacement(s: Slide) {
    forall p :: p in Pictures(s) ==>
      && p.properties.locks.noChangeAspect
      && p.blipFill.fill == StretchFillRectangle
      && p.shape.transform.offset == PictureOffset
      && p.shape.geometry == PresetGeometry(Rectangle, [])
  }

  /** The slide for one picture: a group shape holding one picture, sized in EMUs, at (100,100). */
  function GenerateSlidePart(imageName: string, imageDescription: string, widthEmu: int, heightEmu: int): Slide {
    var picture := Picture(
      NonVisualPictureProperties(
        NonVisualDrawingProperties(PictureId, imageName, Some(imageDescription)),
        PictureLocks(true)),
      BlipFill(BlipEmbedId, StretchFillRectangle),
      ShapeProperties(
        Transform2D(PictureOffset, Extents(widthEmu, heightEmu)),
        PresetGeometry(Rectangle, [])));
    var tree := ShapeTree(
      NonVisualGroupShapeProperties(NonVisualDrawingProperties(GroupShapeId, "", None)),
      TransformGroup(Offset(0, 0), Extents(0, 0), Offset(0, 0), Extents(0, 0)),
      [picture]);
    Slide(CommonSlideData(tree), MasterColorMapping)
  }

  /**
   The generated slide holds exactly one picture, named and described by the image name, of
   the given EMU size; drawing ids 1 (group) and 4 (picture); one image reference "relId1";
   an unnamed group with the identity transform; a locked, stretched rectangle at (100,100);
   and the master's color mapping.
   */
  lemma GenerateSlidePartShape(imageName: string, imageDescription: string, widthEmu: int, heightEmu: int)
    ensures var r := GenerateSlidePart(imageName, imageDescription, widthEmu, heightEmu);
      && PictureOf(r) == Some(PictureSummary(imageName, imageDescription, widthEmu, heightEmu))
      && DrawingIds(r) == [GroupShapeId, PictureId]
      && ImageReferences(r) == {BlipEmbedId}
      && r.commonSlideData.shapeTree.group.drawing.name == ""
      && IsIdentityTransform(r.commonSlideData.shapeTree.groupTransform)
      && PicturesFixedPlacement(r)
      && r.colorMapOverride == MasterColorMapping
  {
    var r := GenerateSlidePart(imageName, imageDescription, widthEmu, heightEmu);
    assert Pictures(r) == [Pictures(r)[0]];
  }

  /** The drawing ids of a generated slide are distinct. */
  lemma GeneratedIdsDistinct(imageName: string, imageDescription: string, widthEmu: int, heightEmu: int)
    ensures var ids := DrawingIds(GenerateSlidePart(imageName, imageDescription, widthEmu, heightEmu));
      forall i, j :: 0 <= i < j < |ids| ==> ids[i] != ids[j]
  {
    GenerateSlidePartShape(imageName, imageDescription, widthEmu, heightEmu);
  }

  /** Equal fragments come from equal inputs: the builder loses nothing of its four arguments. */
  lemma GenerateSlidePartInjective(n1: string, d1: string, w1: int, h1: int, n2: string, d2: string, w2: int, h2: int)
    requires GenerateSlidePart(n1, d1, w1, h1) == GenerateSlidePart(n2, d2, w2, h2)
    ensures n1 == n2 && d1 == d2 && w1 == w2 && h1 == h2
  {
    GenerateSlidePartShape(n1, d1, w1, h1);
    GenerateSlidePartShape(n2, d2, w2, h2);
  }
}
