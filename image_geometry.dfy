/**
 * The padded-square geometry shared by the image normaliser (resizeImage), the
 * marker compositor (markImage), the local region analyser
 * (analyzeLocalLighting) and the aspect restorer (cropToOriginalAspectRatio).
 * Each of the four writes the same content-rectangle formula; here it is one
 * function, ContentRect, and every site is expressed through it.
 */
module ImageGeometry {
  import opened JsMath
  import Positioning

  /** The neutral fill painted behind the content of a normalised square. */
  const PaddingColour: string := "#808080"

  /** A region of a canvas: top-left corner and size, in pixels. */
  datatype Region = Region(x: real, y: real, width: real, height: real)

  predicate Contains(r: Region, p: Positioning.Point)
  {
    r.x <= p.x <= r.x + r.width && r.y <= p.y <= r.y + r.height
  }

  /**
   * Where an image of the given original size sits inside a padded square of
   * side `target`: it fits, fills the square along its longer side, keeps the
   * original aspect ratio and is centred.
   */
  function ContentRect(originalWidth: real, originalHeight: real, target: real): (c: Region)
    requires originalWidth > 0.0 && originalHeight > 0.0 && target > 0.0
    ensures 0.0 < c.width <= target && 0.0 < c.height <= target
    ensures c.width == target || c.height == target
    ensures c.width * originalHeight == c.height * originalWidth
    ensures c.x >= 0.0 && c.y >= 0.0
    ensures c.x + c.width + c.x == target && c.y + c.height + c.y == target
  {
    var aspectRatio := originalWidth / originalHeight;
    var contentWidth := if aspectRatio > 1.0 then target else target * aspectRatio;
    var contentHeight := if aspectRatio > 1.0 then target / aspectRatio else target;
    ContentRectIsSquareFit(originalWidth, originalHeight, target);
    Region((target - contentWidth) / 2.0, (target - contentHeight) / 2.0, contentWidth, contentHeight)
  }

  /**
   * The normaliser's landscape test `aspect > 1` is the mapper's test
   * `imageAspect > containerAspect` for a square container, so the padded
   * content is the mapper's contain rectangle in a target x target box.
   */
  lemma ContentRectIsSquareFit(originalWidth: real, originalHeight: real, target: real)
    requires originalWidth > 0.0 && originalHeight > 0.0 && target > 0.0
    ensures var aspectRatio := originalWidth / originalHeight;
      var fit := Positioning.AspectFit(originalWidth, originalHeight, target, target);
      && fit.width == (if aspectRatio > 1.0 then target else target * aspectRatio)
      && fit.height == (if aspectRatio > 1.0 then target / aspectRatio else target)
  {
    assert target / target == 1.0;
  }

  /** The content rectangle is exactly the contain rectangle the geometry mapper computes for a square container. */
  lemma {:induction false} ContentRectMatchesMapper(originalWidth: real, originalHeight: real, target: real)
    requires originalWidth > 0.0 && originalHeight > 0.0 && target > 0.0
    ensures var c := ContentRect(originalWidth, originalHeight, target);
      var img := Positioning.ImageElement(originalWidth, originalHeight);
      var box := Positioning.Rect(0.0, 0.0, target, target);
      && Positioning.Rendered(img, box) == Positioning.Size(c.width, c.height)
      && Positioning.Offsets(img, box) == Positioning.Point(c.x, c.y)
  {
    ContentRectIsSquareFit(originalWidth, originalHeight, target);
  }

  /** What resizeImage paints: a target x target square filled grey, the image drawn into its content rectangle. */
  datatype NormalizedCanvas = NormalizedCanvas(side: nat, background: string, drawRegion: Region)

  function ResizeImage(imageWidth: real, imageHeight: real, targetDimension: nat): (n: NormalizedCanvas)
    requires imageWidth > 0.0 && imageHeight > 0.0 && targetDimension > 0
    ensures n.side == targetDimension && n.background == PaddingColour
    ensures n.drawRegion.x + n.drawRegion.width <= n.side as real
    ensures n.drawRegion.y + n.drawRegion.height <= n.side as real
  {
    NormalizedCanvas(targetDimension, PaddingColour, ContentRect(imageWidth, imageHeight, targetDimension as real))
  }

  /**
   * What cropToOriginalAspectRatio does: copy `source` of the square output
   * onto a canvas of the content's size. Assigning a fractional size to a
   * canvas truncates it, hence the integer canvas size.
   */
  datatype CropPlan = CropPlan(source: Region, canvasWidth: int, canvasHeight: int)

  function CropToOriginalAspectRatio(originalWidth: real, originalHeight: real, targetDimension: nat): (p: CropPlan)
    requires originalWidth > 0.0 && originalHeight > 0.0 && targetDimension > 0
    ensures 0 <= p.canvasWidth <= targetDimension && 0 <= p.canvasHeight <= targetDimension
    ensures p.canvasWidth as real <= p.source.width < p.canvasWidth as real + 1.0
    ensures p.canvasHeight as real <= p.source.height < p.canvasHeight as real + 1.0
  {
    var content := ContentRect(originalWidth, originalHeight, targetDimension as real);
    CropPlan(content, content.width.Floor, content.height.Floor)
  }

  /**
   * The aspect restorer undoes exactly the normaliser's padding: for the same
   * original size and target it copies out precisely the region resizeImage
   * drew into, and that region has the original aspect ratio.
   */
  lemma {:induction false} CropInvertsResize(originalWidth: real, originalHeight: real, targetDimension: nat)
    requires originalWidth > 0.0 && originalHeight > 0.0 && targetDimension > 0
    ensures var crop := CropToOriginalAspectRatio(originalWidth, originalHeight, targetDimension);
      var square := ResizeImage(originalWidth, originalHeight, targetDimension);
      && crop.source == square.drawRegion
      && crop.source.width * originalHeight == crop.source.height * originalWidth
      && (crop.source.width == targetDimension as real || crop.source.height == targetDimension as real)
  {
  }

  /** A content percentage turned into a canvas pixel inside the content rectangle. */
  function PercentToCanvas(position: Positioning.RelativePosition, content: Region): Positioning.Point
  {
    Positioning.Point(
      Positioning.PercentToPixel(content.x, content.width, position.xPercent),
      Positioning.PercentToPixel(content.y, content.height, position.yPercent))
  }

  /** The marker markImage draws: a filled circle with an outline. */
  datatype Marker = Marker(center: Positioning.Point, radius: real, lineWidth: real)

  /**
   * markImage on a canvas of the given size: the target dimension is the
   * canvas width; the radius is 1.5% of the shorter side with a floor of 5.
   */
  function MarkImage(position: Positioning.RelativePosition, originalWidth: real, originalHeight: real,
                     canvasWidth: nat, canvasHeight: nat): (m: Marker)
    requires originalWidth > 0.0 && originalHeight > 0.0 && canvasWidth > 0
    ensures m.radius >= 5.0 && m.radius >= Min(canvasWidth as real, canvasHeight as real) * 0.015
    ensures m.radius == 5.0 || m.radius == Min(canvasWidth as real, canvasHeight as real) * 0.015
    ensures m.lineWidth * 5.0 == m.radius && m.lineWidth >= 1.0
    ensures m.center == PercentToCanvas(position, ContentRect(originalWidth, originalHeight, canvasWidth as real))
    ensures Positioning.InUnitRange(position.xPercent) && Positioning.InUnitRange(position.yPercent)
            ==> Contains(ContentRect(originalWidth, originalHeight, canvasWidth as real), m.center)
  {
    var targetDimension := canvasWidth as real;
    var content := ContentRect(originalWidth, originalHeight, targetDimension);
    var center := PercentToCanvas(position, content);
    assert Positioning.InUnitRange(position.xPercent) && Positioning.InUnitRange(position.yPercent)
           ==> Contains(content, center) by {
      if Positioning.InUnitRange(position.xPercent) && Positioning.InUnitRange(position.yPercent) {
        PlacementOnContent(position, content);
      }
    }
    var markerRadius := Max(5.0, Min(canvasWidth as real, canvasHeight as real) * 0.015);
    Marker(center, markerRadius, markerRadius * 0.2)
  }

  /** The centre of the patch analyzeLocalLighting samples, on a canvas `canvasWidth` wide. */
  function AnalysisCentre(position: Positioning.RelativePosition, originalWidth: real, originalHeight: real,
                          canvasWidth: nat): Positioning.Point
    requires originalWidth > 0.0 && originalHeight > 0.0 && canvasWidth > 0
  {
    var content := ContentRect(originalWidth, originalHeight, canvasWidth as real);
    Positioning.Point(content.x + position.xPercent / 100.0 * content.width,
                      content.y + position.yPercent / 100.0 * content.height)
  }

  /** The marker and the analysed patch are placed on the same canvas point. */
  lemma {:induction false} MarkerAndAnalysisAgree(position: Positioning.RelativePosition, originalWidth: real,
                                                 originalHeight: real, canvasWidth: nat, canvasHeight: nat)
    requires originalWidth > 0.0 && originalHeight > 0.0 && canvasWidth > 0
    ensures MarkImage(position, originalWidth, originalHeight, canvasWidth, canvasHeight).center
            == AnalysisCentre(position, originalWidth, originalHeight, canvasWidth)
  {
  }

  /** For percentages in [0, 100] the placement point lies on the content, not on the padding. */
  lemma {:induction false} PlacementOnContent(position: Positioning.RelativePosition, content: Region)
    requires content.width > 0.0 && content.height > 0.0
    requires Positioning.InUnitRange(position.xPercent) && Positioning.InUnitRange(position.yPercent)
    ensures Contains(content, PercentToCanvas(position, content))
  {
    PixelWithin(content.x, content.width, position.xPercent);
    PixelWithin(content.y, content.height, position.yPercent);
  }

  /** A percentage in [0, 100] of an extent, counted from an offset, stays between the offset and its end. */
  lemma PixelWithin(offset: real, extent: real, percent: real)
    requires extent > 0.0 && 0.0 <= percent <= 100.0
    ensures offset <= Positioning.PercentToPixel(offset, extent, percent) <= offset + extent
  {
    PercentWithin(percent, extent);
  }

  lemma PercentWithin(percent: real, extent: real)
    requires extent > 0.0 && 0.0 <= percent <= 100.0
    ensures 0.0 <= percent / 100.0 * extent <= extent
  {
    var f := percent / 100.0;
    assert 0.0 <= f <= 1.0;
    MulMonotonic(f, 1.0, extent);
  }

  /** The side of the sampled patch: about 7% of the canvas, at least 16 pixels. */
  function PatchSide(targetDimension: nat): (patch: nat)
    ensures patch >= 16
    ensures patch as real >= targetDimension as real * 0.07 - 0.5
    ensures patch == 16 || patch as real <= targetDimension as real * 0.07 + 0.5
    ensures targetDimension as real * 0.07 < 15.5 ==> patch == 16
  {
    var rounded := Round(targetDimension as real * 0.07);
    if rounded >= 16 then rounded else 16
  }

  /** One coordinate of the patch origin: centred on `c`, clamped to the canvas. */
  function PatchOrigin(c: real, patch: nat, targetDimension: nat): (o: int)
    ensures o >= 0
    ensures targetDimension >= patch ==> o <= targetDimension - patch
    ensures var centred := Round(c - patch as real / 2.0);
            && (0 <= centred <= targetDimension - patch ==> o == centred)
            && (centred < 0 ==> o == 0)
            && (centred > targetDimension - patch ==> o == (if targetDimension >= patch then targetDimension - patch else 0))
  {
    var centred := Round(c - patch as real / 2.0);
    var upper := targetDimension - patch;
    var clamped := if centred <= upper then centred else upper;
    if clamped >= 0 then clamped else 0
  }
}
