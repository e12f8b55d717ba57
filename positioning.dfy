/**
 * The geometry mapper: a point on the screen over an image shown with
 * "object-fit: contain" inside its container becomes a container-local pixel
 * point and a percentage of the image content, or nothing when it falls on the
 * letterbox bars.
 */
module Positioning {
  import opened Wrappers
  import JsMath

  datatype Point = Point(x: real, y: real)

  /** A placement as a percentage of the unpadded image content. */
  datatype RelativePosition = RelativePosition(xPercent: real, yPercent: real)

  /** What a successful mapping yields: the container-local point and the content percentage. */
  datatype Placement = Placement(position: Point, relative: RelativePosition)

  /** A bounding client rectangle. */
  datatype Rect = Rect(left: real, top: real, width: real, height: real)

  datatype Size = Size(width: real, height: real)

  /** The measurements the mapper reads off the image element. */
  datatype ImageElement = ImageElement(naturalWidth: real, naturalHeight: real)

  predicate InUnitRange(p: real) { 0.0 <= p <= 100.0 }

  /**
   * The "contain" rectangle of an image of natural size nw x nh inside a
   * container of size cw x ch: it fits, touches the container on one axis
   * and keeps the image's aspect ratio.
   */
  function AspectFit(nw: real, nh: real, cw: real, ch: real): (s: Size)
    requires nw > 0.0 && nh > 0.0 && cw > 0.0 && ch > 0.0
    ensures 0.0 < s.width <= cw && 0.0 < s.height <= ch
    ensures s.width == cw || s.height == ch
    ensures s.width * nh == s.height * nw
  {
    var imageAspectRatio := nw / nh;
    var containerAspectRatio := cw / ch;
    FitLemma(nw, nh, cw, ch);
    if imageAspectRatio > containerAspectRatio then
      Size(cw, cw / imageAspectRatio)
    else
      Size(ch * imageAspectRatio, ch)
  }

  /** The arithmetic behind AspectFit's contract, one branch at a time. */
  lemma FitLemma(nw: real, nh: real, cw: real, ch: real)
    requires nw > 0.0 && nh > 0.0 && cw > 0.0 && ch > 0.0
    ensures var a := nw / nh;
      && a > 0.0
      && (a > cw / ch ==> 0.0 < cw / a <= ch && cw * nh == (cw / a) * nw)
      && (a <= cw / ch ==> 0.0 < ch * a <= cw && (ch * a) * nh == ch * nw)
  {
    var a := nw / nh;
    assert a * nh == nw;
    var k := cw / ch;
    assert k * ch == cw;
    if a > k {
      var h := cw / a;
      assert h * a == cw;
      assert h * a <= ch * a by { assert cw == k * ch; JsMath.MulMonotonic(k, a, ch); assert ch * a == a * ch; }
      if h > ch { JsMath.MulStrictMonotonic(ch, h, a); }
      assert cw * nh == h * a * nh == h * nw;
    } else {
      assert ch * a <= ch * k by { JsMath.MulMonotonic(a, k, ch); }
      assert (ch * a) * nh == ch * (a * nh) == ch * nw;
    }
  }

  /** How far the contain rectangle sits from the container's left and top edges. */
  function CentringOffsets(cw: real, ch: real, rendered: Size): (o: Point)
    requires 0.0 < rendered.width <= cw && 0.0 < rendered.height <= ch
    ensures o.x >= 0.0 && o.y >= 0.0
    ensures o.x + rendered.width + o.x == cw && o.y + rendered.height + o.y == ch
  {
    Point((cw - rendered.width) / 2.0, (ch - rendered.height) / 2.0)
  }

  /**
   * `computeRelativePositionFromPoint`: maps a client point to a placement, or
   * None when a dimension is zero or the point lies on the letterbox bars.
   */
  function ComputeRelativePositionFromPoint(img: ImageElement, container: Rect, clientX: real, clientY: real): (r: Option<Placement>)
    requires img.naturalWidth >= 0.0 && img.naturalHeight >= 0.0
    requires container.width >= 0.0 && container.height >= 0.0
    ensures (img.naturalWidth == 0.0 || img.naturalHeight == 0.0 || container.width == 0.0 || container.height == 0.0) ==> r.None?
    ensures r.Some? ==> r.value.position == Point(clientX - container.left, clientY - container.top)
    ensures r.Some? ==> InUnitRange(r.value.relative.xPercent) && InUnitRange(r.value.relative.yPercent)
  {
    var nw, nh := img.naturalWidth, img.naturalHeight;
    var cw, ch := container.width, container.height;
    if nw == 0.0 || nh == 0.0 || cw == 0.0 || ch == 0.0 then None
    else
      var rendered := AspectFit(nw, nh, cw, ch);
      var offset := CentringOffsets(cw, ch, rendered);
      var dropX := clientX - container.left;
      var dropY := clientY - container.top;
      var imageX := dropX - offset.x;
      var imageY := dropY - offset.y;
      if imageX < 0.0 || imageX > rendered.width || imageY < 0.0 || imageY > rendered.height then None
      else
        PercentBounds(imageX, rendered.width);
        PercentBounds(imageY, rendered.height);
        Some(Placement(Point(dropX, dropY), RelativePosition(imageX / rendered.width * 100.0, imageY / rendered.height * 100.0)))
  }

  /** A coordinate inside [0, extent] is between 0 and 100 percent of the extent. */
  lemma PercentBounds(v: real, extent: real)
    requires extent > 0.0 && 0.0 <= v <= extent
    ensures InUnitRange(v / extent * 100.0)
  {
    var q := v / extent;
    assert q * extent == v;
    if q > 1.0 { JsMath.MulStrictMonotonic(1.0, q, extent); }
  }

  /** Going from a content percentage back to a container pixel, as the marker drawing does. */
  function PercentToPixel(offset: real, extent: real, percent: real): real
  {
    offset + percent / 100.0 * extent
  }

  /** The contain rectangle of a well-formed image and container (used by the lemmas below). */
  predicate Measurable(img: ImageElement, container: Rect)
  {
    img.naturalWidth > 0.0 && img.naturalHeight > 0.0 && container.width > 0.0 && container.height > 0.0
  }

  function Rendered(img: ImageElement, container: Rect): Size
    requires Measurable(img, container)
  {
    AspectFit(img.naturalWidth, img.naturalHeight, container.width, container.height)
  }

  function Offsets(img: ImageElement, container: Rect): Point
    requires Measurable(img, container)
  {
    CentringOffsets(container.width, container.height, Rendered(img, container))
  }

  /** The box of container-local points that lie on the image content. */
  predicate OnContent(img: ImageElement, container: Rect, dropX: real, dropY: real)
    requires Measurable(img, container)
  {
    var rendered, offset := Rendered(img, container), Offsets(img, container);
    0.0 <= dropX - offset.x <= rendered.width && 0.0 <= dropY - offset.y <= rendered.height
  }

  /**
   * Rejection is exact: for a measurable image the mapper answers exactly for
   * the closed content box, and never moves a point into it.
   */
  lemma {:induction false} RejectsExactlyOffContent(img: ImageElement, container: Rect, clientX: real, clientY: real)
    requires Measurable(img, container)
    ensures ComputeRelativePositionFromPoint(img, container, clientX, clientY).Some?
            <==> OnContent(img, container, clientX - container.left, clientY - container.top)
  {
  }

  /**
   * Round trip: the percentages, mapped back through the content rectangle,
   * give back the container-local drop point.
   */
  lemma {:induction false} PercentRoundTrip(img: ImageElement, container: Rect, clientX: real, clientY: real)
    requires Measurable(img, container)
    requires ComputeRelativePositionFromPoint(img, container, clientX, clientY).Some?
    ensures var p := ComputeRelativePositionFromPoint(img, container, clientX, clientY).value;
      var rendered, offset := Rendered(img, container), Offsets(img, container);
      && PercentToPixel(offset.x, rendered.width, p.relative.xPercent) == p.position.x
      && PercentToPixel(offset.y, rendered.height, p.relative.yPercent) == p.position.y
  {
    var p := ComputeRelativePositionFromPoint(img, container, clientX, clientY).value;
    var rendered, offset := Rendered(img, container), Offsets(img, container);
    PercentInverse(p.position.x - offset.x, rendered.width);
    PercentInverse(p.position.y - offset.y, rendered.height);
  }

  lemma PercentInverse(v: real, extent: real)
    requires extent > 0.0
    ensures (v / extent * 100.0) / 100.0 * extent == v
  {
    var q := v / extent;
    assert q * extent == v;
    assert (q * 100.0) / 100.0 == q;
  }

  /** The contain rectangle is centred: equal bars on both sides of each axis. */
  lemma {:induction false} ContainIsCentred(img: ImageElement, container: Rect)
    requires Measurable(img, container)
    ensures var rendered, offset := Rendered(img, container), Offsets(img, container);
      && offset.x == container.width - (offset.x + rendered.width)
      && offset.y == container.height - (offset.y + rendered.height)
      && rendered.width * img.naturalHeight == rendered.height * img.naturalWidth
  {
  }
}
