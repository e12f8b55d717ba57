/**
 * The touch drag-and-drop hook: four state fields driven by touch start, move
 * and end. A touch end over the scene drop zone is mapped to a placement with
 * the geometry mapper.
 */
module TouchDnD {
  import opened Wrappers
  import Positioning

  /** The four fields the hook keeps: dragging flag, ghost position, hover flag and orb position. */
  datatype TouchState = TouchState(
    isTouchDragging: bool,
    touchGhostPosition: Option<Positioning.Point>,
    isHoveringDropZone: bool,
    touchOrbPosition: Option<Positioning.Point>)

  /** The state before any touch, and after every touch end. */
  const Idle: TouchState := TouchState(false, None, false, None)

  /**
   * What every reachable state satisfies: an idle hook shows nothing, a
   * dragging hook has a ghost, and the orb is shown exactly while hovering.
   */
  predicate Consistent(t: TouchState)
  {
    && (!t.isTouchDragging ==> t == Idle)
    && (t.isTouchDragging ==> t.touchGhostPosition.Some?)
    && (t.isHoveringDropZone <==> t.touchOrbPosition.Some?)
  }

  /** `handleTouchStart`: ignored unless enabled; otherwise dragging starts with the ghost at the touch. */
  function Start(t: TouchState, enabled: bool, touch: Positioning.Point): (u: TouchState)
    ensures !enabled ==> u == t
    ensures enabled ==> u.isTouchDragging && u.touchGhostPosition == Some(touch)
    ensures u.isHoveringDropZone == t.isHoveringDropZone && u.touchOrbPosition == t.touchOrbPosition
    ensures Consistent(t) ==> Consistent(u)
  {
    if !enabled then t
    else t.(isTouchDragging := true, touchGhostPosition := Some(touch))
  }

  /**
   * `handleTouchMove`, installed only while dragging: the ghost follows the
   * touch; over a drop zone the orb is the touch relative to the zone's
   * top-left corner, elsewhere there is no orb and no hover.
   */
  function Move(t: TouchState, touch: Positioning.Point, zone: Option<Positioning.Rect>): (u: TouchState)
    ensures !t.isTouchDragging ==> u == t
    ensures t.isTouchDragging ==>
              && u.isTouchDragging
              && u.touchGhostPosition == Some(touch)
              && (u.isHoveringDropZone <==> zone.Some?)
              && (zone.Some? ==> u.touchOrbPosition == Some(Positioning.Point(touch.x - zone.value.left, touch.y - zone.value.top)))
    ensures Consistent(t) ==> Consistent(u)
  {
    if !t.isTouchDragging then t
    else
      match zone
      case Some(rect) =>
        t.(touchGhostPosition := Some(touch),
           touchOrbPosition := Some(Positioning.Point(touch.x - rect.left, touch.y - rect.top)),
           isHoveringDropZone := true)
      case None =>
        t.(touchGhostPosition := Some(touch), isHoveringDropZone := false, touchOrbPosition := None)
  }

  /** The DOM guarantees non-negative element sizes. */
  predicate Sizes(zone: Option<Positioning.Rect>, img: Option<Positioning.ImageElement>)
  {
    && (zone.Some? ==> zone.value.width >= 0.0 && zone.value.height >= 0.0)
    && (img.Some? ==> img.value.naturalWidth >= 0.0 && img.value.naturalHeight >= 0.0)
  }

  /**
   * The drop a touch end reports, if any: only while dragging, only over a
   * drop zone with a scene image, and only when the mapper accepts the point.
   */
  function EndDrop(t: TouchState, touch: Positioning.Point, zone: Option<Positioning.Rect>, img: Option<Positioning.ImageElement>)
    : (drop: Option<Positioning.Placement>)
    requires Sizes(zone, img)
    ensures drop.Some? ==> t.isTouchDragging && zone.Some? && img.Some?
    ensures drop.Some? ==> drop.value.position == Positioning.Point(touch.x - zone.value.left, touch.y - zone.value.top)
    ensures drop.Some? ==> Positioning.InUnitRange(drop.value.relative.xPercent) && Positioning.InUnitRange(drop.value.relative.yPercent)
  {
    if t.isTouchDragging && zone.Some? && img.Some? then
      Positioning.ComputeRelativePositionFromPoint(img.value, zone.value, touch.x, touch.y)
    else None
  }

  /** The state after a touch end: all four fields reset, whether or not a drop happened. */
  function End(t: TouchState): (u: TouchState)
    ensures !u.isTouchDragging
    ensures Consistent(t) ==> u == Idle
  {
    if t.isTouchDragging then Idle else t
  }

  /**
   * Over a measurable image, a drag that ends over the drop zone reports a
   * drop exactly when the point lies on the image content.
   */
  lemma DropsExactlyOnContent(t: TouchState, touch: Positioning.Point, zone: Positioning.Rect, img: Positioning.ImageElement)
    requires t.isTouchDragging && Positioning.Measurable(img, zone)
    ensures EndDrop(t, touch, Some(zone), Some(img)).Some?
            <==> Positioning.OnContent(img, zone, touch.x - zone.left, touch.y - zone.top)
  {
    Positioning.RejectsExactlyOffContent(img, zone, touch.x, touch.y);
  }

  /** The hook's state, kept in the four fields the source declares. */
  class TouchDragAndDrop {
    var isTouchDragging: bool
    var touchGhostPosition: Option<Positioning.Point>
    var isHoveringDropZone: bool
    var touchOrbPosition: Option<Positioning.Point>

    function State(): TouchState
      reads this
    {
      TouchState(isTouchDragging, touchGhostPosition, isHoveringDropZone, touchOrbPosition)
    }

    constructor ()
      ensures State() == Idle
    {
      isTouchDragging := false;
      touchGhostPosition := None;
      isHoveringDropZone := false;
      touchOrbPosition := None;
    }

    method HandleTouchStart(enabled: bool, touch: Positioning.Point)
      modifies this
      ensures State() == Start(old(State()), enabled, touch)
    {
      if !enabled {
        return;
      }
      isTouchDragging := true;
      touchGhostPosition := Some(touch);
    }

    /** A touch move; the listener exists only while dragging. */
    method HandleTouchMove(touch: Positioning.Point, zone: Option<Positioning.Rect>)
      modifies this
      ensures State() == Move(old(State()), touch, zone)
    {
      if !isTouchDragging {
        return;
      }
      touchGhostPosition := Some(touch);
      if zone.Some? {
        touchOrbPosition := Some(Positioning.Point(touch.x - zone.value.left, touch.y - zone.value.top));
        isHoveringDropZone := true;
      } else {
        isHoveringDropZone := false;
        touchOrbPosition := None;
      }
    }

    /** A touch end; returns the drop handed to `onDrop`, if any. The listener exists only while dragging. */
    method HandleTouchEnd(touch: Positioning.Point, zone: Option<Positioning.Rect>, img: Option<Positioning.ImageElement>)
      returns (drop: Option<Positioning.Placement>)
      requires Sizes(zone, img)
      modifies this
      ensures drop == EndDrop(old(State()), touch, zone, img)
      ensures State() == End(old(State()))
    {
      drop := None;
      if !isTouchDragging {
        return;
      }
      if zone.Some? && img.Some? {
        var res := Positioning.ComputeRelativePositionFromPoint(img.value, zone.value, touch.x, touch.y);
        if res.Some? {
          drop := res;
        }
      }
      isTouchDragging := false;
      touchGhostPosition := None;
      isHoveringDropZone := false;
      touchOrbPosition := None;
    }
  }
}
