/**
 * The ClickableComponent of engine/builtin/components/clickable_component.py:
 * a rectangle centred on the actor's screen position that tracks hover,
 * click and drag from mouse events, and reports which callbacks it calls.
 *
 * The actor's screen position and the scaled size of its sprite, when the
 * sprite can be found and loaded, are parameters (Placement). The
 * callbacks are present or absent; the ones called are returned in order.
 */
module Clickable {
  import opened Wrappers

  datatype Vec = Vec(x: real, y: real)

  /** A pygame.Rect: left, top, width, height. */
  datatype Rect = Rect(left: real, top: real, width: real, height: real)

  /** What get_bounds_rect reads outside the component: the actor's screen position (None: no actor) and its sprite's scaled size, when one loads. */
  datatype Placement = Placement(screen: Option<Vec>, sprite: Option<(real, real)>)

  datatype MouseEvent = Motion(pos: Vec) | ButtonDown(button: int, at: Vec) | ButtonUp(button: int, at: Vec) | OtherEvent

  datatype Call = HoverStart | HoverEnd | DragBy(dx: real, dy: real) | Click | DragStart | DragEnd

  const DefaultSize: real := 32.0
  const LeftButton := 1
  const DefaultDragThreshold: real := 5.0

  /** Rect.collidepoint: the left and top edges are inside, the right and bottom edges are not. */
  predicate Contains(r: Rect, p: Vec)
  {
    r.left <= p.x < r.left + r.width && r.top <= p.y < r.top + r.height
  }

  /**
   * get_bounds_rect: an empty rect without an actor; otherwise the given
   * width and height, the sprite's for a missing one, 32 when neither is
   * there, centred on the actor's screen position plus the offset.
   */
  function BoundsRect(bw: Option<real>, bh: Option<real>, offset: Vec, place: Placement): (r: Rect)
    ensures place.screen.None? ==> r == Rect(0.0, 0.0, 0.0, 0.0)
    ensures place.screen.Some? ==> r.width == bw.GetOr(if place.sprite.Some? then place.sprite.value.0 else DefaultSize)
    ensures place.screen.Some? ==> r.height == bh.GetOr(if place.sprite.Some? then place.sprite.value.1 else DefaultSize)
    ensures place.screen.Some? ==>
      r.left + r.width / 2.0 == place.screen.value.x + offset.x && r.top + r.height / 2.0 == place.screen.value.y + offset.y
  {
    match place.screen
    case None => Rect(0.0, 0.0, 0.0, 0.0)
    case Some(pos) =>
      var w := if bw.Some? then bw.value else if place.sprite.Some? then place.sprite.value.0 else DefaultSize;
      var h := if bh.Some? then bh.value else if place.sprite.Some? then place.sprite.value.1 else DefaultSize;
      Rect(pos.x + offset.x - w / 2.0, pos.y + offset.y - h / 2.0, w, h)
  }

  /** With no sizes given and no sprite, the bounds are 32 by 32: a point 16 to the left of the centre is inside, 16 to the right is not. */
  lemma DefaultBounds(offset: Vec, c: Vec)
    ensures var r := BoundsRect(None, None, offset, Placement(Some(c), None));
      r.width == 32.0 && r.height == 32.0
      && Contains(r, Vec(c.x + offset.x - 16.0, c.y + offset.y))
      && !Contains(r, Vec(c.x + offset.x + 16.0, c.y + offset.y))
  {
  }

  /** Without an actor no point is inside. */
  lemma NoActorNoPoint(bw: Option<real>, bh: Option<real>, offset: Vec, sprite: Option<(real, real)>, p: Vec)
    ensures !Contains(BoundsRect(bw, bh, offset, Placement(None, sprite)), p)
  {
  }

  /** distance_to(start) >= threshold, for a positive threshold, compared on squares. */
  predicate FarEnough(p: Vec, start: Vec, threshold: real)
    requires threshold > 0.0
  {
    (p.x - start.x) * (p.x - start.x) + (p.y - start.y) * (p.y - start.y) >= threshold * threshold
  }

  /** FarEnough agrees with the distance: for any d >= 0 whose square is the squared distance, d >= threshold exactly when FarEnough. */
  lemma FarEnoughIsDistance(p: Vec, start: Vec, threshold: real, d: real)
    requires threshold > 0.0 && d >= 0.0
    requires d * d == (p.x - start.x) * (p.x - start.x) + (p.y - start.y) * (p.y - start.y)
    ensures FarEnough(p, start, threshold) <==> d >= threshold
  {
    assert threshold * threshold - d * d == (threshold - d) * (threshold + d);
    if d < threshold {
      Positive(threshold - d, threshold + d);
    } else {
      NonNegative(d - threshold, threshold + d);
    }
  }

  lemma Positive(a: real, b: real)
    requires a > 0.0 && b > 0.0
    ensures a * b > 0.0
  {
  }

  lemma NonNegative(a: real, b: real)
    requires a >= 0.0 && b >= 0.0
    ensures a * b >= 0.0
  {
  }

  /** `if self.drag_start_pos:` as written: a Vector2 is false when both of its components are 0. */
  predicate DragArmedAsWritten(start: Option<Vec>)
  {
    start.Some? && start.value != Vec(0.0, 0.0)
  }

  /** A press at the screen's top-left pixel records its position, and the as-written test then treats the press as having none. */
  lemma PressAtOriginNeverArms()
    ensures !DragArmedAsWritten(Some(Vec(0.0, 0.0)))
    ensures DragArmed(Some(Vec(0.0, 0.0)))
  {
  }

  /** The intended test: a press position has been recorded. */
  predicate DragArmed(start: Option<Vec>)
  {
    start.Some?
  }

  /** Every position that a left press can record arms a drag; only the absence of a press does not. */
  lemma ArmedExactlyAfterPress(start: Option<Vec>)
    ensures DragArmed(start) <==> start != None
    ensures DragArmedAsWritten(start) ==> DragArmed(start)
  {
  }

  class ClickableComponent {
    var boundsWidth: Option<real>
    var boundsHeight: Option<real>
    var boundsOffset: Vec
    var isHovered: bool
    var isClicked: bool
    var isDragging: bool
    var dragStart: Option<Vec>
    var lastMouse: Vec
    var onClick: bool
    var onHoverStart: bool
    var onHoverEnd: bool
    var onDragStart: bool
    var onDrag: bool
    var onDragEnd: bool
    var enabled: bool
    var consumeEvents: bool
    var dragThreshold: real

    /** A drag is under way only during a click, from a recorded press. */
    ghost predicate Valid()
      reads this
    {
      (isDragging ==> isClicked) && (isClicked ==> dragStart.Some?)
    }

    constructor (bw: Option<real>, bh: Option<real>, offset: Vec)
      ensures Valid() && boundsWidth == bw && boundsHeight == bh && boundsOffset == offset
      ensures !isHovered && !isClicked && !isDragging && dragStart == None && lastMouse == Vec(0.0, 0.0)
      ensures !onClick && !onHoverStart && !onHoverEnd && !onDragStart && !onDrag && !onDragEnd
      ensures enabled && !consumeEvents && dragThreshold == DefaultDragThreshold
    {
      boundsWidth := bw;
      boundsHeight := bh;
      boundsOffset := offset;
      isHovered := false;
      isClicked := false;
      isDragging := false;
      dragStart := None;
      lastMouse := Vec(0.0, 0.0);
      onClick := false;
      onHoverStart := false;
      onHoverEnd := false;
      onDragStart := false;
      onDrag := false;
      onDragEnd := false;
      enabled := true;
      consumeEvents := false;
      dragThreshold := DefaultDragThreshold;
    }

    /** Which of on_click, on_hover_start, on_hover_end, on_drag_start, on_drag and on_drag_end are set. */
    function Callbacks(): (bool, bool, bool, bool, bool, bool)
      reads this
    {
      (onClick, onHoverStart, onHoverEnd, onDragStart, onDrag, onDragEnd)
    }

    /** set_bounds. */
    method SetBounds(w: real, h: real, offset: Vec)
      modifies this
      ensures boundsWidth == Some(w) && boundsHeight == Some(h) && boundsOffset == offset
      ensures isHovered == old(isHovered) && isClicked == old(isClicked) && isDragging == old(isDragging) && dragStart == old(dragStart)
      ensures enabled == old(enabled) && consumeEvents == old(consumeEvents)
    {
      boundsWidth := Some(w);
      boundsHeight := Some(h);
      boundsOffset := offset;
    }

    /** set_hover_callbacks and set_drag_callbacks: only the callbacks given are replaced. */
    method SetHoverCallbacks(start: bool, end: bool)
      modifies this
      ensures onHoverStart == (old(onHoverStart) || start) && onHoverEnd == (old(onHoverEnd) || end)
      ensures onClick == old(onClick) && onDragStart == old(onDragStart) && onDrag == old(onDrag) && onDragEnd == old(onDragEnd)
    {
      if start {
        onHoverStart := true;
      }
      if end {
        onHoverEnd := true;
      }
    }

    /** contains_point: never while disabled; otherwise the bounds rectangle decides. */
    predicate ContainsPoint(p: Vec, place: Placement)
      reads this
      ensures ContainsPoint(p, place) ==> enabled && place.screen.Some?
    {
      enabled && Contains(BoundsRect(boundsWidth, boundsHeight, boundsOffset, place), p)
    }

    /**
     * handle_event: while disabled nothing happens. Motion records the
     * position, starts or ends a hover only on a change, and reports the
     * drag offset from the press. A left press inside starts a click at
     * that position. A left release during a click is a click when inside
     * and not dragging, the end of a drag when inside and dragging, and
     * resets the click and drag in every case.
     */
    method HandleEvent(e: MouseEvent, place: Placement) returns (handled: bool, calls: seq<Call>)
      requires Valid()
      modifies this
      ensures Valid()
      ensures !old(enabled) ==> !handled && calls == [] && unchanged(this)
      ensures handled ==> consumeEvents
      ensures enabled == old(enabled) && consumeEvents == old(consumeEvents) && dragThreshold == old(dragThreshold)
      ensures boundsWidth == old(boundsWidth) && boundsHeight == old(boundsHeight) && boundsOffset == old(boundsOffset)
      ensures Callbacks() == old(Callbacks())
      ensures old(enabled) && e.Motion? ==> lastMouse == e.pos && isClicked == old(isClicked) && isDragging == old(isDragging) && dragStart == old(dragStart)
      ensures old(enabled) && e.Motion? ==> isHovered == old(ContainsPoint(e.pos, place))
      ensures old(enabled) && e.Motion? ==>
        calls == (if isHovered && !old(isHovered) && onHoverStart then [HoverStart] else [])
               + (if !isHovered && old(isHovered) && onHoverEnd then [HoverEnd] else [])
               + (if isDragging && onDrag then [DragBy(e.pos.x - dragStart.value.x, e.pos.y - dragStart.value.y)] else [])
      ensures old(enabled) && e.ButtonDown? && e.button == LeftButton && old(ContainsPoint(e.at, place)) ==>
        isClicked && dragStart == Some(e.at) && isDragging == old(isDragging) && calls == [] && handled == consumeEvents
      ensures old(enabled) && e.ButtonDown? && !(e.button == LeftButton && old(ContainsPoint(e.at, place))) ==>
        unchanged(this) && calls == [] && !handled
      ensures old(enabled) && e.ButtonUp? && e.button == LeftButton && old(isClicked) ==>
        !isClicked && !isDragging && dragStart == None
      ensures old(enabled) && e.ButtonUp? && e.button == LeftButton && old(isClicked) ==>
        calls == (if !old(ContainsPoint(e.at, place)) then []
                  else if !old(isDragging) then (if onClick then [Click] else [])
                  else (if onDragEnd then [DragEnd] else []))
      ensures old(enabled) && e.ButtonUp? && !(e.button == LeftButton && old(isClicked)) ==> unchanged(this) && calls == [] && !handled
      ensures old(enabled) && e.OtherEvent? ==> unchanged(this) && calls == [] && !handled
      ensures e.ButtonDown? || e.ButtonUp? || e.OtherEvent? ==> isHovered == old(isHovered) && lastMouse == old(lastMouse)
    {
      handled := false;
      calls := [];
      if !enabled {
        return;
      }
      match e {
        case Motion(pos) =>
          lastMouse := pos;
          var over := ContainsPoint(pos, place);
          if over && !isHovered {
            isHovered := true;
            if onHoverStart {
              calls := calls + [HoverStart];
            }
            handled := consumeEvents;
          } else if !over && isHovered {
            isHovered := false;
            if onHoverEnd {
              calls := calls + [HoverEnd];
            }
            handled := consumeEvents;
          }
          if isDragging && onDrag {
            if DragArmed(dragStart) {
              calls := calls + [DragBy(pos.x - dragStart.value.x, pos.y - dragStart.value.y)];
              handled := consumeEvents;
            }
          }
        case ButtonDown(button, at) =>
          if ContainsPoint(at, place) {
            if button == LeftButton {
              isClicked := true;
              dragStart := Some(at);
              handled := consumeEvents;
            }
          }
        case ButtonUp(button, at) =>
          if button == LeftButton {
            if isClicked {
              if ContainsPoint(at, place) {
                if !isDragging {
                  if onClick {
                    calls := calls + [Click];
                  }
                  handled := consumeEvents;
                } else {
                  if onDragEnd {
                    calls := calls + [DragEnd];
                  }
                  handled := consumeEvents;
                }
              }
              isClicked := false;
              isDragging := false;
              dragStart := None;
            }
          }
        case OtherEvent =>
      }
    }

    /**
     * update: during a click that is not yet a drag, with a positive
     * threshold, the drag starts once the last mouse position is at least
     * the threshold away from the press.
     */
    method Update() returns (calls: seq<Call>)
      requires Valid()
      modifies this
      ensures Valid()
      ensures var starts := old(enabled) && old(isClicked) && !old(isDragging) && DragArmed(old(dragStart)) && old(dragThreshold) > 0.0
        && FarEnough(old(lastMouse), old(dragStart).value, old(dragThreshold));
        isDragging == (old(isDragging) || starts) && calls == (if starts && onDragStart then [DragStart] else [])
      ensures isHovered == old(isHovered) && isClicked == old(isClicked) && dragStart == old(dragStart) && lastMouse == old(lastMouse)
      ensures enabled == old(enabled) && consumeEvents == old(consumeEvents) && dragThreshold == old(dragThreshold)
      ensures boundsWidth == old(boundsWidth) && boundsHeight == old(boundsHeight) && boundsOffset == old(boundsOffset)
      ensures Callbacks() == old(Callbacks())
    {
      calls := [];
      if !enabled {
        return;
      }
      if isClicked && !isDragging && DragArmed(dragStart) && dragThreshold > 0.0 {
        if FarEnough(lastMouse, dragStart.value, dragThreshold) {
          isDragging := true;
          if onDragStart {
            calls := [DragStart];
          }
        }
      }
    }
  }

  /** A left press and release inside, with no drag between them, calls on_click. */
  method PressReleaseClicks(c: ClickableComponent, p: Vec, place: Placement) returns (calls: seq<Call>)
    requires c.Valid() && c.ContainsPoint(p, place) && c.onClick && !c.isDragging
    modifies c
    ensures c.Valid() && !c.isClicked && !c.isDragging && c.dragStart == None
    ensures calls == [Click]
  {
    var h;
    h, calls := c.HandleEvent(ButtonDown(LeftButton, p), place);
    assert c.isClicked && !c.isDragging && c.ContainsPoint(p, place);
    h, calls := c.HandleEvent(ButtonUp(LeftButton, p), place);
  }

  /** A press, a move at least the threshold away and an update start a drag; the release then ends it instead of clicking. */
  method PressMoveReleaseDrags(c: ClickableComponent, p: Vec, q: Vec, place: Placement) returns (calls: seq<Call>)
    requires c.Valid() && c.ContainsPoint(p, place) && c.ContainsPoint(q, place) && !c.isDragging
    requires c.dragThreshold > 0.0 && FarEnough(q, p, c.dragThreshold) && c.onDragEnd
    modifies c
    ensures c.Valid() && !c.isClicked && !c.isDragging
    ensures calls == [DragEnd]
  {
    var h;
    h, calls := c.HandleEvent(ButtonDown(LeftButton, p), place);
    h, calls := c.HandleEvent(Motion(q), place);
    assert c.lastMouse == q && c.dragStart == Some(p) && c.isClicked;
    calls := c.Update();
    assert c.isDragging;
    h, calls := c.HandleEvent(ButtonUp(LeftButton, q), place);
  }
}
