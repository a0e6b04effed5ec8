/**
 * Slider of engine/ui/builtin/slider.py (engine/rendering/ui.py holds the
 * same class): a value between a minimum and a maximum, set by clicking
 * the track or dragging the handle.
 *
 * The slider's world rectangle (Widget.get_world_rect, Widgets.WorldRect)
 * is a parameter of the operations that read it, and so is the conversion
 * of the handle's fractional x position to the integer pygame.Rect stores.
 * An event the slider does not take goes to Widget.handle_event, which
 * Widgets.Dispatch models; here that is the reply ToBase.
 */
module Sliders {
  import opened Wrappers
  import opened Hierarchy
  import opened Widgets

  /** The handle is a square this many pixels wide. */
  const HandleSize: int := 20

  /** max(lo, min(hi, v)): never below lo, and never above hi when lo <= hi. */
  function Clamp(v: real, lo: real, hi: real): (r: real)
    ensures lo <= r
    ensures lo <= hi ==> r <= hi
    ensures lo <= v <= hi ==> r == v
    ensures hi < v && lo <= hi ==> r == hi
    ensures v < lo ==> r == lo
  {
    var m := if hi < v then hi else v;
    if m < lo then lo else m
  }

  /** Clamping twice clamps once. */
  lemma ClampIdempotent(v: real, lo: real, hi: real)
    requires lo <= hi
    ensures Clamp(Clamp(v, lo, hi), lo, hi) == Clamp(v, lo, hi)
  {
  }

  /** C integer division by 2, which rounds toward zero, as pygame computes centery. */
  function HalfTowardZero(h: int): (r: int)
    ensures 0 <= h ==> 0 <= 2 * r <= h && h <= 2 * r + 1
    ensures h < 0 ==> h <= 2 * r <= 0 && 2 * r - 1 <= h
  {
    if 0 <= h then h / 2 else -((-h) / 2)
  }

  /** Where the value lies along the range: 0 when the range is empty or reversed. */
  function HandleRatio(lo: real, hi: real, value: real): (r: real)
    ensures hi <= lo ==> r == 0.0
    ensures lo < hi && lo <= value <= hi ==> 0.0 <= r <= 1.0
    ensures lo < hi ==> r * (hi - lo) == value - lo
  {
    if hi - lo > 0.0 then
      QuotientInUnit(value - lo, hi - lo);
      (value - lo) / (hi - lo)
    else 0.0
  }

  lemma QuotientInUnit(n: real, d: real)
    requires 0.0 < d
    ensures 0.0 <= n <= d ==> 0.0 <= n / d <= 1.0
  {
    if 0.0 <= n <= d {
      var q := n / d;
      assert q * d == n;
      assert (q - 1.0) * d == n - d;
    }
  }

  /** The handle's left edge before it is made an integer: the start of the track plus the ratio of its free length. */
  function HandleX(world: Rect, lo: real, hi: real, value: real): real
  {
    world.x as real + HandleRatio(lo, hi, value) * (world.width - HandleSize) as real
  }

  /** get_handle_rect: the handle, moved along the track by the value and centred on the track's height. */
  function HandleRect(world: Rect, lo: real, hi: real, value: real, toInt: real -> int): (r: Rect)
    ensures r.width == HandleSize && r.height == HandleSize
    ensures r.y == world.y + HalfTowardZero(world.height) - HandleSize / 2
    ensures r.x == toInt(HandleX(world, lo, hi, value))
  {
    Rect(toInt(HandleX(world, lo, hi, value)),
      world.y + HalfTowardZero(world.height) - HandleSize / 2, HandleSize, HandleSize)
  }

  /** A value in range puts the handle's left edge on the track, before its end less the handle. */
  lemma HandleOnTrack(world: Rect, lo: real, hi: real, value: real)
    requires lo <= value <= hi && HandleSize <= world.width
    ensures world.x as real <= HandleX(world, lo, hi, value) <= (world.x + world.width - HandleSize) as real
  {
    var ratio := HandleRatio(lo, hi, value);
    var span := (world.width - HandleSize) as real;
    assert 0.0 <= ratio <= 1.0;
    ProductBelow(ratio, span);
  }

  lemma ProductBelow(a: real, b: real)
    requires 0.0 <= a <= 1.0 && 0.0 <= b
    ensures 0.0 <= a * b <= b
  {
    assert b - a * b == (1.0 - a) * b;
  }

  /** The fraction of the track left of the mouse, clamped to [0, 1]; a track of width 0 divides by zero. */
  function MouseRatio(world: Rect, mouseX: int): (r: Result<real>)
    ensures world.width == 0 <==> r.Err?
    ensures r.Err? ==> r.error.ZeroDivisionError?
    ensures r.Ok? ==> 0.0 <= r.value <= 1.0
    ensures r.Ok? && 0 < world.width && world.x <= mouseX <= world.x + world.width ==>
      r.value * world.width as real == (mouseX - world.x) as real
  {
    if world.width == 0 then Err(ZeroDivisionError("float division by zero"))
    else
      var q := (mouseX - world.x) as real / world.width as real;
      Ok(Clamp(q, 0.0, 1.0))
  }

  /** The value _update_value_from_mouse asks for: the minimum plus the ratio of the range. */
  function ValueAt(lo: real, hi: real, ratio: real): (r: real)
    requires 0.0 <= ratio <= 1.0
    ensures lo <= hi ==> lo <= r <= hi
    ensures ratio == 0.0 ==> r == lo
    ensures ratio == 1.0 ==> r == hi
  {
    // both branches are the same value; only the first needs the product bound
    var span := hi - lo;
    if 0.0 <= span then
      ProductBelow(ratio, span);
      lo + ratio * span
    else lo + ratio * span
  }

  /** A click at a handle position in range sets the value back to the one it shows. */
  lemma ValueAtHandleRatio(lo: real, hi: real, value: real)
    requires lo < hi && lo <= value <= hi
    ensures ValueAt(lo, hi, HandleRatio(lo, hi, value)) == value
  {
  }

  /** The slider's answer to an event: taken, declined, passed to Widget.handle_event, or an error. */
  datatype Reply = Took | Declined | ToBase | Failed(error: Error)

  class Slider {
    const id: Id
    var minValue: real
    var maxValue: real
    var value: real
    var dragging: bool
    var visible: bool
    var enabled: bool
    var emitted: seq<UIEvent>

    /** Slider(rect, min_value, max_value, value): the initial value is stored as given, unclamped. */
    constructor (id: Id, minValue: real, maxValue: real, value: real)
      ensures this.id == id && this.minValue == minValue && this.maxValue == maxValue && this.value == value
      ensures !dragging && visible && enabled && emitted == []
    {
      this.id := id;
      this.minValue, this.maxValue, this.value := minValue, maxValue, value;
      dragging := false;
      visible, enabled := true, true;
      emitted := [];
    }

    /** The value setter: clamps to the range and emits value_changed only when the value changes. */
    method SetValue(v: real)
      modifies this
      ensures value == Clamp(v, minValue, maxValue)
      ensures emitted == old(emitted) + if value == old(value) then [] else [UIEvent("value_changed", id, ValueData(value))]
      ensures minValue == old(minValue) && maxValue == old(maxValue) && dragging == old(dragging)
      ensures visible == old(visible) && enabled == old(enabled)
    {
      var before := value;
      value := Clamp(v, minValue, maxValue);
      if before != value {
        emitted := emitted + [UIEvent("value_changed", id, ValueData(value))];
      }
    }

    /** _update_value_from_mouse: the value under the mouse, or the division by a zero-width track. */
    method UpdateValueFromMouse(world: Rect, mouseX: int) returns (r: Result<bool>)
      modifies this
      ensures world.width == 0 ==> r.Err? && r.error.ZeroDivisionError? && value == old(value) && emitted == old(emitted)
      ensures world.width != 0 ==> r.Ok? && value == Clamp(ValueAt(minValue, maxValue, MouseRatio(world, mouseX).value), minValue, maxValue)
      ensures world.width != 0 ==> minValue <= maxValue ==> value == ValueAt(minValue, maxValue, MouseRatio(world, mouseX).value)
      ensures emitted == old(emitted) + if value == old(value) then [] else [UIEvent("value_changed", id, ValueData(value))]
      ensures minValue == old(minValue) && maxValue == old(maxValue) && dragging == old(dragging)
      ensures visible == old(visible) && enabled == old(enabled)
    {
      var ratio := MouseRatio(world, mouseX);
      if ratio.Err? {
        return Err(ratio.error);
      }
      SetValue(ValueAt(minValue, maxValue, ratio.value));
      return Ok(true);
    }

    /**
     * handle_event: a left press on the handle starts a drag; on the track
     * it also moves the value there; a left release ends a drag; motion
     * during a drag follows the mouse. Everything else goes to the base.
     */
    method HandleEvent(e: Event, world: Rect, toInt: real -> int) returns (r: Reply)
      modifies this
      ensures minValue == old(minValue) && maxValue == old(maxValue) && visible == old(visible) && enabled == old(enabled)
      ensures !visible || !enabled ==> r == Declined && unchanged(this)
      ensures r == ToBase ==> value == old(value) && dragging == old(dragging) && emitted == old(emitted)
      ensures visible && enabled && e.ButtonDown? && e.button == LeftButton ==>
        var h := HandleRect(world, minValue, maxValue, old(value), toInt);
        (CollidePoint(h, e.x, e.y) ==> r == Took && dragging && value == old(value) && emitted == old(emitted))
        && (!CollidePoint(h, e.x, e.y) && CollidePoint(world, e.x, e.y) ==>
              r == Took && dragging && value == Clamp(ValueAt(minValue, maxValue, MouseRatio(world, e.x).value), minValue, maxValue)
              && emitted == old(emitted) + if value == old(value) then [] else [UIEvent("value_changed", id, ValueData(value))])
        && (!CollidePoint(h, e.x, e.y) && !CollidePoint(world, e.x, e.y) ==> r == ToBase)
      ensures visible && enabled && e.ButtonUp? ==>
        (e.button == LeftButton && old(dragging) <==> r == Took) && (r == Took ==> !dragging) && (r != Took ==> r == ToBase)
      ensures visible && enabled && e.ButtonUp? ==> value == old(value) && emitted == old(emitted)
      ensures visible && enabled && e.Motion? ==> (old(dragging) <==> r != ToBase) && dragging == old(dragging)
      ensures visible && enabled && e.Motion? && old(dragging) ==>
        (world.width == 0 <==> r.Failed?) && (r.Failed? ==> r.error.ZeroDivisionError?)
      ensures visible && enabled && e.Motion? && old(dragging) && world.width == 0 ==> value == old(value) && emitted == old(emitted)
      ensures visible && enabled && e.Motion? && old(dragging) && world.width != 0 ==>
        r == Took && value == Clamp(ValueAt(minValue, maxValue, MouseRatio(world, e.x).value), minValue, maxValue)
        && emitted == old(emitted) + if value == old(value) then [] else [UIEvent("value_changed", id, ValueData(value))]
      ensures visible && enabled && (e.KeyDown? || e.OtherEvent? || (e.ButtonDown? && e.button != LeftButton)) ==> r == ToBase
      ensures r == Declined ==> !old(visible) || !old(enabled)
    {
      if !visible || !enabled {
        return Declined;
      }
      if e.ButtonDown? {
        if e.button == LeftButton {
          var h := HandleRect(world, minValue, maxValue, value, toInt);
          if CollidePoint(h, e.x, e.y) {
            dragging := true;
            return Took;
          } else if CollidePoint(world, e.x, e.y) {
            var u := UpdateValueFromMouse(world, e.x);
            assert u.Ok?;
            dragging := true;
            return Took;
          }
        }
      } else if e.ButtonUp? {
        if e.button == LeftButton && dragging {
          dragging := false;
          return Took;
        }
      } else if e.Motion? {
        if dragging {
          var u := UpdateValueFromMouse(world, e.x);
          if u.Err? {
            return Failed(u.error);
          }
          return Took;
        }
      }
      return ToBase;
    }
  }
}
