/**
 * Smoothed wheel zoom: wheel movements accumulate into a clamped target zoom, and each
 * animation frame moves the shown zoom 15% of the remaining way, snapping to the target
 * once it is within 0.001.  Each animation frame is an explicit call of `Step`.
 */
module SmoothZoom {
  const MinZoom: real := 0.5
  const MaxZoom: real := 5.0
  const Sensitivity: real := 0.001
  const Ease: real := 0.15
  const SnapDistance: real := 0.001

  function Abs(x: real): real
  {
    if x < 0.0 then -x else x
  }

  /** `Math.max(0.5, Math.min(5.0, z))`. */
  function ClampZoom(z: real): (r: real)
    ensures MinZoom <= r <= MaxZoom
    ensures MinZoom <= z <= MaxZoom ==> r == z
  {
    var upper := if MaxZoom < z then MaxZoom else z;
    if MinZoom > upper then MinZoom else upper
  }

  /** Frames still needed, an upper bound that every easing frame lowers. */
  function Remaining(diff: real): int
  {
    (Abs(diff) / 0.00015).Floor
  }

  class ZoomState {
    var target: real
    var current: real

    constructor (initialZoom: real)
      ensures target == initialZoom && current == initialZoom
    {
      target := initialZoom;
      current := initialZoom;
    }

    /** The wheel handler's update of the target (the inverted, scaled wheel delta). */
    method Wheel(deltaY: real)
      modifies this
      ensures target == ClampZoom(old(target) - deltaY * Sensitivity)
      ensures current == old(current)
    {
      target := ClampZoom(target + -deltaY * Sensitivity);
    }

    /** One animation frame; `done` is true when the zoom snapped to the target. */
    method Step() returns (done: bool)
      modifies this
      ensures target == old(target)
      ensures done <==> Abs(old(target) - old(current)) < SnapDistance
      ensures done ==> current == target
      ensures !done ==> current == old(current) + (target - old(current)) * Ease
      ensures !done ==> target - current == (1.0 - Ease) * (target - old(current))
      ensures !done ==> Remaining(target - current) < Remaining(target - old(current))
      ensures old(current) <= target ==> old(current) <= current <= target
      ensures target <= old(current) ==> target <= current <= old(current)
    {
      var diff := target - current;
      if Abs(diff) < SnapDistance {
        current := target;
        return true;
      }
      FrameShrinks(diff);
      current := current + diff * Ease;
      return false;
    }

    /** Frames until the animation stops: it always stops, and stops at the target. */
    method Animate()
      modifies this
      ensures target == old(target) && current == target
    {
      var done := false;
      while !done
        invariant target == old(target)
        invariant done ==> current == target
        decreases if done then -1 else Remaining(target - current)
      {
        done := Step();
      }
    }
  }

  /** An easing frame of a gap at least the snap distance lowers the frame bound. */
  lemma FrameShrinks(diff: real)
    requires Abs(diff) >= SnapDistance
    ensures Remaining((1.0 - Ease) * diff) < Remaining(diff)
    ensures Remaining(diff) >= 0
  {
    var y := Abs(diff) / 0.00015;
    var y' := Abs((1.0 - Ease) * diff) / 0.00015;
    assert y' <= y - 1.0;
  }

  /** The 2D pan and the zoom returned by `zoomToPoint`. */
  datatype PanZoom = PanZoom(panX: real, panY: real, zoom: real)

  /**
   * `zoomToPoint`: the pan keeps the view point under the mouse fixed, measured from the
   * centre of the container (the pan-relative offsets the source also computes are unused).
   */
  function ZoomToPoint(mouseX: real, mouseY: real, width: real, height: real,
                       currentZoom: real, targetZoom: real, panX: real, panY: real): (r: PanZoom)
    requires currentZoom != 0.0
    ensures r.zoom == targetZoom
    ensures r.panX + targetZoom * ((mouseX - width / 2.0 - panX) / currentZoom) == mouseX - width / 2.0
    ensures r.panY + targetZoom * ((mouseY - height / 2.0 - panY) / currentZoom) == mouseY - height / 2.0
    ensures currentZoom == targetZoom ==> r.panX == panX && r.panY == panY
  {
    var ratio := targetZoom / currentZoom;
    var viewX := mouseX - width / 2.0;
    var viewY := mouseY - height / 2.0;
    PanZoom(panX - (viewX - panX) * (ratio - 1.0), panY - (viewY - panY) * (ratio - 1.0), targetZoom)
  }

  /** A pointer at the current pan offset from the centre zooms without moving the pan. */
  lemma ZoomAtPanCentre(width: real, height: real, currentZoom: real, targetZoom: real, panX: real, panY: real)
    requires currentZoom != 0.0
    ensures var r := ZoomToPoint(width / 2.0 + panX, height / 2.0 + panY, width, height,
        currentZoom, targetZoom, panX, panY);
      r.panX == panX && r.panY == panY
  {
  }
}
