/**
 * The interactive X-ray viewer: pan, zoom, brightness, contrast and overlay opacity of a
 * displayed image.  Zoom stays within [0.5, 5]; drags pass through the smoothed pan and are
 * clamped to the container, wheel zoom keeps the point under the pointer in place.
 * The container's size (absent before it is mounted) and `1 / sqrt(zoom)` are inputs.
 */
module XRayViewer {
  import opened Wrappers
  import SmoothPan

  const MinZoom: real := 0.5
  const MaxZoom: real := 5.0

  datatype Rect = Rect(left: real, top: real, width: real, height: real)

  function Min(a: real, b: real): real { if a < b then a else b }
  function Max(a: real, b: real): real { if a > b then a else b }

  /** `Math.max(-m, Math.min(m, p))` with `m = dim * 1.5 * zoom / 2`. */
  function ConstrainAxis(p: real, dim: real, zoom: real): (r: real)
    requires dim >= 0.0 && zoom >= 0.0
    ensures -(dim * 1.5 * zoom / 2.0) <= r <= dim * 1.5 * zoom / 2.0
    ensures -(dim * 1.5 * zoom / 2.0) <= p <= dim * 1.5 * zoom / 2.0 ==> r == p
  {
    var m := dim * 1.5 * zoom / 2.0;
    Max(-m, Min(m, p))
  }

  /** `constrainPan`: the proposal unchanged while the container or the image is not mounted. */
  function ConstrainPan(container: Option<Rect>, imageMounted: bool, px: real, py: real, zoom: real): (r: (real, real))
    requires container.Some? ==> container.value.width >= 0.0 && container.value.height >= 0.0
    requires zoom >= 0.0
    ensures container.None? || !imageMounted ==> r == (px, py)
    ensures container.Some? && imageMounted ==>
      r == (ConstrainAxis(px, container.value.width, zoom), ConstrainAxis(py, container.value.height, zoom))
  {
    if container.None? || !imageMounted then (px, py)
    else (ConstrainAxis(px, container.value.width, zoom), ConstrainAxis(py, container.value.height, zoom))
  }

  /** A pan coordinate moved by the delta `d` scaled by `factor`. */
  function Dragged(p: real, d: real, factor: real): real
  {
    p + d * factor
  }

  /** The zoom-in button: 20% more, at most 5. */
  function ZoomInStep(z: real): (r: real)
    ensures MinZoom <= z <= MaxZoom ==> MinZoom <= r <= MaxZoom && z <= r
  {
    Min(z * 1.2, 5.0)
  }

  /** The zoom-out button: 20% less, at least 0.5. */
  function ZoomOutStep(z: real): (r: real)
    ensures MinZoom <= z <= MaxZoom ==> MinZoom <= r <= MaxZoom && r <= z
  {
    Max(z / 1.2, 0.5)
  }

  /** The wheel's zoom: the inverted wheel delta times 0.001, clamped to [0.5, 5]. */
  function WheelZoom(z: real, deltaY: real): (r: real)
    ensures MinZoom <= r <= MaxZoom
    ensures deltaY == 0.0 && MinZoom <= z <= MaxZoom ==> r == z
  {
    Max(0.5, Min(5.0, z + -deltaY * 0.001))
  }

  /**
   * One axis of the wheel's pan: the pointer's offset from the pan grows by the zoom ratio,
   * so the image point under the pointer is the same before and after.
   */
  function WheelPan(mouseFromCenter: real, pan: real, ratio: real): (r: real)
    ensures mouseFromCenter - r == (mouseFromCenter - pan) * ratio
    ensures ratio == 1.0 ==> r == pan
    ensures mouseFromCenter == pan ==> r == pan
  {
    pan - (mouseFromCenter - pan) * (ratio - 1.0)
  }

  /**
   * The point under the pointer stays under it: the image coordinate `(m - pan) / z` at zoom
   * `z` is shown at `m` again after the wheel's pan for the new zoom `z2`.
   */
  lemma WheelKeepsPointUnderPointer(m: real, pan: real, z: real, z2: real)
    requires z != 0.0
    ensures WheelPan(m, pan, z2 / z) + z2 * ((m - pan) / z) == m
  {
    assert (m - pan) * (z2 / z) == z2 * ((m - pan) / z);
  }

  class Viewer {
    var panX: real
    var panY: real
    var zoom: real
    var brightness: real
    var contrast: real
    var overlayOpacity: real
    var isDragging: bool
    const panner: SmoothPan.PanState

    predicate Valid()
      reads this
    {
      MinZoom <= zoom <= MaxZoom
    }

    constructor ()
      ensures Valid() && fresh(panner)
      ensures panX == 0.0 && panY == 0.0 && zoom == 1.0 && !isDragging
      ensures brightness == 100.0 && contrast == 100.0 && overlayOpacity == 0.5
      ensures panner.config == SmoothPan.PanConfig(0.6, 2.0, 0.15, 40.0)
    {
      panX, panY, zoom := 0.0, 0.0, 1.0;
      brightness, contrast, overlayOpacity := 100.0, 100.0, 0.5;
      isDragging := false;
      panner := new SmoothPan.PanState(SmoothPan.PanConfig(0.6, 2.0, 0.15, 40.0));
    }

    /** Only the left button starts a drag. */
    method MouseDown(button: int)
      modifies this
      ensures isDragging == (old(isDragging) || button == 0)
      ensures panX == old(panX) && panY == old(panY) && zoom == old(zoom)
      ensures brightness == old(brightness) && contrast == old(contrast) && overlayOpacity == old(overlayOpacity)
    {
      if button != 0 {
        return;
      }
      isDragging := true;
    }

    method MouseUp()
      modifies this
      ensures !isDragging && panX == old(panX) && panY == old(panY) && zoom == old(zoom)
      ensures brightness == old(brightness) && contrast == old(contrast) && overlayOpacity == old(overlayOpacity)
    {
      isDragging := false;
    }

    /**
     * A mouse move pans only while dragging: the smoothed delta, scaled by `zoomFactor`
     * (the caller's `1 / sqrt(zoom)`), is added and the result constrained.
     */
    method MouseMove(container: Option<Rect>, imageMounted: bool, movementX: real, movementY: real, zoomFactor: real)
      requires Valid()
      requires container.Some? ==> container.value.width >= 0.0 && container.value.height >= 0.0
      requires zoomFactor > 0.0
      modifies this, panner
      ensures Valid() && zoom == old(zoom) && isDragging == old(isDragging)
      ensures brightness == old(brightness) && contrast == old(contrast) && overlayOpacity == old(overlayOpacity)
      ensures !isDragging ==> panX == old(panX) && panY == old(panY) && panner.vx == old(panner.vx) && panner.vy == old(panner.vy)
      ensures isDragging ==>
        panner.vx == SmoothPan.EasedVelocity(old(panner.vx), movementX, panner.config)
        && panner.vy == SmoothPan.EasedVelocity(old(panner.vy), movementY, panner.config)
      ensures isDragging ==>
        var dx := SmoothPan.Clamp(panner.vx, panner.config.maxVelocity);
        var dy := SmoothPan.Clamp(panner.vy, panner.config.maxVelocity);
        (panX, panY) == ConstrainPan(container, imageMounted, Dragged(old(panX), dx, zoomFactor), Dragged(old(panY), dy, zoomFactor), zoom)
    {
      if !isDragging {
        return;
      }
      var dx, dy := panner.CalculatePanDelta(movementX, movementY);
      assert dx == SmoothPan.Clamp(panner.vx, panner.config.maxVelocity) && dy == SmoothPan.Clamp(panner.vy, panner.config.maxVelocity);
      var p := ConstrainPan(container, imageMounted, Dragged(panX, dx, zoomFactor), Dragged(panY, dy, zoomFactor), zoom);
      panX, panY := p.0, p.1;
    }

    /**
     * The wheel: zoom by the wheel delta and move the pan so that the point under the pointer
     * stays put; the new pan is not constrained.  Nothing happens before the container is mounted.
     */
    method Wheel(container: Option<Rect>, clientX: real, clientY: real, deltaY: real)
      requires Valid()
      modifies this
      ensures Valid() && isDragging == old(isDragging)
      ensures brightness == old(brightness) && contrast == old(contrast) && overlayOpacity == old(overlayOpacity)
      ensures container.None? ==> zoom == old(zoom) && panX == old(panX) && panY == old(panY)
      ensures container.Some? ==>
        var rect := container.value;
        var ratio := WheelZoom(old(zoom), deltaY) / old(zoom);
        zoom == WheelZoom(old(zoom), deltaY)
        && panX == WheelPan(clientX - rect.left - rect.width / 2.0, old(panX), ratio)
        && panY == WheelPan(clientY - rect.top - rect.height / 2.0, old(panY), ratio)
    {
      if container.None? {
        return;
      }
      var rect := container.value;
      var mouseX := clientX - rect.left;
      var mouseY := clientY - rect.top;
      var newTargetZoom := WheelZoom(zoom, deltaY);
      var mouseFromCenterX := mouseX - rect.width / 2.0;
      var mouseFromCenterY := mouseY - rect.height / 2.0;
      var zoomRatio := newTargetZoom / zoom;
      var newPanX := WheelPan(mouseFromCenterX, panX, zoomRatio);
      var newPanY := WheelPan(mouseFromCenterY, panY, zoomRatio);
      zoom := newTargetZoom;
      panX, panY := newPanX, newPanY;
    }

    method ZoomIn()
      requires Valid()
      modifies this
      ensures Valid() && zoom == ZoomInStep(old(zoom)) && panX == old(panX) && panY == old(panY)
      ensures isDragging == old(isDragging)
      ensures brightness == old(brightness) && contrast == old(contrast) && overlayOpacity == old(overlayOpacity)
    {
      zoom := ZoomInStep(zoom);
    }

    method ZoomOut()
      requires Valid()
      modifies this
      ensures Valid() && zoom == ZoomOutStep(old(zoom)) && panX == old(panX) && panY == old(panY)
      ensures isDragging == old(isDragging)
      ensures brightness == old(brightness) && contrast == old(contrast) && overlayOpacity == old(overlayOpacity)
    {
      zoom := ZoomOutStep(zoom);
    }

    /** Reset: centred, unzoomed, neutral brightness and contrast; the overlay opacity is kept. */
    method Reset()
      modifies this
      ensures Valid()
      ensures panX == 0.0 && panY == 0.0 && zoom == 1.0 && brightness == 100.0 && contrast == 100.0
      ensures overlayOpacity == old(overlayOpacity) && isDragging == old(isDragging)
    {
      panX, panY := 0.0, 0.0;
      zoom := 1.0;
      brightness := 100.0;
      contrast := 100.0;
    }
  }

  /**
   * The wheel can leave the pan outside the drag bound: on a 100-pixel-wide container, a pan
   * of 75 at zoom 1 (the bound there), with the pointer at the left edge, zooming to 2
   * moves the pan to 200 while the bound at zoom 2 is 150.
   */
  lemma WheelEscapesBound()
    ensures WheelZoom(1.0, -1000.0) == 2.0
    ensures WheelPan(0.0 - 100.0 / 2.0, 75.0, WheelZoom(1.0, -1000.0) / 1.0) == 200.0
    ensures ConstrainAxis(200.0, 100.0, 2.0) == 150.0
  {
  }

  /** Repeated zooming in stops at 5 and repeated zooming out at 0.5. */
  lemma ZoomLimits()
    ensures ZoomInStep(5.0) == 5.0 && ZoomInStep(4.5) == 5.0
    ensures ZoomOutStep(0.5) == 0.5 && ZoomOutStep(0.55) == 0.5
    ensures ZoomInStep(1.0) == 1.2
  {
  }
}
