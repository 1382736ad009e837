/**
 * The viewport transform of the photo-and-layers container.
 *
 * PIXI's `toLocal`/`toGlobal` for a container without rotation or skew, whose
 * parent has the identity transform, is the affine map
 *   global = position + scale * (local - pivot).
 * Coordinates are exact reals; JavaScript floating-point rounding is not modelled.
 */
module Geometry {

  datatype Point = Point(x: real, y: real) {
    function Plus(o: Point): Point { Point(x + o.x, y + o.y) }
    function Minus(o: Point): Point { Point(x - o.x, y - o.y) }
    function Times(k: real): Point { Point(k * x, k * y) }
  }

  /** `scale`, `position` and `pivot` of the container (scale.x == scale.y always). */
  datatype Transform = Transform(scale: real, position: Point, pivot: Point)

  /** A pinch-gesture session: midpoint of and distance between two touches. */
  datatype PinchData = PinchData(middlePoint: Point, distance: real)

  /** One wheel event of a zoom-out sequence: its delta and the cursor position. */
  datatype Wheel = Wheel(delta: real, at: Point)

  /** The fraction of a wheel delta added to or taken from the scale. */
  const ZoomStep: real := 0.01

  function ToGlobal(t: Transform, local: Point): Point
  {
    t.position.Plus(local.Minus(t.pivot).Times(t.scale))
  }

  function ToLocal(t: Transform, global: Point): (local: Point)
    requires t.scale != 0.0
    ensures ToGlobal(t, local) == global
  {
    t.pivot.Plus(global.Minus(t.position).Times(1.0 / t.scale))
  }

  /** The two coordinate maps are inverse to each other in both directions. */
  lemma LocalOfGlobal(t: Transform, local: Point)
    requires t.scale != 0.0
    ensures ToLocal(t, ToGlobal(t, local)) == local
  {
    var g := ToGlobal(t, local);
    var k := 1.0 / t.scale;
    assert k * t.scale == 1.0;
    assert k * (g.x - t.position.x) == k * (t.scale * (local.x - t.pivot.x)) == local.x - t.pivot.x;
    assert k * (g.y - t.position.y) == k * (t.scale * (local.y - t.pivot.y)) == local.y - t.pivot.y;
  }

  /** Moving the container by `d`: `position += d`. */
  function Pan(t: Transform, d: Point): Transform
  {
    t.(position := t.position.Plus(d))
  }

  /** Every content point is shown `d` further along after a pan; the scale is untouched. */
  lemma PanShiftsEveryPoint(t: Transform, d: Point, q: Point)
    ensures Pan(t, d).scale == t.scale
    ensures ToGlobal(Pan(t, d), q) == ToGlobal(t, q).Plus(d)
  {
  }

  /**
   * zoomIn/zoomOut's update: pivot := toLocal(anchor), position := toGlobal(pivot),
   * both under the transform before the update, then scale := s.
   */
  function ZoomAt(t: Transform, anchor: Point, s: real): Transform
    requires t.scale != 0.0
  {
    var pivot := ToLocal(t, anchor);
    Transform(s, ToGlobal(t, pivot), pivot)
  }

  /** The point under the anchor stays under the anchor, in both directions. */
  lemma ZoomAtFixesAnchor(t: Transform, anchor: Point, s: real)
    requires t.scale != 0.0 && s != 0.0
    ensures ZoomAt(t, anchor, s).scale == s
    ensures ToGlobal(ZoomAt(t, anchor, s), ToLocal(t, anchor)) == anchor
    ensures ToLocal(ZoomAt(t, anchor, s), anchor) == ToLocal(t, anchor)
  {
    var z := ZoomAt(t, anchor, s);
    LocalOfGlobal(z, ToLocal(t, anchor));
  }

  /** A zoom is a scaling of the whole picture about the anchor by `s / scale`. */
  lemma ZoomAtScalesAboutAnchor(t: Transform, anchor: Point, s: real, q: Point)
    requires t.scale != 0.0
    ensures ToGlobal(ZoomAt(t, anchor, s), q) == anchor.Plus(ToGlobal(t, q).Minus(anchor).Times(s / t.scale))
  {
    var p := ToLocal(t, anchor);
    var k := s / t.scale;
    assert k * t.scale == s;
    // anchor = position + scale * (p - pivot), so global(q) - anchor = scale * (q - p)
    assert ToGlobal(t, q).x - anchor.x == t.scale * (q.x - p.x);
    assert ToGlobal(t, q).y - anchor.y == t.scale * (q.y - p.y);
    assert k * (t.scale * (q.x - p.x)) == s * (q.x - p.x);
    assert k * (t.scale * (q.y - p.y)) == s * (q.y - p.y);
  }

  /** zoomOut: subtract `delta * 0.01`; at or below `minScale`, pin the scale there and move nothing. */
  function ZoomOutStep(t: Transform, delta: real, anchor: Point, minScale: real): (r: Transform)
    requires t.scale != 0.0
    ensures r.scale >= minScale
  {
    var s := t.scale - delta * ZoomStep;
    if s <= minScale then t.(scale := minScale) else ZoomAt(t, anchor, s)
  }

  /** The clamp: exactly when the step would reach `minScale`, scale becomes `minScale` and nothing else moves. */
  lemma ZoomOutClamps(t: Transform, delta: real, anchor: Point, minScale: real)
    requires t.scale != 0.0
    ensures var r := ZoomOutStep(t, delta, anchor, minScale);
            (t.scale - delta * ZoomStep <= minScale <==> r == t.(scale := minScale)) &&
            (t.scale - delta * ZoomStep > minScale <==> r.scale > minScale)
  {
    var s := t.scale - delta * ZoomStep;
    if s > minScale {
      assert ZoomOutStep(t, delta, anchor, minScale).scale == s;
    }
  }

  /** A sequence of zoom-out wheel events. */
  function ZoomOuts(t: Transform, ws: seq<Wheel>, minScale: real): (r: Transform)
    requires t.scale > 0.0 && minScale > 0.0
    ensures r.scale > 0.0
    decreases |ws|
  {
    if ws == [] then t
    else ZoomOuts(ZoomOutStep(t, ws[0].delta, ws[0].at, minScale), ws[1..], minScale)
  }

  /** However many zoom-outs follow, the scale is never below `minScale`. */
  lemma {:induction false} ZoomOutsStayAboveMin(t: Transform, ws: seq<Wheel>, minScale: real)
    requires t.scale > 0.0 && minScale > 0.0
    requires t.scale >= minScale || ws != []
    ensures ZoomOuts(t, ws, minScale).scale >= minScale
    decreases |ws|
  {
    if ws != [] {
      ZoomOutsStayAboveMin(ZoomOutStep(t, ws[0].delta, ws[0].at, minScale), ws[1..], minScale);
    }
  }

  /** At `minScale`, zoom-outs by non-negative deltas change nothing at all. */
  lemma {:induction false} ZoomOutsIdleAtMin(t: Transform, ws: seq<Wheel>, minScale: real)
    requires minScale > 0.0 && t.scale == minScale
    requires forall i :: 0 <= i < |ws| ==> ws[i].delta >= 0.0
    ensures ZoomOuts(t, ws, minScale) == t
    decreases |ws|
  {
    if ws != [] {
      assert ZoomOutStep(t, ws[0].delta, ws[0].at, minScale) == t;
      ZoomOutsIdleAtMin(t, ws[1..], minScale);
    }
  }

  /**
   * touchMove's pinch update: pivot := toLocal(last midpoint), position := last midpoint,
   * scale := scale * (new distance / last distance), then position += midpoint movement.
   */
  function PinchStep(t: Transform, last: PinchData, next: PinchData): Transform
    requires t.scale != 0.0 && last.distance != 0.0
  {
    var ratio := next.distance / last.distance;
    var pivot := ToLocal(t, last.middlePoint);
    var movement := next.middlePoint.Minus(last.middlePoint);
    var zoomed := Transform(t.scale * ratio, last.middlePoint, pivot);
    zoomed.(position := zoomed.position.Plus(movement))
  }

  /**
   * A pinch step scales the picture by the distance ratio about the last midpoint and
   * carries it along to the new midpoint: the content that was under the fingers'
   * midpoint is under the new midpoint afterwards.
   */
  lemma PinchFollowsFingers(t: Transform, last: PinchData, next: PinchData, q: Point)
    requires t.scale != 0.0 && last.distance != 0.0
    ensures PinchStep(t, last, next).scale == t.scale * (next.distance / last.distance)
    ensures ToGlobal(PinchStep(t, last, next), ToLocal(t, last.middlePoint)) == next.middlePoint
    ensures ToGlobal(PinchStep(t, last, next), q)
         == next.middlePoint.Plus(ToGlobal(t, q).Minus(last.middlePoint).Times(next.distance / last.distance))
  {
    var ratio := next.distance / last.distance;
    var p := ToLocal(t, last.middlePoint);
    assert ToGlobal(t, q).x - last.middlePoint.x == t.scale * (q.x - p.x);
    assert ToGlobal(t, q).y - last.middlePoint.y == t.scale * (q.y - p.y);
    assert ratio * (t.scale * (q.x - p.x)) == (t.scale * ratio) * (q.x - p.x);
    assert ratio * (t.scale * (q.y - p.y)) == (t.scale * ratio) * (q.y - p.y);
  }

  /** Spreading two fingers from 100 to 200 apart about a fixed midpoint doubles the scale. */
  lemma PinchDoublesScale(t: Transform, middle: Point)
    requires t.scale != 0.0
    ensures PinchStep(t, PinchData(middle, 100.0), PinchData(middle, 200.0)).scale == 2.0 * t.scale
    ensures ToLocal(PinchStep(t, PinchData(middle, 100.0), PinchData(middle, 200.0)), middle) == ToLocal(t, middle)
  {
    var r := PinchStep(t, PinchData(middle, 100.0), PinchData(middle, 200.0));
    PinchFollowsFingers(t, PinchData(middle, 100.0), PinchData(middle, 200.0), ToLocal(t, middle));
    LocalOfGlobal(r, ToLocal(t, middle));
  }

  /**
   * The pinch never clamps: a pinch that brings the fingers 20 times closer leaves a
   * scale below the `minScale` (0.3 times the initial scale) that zoomOut enforces.
   */
  lemma PinchCanUndershootMinScale(initScale: real, t: Transform, middle: Point)
    requires initScale > 0.0 && t.scale == initScale
    ensures PinchStep(t, PinchData(middle, 200.0), PinchData(middle, 10.0)).scale < initScale * 0.3
  {
  }

  /**
   * Drag-to-pan through the pointer positions `path`, starting from the click point
   * `from`: each move pans by the offset from the previously recorded point.
   */
  function DragPath(t: Transform, from: Point, path: seq<Point>): Transform
    decreases |path|
  {
    if path == [] then t else DragPath(Pan(t, path[0].Minus(from)), path[0], path[1..])
  }

  /** A whole drag pans by exactly the offset from the click point to the last pointer position. */
  lemma {:induction false} DragTelescopes(t: Transform, from: Point, path: seq<Point>)
    requires path != []
    ensures DragPath(t, from, path) == Pan(t, path[|path| - 1].Minus(from))
    decreases |path|
  {
    var t1 := Pan(t, path[0].Minus(from));
    if |path| > 1 {
      DragTelescopes(t1, path[0], path[1..]);
      assert path[1..][|path[1..]| - 1] == path[|path| - 1];
    }
  }
}
