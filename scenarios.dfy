/**
 * Call sequences on a freshly loaded controller, with what the controller's contracts
 * let a caller conclude about them.
 */
module Scenarios {
  import opened Wrappers
  import opened Geometry
  import opened Board

  /** `addLayer()` called `n` times yields the ids 0 .. n-1 in order, and `findLayer` resolves each. */
  method AddLayers(n: nat) returns (ids: seq<int>, resolved: bool)
    ensures |ids| == n && forall i :: 0 <= i < n ==> ids[i] == i
    ensures resolved
  {
    var c := new BoardController(1.0, Point(0.0, 0.0), {});
    ids := [];
    for k := 0 to n
      invariant c.Valid() && |c.layers| == k
      invariant |ids| == k && forall i :: 0 <= i < k ==> ids[i] == i
    {
      var info := c.AddLayer();
      ids := ids + [info.id];
    }
    resolved := true;
    for k := 0 to n
      invariant c.Valid() && |c.layers| == n
      invariant resolved
    {
      var layer := c.FindLayer(ids[k]);
      resolved := resolved && layer != null && layer.layerID == ids[k];
    }
  }

  /** Add layer 0, select it, set its black level to 50: the layer's info reports 0.5. */
  method BlackLevelOfNewLayer() returns (r: Outcome)
    ensures r.Returned? && r.info.id == 0 && r.info.blackLevel == 0.5
  {
    var c := new BoardController(1.0, Point(0.0, 0.0), {});
    var _ := c.AddLayer();
    var _ := c.SelectLayer(0);
    r := c.SetBlackLevelToSelectedLayer(50.0);
  }

  /** Two wheel zoom-outs far past the floor leave the scale at exactly `initScale * 0.3`. */
  method ZoomOutToFloor() returns (scale: real)
    ensures scale == 0.3
  {
    var c := new BoardController(1.0, Point(0.0, 0.0), {});
    c.OnScrollE(100.0, Point(10.0, 10.0));
    c.OnScrollE(5.0, Point(20.0, 5.0));
    scale := c.view.scale;
  }

  /** A fresh controller with one layer and the brush armed on it; no timer or pinch yet. */
  method BrushOnNewLayer() returns (c: BoardController)
    ensures fresh(c) && c.Valid()
    ensures c.currentTool == Some(Brush) && c.currentLayer != null
    ensures c.pendingTaps == map[] && c.nextTimer == 1 && c.timerForPinchToZoomGesture == None
    ensures c.lastPinchGestureData == None
  {
    c := new BoardController(1.0, Point(0.0, 0.0), {});
    var _ := c.AddLayer();
    c.SetTool(Some(Brush));
  }

  /**
   * A first finger that touches and lifts within the tap delay, then a second single
   * touch, then a two-finger pinch: touchStart cancels only the second deferred press,
   * so the first is still pending while the pinch runs. When its timer fires, the brush,
   * armed on a new layer, receives a paint press in the middle of the pinch.
   */
  method OrphanTapSurvivesPinch() returns (c: BoardController, pending: nat, pinching: bool)
    ensures pending == 1 && pinching
    ensures c.lastPinchGestureData.Some? && Armed(c.log) == {Brush}
    ensures |c.log| > 0 && c.log[|c.log| - 1] == PointerDown(Brush, Point(10.0, 10.0))
  {
    c := BrushOnNewLayer();
    var p, q := Point(10.0, 10.0), Point(30.0, 10.0);
    c.TouchStart([p], PinchData(p, 0.0));
    c.TouchEnd();
    c.TouchStart([p], PinchData(p, 0.0));
    c.TouchStart([p, q], PinchData(Point(20.0, 10.0), 20.0));
    pending := |c.pendingTaps|;
    pinching := c.lastPinchGestureData.Some?;
    c.FireTap(1);
  }

  /** The same touches with the timer cancelled before each new one: no press is left pending. */
  method SingleTimerCancelsTap() returns (pending: nat, pinching: bool)
    ensures pending == 0 && pinching
  {
    var c := new BoardController(1.0, Point(0.0, 0.0), {});
    var p, q := Point(10.0, 10.0), Point(30.0, 10.0);
    c.TouchStartSingleTimer([p], PinchData(p, 0.0));
    c.TouchEnd();
    c.TouchStartSingleTimer([p], PinchData(p, 0.0));
    c.TouchStartSingleTimer([p, q], PinchData(Point(20.0, 10.0), 20.0));
    pending := |c.pendingTaps|;
    pinching := c.lastPinchGestureData.Some?;
  }
}
