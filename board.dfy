/**
 * The interaction state machine of `BoardController`: the layer stack, the single
 * active tool, drag-to-pan, the viewport transform and the touch-gesture classifier.
 *
 * Tools are opaque collaborators: each is named by a `ToolId`, and every call the
 * controller makes to a tool is appended to the ghost `log`, so that the order of
 * activations, deactivations and pointer events can be stated and proved.
 */
module Board {
  import opened Wrappers
  import opened Geometry

  /** The three tool identifiers of the controller's registry. */
  datatype ToolId = Brush | MagicWand | Polygon

  /** One call from the controller to a tool. */
  datatype ToolCall =
    | SetActive(tool: ToolId, layer: Layer?, scale: real)  // setActive(layer, scale)
    | Deactivate(tool: ToolId)                              // setActive(null), with no scale
    | PointerDown(tool: ToolId, pos: Point)                 // mouseDown(pos)
    | PointerUp(tool: ToolId, at: Option<Point>)            // mouseUp(pos); None is {x: null, y: null}
    | PointerMove(tool: ToolId, pos: Point)                 // mouseMove(pos)
    | PhotoScaleChange(tool: ToolId, scale: real)           // onPhotoScaleChange(scale)
    | LayerPropsChange(tool: ToolId)                        // onSelectedLayerPropsChange()

  /** How one call changes the set of tools that hold a layer: `setActive(null)` releases, `setActive(layer)` arms. */
  function Arm(armed: set<ToolId>, c: ToolCall): set<ToolId>
  {
    match c
    case SetActive(t, layer, _) => if layer == null then armed - {t} else armed + {t}
    case Deactivate(t) => armed - {t}
    case _ => armed
  }

  /** The tools armed after the first `n` calls of `log`, all tools starting released. */
  function ArmedUpTo(log: seq<ToolCall>, n: nat): set<ToolId>
    requires n <= |log|
  {
    if n == 0 then {} else Arm(ArmedUpTo(log, n - 1), log[n - 1])
  }

  /** The tools armed after all the calls of `log`. */
  function Armed(log: seq<ToolCall>): set<ToolId>
  {
    ArmedUpTo(log, |log|)
  }

  lemma {:induction false} ArmedUpToPrefix(log: seq<ToolCall>, c: ToolCall, n: nat)
    requires n <= |log|
    ensures ArmedUpTo(log + [c], n) == ArmedUpTo(log, n)
  {
    if n > 0 {
      ArmedUpToPrefix(log, c, n - 1);
      assert (log + [c])[n - 1] == log[n - 1];
    }
  }

  lemma ArmedSnoc(log: seq<ToolCall>, c: ToolCall)
    ensures Armed(log + [c]) == Arm(Armed(log), c)
  {
    ArmedUpToPrefix(log, c, |log|);
  }

  /** Pointer events and notifications neither arm nor release a tool. */
  lemma ArmedKeptBy(log: seq<ToolCall>, c: ToolCall)
    requires !c.SetActive? && !c.Deactivate?
    ensures Armed(log + [c]) == Armed(log)
  {
    ArmedSnoc(log, c);
  }

  /** The `info` view of a layer (the colour's hex/RGB/HSV forms are not modelled). */
  datatype LayerInfo = LayerInfo(id: nat, name: string, color: int, whiteLevel: real, blackLevel: real)

  /**
   * What a layer operation hands back to its caller: a layer's info, JavaScript's
   * `undefined` (a bare `return;`), or the TypeError thrown by reading a property of null.
   */
  datatype Outcome = Returned(info: LayerInfo) | ReturnedNothing | TypeError

  function Digit(d: nat): char
    requires d < 10
  {
    "0123456789"[d]
  }

  /** Decimal notation of a natural number, as string concatenation prints it. */
  function NatToString(n: nat): string
    decreases n
  {
    if n < 10 then [Digit(n)] else NatToString(n / 10) + [Digit(n % 10)]
  }

  /** A mask layer; its id and name are fixed at creation, its colour and levels are set in place. */
  class Layer {
    const layerID: nat
    const name: string
    var color: int
    var whiteLevel: real
    var blackLevel: real

    /** The initial colour and levels are chosen by the layer itself and are not part of this model. */
    constructor (name: string, layerID: nat)
      ensures this.layerID == layerID && this.name == name
    {
      this.layerID := layerID;
      this.name := name;
    }

    function Info(): LayerInfo
      reads this
    {
      LayerInfo(layerID, name, color, whiteLevel, blackLevel)
    }
  }

  /** The timer queue after `clearTimeout` on the stored handle, if one is stored. */
  function Cancelled(taps: map<nat, Point>, timer: Option<nat>): (r: map<nat, Point>)
    ensures timer.Some? ==> timer.value !in r
    ensures forall h :: h in r <==> h in taps && timer != Some(h)
    ensures forall h :: h in r ==> r[h] == taps[h]
  {
    if timer.Some? then taps - {timer.value} else taps
  }

  class BoardController {
    /** `initSizes.scale`, the fit-to-container scale computed when the photo is loaded. */
    const initScale: real
    /** The tools that implement the optional `onPhotoScaleChange` hook. */
    const scaleHooked: set<ToolId>

    var layerCount: nat
    var layers: seq<Layer>
    var currentLayer: Layer?
    var currentTool: Option<ToolId>
    /** `scale`, `position` and `pivot` of the photo-and-layers container. */
    var view: Transform
    var lastMousePointClicked: Option<Point>
    /** The handle last returned by `setTimeout`, never reset to null. */
    var timerForPinchToZoomGesture: Option<nat>
    /** The host's timer queue: pending deferred taps by handle, each with its touch position. */
    var pendingTaps: map<nat, Point>
    /**
     * The handle the host gives the next timer. Hosts hand out positive handles, so the
     * source's truthiness test on the timer field is the test that a handle is stored.
     */
    var nextTimer: nat
    var lastPinchGestureData: Option<PinchData>
    /** Every call made to a tool, in order. */
    ghost var log: seq<ToolCall>

    /** zoomOut's floor, `initSizes.scale * 0.3`. */
    function MinScale(): real
    {
      initScale * 0.3
    }

    ghost predicate Valid()
      reads this
    {
      && initScale > 0.0
      && layerCount == |layers|
      && (forall i :: 0 <= i < |layers| ==> layers[i].layerID == i)
      && (currentLayer != null ==> currentLayer.layerID < |layers| && layers[currentLayer.layerID] == currentLayer)
      && view.scale > 0.0
      && (lastPinchGestureData.Some? ==> lastPinchGestureData.value.distance > 0.0)
      && nextTimer > 0
      && (forall h :: h in pendingTaps ==> 0 < h < nextTimer)
      && (timerForPinchToZoomGesture.Some? ==> timerForPinchToZoomGesture.value < nextTimer)
      // at most one tool is armed: the current one, and only while a layer is selected
      && Armed(log) == (if currentTool.Some? && currentLayer != null then {currentTool.value} else {})
    }

    /** The info of every layer, in stack order. */
    ghost function Infos(): (infos: seq<LayerInfo>)
      reads this, set l | l in layers
      ensures |infos| == |layers|
      ensures forall i :: 0 <= i < |layers| ==> infos[i] == layers[i].Info()
    {
      seq(|layers|, i reads this, set l | l in layers requires 0 <= i < |layers| => layers[i].Info())
    }

    /** The notification updateToolUI sends: to the current tool, if it has the hook. */
    ghost function ScaleNotice(): seq<ToolCall>
      reads this
    {
      if currentTool.Some? && currentTool.value in scaleHooked then [PhotoScaleChange(currentTool.value, view.scale)] else []
    }

    /** The notification after a layer property changes: to the current tool, if any. */
    ghost function PropsNotice(): seq<ToolCall>
      reads this
    {
      if currentTool.Some? then [LayerPropsChange(currentTool.value)] else []
    }

    /** At most one deferred tap is pending, and it is the one the timer field names. */
    ghost predicate AtMostOneTap()
      reads this
    {
      forall h :: h in pendingTaps ==> timerForPinchToZoomGesture == Some(h)
    }

    /** Records a call to a tool that neither arms nor releases it. */
    ghost method Notify(c: ToolCall)
      requires Valid()
      requires !c.SetActive? && !c.Deactivate?
      modifies this`log
      ensures Valid()
      ensures log == old(log) + [c]
    {
      ArmedKeptBy(log, c);
      log := log + [c];
    }

    /** The controller once the photo is loaded: `initScale` and `initPosition` are the fit-to-container transform. */
    constructor (initScale: real, initPosition: Point, scaleHooked: set<ToolId>)
      requires initScale > 0.0
      ensures Valid()
      ensures this.initScale == initScale && this.scaleHooked == scaleHooked
      ensures layerCount == 0 && layers == [] && currentLayer == null && currentTool == None
      ensures view == Transform(initScale, initPosition, Point(0.0, 0.0))
      ensures lastMousePointClicked == None && lastPinchGestureData == None
      ensures timerForPinchToZoomGesture == None && pendingTaps == map[] && nextTimer == 1
      ensures log == []
    {
      this.initScale := initScale;
      this.scaleHooked := scaleHooked;
      layerCount := 0;
      layers := [];
      currentLayer := null;
      currentTool := None;
      view := Transform(initScale, initPosition, Point(0.0, 0.0));
      lastMousePointClicked := None;
      timerForPinchToZoomGesture := None;
      pendingTaps := map[];
      nextTimer := 1;
      lastPinchGestureData := None;
      log := [];
    }

    // ----- tool dispatch -----

    /** Tells the current tool the new scale, when it implements `onPhotoScaleChange`. */
    method UpdateToolUI()
      requires Valid()
      modifies this`log
      ensures Valid()
      ensures log == old(log) + ScaleNotice()
    {
      if currentTool.Some? && currentTool.value in scaleHooked {
        Notify(PhotoScaleChange(currentTool.value, view.scale));
      }
    }

    /** Releases the previous tool first, then arms the new one if there is a layer to arm it with. */
    method SetTool(tool: Option<ToolId>)
      requires Valid()
      modifies this`currentTool, this`log
      ensures Valid()
      ensures currentTool == tool
      ensures log == old(log)
                     + (if old(currentTool).Some? then [Deactivate(old(currentTool).value)] else [])
                     + (if currentLayer != null && tool.Some? then [SetActive(tool.value, currentLayer, view.scale)] else [])
      ensures Armed(log) == if tool.Some? && currentLayer != null then {tool.value} else {}
    {
      if currentTool.Some? {
        ArmedSnoc(log, Deactivate(currentTool.value));
        log := log + [Deactivate(currentTool.value)];
      }
      currentTool := tool;
      if currentLayer != null && currentTool.Some? {
        ArmedSnoc(log, SetActive(currentTool.value, currentLayer, view.scale));
        log := log + [SetActive(currentTool.value, currentLayer, view.scale)];
      }
    }

    // ----- layer stack -----

    /** The first layer whose id is `id`, or null. */
    method FindLayer(id: int) returns (layer: Layer?)
      ensures layer == null <==> forall i :: 0 <= i < |layers| ==> layers[i].layerID != id
      ensures layer != null ==>
                exists k :: 0 <= k < |layers| && layers[k] == layer && layer.layerID == id &&
                            forall j :: 0 <= j < k ==> layers[j].layerID != id
      ensures Valid() ==> layer == if 0 <= id < |layers| then layers[id] else null
    {
      var total := |layers|;
      for i := 0 to total
        invariant forall j :: 0 <= j < i ==> layers[j].layerID != id
      {
        if layers[i].layerID == id {
          return layers[i];
        }
      }
      return null;
    }

    /**
     * Makes the layer with id `id` current and re-arms the current tool with it. For an
     * unknown id the current layer becomes null and the tool is released before the
     * final `layer.info` throws.
     */
    method SelectLayer(id: int) returns (r: Outcome)
      requires Valid()
      modifies this`currentLayer, this`log
      ensures Valid()
      ensures currentLayer == if 0 <= id < |layers| then layers[id] else null
      ensures log == old(log) + if currentTool.Some? then [SetActive(currentTool.value, currentLayer, view.scale)] else []
      ensures r == if currentLayer == null then TypeError else Returned(currentLayer.Info())
    {
      var layer := FindLayer(id);
      currentLayer := layer;
      if currentTool.Some? {
        ArmedSnoc(log, SetActive(currentTool.value, layer, view.scale));
        log := log + [SetActive(currentTool.value, layer, view.scale)];
      }
      if layer == null {
        r := TypeError;
      } else {
        r := Returned(layer.Info());
      }
    }

    /** Appends a new layer whose id is the old layer count, and selects it. */
    method AddLayer() returns (info: LayerInfo)
      requires Valid()
      modifies this`layers, this`layerCount, this`currentLayer, this`log
      ensures Valid()
      ensures info.id == old(layerCount) && info.name == "layer " + NatToString(old(layerCount))
      ensures layerCount == old(layerCount) + 1
      ensures currentLayer != null && fresh(currentLayer)
      ensures layers == old(layers) + [currentLayer]
      ensures info == currentLayer.Info()
      ensures Infos()[..|old(layers)|] == old(Infos())
      ensures log == old(log) + if currentTool.Some? then [SetActive(currentTool.value, currentLayer, view.scale)] else []
    {
      var layerID := layerCount;
      var layerName := "layer " + NatToString(layerCount);
      var layer := new Layer(layerName, layerID);
      layers := layers + [layer];
      layerCount := layerCount + 1;
      var _ := SelectLayer(layer.layerID);
      info := layer.Info();
      assert forall i :: 0 <= i < |old(layers)| ==> Infos()[i] == old(Infos())[i];
    }

    /** `blackLevel := val * 0.01` on the current layer only; nothing at all without one. */
    method SetBlackLevelToSelectedLayer(val: real) returns (r: Outcome)
      requires Valid()
      modifies this`log, currentLayer
      ensures Valid()
      ensures old(currentLayer) == null ==> r == ReturnedNothing && log == old(log) && Infos() == old(Infos())
      ensures old(currentLayer) != null ==>
                var k := currentLayer.layerID;
                && Infos() == old(Infos())[k := old(Infos())[k].(blackLevel := val * 0.01)]
                && r == Returned(Infos()[k])
                && log == old(log) + PropsNotice()
    {
      if currentLayer == null {
        return ReturnedNothing;
      }
      currentLayer.blackLevel := val * 0.01;
      if currentTool.Some? {
        Notify(LayerPropsChange(currentTool.value));
      }
      r := Returned(currentLayer.Info());
    }

    /** `whiteLevel := val * 0.01` on the current layer only; nothing at all without one. */
    method SetWhiteLevelToSelectedLayer(val: real) returns (r: Outcome)
      requires Valid()
      modifies this`log, currentLayer
      ensures Valid()
      ensures old(currentLayer) == null ==> r == ReturnedNothing && log == old(log) && Infos() == old(Infos())
      ensures old(currentLayer) != null ==>
                var k := currentLayer.layerID;
                && Infos() == old(Infos())[k := old(Infos())[k].(whiteLevel := val * 0.01)]
                && r == Returned(Infos()[k])
                && log == old(log) + PropsNotice()
    {
      if currentLayer == null {
        return ReturnedNothing;
      }
      currentLayer.whiteLevel := val * 0.01;
      if currentTool.Some? {
        Notify(LayerPropsChange(currentTool.value));
      }
      r := Returned(currentLayer.Info());
    }

    /** Sets the current layer's colour; with no current layer the unguarded dereference throws first. */
    method SetColorToSelectedLayer(colorNumber: int) returns (r: Outcome)
      requires Valid()
      modifies this`log, currentLayer
      ensures Valid()
      ensures old(currentLayer) == null ==> r == TypeError && log == old(log) && Infos() == old(Infos())
      ensures old(currentLayer) != null ==>
                var k := currentLayer.layerID;
                && Infos() == old(Infos())[k := old(Infos())[k].(color := colorNumber)]
                && r == Returned(Infos()[k])
                && log == old(log) + PropsNotice()
    {
      if currentLayer == null {
        return TypeError;
      }
      currentLayer.color := colorNumber;
      if currentTool.Some? {
        Notify(LayerPropsChange(currentTool.value));
      }
      r := Returned(currentLayer.Info());
    }

    // ----- pointer events -----

    /** Records the click point for drag-to-pan and forwards the press to the current tool. */
    method MouseDown(pos: Point)
      requires Valid()
      modifies this`lastMousePointClicked, this`log
      ensures Valid()
      ensures lastMousePointClicked == Some(pos)
      ensures log == old(log) + if currentTool.Some? then [PointerDown(currentTool.value, pos)] else []
    {
      lastMousePointClicked := Some(pos);
      if currentTool.Some? {
        Notify(PointerDown(currentTool.value, pos));
      }
    }

    /** Forwards the release to the current tool, then always forgets the click point. */
    method MouseUp(pos: Option<Point>)
      requires Valid()
      modifies this`lastMousePointClicked, this`log
      ensures Valid()
      ensures lastMousePointClicked == None
      ensures log == old(log) + if currentTool.Some? then [PointerUp(currentTool.value, pos)] else []
    {
      if currentTool.Some? {
        Notify(PointerUp(currentTool.value, pos));
      }
      lastMousePointClicked := None;
    }

    /** Goes to the current tool; with no tool and a held click, pans by the offset from the last point. */
    method MouseMove(pos: Point)
      requires Valid()
      modifies this`view, this`lastMousePointClicked, this`log
      ensures Valid()
      ensures currentTool.Some? ==>
                && log == old(log) + [PointerMove(currentTool.value, pos)]
                && view == old(view) && lastMousePointClicked == old(lastMousePointClicked)
      ensures currentTool.None? && old(lastMousePointClicked).Some? ==>
                && view == Pan(old(view), pos.Minus(old(lastMousePointClicked).value))
                && lastMousePointClicked == Some(pos) && log == old(log)
      ensures currentTool.None? && old(lastMousePointClicked).None? ==>
                view == old(view) && lastMousePointClicked == None && log == old(log)
    {
      if currentTool.Some? {
        Notify(PointerMove(currentTool.value, pos));
      } else if lastMousePointClicked.Some? {
        var movement := pos.Minus(lastMousePointClicked.value);
        view := view.(position := view.position.Plus(movement));
        lastMousePointClicked := Some(pos);
      }
    }

    // ----- viewport -----

    /** Raises the scale by `delta * 0.01`, keeping the content point under `at` in place. */
    method ZoomIn(delta: real, at: Point)
      requires Valid()
      requires view.scale + delta * ZoomStep > 0.0
      modifies this`view, this`log
      ensures Valid()
      ensures view.scale == old(view).scale + delta * ZoomStep
      ensures view == ZoomAt(old(view), at, old(view).scale + delta * ZoomStep)
      ensures ToGlobal(view, ToLocal(old(view), at)) == at
      ensures ToLocal(view, at) == ToLocal(old(view), at)
      ensures log == old(log) + ScaleNotice()
    {
      var scale := delta * ZoomStep;
      scale := view.scale + scale;
      ZoomAtFixesAnchor(view, at, scale);
      var pivot := ToLocal(view, at);
      var position := ToGlobal(view, pivot);
      view := view.(pivot := pivot);
      view := view.(position := position);
      view := view.(scale := scale);
      UpdateToolUI();
    }

    /**
     * Lowers the scale by `delta * 0.01` about `at`; when that would reach `minScale`
     * the scale is pinned to `minScale` and pivot and position stay as they were.
     */
    method ZoomOut(delta: real, at: Point)
      requires Valid()
      modifies this`view, this`log
      ensures Valid()
      ensures view == ZoomOutStep(old(view), delta, at, MinScale())
      ensures view.scale >= MinScale()
      ensures old(view).scale - delta * ZoomStep <= MinScale() ==> view == old(view).(scale := MinScale())
      ensures old(view).scale - delta * ZoomStep > MinScale() ==>
                && view.scale == old(view).scale - delta * ZoomStep
                && ToGlobal(view, ToLocal(old(view), at)) == at
      ensures log == old(log) + ScaleNotice()
    {
      var scale := delta * ZoomStep;
      scale := view.scale - scale;
      var minScale := initScale * 0.3;
      if scale <= minScale {
        view := view.(scale := minScale);
        UpdateToolUI();
        return;
      }
      ZoomAtFixesAnchor(view, at, scale);
      var pivot := ToLocal(view, at);
      var position := ToGlobal(view, pivot);
      view := view.(pivot := pivot);
      view := view.(position := position);
      view := view.(scale := scale);
      UpdateToolUI();
    }

    /** The wheel handler: a negative `deltaY` zooms in by `-deltaY`, any other zooms out by `deltaY`. */
    method OnScrollE(deltaY: real, offset: Point)
      requires Valid()
      modifies this`view, this`log
      ensures Valid()
      ensures deltaY < 0.0 ==> view == ZoomAt(old(view), offset, old(view).scale + -deltaY * ZoomStep)
      ensures deltaY >= 0.0 ==> view == ZoomOutStep(old(view), deltaY, offset, MinScale())
      ensures log == old(log) + ScaleNotice()
    {
      if deltaY < 0.0 {
        ZoomIn(deltaY * -1.0, offset);
      } else {
        ZoomOut(deltaY, offset);
      }
    }

    // ----- touch gestures -----

    /**
     * One touch schedules a deferred press at it (overwriting the timer field without
     * cancelling an earlier timer); more touches cancel the timer the field names, and
     * exactly two open a pinch session. `gesture` is the midpoint and distance of the
     * first two touches.
     */
    method TouchStart(touches: seq<Point>, gesture: PinchData)
      requires Valid()
      requires |touches| == 2 ==> gesture.distance > 0.0
      modifies this`timerForPinchToZoomGesture, this`pendingTaps, this`nextTimer, this`lastPinchGestureData
      ensures Valid()
      ensures |touches| == 1 ==>
                && timerForPinchToZoomGesture == Some(old(nextTimer))
                && pendingTaps == old(pendingTaps)[old(nextTimer) := touches[0]]
                && old(nextTimer) !in old(pendingTaps)
                && nextTimer == old(nextTimer) + 1
                && lastPinchGestureData == old(lastPinchGestureData)
      ensures |touches| == 1 && old(pendingTaps) != map[] ==> !AtMostOneTap()
      ensures |touches| != 1 ==>
                && timerForPinchToZoomGesture == old(timerForPinchToZoomGesture)
                && pendingTaps == Cancelled(old(pendingTaps), old(timerForPinchToZoomGesture))
                && nextTimer == old(nextTimer)
                && lastPinchGestureData == if |touches| == 2 then Some(gesture) else old(lastPinchGestureData)
    {
      if |touches| == 1 {
        var position := touches[0];
        var handle := nextTimer;
        nextTimer := nextTimer + 1;
        ghost var queued := pendingTaps;
        pendingTaps := pendingTaps[handle := position];
        timerForPinchToZoomGesture := Some(handle);
        if queued != map[] {
          // an earlier deferred press is still queued beside the new one
          ghost var earlier :| earlier in queued;
          assert earlier in pendingTaps && timerForPinchToZoomGesture != Some(earlier);
        }
        return;
      }
      if timerForPinchToZoomGesture.Some? {
        pendingTaps := pendingTaps - {timerForPinchToZoomGesture.value};
      }
      if |touches| == 2 {
        lastPinchGestureData := Some(gesture);
      }
    }

    /**
     * touchStart with the timer cancelled before a new one is scheduled: the deferred
     * press of an earlier single touch can then never outlive the next touch.
     */
    method TouchStartSingleTimer(touches: seq<Point>, gesture: PinchData)
      requires Valid()
      requires |touches| == 2 ==> gesture.distance > 0.0
      modifies this`timerForPinchToZoomGesture, this`pendingTaps, this`nextTimer, this`lastPinchGestureData
      ensures Valid()
      ensures |touches| == 1 ==>
                && timerForPinchToZoomGesture == Some(old(nextTimer))
                && pendingTaps == Cancelled(old(pendingTaps), old(timerForPinchToZoomGesture))[old(nextTimer) := touches[0]]
                && old(nextTimer) !in old(pendingTaps)
                && nextTimer == old(nextTimer) + 1
      ensures |touches| != 1 ==>
                && timerForPinchToZoomGesture == old(timerForPinchToZoomGesture)
                && pendingTaps == Cancelled(old(pendingTaps), old(timerForPinchToZoomGesture))
                && nextTimer == old(nextTimer)
      ensures lastPinchGestureData == if |touches| == 2 then Some(gesture) else old(lastPinchGestureData)
      ensures old(AtMostOneTap()) ==> AtMostOneTap()
      ensures |touches| == 1 && old(AtMostOneTap()) ==> pendingTaps == map[old(nextTimer) := touches[0]]
      ensures |touches| != 1 && old(AtMostOneTap()) ==> pendingTaps == map[]
    {
      if timerForPinchToZoomGesture.Some? {
        pendingTaps := pendingTaps - {timerForPinchToZoomGesture.value};
      }
      if |touches| == 1 {
        var handle := nextTimer;
        nextTimer := nextTimer + 1;
        pendingTaps := pendingTaps[handle := touches[0]];
        timerForPinchToZoomGesture := Some(handle);
        return;
      }
      if |touches| == 2 {
        lastPinchGestureData := Some(gesture);
      }
    }

    /** The deferred press of timer `handle` fires: a mouseDown at the recorded touch. */
    method FireTap(handle: nat)
      requires Valid()
      requires handle in pendingTaps
      modifies this`pendingTaps, this`lastMousePointClicked, this`log
      ensures Valid()
      ensures pendingTaps == old(pendingTaps) - {handle}
      ensures lastMousePointClicked == Some(old(pendingTaps)[handle])
      ensures log == old(log) + if currentTool.Some? then [PointerDown(currentTool.value, old(pendingTaps)[handle])] else []
      ensures old(AtMostOneTap()) ==> AtMostOneTap()
    {
      var position := pendingTaps[handle];
      pendingTaps := pendingTaps - {handle};
      MouseDown(position);
    }

    /**
     * One touch moves like the mouse; two touches with an open session pinch: scale by
     * the distance ratio about the last midpoint, follow the midpoint, and keep the new
     * session. `gesture` is the midpoint and distance of the first two touches.
     */
    method TouchMove(touches: seq<Point>, gesture: PinchData)
      requires Valid()
      requires |touches| == 2 && lastPinchGestureData.Some? ==> gesture.distance > 0.0
      modifies this`view, this`lastMousePointClicked, this`lastPinchGestureData, this`log
      ensures Valid()
      ensures |touches| == 1 && currentTool.Some? ==>
                && log == old(log) + [PointerMove(currentTool.value, touches[0])]
                && view == old(view) && lastMousePointClicked == old(lastMousePointClicked)
                && lastPinchGestureData == old(lastPinchGestureData)
      ensures |touches| == 1 && currentTool.None? && old(lastMousePointClicked).Some? ==>
                && view == Pan(old(view), touches[0].Minus(old(lastMousePointClicked).value))
                && lastMousePointClicked == Some(touches[0]) && log == old(log)
                && lastPinchGestureData == old(lastPinchGestureData)
      ensures |touches| == 1 && currentTool.None? && old(lastMousePointClicked).None? ==>
                && view == old(view) && lastMousePointClicked == None && log == old(log)
                && lastPinchGestureData == old(lastPinchGestureData)
      ensures |touches| == 2 && old(lastPinchGestureData).Some? ==>
                && view == PinchStep(old(view), old(lastPinchGestureData).value, gesture)
                && view.scale == old(view).scale * (gesture.distance / old(lastPinchGestureData).value.distance)
                && lastPinchGestureData == Some(gesture)
                && lastMousePointClicked == old(lastMousePointClicked)
                && log == old(log) + ScaleNotice()
      ensures |touches| != 1 && !(|touches| == 2 && old(lastPinchGestureData).Some?) ==>
                && view == old(view) && lastMousePointClicked == old(lastMousePointClicked)
                && lastPinchGestureData == old(lastPinchGestureData) && log == old(log)
    {
      if |touches| == 1 {
        MouseMove(touches[0]);
        return;
      }
      if |touches| == 2 && lastPinchGestureData.Some? {
        var pinchGestureData := gesture;
        var last := lastPinchGestureData.value;
        PinchFollowsFingers(view, last, pinchGestureData, ToLocal(view, last.middlePoint));
        var movement := pinchGestureData.middlePoint.Minus(last.middlePoint);
        var scale := pinchGestureData.distance / last.distance;
        var pivot := ToLocal(view, last.middlePoint);
        view := view.(pivot := pivot);
        view := view.(position := last.middlePoint);
        scale := view.scale * scale;
        view := view.(scale := scale);
        view := view.(position := view.position.Plus(movement));
        lastPinchGestureData := Some(pinchGestureData);
        UpdateToolUI();
      }
    }

    /** Closes any pinch session and sends the tool a release with null coordinates. */
    method TouchEnd()
      requires Valid()
      modifies this`lastPinchGestureData, this`lastMousePointClicked, this`log
      ensures Valid()
      ensures lastPinchGestureData == None && lastMousePointClicked == None
      ensures log == old(log) + if currentTool.Some? then [PointerUp(currentTool.value, None)] else []
    {
      lastPinchGestureData := None;
      MouseUp(None);
    }
  }
}
