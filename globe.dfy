/** The rotating globe of the dashboard: its interaction state (drag, touch, zoom, automatic
    rotation driven by animation frames) and the hover test that picks the cargo marker under
    the mouse. The projection and the geodesic distance are not computed here: the hover test
    takes, per marker, the distances the projection produced. Animation frames are abstract
    handles; a handle is pending from its request until it fires or is cancelled. */
module Globe {
  import opened Util

  const MIN_SCALE: real := 150.0
  const MAX_SCALE: real := 400.0
  const INITIAL_SCALE: real := 220.0

  /** Yaw added by one automatic-rotation frame. */
  const AUTO_STEP: real := 0.05
  /** Degrees of rotation per pixel dragged. */
  const DRAG_FACTOR: real := 0.5
  /** Scale change per unit of wheel delta. */
  const WHEEL_FACTOR: real := 0.1
  /** Scale change per pixel of change in the distance between two fingers. */
  const PINCH_FACTOR: real := 0.5

  /** Markers further than this (in radians) from the centre of the view are on the far side. */
  const HORIZON: real := 1.57
  /** A hover farther than this many pixels from every marker selects nothing. */
  const HOVER_LIMIT: real := 10.0
  /** The radius of a marker whose size is 0. */
  const DEFAULT_RADIUS: real := 3.0

  /** The [lambda, phi, gamma] rotation of the projection. */
  datatype Rotation = Rotation(yaw: real, pitch: real, roll: real)

  datatype Point = Point(x: real, y: real)

  /** Math.max(150, Math.min(400, s)): the zoom scale pulled back into its range. */
  function ClampScale(s: real): (r: real)
    ensures MIN_SCALE <= r <= MAX_SCALE
    ensures MIN_SCALE <= s <= MAX_SCALE ==> r == s
    ensures s < MIN_SCALE ==> r == MIN_SCALE
    ensures MAX_SCALE < s ==> r == MAX_SCALE
  {
    var atMost := if s < MAX_SCALE then s else MAX_SCALE;
    if MIN_SCALE > atMost then MIN_SCALE else atMost
  }

  /** Clamping is monotone: zooming in further never gives a smaller scale. */
  lemma ClampScaleMono(a: real, b: real)
    requires a <= b
    ensures ClampScale(a) <= ClampScale(b)
  {
  }

  /** A drag (mouse or single finger) by (dx, dy) pixels: horizontal motion turns the yaw,
      vertical motion the pitch against it, and the roll is kept. */
  function Drag(r: Rotation, dx: real, dy: real): (d: Rotation)
    ensures d.roll == r.roll
    ensures d.yaw - r.yaw == DRAG_FACTOR * dx && r.pitch - d.pitch == DRAG_FACTOR * dy
  {
    Rotation(r.yaw + DRAG_FACTOR * dx, r.pitch - DRAG_FACTOR * dy, r.roll)
  }

  /** Two successive drag moves through an intermediate point rotate as much as one move from
      the first point to the last: the rotation depends only on where a drag starts and ends. */
  lemma DragTelescopes(r: Rotation, p0: Point, p1: Point, p2: Point)
    ensures Drag(Drag(r, p1.x - p0.x, p1.y - p0.y), p2.x - p1.x, p2.y - p1.y)
         == Drag(r, p2.x - p0.x, p2.y - p0.y)
  {
  }

  /** Dragging back to the starting point undoes the rotation. */
  lemma DragBackRestores(r: Rotation, dx: real, dy: real)
    ensures Drag(Drag(r, dx, dy), -dx, -dy) == r
  {
  }

  /** The hover test's view of one marker: its geodesic distance from the centre of the view,
      the pixel distance from the mouse to its projected position (None when the projection
      gives no point), and its size. */
  datatype Marker = Marker(geo: real, screen: Option<real>, size: real)

  /** `cargo.size || 3`: a zero size falls back to the default radius. */
  function Radius(m: Marker): (radius: real)
    ensures m.size != 0.0 ==> radius == m.size
    ensures m.size == 0.0 ==> radius == DEFAULT_RADIUS
  {
    if m.size == 0.0 then DEFAULT_RADIUS else m.size
  }

  /** The marker is on the visible side, has a projected position, and the mouse is within
      its radius plus two pixels and closer than the hover limit. */
  predicate Hoverable(m: Marker) {
    && m.geo <= HORIZON
    && m.screen.Some?
    && m.screen.value < Radius(m) + 2.0
    && m.screen.value < HOVER_LIMIT
  }

  /** The result of the hover test on `markers`: None when no marker is hoverable, otherwise
      a hoverable marker at least as close as every hoverable one and strictly closer than
      every hoverable one before it. */
  predicate IsNearestHoverable(markers: seq<Marker>, hit: Option<nat>) {
    match hit
    case None => forall j :: 0 <= j < |markers| ==> !Hoverable(markers[j])
    case Some(i) =>
      && i < |markers| && Hoverable(markers[i])
      && (forall j :: 0 <= j < |markers| && Hoverable(markers[j]) ==>
            markers[i].screen.value <= markers[j].screen.value)
      && (forall j :: 0 <= j < i && Hoverable(markers[j]) ==>
            markers[i].screen.value < markers[j].screen.value)
  }

  /** The result the hover test is specified by picks one marker only. */
  lemma NearestHoverableUnique(markers: seq<Marker>, a: Option<nat>, b: Option<nat>)
    requires IsNearestHoverable(markers, a) && IsNearestHoverable(markers, b)
    ensures a == b
  {
  }

  /** The selection loop of the mouse-move handler: it walks the markers keeping the closest
      distance so far, starting from the hover limit, and replaces the candidate only on a
      strictly smaller distance. */
  method HitTest(markers: seq<Marker>) returns (hit: Option<nat>)
    ensures IsNearestHoverable(markers, hit)
  {
    hit := None;
    var minDistance := HOVER_LIMIT;
    var k := 0;
    while k < |markers|
      invariant 0 <= k <= |markers|
      invariant hit.None? ==> minDistance == HOVER_LIMIT
      invariant hit.None? ==> forall j :: 0 <= j < k ==> !Hoverable(markers[j])
      invariant hit.Some? ==> hit.value < k && Hoverable(markers[hit.value])
      invariant hit.Some? ==> minDistance == markers[hit.value].screen.value
      invariant hit.Some? ==> forall j :: 0 <= j < k && Hoverable(markers[j]) ==>
        minDistance <= markers[j].screen.value
      invariant hit.Some? ==> forall j :: 0 <= j < hit.value && Hoverable(markers[j]) ==>
        minDistance < markers[j].screen.value
    {
      var m := markers[k];
      if m.geo <= HORIZON && m.screen.Some? {
        var distance := m.screen.value;
        if distance < Radius(m) + 2.0 && distance < minDistance {
          minDistance := distance;
          hit := Some(k);
        }
      }
      k := k + 1;
    }
  }

  /** The interaction state of one mounted globe. */
  class GlobeView {
    var rotation: Rotation
    var scale: real
    var autoRotate: bool
    var dragging: bool
    var lastPos: Option<Point>
    var lastTouch: Option<Point>
    var lastDistance: Option<real>
    /** The handle of the animation frame the view holds, if any. */
    var frameId: Option<nat>
    /** The animation frames requested and neither fired nor cancelled. */
    var pending: set<nat>
    /** The handle the next request will return; handles are positive. */
    var nextHandle: nat
    /** The index of the marker under the mouse, and where the tooltip goes. */
    var selected: Option<nat>
    var tooltip: Point

    /** The scale is within its range; while automatic rotation is on exactly the held frame
        is pending, and while it is off nothing is held or pending; a drag knows where the
        pointer last was. */
    ghost predicate Valid()
      reads this
    {
      && MIN_SCALE <= scale <= MAX_SCALE
      && 0 < nextHandle
      && (forall h :: h in pending ==> 0 < h < nextHandle)
      && (autoRotate ==> frameId.Some? && pending == {frameId.value})
      && (!autoRotate ==> frameId.None? && pending == {})
      && (dragging ==> lastPos.Some?)
    }

    /** Mounting: no rotation, scale 220, automatic rotation on with its first frame
        requested. */
    constructor ()
      ensures Valid()
      ensures rotation == Rotation(0.0, 0.0, 0.0) && scale == INITIAL_SCALE
      ensures autoRotate && !dragging && frameId == Some(1) && pending == {1}
      ensures lastPos.None? && lastTouch.None? && lastDistance.None? && selected.None?
    {
      rotation := Rotation(0.0, 0.0, 0.0);
      scale := INITIAL_SCALE;
      autoRotate := true;
      dragging := false;
      lastPos, lastTouch, lastDistance := None, None, None;
      selected := None;
      tooltip := Point(0.0, 0.0);
      frameId := Some(1);
      pending := {1};
      nextHandle := 2;
    }

    /** requestAnimationFrame(handleAutoRotation), with the returned handle stored. */
    method RequestFrame()
      modifies this
      ensures frameId == Some(old(nextHandle)) && nextHandle == old(nextHandle) + 1
      ensures pending == old(pending) + {old(nextHandle)}
      ensures rotation == old(rotation) && scale == old(scale) && autoRotate == old(autoRotate)
      ensures dragging == old(dragging) && lastPos == old(lastPos)
      ensures lastTouch == old(lastTouch) && lastDistance == old(lastDistance)
      ensures selected == old(selected) && tooltip == old(tooltip)
    {
      frameId := Some(nextHandle);
      pending := pending + {nextHandle};
      nextHandle := nextHandle + 1;
    }

    /** cancelAnimationFrame on the held frame, if any, and the handle dropped. */
    method CancelFrame()
      modifies this
      ensures frameId.None?
      ensures old(frameId).Some? ==> pending == old(pending) - {old(frameId).value}
      ensures old(frameId).None? ==> pending == old(pending)
      ensures nextHandle == old(nextHandle)
      ensures rotation == old(rotation) && scale == old(scale) && autoRotate == old(autoRotate)
      ensures dragging == old(dragging) && lastPos == old(lastPos)
      ensures lastTouch == old(lastTouch) && lastDistance == old(lastDistance)
      ensures selected == old(selected) && tooltip == old(tooltip)
    {
      if frameId.Some? {
        pending := pending - {frameId.value};
        frameId := None;
      }
    }

    /** handleAutoRotation, run when the held frame fires: with automatic rotation off it
        does nothing; otherwise it turns the yaw by 0.05 and requests the next frame in place
        of the one that fired. */
    method AutoRotationFrame()
      requires Valid()
      modifies this
      ensures Valid()
      ensures !old(autoRotate) ==> rotation == old(rotation) && pending == {} && frameId.None?
      ensures old(autoRotate) ==>
        && rotation == Rotation(old(rotation.yaw) + AUTO_STEP, old(rotation.pitch), old(rotation.roll))
        && frameId == Some(old(nextHandle)) && pending == {old(nextHandle)}
        && old(frameId).value !in pending
      ensures scale == old(scale) && autoRotate == old(autoRotate) && dragging == old(dragging)
      ensures lastPos == old(lastPos) && lastTouch == old(lastTouch)
      ensures lastDistance == old(lastDistance) && selected == old(selected)
    {
      if !autoRotate {
        return;
      }
      pending := pending - {frameId.value};
      rotation := Rotation(rotation.yaw + AUTO_STEP, rotation.pitch, rotation.roll);
      RequestFrame();
    }

    /** handleWheel: the scale moves against the wheel delta by a tenth of it, clamped; the
        drag and rotation state are not involved. */
    method Wheel(deltaY: real)
      requires Valid()
      modifies this
      ensures Valid()
      ensures scale == ClampScale(old(scale) - WHEEL_FACTOR * deltaY)
      ensures rotation == old(rotation) && autoRotate == old(autoRotate) && dragging == old(dragging)
      ensures frameId == old(frameId) && pending == old(pending) && nextHandle == old(nextHandle)
      ensures lastPos == old(lastPos) && lastTouch == old(lastTouch)
      ensures lastDistance == old(lastDistance) && selected == old(selected)
    {
      scale := ClampScale(scale - WHEEL_FACTOR * deltaY);
    }

    /** pointerdown: a drag starts at the pointer, automatic rotation stops and the held
        frame is cancelled. */
    method PointerDown(p: Point)
      requires Valid()
      modifies this
      ensures Valid()
      ensures dragging && lastPos == Some(p) && !autoRotate
      ensures frameId.None? && pending == {}
      ensures rotation == old(rotation) && scale == old(scale) && nextHandle == old(nextHandle)
      ensures lastTouch == old(lastTouch) && lastDistance == old(lastDistance)
      ensures selected == old(selected)
    {
      dragging := true;
      lastPos := Some(p);
      autoRotate := false;
      CancelFrame();
    }

    /** pointermove: while dragging, the rotation follows the pointer's motion since the last
        position, which becomes the pointer; otherwise nothing changes. */
    method PointerMove(p: Point)
      requires Valid()
      modifies this
      ensures Valid()
      ensures old(dragging) ==>
        && rotation == Drag(old(rotation), p.x - old(lastPos).value.x, p.y - old(lastPos).value.y)
        && lastPos == Some(p)
      ensures !old(dragging) ==> rotation == old(rotation) && lastPos == old(lastPos)
      ensures scale == old(scale) && autoRotate == old(autoRotate) && dragging == old(dragging)
      ensures frameId == old(frameId) && pending == old(pending) && nextHandle == old(nextHandle)
      ensures lastTouch == old(lastTouch) && lastDistance == old(lastDistance)
      ensures selected == old(selected)
    {
      if dragging {
        var from := lastPos.value;
        lastPos := Some(p);
        rotation := Drag(rotation, p.x - from.x, p.y - from.y);
      }
    }

    /** pointerup and pointerleave: the drag ends and automatic rotation resumes; a frame is
        requested only when none is held, so a single frame stays pending. */
    method PointerRelease()
      requires Valid()
      modifies this
      ensures Valid()
      ensures !dragging && autoRotate
      ensures old(frameId).Some? ==> frameId == old(frameId) && pending == old(pending)
      ensures old(frameId).None? ==> frameId == Some(old(nextHandle)) && pending == {old(nextHandle)}
      ensures rotation == old(rotation) && scale == old(scale) && lastPos == old(lastPos)
      ensures lastTouch == old(lastTouch) && lastDistance == old(lastDistance)
      ensures selected == old(selected)
    {
      dragging := false;
      autoRotate := true;
      if frameId.None? {
        RequestFrame();
      }
    }

    /** touchstart: one finger records its position, two fingers record the distance between
        them (as `gap` measures it); either way automatic rotation stops and the held frame is
        cancelled. */
    method TouchStart(touches: seq<Point>, gap: (Point, Point) -> real)
      requires Valid()
      modifies this
      ensures Valid()
      ensures |touches| == 1 ==> lastTouch == Some(touches[0]) && lastDistance == old(lastDistance)
      ensures |touches| == 2 ==>
        lastDistance == Some(gap(touches[0], touches[1])) && lastTouch == old(lastTouch)
      ensures |touches| != 1 && |touches| != 2 ==>
        lastTouch == old(lastTouch) && lastDistance == old(lastDistance)
      ensures !autoRotate && frameId.None? && pending == {}
      ensures rotation == old(rotation) && scale == old(scale) && dragging == old(dragging)
      ensures lastPos == old(lastPos) && selected == old(selected) && nextHandle == old(nextHandle)
    {
      if |touches| == 1 {
        lastTouch := Some(touches[0]);
      } else if |touches| == 2 {
        lastDistance := Some(gap(touches[0], touches[1]));
      }
      autoRotate := false;
      CancelFrame();
    }

    /** touchmove: one finger with a recorded position rotates exactly as a drag does; two
        fingers with a recorded distance zoom by half the change in their distance, clamped;
        anything else changes nothing. */
    method TouchMove(touches: seq<Point>, gap: (Point, Point) -> real)
      requires Valid()
      modifies this
      ensures Valid()
      ensures |touches| == 1 && old(lastTouch).Some? ==>
        && rotation == Drag(old(rotation), touches[0].x - old(lastTouch).value.x,
                            touches[0].y - old(lastTouch).value.y)
        && lastTouch == Some(touches[0])
        && scale == old(scale) && lastDistance == old(lastDistance)
      ensures |touches| == 2 && old(lastDistance).Some? && !(|touches| == 1) ==>
        && lastDistance == Some(gap(touches[0], touches[1]))
        && scale == ClampScale(old(scale) + PINCH_FACTOR * (gap(touches[0], touches[1]) - old(lastDistance).value))
        && rotation == old(rotation) && lastTouch == old(lastTouch)
      ensures !(|touches| == 1 && old(lastTouch).Some?) && !(|touches| == 2 && old(lastDistance).Some?) ==>
        && rotation == old(rotation) && scale == old(scale)
        && lastTouch == old(lastTouch) && lastDistance == old(lastDistance)
      ensures autoRotate == old(autoRotate) && dragging == old(dragging) && lastPos == old(lastPos)
      ensures frameId == old(frameId) && pending == old(pending) && nextHandle == old(nextHandle)
      ensures selected == old(selected)
    {
      if |touches| == 1 && lastTouch.Some? {
        var from := lastTouch.value;
        lastTouch := Some(touches[0]);
        rotation := Drag(rotation, touches[0].x - from.x, touches[0].y - from.y);
      } else if |touches| == 2 && lastDistance.Some? {
        var distance := gap(touches[0], touches[1]);
        var scaleDiff := distance - lastDistance.value;
        lastDistance := Some(distance);
        scale := ClampScale(scale + PINCH_FACTOR * scaleDiff);
      }
    }

    /** touchend: the recorded touch state is dropped and automatic rotation resumes, with a
        frame requested only when none is held. */
    method TouchEnd()
      requires Valid()
      modifies this
      ensures Valid()
      ensures lastTouch.None? && lastDistance.None? && autoRotate
      ensures old(frameId).Some? ==> frameId == old(frameId) && pending == old(pending)
      ensures old(frameId).None? ==> frameId == Some(old(nextHandle)) && pending == {old(nextHandle)}
      ensures rotation == old(rotation) && scale == old(scale) && dragging == old(dragging)
      ensures lastPos == old(lastPos) && selected == old(selected)
    {
      lastTouch := None;
      lastDistance := None;
      autoRotate := true;
      if frameId.None? {
        RequestFrame();
      }
    }

    /** handleMouseMove: the nearest hoverable marker becomes the selection and the tooltip
        moves to the mouse; when there is none the selection is cleared. */
    method MouseMove(mouse: Point, markers: seq<Marker>)
      requires Valid()
      modifies this
      ensures Valid()
      ensures IsNearestHoverable(markers, selected)
      ensures selected.Some? ==> tooltip == mouse
      ensures selected.None? ==> tooltip == old(tooltip)
      ensures rotation == old(rotation) && scale == old(scale) && autoRotate == old(autoRotate)
      ensures dragging == old(dragging) && lastPos == old(lastPos)
      ensures frameId == old(frameId) && pending == old(pending) && nextHandle == old(nextHandle)
      ensures lastTouch == old(lastTouch) && lastDistance == old(lastDistance)
    {
      var hit := HitTest(markers);
      selected := hit;
      if hit.Some? {
        tooltip := mouse;
      }
    }

    /** mouseout: the selection is cleared. */
    method MouseOut()
      requires Valid()
      modifies this
      ensures Valid()
      ensures selected.None? && tooltip == old(tooltip)
      ensures rotation == old(rotation) && scale == old(scale) && autoRotate == old(autoRotate)
      ensures dragging == old(dragging) && lastPos == old(lastPos)
      ensures frameId == old(frameId) && pending == old(pending) && nextHandle == old(nextHandle)
      ensures lastTouch == old(lastTouch) && lastDistance == old(lastDistance)
    {
      selected := None;
    }

    /** Unmounting cancels the held frame, so nothing stays pending. */
    method Cleanup()
      requires Valid()
      modifies this
      ensures frameId.None? && pending == {}
      ensures rotation == old(rotation) && scale == old(scale) && autoRotate == old(autoRotate)
      ensures dragging == old(dragging) && lastPos == old(lastPos) && nextHandle == old(nextHandle)
      ensures lastTouch == old(lastTouch) && lastDistance == old(lastDistance)
      ensures selected == old(selected) && tooltip == old(tooltip)
    {
      CancelFrame();
    }
  }

  /** At most one animation frame is ever pending, and a pending frame only fires while
      automatic rotation is on, so the "off" branch of the frame callback never runs from a
      pending frame. */
  lemma FramesWhileRotating(view: GlobeView)
    requires view.Valid()
    ensures |view.pending| <= 1
    ensures view.pending != {} <==> view.autoRotate
  {
    if view.autoRotate {
      assert view.frameId.value in view.pending;
    }
  }
}
