/**
  The canvas's view controls: mouse-drag panning and wheel zooming toward the
  cursor. Each function works on one axis; the canvas applies it to x and y
  alike.

  The canvas draws a scene point p at screen coordinate
    extent/2 + zoom · (p + pan − craft)
  where `extent` is the canvas width (or height) and `craft` the spacecraft's
  coordinate: it translates to the centre, scales by the zoom, translates back
  by extent/2 minus the pan, and then re-centres on the spacecraft.
 */
module View {

  const MinZoom: real := 0.5
  const MaxZoom: real := 3.0
  const ZoomStep: real := 0.1

  /** JavaScript's Math.sign on a non-NaN number. */
  function Sign(x: real): (s: real)
    ensures s == -1.0 || s == 0.0 || s == 1.0
    ensures (s > 0.0 <==> x > 0.0) && (s < 0.0 <==> x < 0.0)
  {
    if x > 0.0 then 1.0 else if x < 0.0 then -1.0 else 0.0
  }

  function ClampZoom(z: real): (r: real)
    ensures MinZoom <= r <= MaxZoom
    ensures MinZoom <= z <= MaxZoom ==> r == z
    ensures z < MinZoom ==> r == MinZoom
    ensures z > MaxZoom ==> r == MaxZoom
  {
    if z < MinZoom then MinZoom else if z > MaxZoom then MaxZoom else z
  }

  /** One wheel notch: scrolling up (deltaY < 0) zooms in by 0.1, down zooms out, within [0.5, 3]. */
  function ZoomAfterWheel(zoom: real, deltaY: real): (r: real)
    ensures MinZoom <= r <= MaxZoom
    ensures MinZoom <= zoom <= MaxZoom && deltaY < 0.0 ==> r == if zoom + ZoomStep <= MaxZoom then zoom + ZoomStep else MaxZoom
    ensures MinZoom <= zoom <= MaxZoom && deltaY > 0.0 ==> r == if zoom - ZoomStep >= MinZoom then zoom - ZoomStep else MinZoom
    ensures MinZoom <= zoom <= MaxZoom && deltaY == 0.0 ==> r == zoom
  {
    ClampZoom(zoom + -Sign(deltaY) * ZoomStep)
  }

  /** Offset from the spacecraft of the scene point drawn at screen coordinate c. */
  function ScenePoint(c: real, zoom: real, pan: real, extent: real): real
    requires zoom > 0.0
  {
    (c - extent / 2.0) / zoom - pan
  }

  /** Screen coordinate at which the scene point at offset q from the spacecraft is drawn. */
  function ScreenPoint(q: real, zoom: real, pan: real, extent: real): real
  {
    extent / 2.0 + zoom * (q + pan)
  }

  lemma ScreenSceneRoundTrip(c: real, q: real, zoom: real, pan: real, extent: real)
    requires zoom > 0.0
    ensures ScreenPoint(ScenePoint(c, zoom, pan, extent), zoom, pan, extent) == c
    ensures ScenePoint(ScreenPoint(q, zoom, pan, extent), zoom, pan, extent) == q
  {
    assert zoom * ((c - extent / 2.0) / zoom) == c - extent / 2.0;
    assert (zoom * (q + pan)) / zoom == q + pan;
  }

  /** Mouse drag by d screen units. */
  function DragPan(pan: real, d: real, zoom: real): (r: real)
    requires zoom > 0.0
    ensures (r - pan) * zoom == d
  {
    pan + d / zoom
  }

  /** Dragging keeps the grabbed scene point under the mouse. */
  lemma DragKeepsGrabbedPoint(c: real, d: real, zoom: real, pan: real, extent: real)
    requires zoom > 0.0
    ensures ScenePoint(c + d, zoom, DragPan(pan, d, zoom), extent) == ScenePoint(c, zoom, pan, extent)
  {
    assert (c + d - extent / 2.0) / zoom == (c - extent / 2.0) / zoom + d / zoom;
  }

  /**
    The wheel handler's new pan as written: `capturedPan` is the pan the
    handler closed over, which is the pan of the last render in which the zoom
    changed, not the current pan.
   */
  function WheelPanAsWritten(cursor: real, zoom: real, capturedPan: real, newZoom: real): (r: real)
    requires zoom > 0.0 && newZoom > 0.0
    ensures cursor == 0.0 ==> r == capturedPan
  {
    var scene := cursor / zoom - capturedPan;
    -scene + cursor / newZoom
  }

  /** What the handler's arithmetic does keep fixed: cursor/zoom − pan. */
  lemma WheelAsWrittenKeepsCursorOverZoom(cursor: real, zoom: real, capturedPan: real, newZoom: real)
    requires zoom > 0.0 && newZoom > 0.0
    ensures cursor / newZoom - WheelPanAsWritten(cursor, zoom, capturedPan, newZoom) == cursor / zoom - capturedPan
  {
  }

  /**
    Even with an up-to-date pan, the scene point under the cursor moves by
    (extent/2)·(1/zoom − 1/newZoom), because the canvas scales about its
    centre and the handler's arithmetic assumes it scales about the corner.
   */
  lemma WheelAsWrittenMovesCursorPoint(cursor: real, zoom: real, pan: real, newZoom: real, extent: real)
    requires zoom > 0.0 && newZoom > 0.0
    ensures ScenePoint(cursor, newZoom, WheelPanAsWritten(cursor, zoom, pan, newZoom), extent)
            - ScenePoint(cursor, zoom, pan, extent)
            == (extent / 2.0) * (1.0 / zoom - 1.0 / newZoom)
  {
    assert (cursor - extent / 2.0) / newZoom == cursor / newZoom - (extent / 2.0) * (1.0 / newZoom);
    assert (cursor - extent / 2.0) / zoom == cursor / zoom - (extent / 2.0) * (1.0 / zoom);
  }

  /** An 800-unit-wide canvas zoomed from 1 to 1.1 at its centre: the centre point shifts. */
  lemma WheelAsWrittenCentreScenario()
    ensures ScenePoint(400.0, 1.1, WheelPanAsWritten(400.0, 1.0, 0.0, 1.1), 800.0)
            != ScenePoint(400.0, 1.0, 0.0, 800.0)
  {
    WheelAsWrittenMovesCursorPoint(400.0, 1.0, 0.0, 1.1, 800.0);
  }

  /**
    When the zoom does not change the handler's arithmetic returns exactly the
    pan it was given, whatever the cursor; at the largest zoom a scroll up
    leaves the zoom unchanged.
   */
  lemma WheelAsWrittenAtZoomLimit(cursor: real, zoom: real, capturedPan: real)
    requires zoom > 0.0
    ensures WheelPanAsWritten(cursor, zoom, capturedPan, zoom) == capturedPan
    ensures WheelPanAsWritten(0.0, MaxZoom, 0.0, ZoomAfterWheel(MaxZoom, -1.0)) == 0.0
  {
  }

  /**
    The pan that keeps the scene point under the cursor fixed when the zoom
    goes from `zoom` to `newZoom`, computed from the current pan.
   */
  function CursorPan(cursor: real, zoom: real, pan: real, newZoom: real, extent: real): (r: real)
    requires zoom > 0.0 && newZoom > 0.0
    ensures ScenePoint(cursor, newZoom, r, extent) == ScenePoint(cursor, zoom, pan, extent)
    ensures newZoom == zoom ==> r == pan
  {
    var c := cursor - extent / 2.0;
    assert c / newZoom - (pan + c / newZoom - c / zoom) == c / zoom - pan;
    pan + c / newZoom - c / zoom
  }
}
