/**
  The simulation canvas component: the spacecraft record and the debris list
  it keeps in refs and mutates in place every animation frame, the two
  notification timestamps, and the pan/zoom view state.

  Every distance the component computes with `Math.sqrt` is an input here
  (`ds`, one per debris particle, in list order); `IsDistances` says that
  each is the length of the offset from the spacecraft to that particle.
  `Date.now()` is the parameter `now`; `Math.random()` the parameter `nudge`.
 */
module Canvas {

  import opened Options
  import opened Kinematics
  import Proximity
  import Alerts
  import View

  /** d is the length of the offset (dx, dy). */
  predicate IsLength(d: real, dx: real, dy: real)
  {
    0.0 <= d && d * d == dx * dx + dy * dy
  }

  class SimulationCanvas {
    // spacecraftRef.current
    var x: real
    var y: real
    var vx: real
    var vy: real
    // debrisRef.current: created once, its particles then moved in place
    const debris: array<Particle>
    // lastNotificationTimeRef and lastYellowNotificationTimeRef
    var lastNotificationTime: int
    var lastYellowNotificationTime: int
    // view controls
    var zoomLevel: real
    var panX: real
    var panY: real
    var isDragging: bool
    var lastMouseX: real
    var lastMouseY: real
    // the pan the event handlers were created with: the handlers are
    // re-registered only when the zoom changes, so this is the pan as of the
    // last zoom change (or mount)
    var capturedPanX: real
    var capturedPanY: real

    ghost predicate Valid()
      reads this
    {
      View.MinZoom <= zoomLevel <= View.MaxZoom
    }

    function CurrentStamps(): Alerts.Stamps
      reads this
    {
      Alerts.Stamps(lastNotificationTime, lastYellowNotificationTime)
    }

    function CurrentVelocity(): Kinematics.Velocity
      reads this
    {
      Kinematics.Velocity(vx, vy)
    }

    /** `ds` lists, for every particle, its distance from the spacecraft. */
    ghost predicate IsDistances(ds: seq<real>)
      reads this, debris
    {
      && |ds| == debris.Length
      && forall i :: 0 <= i < |ds| ==> IsLength(ds[i], x - debris[i].x, y - debris[i].y)
    }

    /**
      Mounting the canvas: the spacecraft at rest in the middle of the canvas,
      the debris list as generated, both timestamps 0, zoom 1 and no pan.
     */
    constructor (width: real, height: real, generated: seq<Particle>)
      ensures Valid()
      ensures x == width / 2.0 && y == height / 2.0 && vx == 0.0 && vy == 0.0
      ensures fresh(debris) && debris[..] == generated
      ensures CurrentStamps() == Alerts.InitialStamps
      ensures zoomLevel == 1.0 && panX == 0.0 && panY == 0.0 && !isDragging
      ensures capturedPanX == 0.0 && capturedPanY == 0.0
    {
      x, y, vx, vy := width / 2.0, height / 2.0, 0.0, 0.0;
      debris := new Particle[|generated|](i requires 0 <= i < |generated| => generated[i]);
      lastNotificationTime, lastYellowNotificationTime := 0, 0;
      zoomLevel, panX, panY := 1.0, 0.0, 0.0;
      isDragging, lastMouseX, lastMouseY := false, 0.0, 0.0;
      capturedPanX, capturedPanY := 0.0, 0.0;
    }

    /**
      Manual thrust, then, unless the AI is off, steering relative to the
      nearest debris within the radar radius (if there is one).
     */
    method ApplyNavigationAndAI(dt: real, controls: NavigationControls, aiMode: string, radarRange: real, ds: seq<real>)
      returns (target: Option<nat>)
      requires IsDistances(ds)
      modifies this`vx, this`vy
      ensures target.None? <==>
              aiMode == "off" || forall j :: 0 <= j < |ds| ==> ds[j] > Proximity.RadarRadius(radarRange)
      ensures target.Some? ==> Proximity.IsNearestInRange(ds, Proximity.RadarRadius(radarRange), target.value)
      ensures target.None? ==> CurrentVelocity() == Thrust(old(CurrentVelocity()), controls, dt)
      ensures target.Some? ==>
              && target.value < debris.Length
              && IsLength(ds[target.value], x - debris[target.value].x, y - debris[target.value].y)
              && CurrentVelocity() == Steer(Thrust(old(CurrentVelocity()), controls, dt), aiMode,
                                     x - debris[target.value].x, y - debris[target.value].y, ds[target.value], dt)
    {
      ApplyThrust(dt, controls);
      target := None;
      if aiMode != "off" {
        target := SteerAI(dt, aiMode, radarRange, ds);
      }
    }

    /** The AI part: find the nearest debris in range and steer relative to it. */
    method SteerAI(dt: real, aiMode: string, radarRange: real, ds: seq<real>) returns (target: Option<nat>)
      requires IsDistances(ds)
      modifies this`vx, this`vy
      ensures target.None? <==> forall j :: 0 <= j < |ds| ==> ds[j] > Proximity.RadarRadius(radarRange)
      ensures target.Some? ==> Proximity.IsNearestInRange(ds, Proximity.RadarRadius(radarRange), target.value)
      ensures target.None? ==> CurrentVelocity() == old(CurrentVelocity())
      ensures target.Some? ==>
              && target.value < debris.Length
              && IsLength(ds[target.value], x - debris[target.value].x, y - debris[target.value].y)
              && CurrentVelocity() == Steer(old(CurrentVelocity()), aiMode,
                                     x - debris[target.value].x, y - debris[target.value].y, ds[target.value], dt)
    {
      target := Proximity.NearestInRange(ds, Proximity.RadarRadius(radarRange));
      if target.Some? {
        var k := target.value;
        assert IsLength(ds[k], x - debris[k].x, y - debris[k].y);
        SteerToward(dt, aiMode, x - debris[k].x, y - debris[k].y, ds[k]);
      }
    }

    /** The four directional flags, applied in the canvas's order. */
    method ApplyThrust(dt: real, controls: NavigationControls)
      modifies this`vx, this`vy
      ensures CurrentVelocity() == Thrust(old(CurrentVelocity()), controls, dt)
    {
      var thrustPower := ThrustPower(dt);
      if controls.up { vy := vy + thrustPower; }
      if controls.down { vy := vy - thrustPower; }
      if controls.left { vx := vx - thrustPower; }
      if controls.right { vx := vx + thrustPower; }
    }

    /**
      The avoid or follow rule for the chosen particle, at offset
      (offX, offY) = spacecraft − particle and distance closestDistance.
     */
    method SteerToward(dt: real, aiMode: string, offX: real, offY: real, closestDistance: real)
      requires 0.0 <= closestDistance && closestDistance * closestDistance == offX * offX + offY * offY
      modifies this`vx, this`vy
      ensures CurrentVelocity() == Steer(old(CurrentVelocity()), aiMode, offX, offY, closestDistance, dt)
    {
      if aiMode == "avoid" {
        var pushed := Push(CurrentVelocity(), Heading(offX, offY, closestDistance), AvoidStrength(dt, closestDistance));
        vx, vy := pushed.vx, pushed.vy;
      } else if aiMode == "follow" {
        assert (-offX) * (-offX) + (-offY) * (-offY) == offX * offX + offY * offY;
        var pulled := Push(CurrentVelocity(), Heading(-offX, -offY, closestDistance), FollowStrength(dt));
        vx, vy := pulled.vx, pulled.vy;
        if closestDistance < FollowDampingRange {
          vx := vx * 0.98;
          vy := vy * 0.98;
        }
      }
    }

    /**
      Drag, the optional random nudge (only with the AI off and no direction
      held), then the explicit Euler step of the position.
     */
    method UpdateSpacecraft(dt: real, aiMode: string, controls: NavigationControls, nudge: Option<Kinematics.Velocity>)
      modifies this`vx, this`vy, this`x, this`y
      ensures CurrentVelocity() == Coast(old(CurrentVelocity()), aiMode, controls, nudge)
      ensures x == old(x) + vx * dt && y == old(y) + vy * dt
    {
      vx := vx * 0.99;
      vy := vy * 0.99;
      if NudgeAllowed(aiMode, controls) && nudge.Some? {
        vx := vx + nudge.value.vx;
        vy := vy + nudge.value.vy;
      }
      x := x + vx * dt;
      y := y + vy * dt;
    }

    /** Every particle moves by its own velocity; no particle is added, removed or otherwise changed. */
    method UpdateDebris(dt: real)
      modifies debris
      ensures forall i :: 0 <= i < debris.Length ==> debris[i] == Advance(old(debris[i]), dt)
    {
      var i := 0;
      while i < debris.Length
        invariant 0 <= i <= debris.Length
        invariant forall j :: 0 <= j < i ==> debris[j] == Advance(old(debris[j]), dt)
        invariant forall j :: i <= j < debris.Length ==> debris[j] == old(debris[j])
      {
        debris[i] := Advance(debris[i], dt);
        i := i + 1;
      }
    }

    /**
      The 500 ms classification tick: report the in-range count, the risk
      level and the near count, and show the critical alert and the proximity
      warning when their cool-downs allow.
     */
    method UpdateDebrisAndRisk(radarRange: real, ds: seq<real>, now: int)
      returns (inRange: nat, risk: Proximity.Risk, nearby: nat, criticalAlert: bool, warningAlert: bool)
      requires IsDistances(ds)
      modifies this`lastNotificationTime, this`lastYellowNotificationTime
      ensures var c := Proximity.Classify(ds, radarRange);
        && inRange == c.inRange && risk == c.risk && nearby == c.critical + c.close
        && criticalAlert == Alerts.CriticalAlertDue(old(CurrentStamps()), c.critical, now)
        && warningAlert == Alerts.WarningAlertDue(old(CurrentStamps()), c.close, now)
        && CurrentStamps() == Alerts.AfterProximity(old(CurrentStamps()), c.critical, c.close, now)
      ensures nearby <= inRange
    {
      var c := Proximity.Classify(ds, radarRange);
      Proximity.NearCountWithinRange(ds, radarRange);
      criticalAlert := c.critical > 0 && now - lastNotificationTime > Alerts.CriticalWindow;
      if criticalAlert {
        lastNotificationTime := now;
      }
      warningAlert := c.close > 0 && now - lastYellowNotificationTime > Alerts.WarningWindow;
      if warningAlert {
        lastYellowNotificationTime := now;
      }
      inRange, risk, nearby := c.inRange, c.risk, c.critical + c.close;
    }

    /**
      The per-frame collision check: for each particle closer than the
      collision range, a collision alert if the shared timestamp allows. The
      first such alert restamps it, so one frame shows at most one.
     */
    method CheckCollisions(radarRange: real, ds: seq<real>, now: int) returns (collisionAlerts: nat)
      requires IsDistances(ds)
      modifies this`lastNotificationTime
      ensures var colliding := exists i :: 0 <= i < |ds| && ds[i] < Proximity.CollisionRange(Proximity.RadarRadius(radarRange));
        && collisionAlerts == (if colliding && Alerts.CollisionAlertDue(old(CurrentStamps()), now) then 1 else 0)
        && CurrentStamps() == (if colliding then Alerts.AfterCollision(old(CurrentStamps()), now) else old(CurrentStamps()))
    {
      var collisionThreshold := Proximity.CollisionRange(Proximity.RadarRadius(radarRange));
      collisionAlerts := 0;
      var i := 0;
      while i < debris.Length
        invariant 0 <= i <= debris.Length
        invariant var seen := exists j :: 0 <= j < i && ds[j] < collisionThreshold;
          && collisionAlerts == (if seen && Alerts.CollisionAlertDue(old(CurrentStamps()), now) then 1 else 0)
          && CurrentStamps() == (if seen then Alerts.AfterCollision(old(CurrentStamps()), now) else old(CurrentStamps()))
      {
        if ds[i] < collisionThreshold {
          if now - lastNotificationTime > Alerts.CollisionWindow {
            collisionAlerts := collisionAlerts + 1;
            lastNotificationTime := now;
          }
        }
        i := i + 1;
      }
    }

    method MouseDown(clientX: real, clientY: real)
      modifies this`isDragging, this`lastMouseX, this`lastMouseY
      ensures isDragging && lastMouseX == clientX && lastMouseY == clientY
    {
      isDragging := true;
      lastMouseX, lastMouseY := clientX, clientY;
    }

    /** While dragging, the pan follows the mouse so that the grabbed scene point stays under it. */
    method MouseMove(clientX: real, clientY: real, width: real, height: real)
      requires Valid()
      modifies this`panX, this`panY, this`lastMouseX, this`lastMouseY
      ensures Valid()
      ensures !isDragging ==> panX == old(panX) && panY == old(panY) &&
                              lastMouseX == old(lastMouseX) && lastMouseY == old(lastMouseY)
      ensures isDragging ==> lastMouseX == clientX && lastMouseY == clientY
      ensures isDragging ==>
        panX == View.DragPan(old(panX), clientX - old(lastMouseX), zoomLevel) &&
        panY == View.DragPan(old(panY), clientY - old(lastMouseY), zoomLevel)
      ensures isDragging ==>
        View.ScenePoint(clientX, zoomLevel, panX, width) == View.ScenePoint(old(lastMouseX), zoomLevel, old(panX), width) &&
        View.ScenePoint(clientY, zoomLevel, panY, height) == View.ScenePoint(old(lastMouseY), zoomLevel, old(panY), height)
    {
      if isDragging {
        var dx := clientX - lastMouseX;
        var dy := clientY - lastMouseY;
        View.DragKeepsGrabbedPoint(lastMouseX, dx, zoomLevel, panX, width);
        View.DragKeepsGrabbedPoint(lastMouseY, dy, zoomLevel, panY, height);
        panX := View.DragPan(panX, dx, zoomLevel);
        panY := View.DragPan(panY, dy, zoomLevel);
        lastMouseX, lastMouseY := clientX, clientY;
      }
    }

    method MouseUp()
      modifies this`isDragging
      ensures !isDragging
    {
      isDragging := false;
    }

    /**
      One wheel event at canvas position (cursorX, cursorY): zoom one notch
      within [0.5, 3] and re-pan so that the scene point under the cursor stays
      under it. This is the corrected handler (see `View.WheelPanAsWritten`).
     */
    method Wheel(deltaY: real, cursorX: real, cursorY: real, width: real, height: real)
      requires Valid()
      modifies this`zoomLevel, this`panX, this`panY
      ensures Valid()
      ensures zoomLevel == View.ZoomAfterWheel(old(zoomLevel), deltaY)
      ensures View.ScenePoint(cursorX, zoomLevel, panX, width) == View.ScenePoint(cursorX, old(zoomLevel), old(panX), width)
      ensures View.ScenePoint(cursorY, zoomLevel, panY, height) == View.ScenePoint(cursorY, old(zoomLevel), old(panY), height)
    {
      var newZoom := View.ZoomAfterWheel(zoomLevel, deltaY);
      panX := View.CursorPan(cursorX, zoomLevel, panX, newZoom, width);
      panY := View.CursorPan(cursorY, zoomLevel, panY, newZoom, height);
      zoomLevel := newZoom;
    }

    /**
      The wheel handler as the component has it: it re-pans from the captured
      pan, not the current one, keeping cursor/zoom − pan fixed (which is not
      the point under the cursor, as the canvas scales about its centre). A
      wheel event that changes the zoom re-registers the handlers, so they
      capture the new pan.
     */
    method WheelAsWritten(deltaY: real, cursorX: real, cursorY: real)
      requires Valid()
      modifies this`zoomLevel, this`panX, this`panY, this`capturedPanX, this`capturedPanY
      ensures Valid()
      ensures zoomLevel == View.ZoomAfterWheel(old(zoomLevel), deltaY)
      ensures cursorX / zoomLevel - panX == cursorX / old(zoomLevel) - old(capturedPanX)
      ensures cursorY / zoomLevel - panY == cursorY / old(zoomLevel) - old(capturedPanY)
      ensures zoomLevel != old(zoomLevel) ==> capturedPanX == panX && capturedPanY == panY
      ensures zoomLevel == old(zoomLevel) ==>
        capturedPanX == old(capturedPanX) && capturedPanY == old(capturedPanY) &&
        panX == old(capturedPanX) && panY == old(capturedPanY)
    {
      var newZoom := View.ZoomAfterWheel(zoomLevel, deltaY);
      View.WheelAsWrittenKeepsCursorOverZoom(cursorX, zoomLevel, capturedPanX, newZoom);
      View.WheelAsWrittenKeepsCursorOverZoom(cursorY, zoomLevel, capturedPanY, newZoom);
      panX := View.WheelPanAsWritten(cursorX, zoomLevel, capturedPanX, newZoom);
      panY := View.WheelPanAsWritten(cursorY, zoomLevel, capturedPanY, newZoom);
      if newZoom != zoomLevel {
        capturedPanX, capturedPanY := panX, panY;
      }
      zoomLevel := newZoom;
    }

    /**
      At the largest zoom, a drag followed by a scroll up loses the drag: the
      scroll leaves the zoom at 3, and the pan goes back to the captured pan
      instead of staying where the drag put it.
     */
    method DragThenWheelAsWritten(fromX: real, toX: real, mouseY: real, deltaY: real, width: real, height: real)
      returns (draggedPanX: real)
      requires Valid() && zoomLevel == View.MaxZoom && deltaY < 0.0 && toX != fromX
      modifies this`isDragging, this`lastMouseX, this`lastMouseY, this`zoomLevel,
               this`panX, this`panY, this`capturedPanX, this`capturedPanY
      ensures draggedPanX == old(panX) + (toX - fromX) / View.MaxZoom
      ensures zoomLevel == View.MaxZoom && panX == old(capturedPanX)
      ensures old(panX) == old(capturedPanX) ==> panX != draggedPanX
    {
      MouseDown(fromX, mouseY);
      MouseMove(toX, mouseY, width, height);
      draggedPanX := panX;
      WheelAsWritten(deltaY, toX, mouseY);
    }
  }
}
