# Space debris simulator: per-tick rules in Dafny

This project models the simulation core of a space-debris avoidance
simulator. Two components hold that core.

The **simulation canvas** keeps a spacecraft and a list of debris particles in
mutable refs and changes them every animation frame. Each frame it:

- applies the manual thrust of the four direction buttons;
- steers toward or away from the nearest debris within the radar radius when
  the AI is in "follow" or "avoid" mode;
- applies drag and integrates positions;
- checks for collisions.

Every 500 ms the canvas also classifies the debris into proximity bands and
derives a risk level. It rate-limits its critical-proximity, proximity-warning
and collision alerts with two timestamps, one of which two alerts share. It
pans when the mouse drags and zooms toward the cursor on the wheel.

The **simulation page** holds the telemetry, the dashboard data and the
statistics. It updates them from the canvas's reports, from the control panel
and from two timers.

Layout:

- `options.dfy`: `Option`.
- `proximity.dfy`: the classifier, its bands and risk levels, and the
  nearest-in-range target search. This is a loop, so it is a method.
- `alerts.dfy`: the two timestamps as a state machine over events, with a
  trace lemma about the spacing of the alerts shown.
- `kinematics.dfy`: thrust, steering, drag, Euler steps and the frame time
  step, as functions on values.
- `view.dfy`: zoom clamping, the screen/scene mapping, drag, and the wheel
  handler's pan, both as written and corrected.
- `canvas.dfy`: class `SimulationCanvas`. Its fields are the spacecraft, the
  debris array, the two timestamps, the view state and the pan the mouse
  handlers were last registered with. Its methods change them
  in place and are proved against the functions above.
- `page.dfy`: class `SimulationPage` with its handlers and timers, and the pure
  updaters they use.

Every distance that the canvas computes with `Math.sqrt` is an input, one per
particle in list order. `IsDistances` states that each input is the
non-negative length of the offset between spacecraft and particle. For such an
offset (dx, dy) of length d, the cosine and sine of `Math.atan2(dy, dx)` are
exactly dx/d and dy/d, so steering is stated without trigonometry. The
following are parameters:

- the clock (`Date.now()`, the frame timestamp);
- the random nudge of the spacecraft;
- the random telemetry readings.

## Model

| member | source | states |
|---|---|---|
| Proximity.CollisionRange | src/components/SimulationCanvas.tsx:488 | the collision distance is 10% of the radar radius up to a radius of 150, never more than 15, and never negative or beyond the radius for a non-negative radius |
| Proximity.ThresholdsOrdered | src/components/SimulationCanvas.tsx:186-201 | for a radar radius R ≥ 0: 0 ≤ collision range min(15, 0.1R) ≤ critical range min(50, 0.3R) ≤ warning range min(100, 0.6R) ≤ R |
| Proximity.Count | src/components/SimulationCanvas.tsx:196-205 | the length of a band filter over the distances is at most the number of particles |
| Proximity.RiskLevel | src/components/SimulationCanvas.tsx:207-215 | High iff critical > 0; Medium iff no critical and (close > 0 or medium > 1); Low iff no critical, no close and at most one medium |
| Proximity.Classify | src/components/SimulationCanvas.tsx:184-215 | the in-range count never exceeds the number of particles |
| Proximity.BandsDisjoint | src/components/SimulationCanvas.tsx:203-205 | a distance lies in at most one of the critical, close and medium bands |
| Proximity.BandsCoverRadar | src/components/SimulationCanvas.tsx:196-205 | a non-negative distance is within the radar radius iff it is in one of the three bands |
| Proximity.BandCountsSum | src/components/SimulationCanvas.tsx:196-205 | for non-negative distances, critical + close + medium counts equal the in-range count |
| Proximity.CountPositive | src/components/SimulationCanvas.tsx:203-205 | a band count is positive iff some particle's distance is in that band |
| Proximity.CountAboveOne | src/components/SimulationCanvas.tsx:205-214 | a band count exceeds 1 iff two distinct particles are in that band |
| Proximity.RiskHighIffCritical | src/components/SimulationCanvas.tsx:200-210 | the risk is High iff some particle is within the critical range |
| Proximity.RiskMediumIff | src/components/SimulationCanvas.tsx:201-214 | the risk is Medium iff nothing is critical and something is close or two particles are in the medium band (one medium-band particle alone gives Low) |
| Proximity.NearCountWithinRange | src/components/SimulationCanvas.tsx:261-262 | the near count reported (critical + close) is at most the in-range count reported, and the three bands sum to it |
| Proximity.RadarFifteenScenario | src/components/SimulationCanvas.tsx:186-215 | with the default radar range 15: radius 150, critical range 45, warning range 90; distances 40/70/120/200 fall in critical/close/medium/none; a single medium particle gives Low |
| Proximity.NearestIsUnique | src/components/SimulationCanvas.tsx:414-427 | at most one particle is the nearest-in-range target (first among equals) |
| Proximity.NearestInRange | src/components/SimulationCanvas.tsx:414-427 | no target iff every particle is beyond the radar radius; otherwise the target is within the radius, no in-range particle is nearer, and every earlier in-range particle is strictly farther (the strict `<` keeps the first of equals) |
| Alerts.AfterProximity | src/components/SimulationCanvas.tsx:218-257 | the timestamps never decrease, and a tick with nothing critical or close leaves both unchanged |
| Alerts.AfterCollision | src/components/SimulationCanvas.tsx:506-519 | a contact never touches the warning timestamp and never moves the shared timestamp backwards |
| Alerts.Step | src/components/SimulationCanvas.tsx:218-257 | every alert a tick or contact shows carries the event's time; a contact shows at most one collision alert; a tick shows at most two alerts and never a collision alert; a step that shows nothing leaves both timestamps as they were |
| Alerts.StepSpaced | src/components/SimulationCanvas.tsx:218-257 | one classification tick or contact keeps the alerts shown spaced and covered by the timestamps |
| Alerts.RunSpaced | src/components/SimulationCanvas.tsx:218-257 | over any sequence of ticks and contacts: each critical alert comes more than 5000 ms after every earlier critical or collision alert; each collision alert more than 1000 ms after every earlier one of either kind; each warning more than 8000 ms after every earlier warning |
| Alerts.RepeatedContactAlertsOnce | src/components/SimulationCanvas.tsx:504-520 | two contacts within 1000 ms of each other show a single collision alert |
| Alerts.CollisionSilencesCriticalAlert | src/components/SimulationCanvas.tsx:219-236 | because the timestamp is shared, a collision alert at 10000 ms suppresses a critical alert due at 13000 ms |
| Kinematics.Thrust | src/components/SimulationCanvas.tsx:403-409 | with t = 0.01·dt, up alone adds t to vy, down alone subtracts it, left and right likewise on vx, and opposite flags together cancel |
| Kinematics.Heading | src/components/SimulationCanvas.tsx:430-446 | the direction of atan2 has unit length, and for d > 0 it scaled by d is the offset itself |
| Kinematics.AvoidStrength | src/components/SimulationCanvas.tsx:438 | 0.015·dt/(d/100 + 0.1) is positive for a positive time step |
| Kinematics.Steer | src/components/SimulationCanvas.tsx:429-459 | the branch is decided by the mode and the distance: "avoid" pushes along the offset from the debris with the avoid strength; "follow" pulls along the opposite direction with 0.01·dt, then damps by 0.98 under 50 units; any other mode leaves the velocity unchanged |
| Kinematics.AvoidStrongerWhenCloser | src/components/SimulationCanvas.tsx:437-438 | the avoidance push strictly decreases with distance |
| Kinematics.AvoidPushesAway | src/components/SimulationCanvas.tsx:430-441 | the avoid push points from the debris to the spacecraft (positive dot product with the offset) and its length is the avoid strength |
| Kinematics.AvoidAlongAxisScenario | src/components/SimulationCanvas.tsx:430-441 | debris 10 units to the +x side pushes the craft in −x, harder than debris 100 units away |
| Kinematics.FollowPullsToward | src/components/SimulationCanvas.tsx:442-458 | the follow pull points toward the debris with length 0.01·dt, and inside 50 units both components are then scaled by 0.98 |
| Kinematics.NudgeAllowed | src/components/SimulationCanvas.tsx:471-472 | the nudge is allowed only with the AI off and no direction held, so only on frames whose thrust changes nothing |
| Kinematics.Coast | src/components/SimulationCanvas.tsx:463-476 | without a nudge (the AI on, a direction held, or the 5% draw not taken) drag scales the squared speed by exactly 0.9801 |
| Kinematics.CoastingDecays | src/components/SimulationCanvas.tsx:466-468 | over any number of drag-only ticks (AI off, no direction held, no nudge drawn), the squared speed never grows |
| Kinematics.CoastingScales | src/components/SimulationCanvas.tsx:466-468 | over n drag-only ticks (AI off, no direction held, no nudge drawn) the squared speed is exactly 0.9801^n times the starting one |
| Kinematics.Advance | src/components/SimulationCanvas.tsx:579-585 | a particle's step leaves its velocity and size unchanged |
| Kinematics.AdvanceAdditive | src/components/SimulationCanvas.tsx:579-585 | two steps of a and b equal one step of a + b |
| Kinematics.FrameDelta | src/components/SimulationCanvas.tsx:279-284 | the first frame (clock still 0) has dt 0, the new clock is the frame time, and dt is non-negative for a non-negative speed and non-decreasing frame times |
| Kinematics.ElapsedTelescopes | src/components/SimulationCanvas.tsx:279-284 | over frames at non-zero times the time steps add up to (last − first)·simSpeed·0.06 |
| View.ClampZoom | src/components/SimulationCanvas.tsx:140 | the zoom is clamped into [0.5, 3], unchanged inside, the nearer bound outside |
| View.ZoomAfterWheel | src/components/SimulationCanvas.tsx:139-140 | after a wheel event the zoom is in [0.5, 3]; scrolling up adds 0.1 up to 3, down subtracts 0.1 down to 0.5, deltaY 0 keeps it |
| View.ScreenSceneRoundTrip | src/components/SimulationCanvas.tsx:293-295 | the canvas transform and its inverse undo each other |
| View.DragPan | src/components/SimulationCanvas.tsx:123-124 | the pan moves by the mouse offset divided by the zoom: (new − old pan)·zoom is the offset |
| View.DragKeepsGrabbedPoint | src/components/SimulationCanvas.tsx:117-128 | adding d/zoom to the pan keeps the grabbed scene point under the mouse |
| View.WheelPanAsWritten | src/components/SimulationCanvas.tsx:148-153 | the handler's pan arithmetic on the captured pan; with the cursor at the canvas corner it returns the captured pan whatever the zooms, i.e. it anchors the corner, not the centre the canvas scales about |
| View.WheelAsWrittenKeepsCursorOverZoom | src/components/SimulationCanvas.tsx:148-153 | what the handler's arithmetic keeps fixed is cursor/zoom − pan |
| View.WheelAsWrittenMovesCursorPoint | src/components/SimulationCanvas.tsx:148-153 | as written, the scene point under the cursor moves by (extent/2)·(1/zoom − 1/newZoom) |
| View.WheelAsWrittenCentreScenario | src/components/SimulationCanvas.tsx:148-153 | zooming from 1 to 1.1 at the centre of an 800-unit canvas moves the scene point under the cursor |
| View.WheelAsWrittenAtZoomLimit | src/components/SimulationCanvas.tsx:139-153 | when the zoom does not change, the handler's arithmetic returns exactly the pan it was given; at zoom 3 a scroll up leaves the zoom at 3 |
| View.CursorPan | src/components/SimulationCanvas.tsx:136-161 | the corrected pan keeps the scene point under the cursor fixed, and is the current pan when the zoom does not change |
| Canvas.SimulationCanvas.constructor | src/components/SimulationCanvas.tsx:31-97 | the craft at rest in the middle, the debris as generated, both timestamps 0, zoom 1, no pan, not dragging, the handlers holding pan (0, 0) |
| Canvas.SimulationCanvas.ApplyNavigationAndAI | src/components/SimulationCanvas.tsx:401-461 | thrust first; no target when the AI is off or nothing is in range, and then the velocity is the thrusted one; otherwise the target is the nearest in range and the velocity is the thrusted one steered relative to it |
| Canvas.SimulationCanvas.SteerAI | src/components/SimulationCanvas.tsx:412-460 | no target iff nothing is within the radar radius, and then the velocity is unchanged; otherwise the target is the nearest in range and the velocity becomes `Steer` of the old one relative to it |
| Canvas.SimulationCanvas.ApplyThrust | src/components/SimulationCanvas.tsx:403-409 | the velocity becomes `Thrust` of the old velocity |
| Canvas.SimulationCanvas.SteerToward | src/components/SimulationCanvas.tsx:429-459 | the velocity becomes `Steer` of the old one for the chosen offset and distance |
| Canvas.SimulationCanvas.UpdateSpacecraft | src/components/SimulationCanvas.tsx:463-482 | the velocity becomes `Coast` of the old one, then the position moves by the new velocity times dt |
| Canvas.SimulationCanvas.UpdateDebris | src/components/SimulationCanvas.tsx:579-585 | every particle becomes `Advance` of itself; the array keeps its length |
| Canvas.SimulationCanvas.UpdateDebrisAndRisk | src/components/SimulationCanvas.tsx:184-263 | the reports are the classification of the distances (near count ≤ in-range count); each alert is shown exactly when due; the timestamps become `AfterProximity` |
| Canvas.SimulationCanvas.CheckCollisions | src/components/SimulationCanvas.tsx:485-523 | one collision alert if some particle is closer than the collision range and the shared timestamp allows it, otherwise none; the timestamp becomes `AfterCollision` exactly when something collides |
| Canvas.SimulationCanvas.MouseDown | src/components/SimulationCanvas.tsx:111-115 | dragging starts at the mouse position |
| Canvas.SimulationCanvas.MouseMove | src/components/SimulationCanvas.tsx:117-129 | while dragging, the pan moves by the mouse offset over the zoom (from the current pan) and the grabbed scene point follows the mouse; otherwise nothing changes |
| Canvas.SimulationCanvas.MouseUp | src/components/SimulationCanvas.tsx:131-134 | dragging stops |
| Canvas.SimulationCanvas.Wheel | src/components/SimulationCanvas.tsx:136-161 | corrected handler: the zoom becomes `ZoomAfterWheel` and stays in [0.5, 3]; the scene point under the cursor stays there on both axes |
| Canvas.SimulationCanvas.WheelAsWritten | src/components/SimulationCanvas.tsx:136-178 | handler as written: the zoom becomes `ZoomAfterWheel`; cursor/zoom − pan after equals cursor/zoom − captured pan before; the handlers capture the new pan when the zoom changed, and when it did not the pan is reset to the captured one |
| Canvas.SimulationCanvas.DragThenWheelAsWritten | src/components/SimulationCanvas.tsx:117-178 | at zoom 3, mouse down, a drag by a non-zero offset, then a scroll up: the zoom stays 3 and the pan ends at the captured pan, so starting from a pan equal to the captured one the drag is lost |
| Page.WithDetection | src/pages/Simulation.tsx:101-111 | the new history ends with the count; under 20 entries it is the old one plus the count; otherwise it has the old length and drops the oldest entry; a history of at most 20 stays at most 20 |
| Page.WindowSlides | src/pages/Simulation.tsx:101-111 | recording a count in the window of the last 20 entries of a list gives the window of the last 20 entries of the list extended by that count |
| Page.HistoryIsWindow | src/pages/Simulation.tsx:58-111 | after any sequence of reports the history is the last (at most) 20 of the initial 0 followed by every count reported |
| Page.Drained | src/pages/Simulation.tsx:72-78 | the fuel after a drain tick is never negative, never more than before, and either 0 or fuel − 0.01·speed |
| Page.DrainedTicksTotal | src/pages/Simulation.tsx:67-88 | n drain ticks leave max(0, fuel − n·0.01·speed) |
| Page.AfterThrustFuel | src/pages/Simulation.tsx:240-247 | a press costs 0.1 fuel, stopping at 0 |
| Page.SetFlag | src/pages/Simulation.tsx:234-255 | setting a direction's flag changes that flag only |
| Page.PressReleaseRestores | src/pages/Simulation.tsx:234-255 | pressing and releasing a direction that was not held restores the controls |
| Page.ActiveCount | src/pages/Simulation.tsx:178 | between 0 and 4 held directions, and 0 exactly when none is held |
| Page.FuelEfficiency | src/pages/Simulation.tsx:175-179 | the efficiency is 100 − 5 per held direction, so it stays in [80, 100] and the floor of 60 never binds |
| Page.PressLowersEfficiency | src/pages/Simulation.tsx:175-179 | holding one more direction costs exactly 5 points |
| Page.SystemIntegrity | src/pages/Simulation.tsx:169-173 | 93 iff the collision risk is High, 98 otherwise |
| Page.AiStatus | src/pages/Simulation.tsx:267-276 | "Inactive" iff off, "Avoidance Active" iff avoid, "Tracking Active" for every other mode |
| Page.RadiationLevel | src/pages/Simulation.tsx:195-198 | "Elevated" iff the solar activity is High, else "Normal" |
| Page.AvoidedAfter | src/pages/Simulation.tsx:138-144 | the counter grows by exactly 1 iff the AI is on and the risk is Medium or High, and is otherwise unchanged |
| Page.SimulationPage.constructor | src/pages/Simulation.tsx:14-64 | the initial telemetry, speed 1, running, radar range 15, AI off, no warning, no direction held, initial dashboard data with history [0], statistics (0, 0, 100) |
| Page.SimulationPage.FuelTick | src/pages/Simulation.tsx:67-88 | while running, the fuel is drained and the distance grows by 0.05·speed·velocity, and nothing else changes; while paused nothing changes |
| Page.SimulationPage.TelemetryTick | src/pages/Simulation.tsx:153-231 | while running: the readings are stored, the integrity follows the collision risk and the efficiency follows the held directions, and nothing else changes; fuel, history and bounds are kept |
| Page.SimulationPage.HandleDebrisCountChange | src/pages/Simulation.tsx:91-112 | the count goes to the telemetry and the dashboard, and the history becomes `WithDetection` of the old history, keeping 1 to 20 entries |
| Page.SimulationPage.HandleCollisionRiskChange | src/pages/Simulation.tsx:115-145 | the risk and near count are recorded, the warning shows iff the risk is High, and the counter becomes `AvoidedAfter` |
| Page.SimulationPage.DismissWarning | src/pages/Simulation.tsx:148-150 | the warning is hidden |
| Page.SimulationPage.HandleNavigationPress | src/pages/Simulation.tsx:234-248 | exactly the pressed flag becomes true and the fuel becomes `AfterThrustFuel` of the old fuel |
| Page.SimulationPage.HandleNavigationRelease | src/pages/Simulation.tsx:250-255 | exactly the released flag becomes false |
| Page.SimulationPage.HandleSpeedChange | src/pages/Simulation.tsx:257-260 | the speed is the one chosen |
| Page.SimulationPage.ToggleSimulation | src/pages/Simulation.tsx:262-265 | running flips |
| Page.SimulationPage.ChangeAiMode | src/pages/Simulation.tsx:267-279 | the mode is stored and the status text becomes `AiStatus(mode)`; nothing else in the telemetry changes |
| Page.SimulationPage.HandleRadarRangeChange | src/pages/Simulation.tsx:282-284 | the radar range is the slider value |
| Page.SimulationPage.ResetSimulation | src/pages/Simulation.tsx:287-305 | restores the initial telemetry, speed 1, running, AI off, no warning, no direction held and statistics (0, 0, 100). Radar range and dashboard data are outside its frame. The new state does not depend on the old one, so resetting is idempotent |

## Left out

- Drawing: the grid, the spacecraft, the radar rings, the debris colours, the
  distance labels, the zoom text and the red collision flash. These are output
  only.
- Notifications: the toasts' text and styling and the console log. Only
  whether each alert is shown is modelled.
- Randomness. The debris the canvas generates on mount is an input to the
  constructor. The spacecraft's nudge is an `Option` input: `None` means the
  5% draw was not taken. The nudge components are not bounded to [−0.005,
  0.005). The 3-second timer's readings are an input record, and their ranges
  are not stated. The solar-activity toast's extra draw is left out.
- Square roots, `Math.atan2`, `Math.cos` and `Math.sin`: distances are inputs,
  and the heading is expressed exactly as offset/distance. Floating-point
  rounding is not modelled; all arithmetic is on reals.
- Scheduling. The following are not modelled: the 500 ms, 1 s and 3000/speed
  ms timers, `requestAnimationFrame`, the effects' dependency lists and
  restarts, and the `isRunning` gate on the canvas's timers. The one
  exception is the mouse handlers' re-registration when the zoom changes,
  which `capturedPanX` and `capturedPanY` stand for.
  `FrameDelta` models one frame's time step. The order of the steps inside
  one `animate` frame is not composed into one method, because each step
  needs the distances of the state left by the previous one.
- Canvas.SimulationCanvas.CheckCollisions: the canvas reads `Date.now()` once
  per colliding particle. The model takes one `now` for the whole frame, which
  is the same within a millisecond.
- Canvas resizing, and the canvas-relative cursor position (the bounding
  rectangle's offset). Cursor positions are given relative to the canvas.
- `Canvas.SimulationCanvas.Wheel`: the pan is the corrected `View.CursorPan`
  of the current pan, not the component's arithmetic on the captured pan;
  the handler as written is `Canvas.SimulationCanvas.WheelAsWritten` (see
  Findings).
- `onMouseLeave` and touch events on the navigation buttons are the same
  release and press handlers, so they are not repeated.
- The debris dashboard, the router, the static pages, the header, the
  Electron shell and the build configuration are not part of this model.
- Reset and the spacecraft: the page's reset handler does not recentre the
  spacecraft or regenerate the debris. Nothing in it reaches the canvas's
  refs, so the model follows the code.
- Page.SimulationPage.HandleSpeedChange requires a positive speed, because the
  speed buttons pass only 1, 2 and 4. The class invariant uses this to keep
  fuel ≤ 100.

## Findings

| source | as written | input that shows it | evidently intended | confidence | as-written member | corrected member |
|---|---|---|---|---|---|---|
| src/components/SimulationCanvas.tsx:136-178 | the wheel handler reads `panOffset` from the closure of the effect, which re-subscribes only when `zoomLevel` changes, so it computes from the pan of the render in which the zoom last changed | zoom at 3 with captured pan 0, then drag the pan to 100, then scroll up: the zoom stays at 3 and the pan is reset to 0 | the current pan, so a wheel event that leaves the zoom unchanged leaves the pan alone | not executed | Canvas.SimulationCanvas.DragThenWheelAsWritten | View.CursorPan |
| src/components/SimulationCanvas.tsx:146-153 | the handler keeps cursor/zoom − pan fixed, but the canvas scales about its centre (`translate(W/2) scale translate(−W/2 + pan)`), so the scene point under the cursor moves by (W/2)(1/zoom − 1/newZoom) | 800-unit canvas, zoom 1 → 1.1, cursor at 400 (the centre): the point under the cursor moves by about 36 units | the scene point under the cursor stays under it | not executed | View.WheelAsWrittenMovesCursorPoint | View.CursorPan |
