/**
  The per-frame motion rules of the simulation canvas, as values: manual
  thrust, the avoid/follow steering of the AI modes, drag with the optional
  random nudge, explicit Euler integration of the spacecraft and of each
  debris particle, and the frame time step.

  Where the canvas uses `Math.atan2`, `Math.cos` and `Math.sin` on an offset
  (dx, dy) whose length d the host computed with `Math.sqrt`, the cosine and
  sine are exactly dx/d and dy/d; at d == 0, atan2(0, 0) == 0 gives (1, 0).
 */
module Kinematics {

  import opened Options

  datatype Velocity = Velocity(vx: real, vy: real)

  /** The four directional flags the page passes to the canvas. */
  datatype NavigationControls = NavigationControls(up: bool, down: bool, left: bool, right: bool)

  datatype Direction = Up | Down | Left | Right

  /** One debris particle; the canvas mutates x and y only. */
  datatype Particle = Particle(x: real, y: real, vx: real, vy: real, size: real)

  const NoControls := NavigationControls(false, false, false, false)

  function Speed2(v: Velocity): real
  {
    v.vx * v.vx + v.vy * v.vy
  }

  function ThrustPower(dt: real): real
  {
    0.01 * dt
  }

  /**
    Manual thrust. "Up" adds to vy and "down" subtracts from it (the canvas's
    y axis points down, so "up" pushes the craft down the screen).
   */
  function Thrust(v: Velocity, c: NavigationControls, dt: real): (r: Velocity)
    ensures c.up && !c.down ==> r.vy == v.vy + ThrustPower(dt)
    ensures c.down && !c.up ==> r.vy == v.vy - ThrustPower(dt)
    ensures c.up == c.down ==> r.vy == v.vy
    ensures c.right && !c.left ==> r.vx == v.vx + ThrustPower(dt)
    ensures c.left && !c.right ==> r.vx == v.vx - ThrustPower(dt)
    ensures c.left == c.right ==> r.vx == v.vx
  {
    var t := ThrustPower(dt);
    var vy := if c.up then v.vy + t else v.vy;
    var vy := if c.down then vy - t else vy;
    var vx := if c.left then v.vx - t else v.vx;
    var vx := if c.right then vx + t else vx;
    Velocity(vx, vy)
  }

  /** (cos θ, sin θ) for θ = atan2(dy, dx), given d = sqrt(dx² + dy²). */
  function Heading(dx: real, dy: real, d: real): (u: (real, real))
    requires 0.0 <= d && d * d == dx * dx + dy * dy
    ensures u.0 * u.0 + u.1 * u.1 == 1.0
    ensures d > 0.0 ==> u.0 * d == dx && u.1 * d == dy
  {
    if d == 0.0 then
      (1.0, 0.0)
    else
      UnitOffset(dx, dy, d);
      (dx / d, dy / d)
  }

  lemma UnitOffset(dx: real, dy: real, d: real)
    requires 0.0 < d && d * d == dx * dx + dy * dy
    ensures (dx / d) * (dx / d) + (dy / d) * (dy / d) == 1.0
  {
    var a, b := dx / d, dy / d;
    assert a * d == dx && b * d == dy;
    calc {
      (a * a + b * b) * (d * d);
      (a * d) * (a * d) + (b * d) * (b * d);
      dx * dx + dy * dy;
      d * d;
    }
    CancelSquare(a * a + b * b, d);
  }

  lemma CancelSquare(n: real, d: real)
    requires d > 0.0
    requires n * (d * d) == d * d
    ensures n == 1.0
  {
    assert d * d > 0.0;
  }

  lemma SquarePositive(a: real)
    ensures a * a >= 0.0
    ensures a != 0.0 ==> a * a > 0.0
  {
    if a < 0.0 {
      assert a * a == (-a) * (-a);
    }
  }

  /** 0.015·dt / (d/100 + 0.1): the nearer the debris, the harder the avoidance push. */
  function AvoidStrength(dt: real, d: real): (s: real)
    requires 0.0 <= d
    ensures dt > 0.0 ==> s > 0.0
  {
    0.015 * dt * (1.0 / (d / 100.0 + 0.1))
  }

  lemma AvoidStrongerWhenCloser(dt: real, near: real, far: real)
    requires dt > 0.0 && 0.0 <= near < far
    ensures AvoidStrength(dt, near) > AvoidStrength(dt, far)
  {
    var a, b := near / 100.0 + 0.1, far / 100.0 + 0.1;
    ReciprocalDecreasing(a, b);
  }

  lemma ReciprocalDecreasing(a: real, b: real)
    requires 0.0 < a < b
    ensures 1.0 / a > 1.0 / b
  {
    var x, y := 1.0 / a, 1.0 / b;
    assert x > 0.0 && y > 0.0;
    assert x - y == (b - a) * x * y by {
      assert x * a == 1.0 && y * b == 1.0;
      calc {
        (b - a) * x * y;
        (y * b) * x - (x * a) * y;
        x - y;
      }
    }
    assert (b - a) * x > 0.0;
    assert (b - a) * x * y > 0.0;
  }

  function FollowStrength(dt: real): real
  {
    0.01 * dt
  }

  /** The follow mode damps both components by 0.98 within 50 units of its target. */
  const FollowDampingRange: real := 50.0

  /**
    The AI steering for the target at offset (offX, offY) = spacecraft - debris
    and distance d. Any mode other than "avoid" and "follow" steers nothing.
   */
  function Steer(v: Velocity, aiMode: string, offX: real, offY: real, d: real, dt: real): (r: Velocity)
    requires 0.0 <= d && d * d == offX * offX + offY * offY
    ensures aiMode != "avoid" && aiMode != "follow" ==> r == v
    ensures aiMode == "avoid" ==> r == Push(v, Heading(offX, offY, d), AvoidStrength(dt, d))
    ensures aiMode == "follow" && d < FollowDampingRange ==>
      r == Damped(Push(v, Heading(-offX, -offY, d), FollowStrength(dt)))
    ensures aiMode == "follow" && d >= FollowDampingRange ==>
      r == Push(v, Heading(-offX, -offY, d), FollowStrength(dt))
  {
    if aiMode == "avoid" then
      Push(v, Heading(offX, offY, d), AvoidStrength(dt, d))
    else if aiMode == "follow" then
      var w := Push(v, Heading(-offX, -offY, d), FollowStrength(dt));
      if d < FollowDampingRange then Damped(w) else w
    else v
  }

  /** v plus the push of strength s along the unit direction u. */
  function Push(v: Velocity, u: (real, real), s: real): Velocity
  {
    Velocity(v.vx + u.0 * s, v.vy + u.1 * s)
  }

  /** The follow mode's damping near its target. */
  function Damped(w: Velocity): Velocity
  {
    Velocity(w.vx * 0.98, w.vy * 0.98)
  }

  /**
    Avoid mode adds a push of length AvoidStrength(dt, d) pointing from the
    debris to the spacecraft.
   */
  lemma AvoidPushesAway(v: Velocity, offX: real, offY: real, d: real, dt: real)
    requires 0.0 < d && d * d == offX * offX + offY * offY && dt > 0.0
    ensures var r := Steer(v, "avoid", offX, offY, d, dt);
      var s := AvoidStrength(dt, d);
      && (r.vx - v.vx) * offX + (r.vy - v.vy) * offY == s * d > 0.0
      && Speed2(Velocity(r.vx - v.vx, r.vy - v.vy)) == s * s
  {
    var u := Heading(offX, offY, d);
    var s := AvoidStrength(dt, d);
    var r := Steer(v, "avoid", offX, offY, d, dt);
    assert r.vx - v.vx == u.0 * s && r.vy - v.vy == u.1 * s;
    calc {
      (u.0 * s) * offX + (u.1 * s) * offY;
      { assert offX == u.0 * d && offY == u.1 * d; }
      (u.0 * s) * (u.0 * d) + (u.1 * s) * (u.1 * d);
      s * d * (u.0 * u.0 + u.1 * u.1);
    }
    calc {
      Speed2(Velocity(u.0 * s, u.1 * s));
      s * s * (u.0 * u.0 + u.1 * u.1);
    }
  }

  /** The debris-at-+x case: 10 units away, the push is in −x and stronger than 100 units away. */
  lemma AvoidAlongAxisScenario(v: Velocity, dt: real)
    requires dt > 0.0
    ensures Steer(v, "avoid", -10.0, 0.0, 10.0, dt).vx - v.vx < 0.0
    ensures Steer(v, "avoid", -10.0, 0.0, 10.0, dt).vy == v.vy
    ensures Steer(v, "avoid", -10.0, 0.0, 10.0, dt).vx < Steer(v, "avoid", -100.0, 0.0, 100.0, dt).vx
  {
    AvoidStrongerWhenCloser(dt, 10.0, 100.0);
  }

  /**
    Follow mode adds FollowStrength(dt) toward the debris, then scales both
    components by 0.98 inside the damping range.
   */
  lemma FollowPullsToward(v: Velocity, offX: real, offY: real, d: real, dt: real)
    requires 0.0 < d && d * d == offX * offX + offY * offY && dt > 0.0
    ensures var u := Heading(-offX, -offY, d);
      var pull := Velocity(v.vx + u.0 * FollowStrength(dt), v.vy + u.1 * FollowStrength(dt));
      && (pull.vx - v.vx) * offX + (pull.vy - v.vy) * offY == -(FollowStrength(dt) * d)
      && Steer(v, "follow", offX, offY, d, dt)
         == (if d < FollowDampingRange then Velocity(0.98 * pull.vx, 0.98 * pull.vy) else pull)
  {
    var u := Heading(-offX, -offY, d);
    var f := FollowStrength(dt);
    calc {
      (u.0 * f) * offX + (u.1 * f) * offY;
      { assert -offX == u.0 * d && -offY == u.1 * d; }
      -((u.0 * f) * (u.0 * d) + (u.1 * f) * (u.1 * d));
      -(f * d * (u.0 * u.0 + u.1 * u.1));
    }
  }

  /** The random nudge is only allowed with the AI off and no direction held. */
  predicate NudgeAllowed(aiMode: string, c: NavigationControls)
    ensures NudgeAllowed(aiMode, c) ==> forall v, dt :: Thrust(v, c, dt) == v
  {
    aiMode == "off" && !c.up && !c.down && !c.left && !c.right
  }

  /**
    Drag (×0.99 on both components), then the random nudge if it is allowed
    and the host's coin came up (`nudge` is Some); the canvas draws each
    component of the nudge from [−0.005, 0.005).
   */
  function Coast(v: Velocity, aiMode: string, c: NavigationControls, nudge: Option<Velocity>): (r: Velocity)
    ensures !NudgeAllowed(aiMode, c) || nudge.None? ==> Speed2(r) == 0.9801 * Speed2(v)
  {
    var w := Velocity(v.vx * 0.99, v.vy * 0.99);
    if NudgeAllowed(aiMode, c) && nudge.Some? then
      Velocity(w.vx + nudge.value.vx, w.vy + nudge.value.vy)
    else w
  }

  /** Over drag-only ticks (no thrust, no steering, no nudge drawn) the speed never grows. */
  lemma {:induction false} CoastingDecays(v: Velocity, n: nat)
    ensures Speed2(CoastTicks(v, n)) <= Speed2(v)
  {
    if n > 0 {
      CoastingDecays(v, n - 1);
      var w := CoastTicks(v, n - 1);
      assert Speed2(Coast(w, "off", NoControls, None)) == 0.9801 * Speed2(w);
      SquarePositive(w.vx);
      SquarePositive(w.vy);
    }
  }

  /** b to the n-th power. */
  function Pow(b: real, n: nat): real
  {
    if n == 0 then 1.0 else b * Pow(b, n - 1)
  }

  /** Over n drag-only ticks the squared speed is scaled by exactly 0.9801^n. */
  lemma {:induction false} CoastingScales(v: Velocity, n: nat)
    ensures Speed2(CoastTicks(v, n)) == Pow(0.9801, n) * Speed2(v)
  {
    if n > 0 {
      CoastingScales(v, n - 1);
      var w := CoastTicks(v, n - 1);
      assert Speed2(Coast(w, "off", NoControls, None)) == 0.9801 * Speed2(w);
      assert 0.9801 * (Pow(0.9801, n - 1) * Speed2(v)) == Pow(0.9801, n) * Speed2(v);
    }
  }

  /**
    n drag-only ticks: the AI off, no direction held (so no thrust and no
    steering) and the nudge's 5% draw never taken.
   */
  function CoastTicks(v: Velocity, n: nat): Velocity
  {
    if n == 0 then v else Coast(CoastTicks(v, n - 1), "off", NoControls, None)
  }

  /** One debris particle after dt: it moves by its own velocity and nothing else changes. */
  function Advance(p: Particle, dt: real): (r: Particle)
    ensures r.vx == p.vx && r.vy == p.vy && r.size == p.size
  {
    p.(x := p.x + p.vx * dt, y := p.y + p.vy * dt)
  }

  /** Debris never decelerate: two steps equal one step of the summed time. */
  lemma AdvanceAdditive(p: Particle, a: real, b: real)
    ensures Advance(Advance(p, a), b) == Advance(p, a + b)
  {
    var two, one := Advance(Advance(p, a), b), Advance(p, a + b);
    Distributes(p.vx, a, b);
    Distributes(p.vy, a, b);
    assert two.x == one.x && two.y == one.y;
    assert two.vx == one.vx && two.vy == one.vy && two.size == one.size;
  }

  lemma Distributes(k: real, a: real, b: real)
    ensures k * a + k * b == k * (a + b)
  {
  }

  /**
    The time step of one animation frame: the elapsed frame time scaled by
    the speed setting and 0.06. The frame clock starts at 0, which the canvas
    treats as "no previous frame", so the first frame has dt == 0.
   */
  function FrameDelta(lastTime: real, currentTime: real, simSpeed: real): (r: (real, real))
    ensures r.1 == currentTime
    ensures lastTime == 0.0 ==> r.0 == 0.0
    ensures simSpeed >= 0.0 && currentTime >= lastTime ==> r.0 >= 0.0
  {
    var start := if lastTime == 0.0 then currentTime else lastTime;
    ((currentTime - start) * simSpeed * 0.06, currentTime)
  }

  /** The sum of the time steps of successive frames at the given times. */
  function Elapsed(lastTime: real, times: seq<real>, simSpeed: real): real
    decreases |times|
  {
    if |times| == 0 then 0.0
    else
      var step := FrameDelta(lastTime, times[0], simSpeed);
      step.0 + Elapsed(step.1, times[1..], simSpeed)
  }

  /**
    Simulated time is wall-clock time scaled: over frames at non-zero times,
    the steps add up to (last − first)·simSpeed·0.06.
   */
  lemma {:induction false} ElapsedTelescopes(lastTime: real, times: seq<real>, simSpeed: real)
    requires |times| > 0
    requires forall i :: 0 <= i < |times| ==> times[i] != 0.0
    ensures var first := if lastTime == 0.0 then times[0] else lastTime;
      Elapsed(lastTime, times, simSpeed) == (times[|times| - 1] - first) * simSpeed * 0.06
    decreases |times|
  {
    var first := if lastTime == 0.0 then times[0] else lastTime;
    if |times| > 1 {
      ElapsedTelescopes(times[0], times[1..], simSpeed);
      assert Elapsed(lastTime, times, simSpeed)
        == (times[0] - first) * simSpeed * 0.06 + (times[|times| - 1] - times[0]) * simSpeed * 0.06;
      ScaledStepsAdd(first, times[0], times[|times| - 1], simSpeed);
    }
  }

  lemma ScaledStepsAdd(a: real, b: real, c: real, k: real)
    ensures (b - a) * k * 0.06 + (c - b) * k * 0.06 == (c - a) * k * 0.06
  {
    assert (b - a) * k + (c - b) * k == (c - a) * k;
  }
}
