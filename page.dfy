/**
  The simulation page: the telemetry, dashboard data, statistics and control
  state it keeps, the handlers that the canvas and the control panel call,
  and the two timers that update it while the simulation runs.

  The readings the 3-second timer draws with `Math.random()` are the
  parameter `readings` of `TelemetryTick`.
 */
module Page {

  import opened Proximity
  import opened Kinematics

  datatype SpacecraftTelemetry = SpacecraftTelemetry(velocity: real, altitude: real, fuel: real, shields: real)
  datatype EnvironmentTelemetry = EnvironmentTelemetry(debrisCount: nat, nearbyObjects: nat, solarActivity: string)
  datatype SafetyTelemetry = SafetyTelemetry(collisionRisk: Risk, radiationLevel: string)
  datatype SystemTelemetry = SystemTelemetry(aiStatus: string, systemIntegrity: real)

  datatype Telemetry = Telemetry(
    spacecraft: SpacecraftTelemetry,
    environment: EnvironmentTelemetry,
    safety: SafetyTelemetry,
    system: SystemTelemetry)

  const InitialTelemetry := Telemetry(
    SpacecraftTelemetry(0.0, 400.0, 100.0, 100.0),
    EnvironmentTelemetry(25, 0, "Low"),
    SafetyTelemetry(Low, "Normal"),
    SystemTelemetry("Inactive", 98.0))

  /** What the debris dashboard shows. */
  datatype DebrisData = DebrisData(
    count: nat,
    nearby: nat,
    risk: Risk,
    velocity: real,
    weight: real,
    size: real,
    composition: string,
    detectionHistory: seq<int>)

  const InitialDebrisData := DebrisData(25, 0, Low, 2.5, 120.0, 1.8, "Mixed", [0])

  datatype Statistics = Statistics(debrisAvoided: nat, distanceTraveled: real, fuelEfficiency: real)

  const InitialStatistics := Statistics(0, 0.0, 100.0)

  /** One draw of the 3-second timer's random readings. */
  datatype TelemetryReadings = TelemetryReadings(
    spacecraftVelocity: real,
    debrisVelocity: real,
    weight: real,
    size: real,
    solarActivity: string,
    composition: string)

  function Max(a: real, b: real): (r: real)
    ensures r >= a && r >= b
    ensures r == a || r == b
  {
    if a >= b then a else b
  }

  // ---------------------------------------------------------------- detection history

  const HistoryLimit: nat := 20

  /** The detection history after a new in-range count: appended, then the oldest dropped once if that made it longer than 20. */
  function WithDetection(history: seq<int>, count: int): (r: seq<int>)
    ensures |r| > 0 && r[|r| - 1] == count
    ensures |history| < HistoryLimit ==> r == history + [count]
    ensures |history| >= HistoryLimit ==> |r| == |history| && r[..|r| - 1] == history[1..]
    ensures |history| <= HistoryLimit ==> |r| <= HistoryLimit
  {
    var appended := history + [count];
    if |appended| > HistoryLimit then
      assert appended[1..][..|history| - 1] == history[1..];
      appended[1..]
    else appended
  }

  /** The last n elements of s, or all of s if it is shorter. */
  function LastN(s: seq<int>, n: nat): (r: seq<int>)
    ensures |r| == if |s| < n then |s| else n
    ensures r == s[|s| - |r|..]
  {
    if |s| <= n then s else s[|s| - n..]
  }

  /** The history after the canvas has reported `counts`, in order, starting from the initial [0]. */
  function HistoryAfter(counts: seq<int>): seq<int>
  {
    if |counts| == 0 then InitialDebrisData.detectionHistory
    else WithDetection(HistoryAfter(counts[..|counts| - 1]), counts[|counts| - 1])
  }

  /** The history is always the last (at most) 20 of the initial 0 followed by every count reported. */
  lemma {:induction false} HistoryIsWindow(counts: seq<int>)
    ensures HistoryAfter(counts) == LastN([0] + counts, HistoryLimit)
  {
    if |counts| > 0 {
      var prefix, count := counts[..|counts| - 1], counts[|counts| - 1];
      HistoryIsWindow(prefix);
      assert HistoryAfter(counts) == WithDetection(HistoryAfter(prefix), count);
      assert [0] + counts == ([0] + prefix) + [count];
      WindowSlides([0] + prefix, count);
    }
  }

  /** Recording a count in the window of the last 20 of s gives the window of the last 20 of s + [count]. */
  lemma WindowSlides(s: seq<int>, count: int)
    ensures WithDetection(LastN(s, HistoryLimit), count) == LastN(s + [count], HistoryLimit)
  {
    var h, r, t := LastN(s, HistoryLimit), WithDetection(LastN(s, HistoryLimit), count), LastN(s + [count], HistoryLimit);
    if |s| >= HistoryLimit {
      var m := |s|;
      assert h[1..] == s[m - HistoryLimit + 1..];
      assert t == s[m - HistoryLimit + 1..] + [count];
      assert r == r[..|r| - 1] + [count];
    }
  }

  // ---------------------------------------------------------------- fuel

  /** The 1-second fuel drain at the given speed, never below 0. */
  function Drained(fuel: real, simSpeed: real): (r: real)
    ensures r >= 0.0
    ensures fuel >= 0.0 && simSpeed >= 0.0 ==> r <= fuel
    ensures r == 0.0 || r == fuel - 0.01 * simSpeed
  {
    Max(0.0, fuel - 0.01 * simSpeed)
  }

  /** The fuel after n drain ticks at one speed. */
  function DrainedTicks(fuel: real, simSpeed: real, n: nat): real
  {
    if n == 0 then fuel else Drained(DrainedTicks(fuel, simSpeed, n - 1), simSpeed)
  }

  /** n ticks drain n·0.01·speed in total, stopping at 0. */
  lemma DrainedTicksTotal(fuel: real, simSpeed: real, n: nat)
    requires fuel >= 0.0 && simSpeed >= 0.0
    ensures DrainedTicks(fuel, simSpeed, n) == Max(0.0, fuel - (n as real) * 0.01 * simSpeed)
  {
    DrainedTicksRepeated(fuel, simSpeed, n);
    assert (n as real) * (0.01 * simSpeed) == (n as real) * 0.01 * simSpeed;
  }

  /** k added n times. */
  function Times(n: nat, k: real): (r: real)
    ensures r == (n as real) * k
  {
    if n == 0 then 0.0 else Times(n - 1, k) + k
  }

  lemma {:induction false} DrainedTicksRepeated(fuel: real, simSpeed: real, n: nat)
    requires fuel >= 0.0 && simSpeed >= 0.0
    ensures DrainedTicks(fuel, simSpeed, n) == Max(0.0, fuel - Times(n, 0.01 * simSpeed))
  {
    if n > 0 {
      DrainedTicksRepeated(fuel, simSpeed, n - 1);
      var before := fuel - Times(n - 1, 0.01 * simSpeed);
      assert DrainedTicks(fuel, simSpeed, n) == Drained(Max(0.0, before), simSpeed);
      if before < 0.0 {
        assert Drained(0.0, simSpeed) == 0.0;
      }
    }
  }

  /** The fuel one navigation press costs. */
  const ThrustFuelCost: real := 0.1

  /** The fuel after a navigation press, never below 0. */
  function AfterThrustFuel(fuel: real): (r: real)
    ensures r >= 0.0
    ensures fuel >= 0.0 ==> r <= fuel
    ensures fuel >= ThrustFuelCost ==> r == fuel - ThrustFuelCost
    ensures fuel <= ThrustFuelCost ==> r == 0.0
  {
    Max(0.0, fuel - ThrustFuelCost)
  }

  // ---------------------------------------------------------------- navigation flags

  function Get(c: NavigationControls, d: Direction): bool
  {
    match d
    case Up => c.up
    case Down => c.down
    case Left => c.left
    case Right => c.right
  }

  /** The controls with the flag of direction d set to b. */
  function SetFlag(c: NavigationControls, d: Direction, b: bool): (r: NavigationControls)
    ensures Get(r, d) == b
    ensures forall e :: e != d ==> Get(r, e) == Get(c, e)
  {
    match d
    case Up => c.(up := b)
    case Down => c.(down := b)
    case Left => c.(left := b)
    case Right => c.(right := b)
  }

  /** Pressing a direction that was not held and releasing it restores the controls. */
  lemma PressReleaseRestores(c: NavigationControls, d: Direction)
    requires !Get(c, d)
    ensures SetFlag(SetFlag(c, d, true), d, false) == c
  {
  }

  /** The number of directions held. */
  function ActiveCount(c: NavigationControls): (n: nat)
    ensures n <= 4
    ensures n == 0 <==> c == NoControls
  {
    (if c.up then 1 else 0) + (if c.down then 1 else 0) + (if c.left then 1 else 0) + (if c.right then 1 else 0)
  }

  /** 100 less 5 per held direction, floored at 60; with four flags the floor is never reached. */
  function FuelEfficiency(c: NavigationControls): (r: real)
    ensures 80.0 <= r <= 100.0
    ensures r == 100.0 - 5.0 * (ActiveCount(c) as real)
  {
    Max(60.0, 100.0 - 5.0 * (ActiveCount(c) as real))
  }

  /** Holding one more direction costs exactly 5 points of efficiency. */
  lemma PressLowersEfficiency(c: NavigationControls, d: Direction)
    ensures FuelEfficiency(SetFlag(c, d, true)) == FuelEfficiency(c) - (if Get(c, d) then 0.0 else 5.0)
  {
  }

  // ---------------------------------------------------------------- status mappings

  /** 98, less 5 while the collision risk is High, floored at 80. */
  function SystemIntegrity(risk: Risk): (r: real)
    ensures 80.0 <= r <= 98.0
    ensures r == 93.0 <==> risk == High
    ensures r == 98.0 <==> risk != High
  {
    Max(80.0, 98.0 - (if risk == High then 5.0 else 0.0))
  }

  /** The AI status text for a mode; every mode other than "off" and "avoid" counts as tracking. */
  function AiStatus(mode: string): (s: string)
    ensures s == "Inactive" <==> mode == "off"
    ensures s == "Avoidance Active" <==> mode == "avoid"
    ensures s == "Tracking Active" <==> mode != "off" && mode != "avoid"
  {
    if mode == "off" then "Inactive" else if mode == "avoid" then "Avoidance Active" else "Tracking Active"
  }

  function RadiationLevel(solarActivity: string): (r: string)
    ensures r == "Elevated" <==> solarActivity == "High"
    ensures r == "Normal" <==> solarActivity != "High"
  {
    if solarActivity == "High" then "Elevated" else "Normal"
  }

  /** The avoided-debris counter after a risk report: one more exactly when the AI is on and the risk is not Low. */
  function AvoidedAfter(avoided: nat, aiMode: string, risk: Risk): (r: nat)
    ensures r == avoided || r == avoided + 1
    ensures r == avoided + 1 <==> aiMode != "off" && (risk == Medium || risk == High)
  {
    if aiMode != "off" && (risk == Medium || risk == High) then avoided + 1 else avoided
  }

  /** The page's state, held in React state hooks and replaced by the handlers. */
  class SimulationPage {
    var simSpeed: real
    var isRunning: bool
    var radarRange: real
    var telemetry: Telemetry
    var aiMode: string
    var showWarning: bool
    var navigationControls: NavigationControls
    var debrisData: DebrisData
    var statistics: Statistics

    /** The bounds every handler and timer keeps. */
    ghost predicate Valid()
      reads this
    {
      && simSpeed > 0.0
      && 0.0 <= telemetry.spacecraft.fuel <= 100.0
      && 1 <= |debrisData.detectionHistory| <= HistoryLimit
      && 80.0 <= statistics.fuelEfficiency <= 100.0
    }

    constructor ()
      ensures Valid()
      ensures simSpeed == 1.0 && isRunning && radarRange == 15.0
      ensures telemetry == InitialTelemetry && aiMode == "off" && !showWarning
      ensures navigationControls == NoControls
      ensures debrisData == InitialDebrisData && statistics == InitialStatistics
    {
      simSpeed, isRunning, radarRange := 1.0, true, 15.0;
      telemetry, aiMode, showWarning := InitialTelemetry, "off", false;
      navigationControls := NoControls;
      debrisData, statistics := InitialDebrisData, InitialStatistics;
    }

    /** The 1-second timer: fuel drains with the speed and the distance grows with speed and velocity. */
    method FuelTick()
      requires Valid()
      modifies this`telemetry, this`statistics
      ensures Valid()
      ensures !isRunning ==> telemetry == old(telemetry) && statistics == old(statistics)
      ensures isRunning ==>
        && telemetry == old(telemetry).(spacecraft := old(telemetry.spacecraft).(
             fuel := Drained(old(telemetry.spacecraft.fuel), simSpeed)))
        && statistics == old(statistics).(distanceTraveled :=
             old(statistics.distanceTraveled) + 0.05 * simSpeed * telemetry.spacecraft.velocity)
    {
      if isRunning {
        var fuel := Drained(telemetry.spacecraft.fuel, simSpeed);
        telemetry := telemetry.(spacecraft := telemetry.spacecraft.(fuel := fuel));
        statistics := statistics.(distanceTraveled :=
          statistics.distanceTraveled + 0.05 * simSpeed * telemetry.spacecraft.velocity);
      }
    }

    /**
      The 3-second timer: new random readings, the system integrity from the
      current collision risk and the fuel efficiency from the held directions.
     */
    method TelemetryTick(readings: TelemetryReadings)
      requires Valid()
      modifies this`telemetry, this`debrisData, this`statistics
      ensures Valid()
      ensures !isRunning ==> telemetry == old(telemetry) && debrisData == old(debrisData) && statistics == old(statistics)
      ensures isRunning ==>
        && telemetry == old(telemetry).(
             spacecraft := old(telemetry.spacecraft).(velocity := readings.spacecraftVelocity),
             environment := old(telemetry.environment).(solarActivity := readings.solarActivity),
             system := old(telemetry.system).(systemIntegrity := SystemIntegrity(old(telemetry.safety.collisionRisk))),
             safety := old(telemetry.safety).(radiationLevel := RadiationLevel(readings.solarActivity)))
        && debrisData == old(debrisData).(velocity := readings.debrisVelocity, weight := readings.weight,
                                          size := readings.size, composition := readings.composition)
        && statistics == old(statistics).(fuelEfficiency := FuelEfficiency(navigationControls))
    {
      if isRunning {
        var systemIntegrity := SystemIntegrity(telemetry.safety.collisionRisk);
        var fuelEfficiency := FuelEfficiency(navigationControls);
        telemetry := telemetry.(
          spacecraft := telemetry.spacecraft.(velocity := readings.spacecraftVelocity),
          environment := telemetry.environment.(solarActivity := readings.solarActivity),
          system := telemetry.system.(systemIntegrity := systemIntegrity),
          safety := telemetry.safety.(radiationLevel := RadiationLevel(readings.solarActivity)));
        debrisData := debrisData.(velocity := readings.debrisVelocity, weight := readings.weight,
                                  size := readings.size, composition := readings.composition);
        statistics := statistics.(fuelEfficiency := fuelEfficiency);
      }
    }

    /** The canvas reports the in-range count: telemetry, dashboard count and the bounded history. */
    method HandleDebrisCountChange(count: nat)
      requires Valid()
      modifies this`telemetry, this`debrisData
      ensures Valid()
      ensures telemetry == old(telemetry).(environment := old(telemetry.environment).(debrisCount := count))
      ensures debrisData == old(debrisData).(count := count,
                detectionHistory := WithDetection(old(debrisData.detectionHistory), count))
    {
      telemetry := telemetry.(environment := telemetry.environment.(debrisCount := count));
      var newHistory := debrisData.detectionHistory + [count];
      if |newHistory| > HistoryLimit {
        newHistory := newHistory[1..];
      }
      debrisData := debrisData.(count := count, detectionHistory := newHistory);
    }

    /** The canvas reports the risk level and the near count. */
    method HandleCollisionRiskChange(risk: Risk, nearbyCount: nat)
      requires Valid()
      modifies this`telemetry, this`debrisData, this`showWarning, this`statistics
      ensures Valid()
      ensures telemetry == old(telemetry).(
                environment := old(telemetry.environment).(nearbyObjects := nearbyCount),
                safety := old(telemetry.safety).(collisionRisk := risk))
      ensures debrisData == old(debrisData).(nearby := nearbyCount, risk := risk)
      ensures showWarning <==> risk == High
      ensures statistics == old(statistics).(debrisAvoided := AvoidedAfter(old(statistics.debrisAvoided), aiMode, risk))
    {
      telemetry := telemetry.(
        environment := telemetry.environment.(nearbyObjects := nearbyCount),
        safety := telemetry.safety.(collisionRisk := risk));
      debrisData := debrisData.(nearby := nearbyCount, risk := risk);
      showWarning := risk == High;
      if aiMode != "off" && (risk == Medium || risk == High) {
        statistics := statistics.(debrisAvoided := statistics.debrisAvoided + 1);
      }
    }

    method DismissWarning()
      modifies this`showWarning
      ensures !showWarning
    {
      showWarning := false;
    }

    /** Pressing a direction sets its flag alone and costs fuel. */
    method HandleNavigationPress(direction: Direction)
      requires Valid()
      modifies this`navigationControls, this`telemetry
      ensures Valid()
      ensures navigationControls == SetFlag(old(navigationControls), direction, true)
      ensures telemetry == old(telemetry).(spacecraft := old(telemetry.spacecraft).(
                fuel := AfterThrustFuel(old(telemetry.spacecraft.fuel))))
    {
      navigationControls := SetFlag(navigationControls, direction, true);
      telemetry := telemetry.(spacecraft := telemetry.spacecraft.(fuel := AfterThrustFuel(telemetry.spacecraft.fuel)));
    }

    /** Releasing a direction clears its flag alone. */
    method HandleNavigationRelease(direction: Direction)
      modifies this`navigationControls
      ensures navigationControls == SetFlag(old(navigationControls), direction, false)
    {
      navigationControls := SetFlag(navigationControls, direction, false);
    }

    /** The speed buttons pass 1, 2 and 4. */
    method HandleSpeedChange(speed: real)
      requires Valid() && speed > 0.0
      modifies this`simSpeed
      ensures Valid() && simSpeed == speed
    {
      simSpeed := speed;
    }

    method ToggleSimulation()
      modifies this`isRunning
      ensures isRunning == !old(isRunning)
    {
      isRunning := !isRunning;
    }

    method ChangeAiMode(mode: string)
      requires Valid()
      modifies this`aiMode, this`telemetry
      ensures Valid()
      ensures aiMode == mode
      ensures telemetry == old(telemetry).(system := old(telemetry.system).(aiStatus := AiStatus(mode)))
    {
      aiMode := mode;
      telemetry := telemetry.(system := telemetry.system.(aiStatus := AiStatus(mode)));
    }

    method HandleRadarRangeChange(value: real)
      modifies this`radarRange
      ensures radarRange == value
    {
      radarRange := value;
    }

    /**
      Back to the initial telemetry, speed 1, running, AI off, no warning, no
      direction held and fresh statistics. The radar range and the dashboard
      data are not in its frame, and the new state does not depend on the old
      one, so resetting twice is resetting once.
     */
    method ResetSimulation()
      modifies this`telemetry, this`simSpeed, this`isRunning, this`aiMode, this`showWarning,
               this`navigationControls, this`statistics
      requires Valid()
      ensures Valid()
      ensures telemetry == InitialTelemetry && simSpeed == 1.0 && isRunning && aiMode == "off"
      ensures !showWarning && navigationControls == NoControls && statistics == InitialStatistics
    {
      telemetry := InitialTelemetry;
      simSpeed, isRunning, aiMode, showWarning := 1.0, true, "off", false;
      navigationControls := NoControls;
      statistics := InitialStatistics;
    }
  }
}
