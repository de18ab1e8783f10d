/**
  Rate limiting of the canvas's notifications.

  The canvas keeps two timestamps. The critical-proximity alert and the
  collision alert share the first one (with windows of 5000 ms and 1000 ms);
  the proximity warning has the second one to itself (8000 ms). An alert
  fires when the time since its timestamp is strictly greater than its
  window, and firing overwrites that timestamp with the current time.
 */
module Alerts {

  const CriticalWindow: int := 5000
  const WarningWindow: int := 8000
  const CollisionWindow: int := 1000

  /** The two notification timestamps, in milliseconds; both start at 0. */
  datatype Stamps = Stamps(lastNotification: int, lastYellowNotification: int)

  const InitialStamps := Stamps(0, 0)

  predicate CriticalAlertDue(s: Stamps, critical: nat, now: int)
  {
    critical > 0 && now - s.lastNotification > CriticalWindow
  }

  predicate WarningAlertDue(s: Stamps, close: nat, now: int)
  {
    close > 0 && now - s.lastYellowNotification > WarningWindow
  }

  predicate CollisionAlertDue(s: Stamps, now: int)
  {
    now - s.lastNotification > CollisionWindow
  }

  /** The timestamps after one classification tick at time `now`. */
  function AfterProximity(s: Stamps, critical: nat, close: nat, now: int): (r: Stamps)
    ensures r.lastNotification >= s.lastNotification
    ensures r.lastYellowNotification >= s.lastYellowNotification
    ensures critical == 0 && close == 0 ==> r == s
  {
    Stamps(if CriticalAlertDue(s, critical, now) then now else s.lastNotification,
           if WarningAlertDue(s, close, now) then now else s.lastYellowNotification)
  }

  /** The timestamps after one debris is found within collision distance at time `now`. */
  function AfterCollision(s: Stamps, now: int): (r: Stamps)
    ensures r.lastYellowNotification == s.lastYellowNotification
    ensures r.lastNotification >= s.lastNotification
  {
    if CollisionAlertDue(s, now) then s.(lastNotification := now) else s
  }

  /** What the canvas observes: a classification tick, or one debris within collision distance. */
  datatype Event =
    | ProximityCheck(critical: nat, close: nat, at: int)
    | CollisionContact(at: int)

  /** A notification that was shown, with the time it was shown. */
  datatype Alert =
    | CriticalProximity(at: int)
    | ProximityWarning(at: int)
    | Collision(at: int)

  predicate SharesTimestamp(a: Alert)
  {
    a.CriticalProximity? || a.Collision?
  }

  /** One event: the new timestamps and the alerts it shows, in order. */
  function Step(s: Stamps, e: Event): (r: (Stamps, seq<Alert>))
    ensures forall a :: a in r.1 ==> a.at == e.at
    ensures e.CollisionContact? ==> r.1 == [] || r.1 == [Collision(e.at)]
    ensures e.ProximityCheck? ==> |r.1| <= 2 && forall a :: a in r.1 ==> !a.Collision?
    ensures r.1 == [] ==> r.0 == s
  {
    match e
    case ProximityCheck(critical, close, now) =>
      (AfterProximity(s, critical, close, now),
       (if CriticalAlertDue(s, critical, now) then [CriticalProximity(now)] else []) +
       (if WarningAlertDue(s, close, now) then [ProximityWarning(now)] else []))
    case CollisionContact(now) =>
      (AfterCollision(s, now), if CollisionAlertDue(s, now) then [Collision(now)] else [])
  }

  /** The timestamps and the alerts shown after a sequence of events. */
  function Run(s: Stamps, events: seq<Event>): (Stamps, seq<Alert>)
  {
    if |events| == 0 then (s, [])
    else
      var (mid, shown) := Run(s, events[..|events| - 1]);
      var (last, more) := Step(mid, events[|events| - 1]);
      (last, shown + more)
  }

  /** The spacing the rate limiter enforces between an earlier alert `a` and a later alert `b`. */
  predicate SpacedApart(a: Alert, b: Alert)
  {
    && (SharesTimestamp(a) && b.CriticalProximity? ==> b.at - a.at > CriticalWindow)
    && (SharesTimestamp(a) && b.Collision? ==> b.at - a.at > CollisionWindow)
    && (a.ProximityWarning? && b.ProximityWarning? ==> b.at - a.at > WarningWindow)
  }

  ghost predicate Spaced(shown: seq<Alert>)
  {
    forall i, j :: 0 <= i < j < |shown| ==> SpacedApart(shown[i], shown[j])
  }

  /** No alert shown so far is later than the timestamp it updated. */
  ghost predicate StampsCover(s: Stamps, shown: seq<Alert>)
  {
    forall i :: 0 <= i < |shown| ==>
      (SharesTimestamp(shown[i]) ==> shown[i].at <= s.lastNotification) &&
      (shown[i].ProximityWarning? ==> shown[i].at <= s.lastYellowNotification)
  }

  lemma StepSpaced(s: Stamps, shown: seq<Alert>, e: Event)
    requires Spaced(shown) && StampsCover(s, shown)
    ensures Spaced(shown + Step(s, e).1) && StampsCover(Step(s, e).0, shown + Step(s, e).1)
  {
    var all := shown + Step(s, e).1;
    forall i, j | 0 <= i < j < |all| ensures SpacedApart(all[i], all[j]) {
      if j < |shown| {
        assert all[i] == shown[i] && all[j] == shown[j];
      } else if i < |shown| {
        assert all[i] == shown[i];
      }
    }
  }

  /**
    Whatever the times of the events (they need not even increase), every
    critical alert comes more than 5000 ms after every earlier critical or
    collision alert, every collision alert more than 1000 ms after every
    earlier one of either kind, and every warning more than 8000 ms after the
    previous warning.
   */
  lemma {:induction false} RunSpaced(s: Stamps, events: seq<Event>)
    ensures Spaced(Run(s, events).1) && StampsCover(Run(s, events).0, Run(s, events).1)
  {
    if |events| > 0 {
      RunSpaced(s, events[..|events| - 1]);
      var (mid, shown) := Run(s, events[..|events| - 1]);
      StepSpaced(mid, shown, events[|events| - 1]);
    }
  }

  /** Two contacts within one second of each other give a single collision alert. */
  lemma RepeatedContactAlertsOnce(s: Stamps, t: int, later: int)
    requires t - s.lastNotification > CollisionWindow
    requires t <= later <= t + CollisionWindow
    ensures Run(s, [CollisionContact(t), CollisionContact(later)]).1 == [Collision(t)]
  {
    var first := [CollisionContact(t)];
    assert first[..0] == [];
    assert Run(s, first).1 == [] + [Collision(t)];
    var events := [CollisionContact(t), CollisionContact(later)];
    assert events[..1] == first;
  }

  /**
    Because the timestamp is shared, a collision alert silences the critical
    proximity alert for the next 5000 ms, although no critical alert was shown.
   */
  lemma CollisionSilencesCriticalAlert()
    ensures Run(InitialStamps, [CollisionContact(10000), ProximityCheck(1, 0, 13000)]).1
            == [Collision(10000)]
  {
    var events := [CollisionContact(10000), ProximityCheck(1, 0, 13000)];
    assert events[..1] == [CollisionContact(10000)];
    assert events[..1][..0] == [];
  }
}
