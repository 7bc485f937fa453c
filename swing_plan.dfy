/**
 * What the swing trajectory planner computes for one leg, as functions of
 * its inputs: the nominal foothold for every contact interval, and the list
 * of event times with the stance and swing phases between them. The
 * planner class in module SwingPlanning builds the same lists with loops
 * and is proved to match these definitions.
 */
module SwingPlanSpec {
  import opened Wrappers
  import opened Rotations
  import opened Terrain
  import opened FootPhases
  import opened ModeSchedules

  datatype SwingTrajectoryPlannerSettings = SwingTrajectoryPlannerSettings(
    liftOffVelocity: real,
    touchDownVelocity: real,
    swingHeight: real,
    touchdownAfterHorizon: real,
    errorGain: real,
    swingTimeScale: real)

  /** The base pose part of a state: Euler angles, then the position in the world frame. */
  datatype BasePose = BasePose(orientation: Vec3, position: Vec3)

  /** The expected lift-off time of a leg's last contact (`None` for NaN) and the plane it stands on. */
  datatype LastContact = LastContact(expectedLiftOff: Option<real>, plane: TerrainPlane)

  /** Event times and the phases around them: phase j is active between events j-1 and j. */
  datatype SwingPlan = SwingPlan(eventTimes: seq<real>, footPhases: seq<FootPhase>)

  function Min(a: real, b: real): real { if a <= b then a else b }
  function Max(a: real, b: real): real { if a >= b then a else b }

  /**
   * The factor that shrinks velocities and swing height for a short swing:
   * the swing duration relative to the nominal swing time, capped at 1.
   * A missing time leaves the swing unscaled.
   */
  function GetSwingMotionScaling(settings: SwingTrajectoryPlannerSettings, liftOffTime: Option<real>, touchDownTime: Option<real>): (scaling: real)
    requires settings.swingTimeScale > 0.0
    ensures scaling <= 1.0
    ensures liftOffTime.None? || touchDownTime.None? ==> scaling == 1.0
    ensures liftOffTime.Some? && touchDownTime.Some? && touchDownTime.value - liftOffTime.value >= settings.swingTimeScale ==>
      scaling == 1.0
    ensures liftOffTime.Some? && touchDownTime.Some? && touchDownTime.value - liftOffTime.value < settings.swingTimeScale ==>
      scaling * settings.swingTimeScale == touchDownTime.value - liftOffTime.value
    ensures liftOffTime.Some? && touchDownTime.Some? && liftOffTime.value < touchDownTime.value ==> 0.0 < scaling
  {
    if liftOffTime.None? || touchDownTime.None? then 1.0
    else Min(1.0, (touchDownTime.value - liftOffTime.value) / settings.swingTimeScale)
  }

  /**
   * A swing between two events. Only the event velocities and the swing
   * height are scaled: the event times and planes are passed on unchanged.
   */
  function ScaledSwing(settings: SwingTrajectoryPlannerSettings, liftOff: SwingEvent, touchDown: SwingEvent,
                       signedDistanceField: Option<SignedDistanceField>): (phase: FootPhase)
    requires settings.swingTimeScale > 0.0
    ensures phase.SwingPhase? && phase.signedDistanceField == signedDistanceField && phase.positionGain == settings.errorGain
    ensures phase.liftOff.time == liftOff.time && phase.liftOff.terrainPlane == liftOff.terrainPlane
    ensures phase.touchDown.time == touchDown.time && phase.touchDown.terrainPlane == touchDown.terrainPlane
  {
    var scaling := GetSwingMotionScaling(settings, liftOff.time, touchDown.time);
    SwingPhase(liftOff.(velocity := scaling * liftOff.velocity), scaling * settings.swingHeight,
               touchDown.(velocity := scaling * touchDown.velocity), signedDistanceField, settings.errorGain)
  }

  /**
   * Both event velocities and the swing height of a scaled swing are
   * multiplied by the same factor; for a swing that lifts off before it
   * touches down (or misses a time) the height stays between zero and the
   * nominal height, and a velocity at rest stays at rest.
   */
  lemma ScaledSwingScaling(settings: SwingTrajectoryPlannerSettings, liftOff: SwingEvent, touchDown: SwingEvent,
                           signedDistanceField: Option<SignedDistanceField>)
    requires settings.swingTimeScale > 0.0
    ensures var phase := ScaledSwing(settings, liftOff, touchDown, signedDistanceField);
      var scaling := GetSwingMotionScaling(settings, liftOff.time, touchDown.time);
      && phase.liftOff.velocity == scaling * liftOff.velocity
      && phase.touchDown.velocity == scaling * touchDown.velocity
      && phase.swingHeight == scaling * settings.swingHeight
      && (touchDown.velocity == 0.0 ==> phase.touchDown.velocity == 0.0)
      && (settings.swingHeight >= 0.0 && (liftOff.time.None? || touchDown.time.None? || liftOff.time.value < touchDown.time.value) ==>
            0.0 <= phase.swingHeight <= settings.swingHeight)
  {
    var scaling := GetSwingMotionScaling(settings, liftOff.time, touchDown.time);
    if settings.swingHeight >= 0.0 && (liftOff.time.None? || touchDown.time.None? || liftOff.time.value < touchDown.time.value) {
      assert 0.0 < scaling <= 1.0;
      assert scaling * settings.swingHeight <= 1.0 * settings.swingHeight;
    }
  }

  /** The touch-down of a swing with no later contact: after the horizon, at rest, on no particular plane. */
  function HorizonTouchDown(settings: SwingTrajectoryPlannerSettings, finalTime: real): SwingEvent {
    SwingEvent(Some(finalTime + settings.touchdownAfterHorizon), 0.0, None)
  }

  /** What the nominal foothold of one leg depends on: the desired base pose over time and the leg's nominal offset. */
  datatype FootholdPlanning = FootholdPlanning(
    trig: Trig,
    terrain: TerrainModel,
    desiredBasePose: real -> BasePose,
    nominalOffsetInBase: Vec3,
    finalTime: real)

  /**
   * When the nominal foothold of a contact interval is looked up: half-way
   * through the interval or, without an end, half-way to the horizon (at the
   * start itself when that is already past the horizon).
   */
  function MiddleContactTime(timing: ContactTiming, finalTime: real): (t: real)
    requires HasStartTime(timing)
    ensures HasEndTime(timing) ==> t - timing.start.value == timing.end.value - t
    ensures HasEndTime(timing) && timing.start.value <= timing.end.value ==> timing.start.value <= t <= timing.end.value
    ensures !HasEndTime(timing) && finalTime <= timing.start.value ==> t == timing.start.value
    ensures !HasEndTime(timing) && timing.start.value < finalTime ==>
      timing.start.value < t < finalTime && t - timing.start.value == finalTime - t
  {
    if HasEndTime(timing) then 0.5 * (timing.start.value + timing.end.value)
    else 0.5 * (timing.start.value + Max(finalTime, timing.start.value))
  }

  /**
   * The nominal foot position under a base pose: the horizontal part of the
   * nominal offset rotated with the base, the vertical part added in the
   * world frame.
   */
  function NominalFootholdPosition(trig: Trig, pose: BasePose, offset: Vec3): Vec3 {
    var rotationBaseToWorld := RotationMatrixBaseToOrigin(trig, pose.orientation);
    Add(Add(pose.position, MatVec(rotationBaseToWorld, Vec3(offset.x, offset.y, 0.0))), Vec3(0.0, 0.0, offset.z))
  }

  /** Under a level base with zero yaw, the nominal foothold is the base position plus the nominal offset. */
  lemma LevelBaseFoothold(trig: Trig, pose: BasePose, offset: Vec3)
    requires trig.sin(0.0) == 0.0 && trig.cos(0.0) == 1.0
    requires pose.orientation == Vec3(0.0, 0.0, 0.0)
    ensures NominalFootholdPosition(trig, pose, offset) == Add(pose.position, offset)
  {
    var euler := pose.orientation;
    assert trig.sin(euler.x) == 0.0 && trig.cos(euler.x) == 1.0;
    assert trig.sin(euler.y) == 0.0 && trig.cos(euler.y) == 1.0;
    assert trig.sin(euler.z) == 0.0 && trig.cos(euler.z) == 1.0;
    assert RotX(0.0, 1.0) == Identity && RotY(0.0, 1.0) == Identity && RotZ(0.0, 1.0) == Identity;
    assert MatMul(Identity, Identity) == Identity;
    var rotation := RotationMatrixBaseToOrigin(trig, euler);
    assert rotation == Identity;
    var horizontal := Vec3(offset.x, offset.y, 0.0);
    assert MatVec(rotation, horizontal) == horizontal;
  }

  /**
   * The foothold of a contact interval with a start time: the convex region
   * at the nominal position when the interval starts before the horizon,
   * otherwise only the along-gravity plane there.
   */
  function NominalFoothold(q: FootholdPlanning, timing: ContactTiming): (foothold: ConvexTerrain)
    requires HasStartTime(timing)
    ensures var position := NominalFootholdPosition(q.trig, q.desiredBasePose(MiddleContactTime(timing, q.finalTime)), q.nominalOffsetInBase);
      && (timing.start.value < q.finalTime ==> foothold == GetConvexTerrainAtPositionInWorld(q.terrain, position))
      && (q.finalTime <= timing.start.value ==>
            foothold == ConvexTerrain(GetLocalTerrainAtPositionInWorldAlongGravity(q.terrain, position), []))
  {
    var pose := q.desiredBasePose(MiddleContactTime(timing, q.finalTime));
    var position := NominalFootholdPosition(q.trig, pose, q.nominalOffsetInBase);
    if timing.start.value < q.finalTime then GetConvexTerrainAtPositionInWorld(q.terrain, position)
    else ConvexTerrain(GetLocalTerrainAtPositionInWorldAlongGravity(q.terrain, position), [])
  }

  /** The footholds of the intervals that have a start time, in order. */
  function FootholdsOf(q: FootholdPlanning, timings: seq<ContactTiming>): seq<ConvexTerrain> {
    if |timings| == 0 then []
    else
      var last := timings[|timings| - 1];
      FootholdsOf(q, timings[..|timings| - 1]) + (if HasStartTime(last) then [NominalFoothold(q, last)] else [])
  }

  /**
   * The nominal footholds of one leg: the plane it stands on now if it
   * starts in contact, then one per contact interval with a start time.
   */
  function NominalFootholds(q: FootholdPlanning, lastContactPlane: TerrainPlane, timings: seq<ContactTiming>): seq<ConvexTerrain> {
    (if StartsWithStancePhase(timings) then [ConvexTerrain(lastContactPlane, [])] else []) + FootholdsOf(q, timings)
  }

  /** When only the first interval may lack a start, every other interval has its foothold, in order. */
  lemma {:induction false} FootholdsOfShape(q: FootholdPlanning, timings: seq<ContactTiming>)
    requires forall k | 0 < k < |timings| :: HasStartTime(timings[k])
    ensures var skip := if |timings| > 0 && !HasStartTime(timings[0]) then 1 else 0;
      && |FootholdsOf(q, timings)| == |timings| - skip
      && forall k | skip <= k < |timings| :: FootholdsOf(q, timings)[k - skip] == NominalFoothold(q, timings[k])
  {
    if |timings| == 1 {
      assert timings[..0] == [];
      assert FootholdsOf(q, timings) == FootholdsOf(q, []) + (if HasStartTime(timings[0]) then [NominalFoothold(q, timings[0])] else []);
    } else if |timings| > 1 {
      var n := |timings|;
      var init := timings[..n - 1];
      FootholdsOfShape(q, init);
      assert init[0] == timings[0];
      var skip := if !HasStartTime(timings[0]) then 1 else 0;
      var previous := FootholdsOf(q, init);
      var footholds := FootholdsOf(q, timings);
      assert HasStartTime(timings[n - 1]);
      assert footholds == previous + [NominalFoothold(q, timings[n - 1])];
      forall k | skip <= k < n ensures footholds[k - skip] == NominalFoothold(q, timings[k]) {
        if k < n - 1 {
          assert timings[k] == init[k] && footholds[k - skip] == previous[k - skip];
        }
      }
    }
  }

  /**
   * For well-formed contact timings there is one nominal foothold per
   * interval: the current plane for an interval already in progress, the
   * looked-up foothold for every other.
   */
  lemma NominalFootholdsMatchTimings(q: FootholdPlanning, lastContactPlane: TerrainPlane, timings: seq<ContactTiming>)
    requires TimingsWellFormed(timings)
    ensures |NominalFootholds(q, lastContactPlane, timings)| == |timings|
    ensures StartsWithStancePhase(timings) ==> NominalFootholds(q, lastContactPlane, timings)[0] == ConvexTerrain(lastContactPlane, [])
    ensures forall i | 0 <= i < |timings| && HasStartTime(timings[i]) ::
      NominalFootholds(q, lastContactPlane, timings)[i] == NominalFoothold(q, timings[i])
  {
    FootholdsOfShape(q, timings);
  }

  /** What the phase generation of one leg depends on. */
  datatype LegPlanning = LegPlanning(
    settings: SwingTrajectoryPlannerSettings,
    lastContact: LastContact,
    footholds: seq<ConvexTerrain>,
    timings: seq<ContactTiming>,
    finalTime: real,
    signedDistanceField: Option<SignedDistanceField>)

  /** One nominal foothold per contact interval and a positive nominal swing time. */
  predicate Consistent(leg: LegPlanning) {
    leg.settings.swingTimeScale > 0.0 && |leg.footholds| == |leg.timings|
  }

  /** The shape the contact timings extracted from a mode schedule have. */
  predicate OrderedTimings(leg: LegPlanning) {
    Consistent(leg) && TimingsWellFormed(leg.timings) && TimingsOrdered(leg.timings)
  }

  /** Two plans one after the other. */
  function Concat(head: SwingPlan, rest: SwingPlan): SwingPlan {
    SwingPlan(head.eventTimes + rest.eventTimes, head.footPhases + rest.footPhases)
  }

  /**
   * What contact interval `i` contributes: its start event (if it has one)
   * and a stance on its foothold, followed, if it ends before the horizon,
   * by its end event and a swing to the next foothold (or to the touch-down
   * after the horizon when there is no next interval).
   */
  function IntervalPlan(leg: LegPlanning, i: nat): SwingPlan
    requires Consistent(leg) && i < |leg.timings|
  {
    var timing := leg.timings[i];
    var startEvent := if timing.start.Some? then [timing.start.value] else [];
    var stance := StancePhase(leg.footholds[i], leg.settings.errorGain);
    if timing.end.Some? && timing.end.value < leg.finalTime then
      var liftOff := SwingEvent(timing.end, leg.settings.liftOffVelocity, Some(leg.footholds[i].plane));
      var touchDown :=
        if i + 1 < |leg.timings| then SwingEvent(leg.timings[i + 1].start, leg.settings.touchDownVelocity, Some(leg.footholds[i + 1].plane))
        else HorizonTouchDown(leg.settings, leg.finalTime);
      SwingPlan(startEvent + [timing.end.value], [stance, ScaledSwing(leg.settings, liftOff, touchDown, leg.signedDistanceField)])
    else
      SwingPlan(startEvent, [stance])
  }

  /** The phases from contact interval `i` on: an interval that starts after the horizon ends the plan. */
  function PlanFrom(leg: LegPlanning, i: nat): SwingPlan
    requires Consistent(leg) && i <= |leg.timings|
    decreases |leg.timings| - i
  {
    if i == |leg.timings| then SwingPlan([], [])
    else if leg.timings[i].start.Some? && leg.timings[i].start.value > leg.finalTime then SwingPlan([], [])
    else Concat(IntervalPlan(leg, i), PlanFrom(leg, i + 1))
  }

  /** Taking the next interval off the plan still to come, in front of what is planned so far, leaves the whole unchanged. */
  lemma PlanFromStep(leg: LegPlanning, i: nat, done: SwingPlan)
    requires Consistent(leg) && i < |leg.timings|
    requires !(leg.timings[i].start.Some? && leg.timings[i].start.value > leg.finalTime)
    ensures Concat(done, PlanFrom(leg, i)) == Concat(Concat(done, IntervalPlan(leg, i)), PlanFrom(leg, i + 1))
  {
    var head := IntervalPlan(leg, i);
    var rest := PlanFrom(leg, i + 1);
    assert PlanFrom(leg, i) == Concat(head, rest);
    assert done.eventTimes + (head.eventTimes + rest.eventTimes) == (done.eventTimes + head.eventTimes) + rest.eventTimes;
    assert done.footPhases + (head.footPhases + rest.footPhases) == (done.footPhases + head.footPhases) + rest.footPhases;
  }

  /**
   * The swing a leg that starts in the air is in: from its last contact to
   * the first planned contact, or to the touch-down after the horizon.
   */
  function FirstSwing(leg: LegPlanning): (phase: FootPhase)
    requires Consistent(leg)
    ensures phase.SwingPhase?
    ensures phase.liftOff.time == leg.lastContact.expectedLiftOff
    ensures phase.liftOff.terrainPlane == Some(leg.lastContact.plane)
    ensures TouchesDownAtLeastOnce(leg.timings) ==>
      phase.touchDown.time == leg.timings[0].start && phase.touchDown.terrainPlane == Some(leg.footholds[0].plane)
    ensures !TouchesDownAtLeastOnce(leg.timings) ==> phase.touchDown == HorizonTouchDown(leg.settings, leg.finalTime)
  {
    var liftOff := SwingEvent(leg.lastContact.expectedLiftOff, leg.settings.liftOffVelocity, Some(leg.lastContact.plane));
    var touchDown :=
      if TouchesDownAtLeastOnce(leg.timings) then SwingEvent(leg.timings[0].start, leg.settings.touchDownVelocity, Some(leg.footholds[0].plane))
      else HorizonTouchDown(leg.settings, leg.finalTime);
    ScaledSwing(leg.settings, liftOff, touchDown, leg.signedDistanceField)
  }

  /** The event times and phases of one leg: the first swing if the leg starts in the air, then the contact intervals. */
  function SwingTrajectories(leg: LegPlanning): SwingPlan
    requires Consistent(leg)
  {
    var plan := PlanFrom(leg, 0);
    if StartsWithSwingPhase(leg.timings) then SwingPlan(plan.eventTimes, [FirstSwing(leg)] + plan.footPhases)
    else plan
  }

  /** Stances at the even positions and swings at the odd ones. */
  predicate EvenStances(phases: seq<FootPhase>) {
    forall j | 0 <= j < |phases| :: ContactFlag(phases[j]) <==> j % 2 == 0
  }

  /** Neighbouring phases differ: a stance is followed by a swing and a swing by a stance. */
  predicate Alternating(phases: seq<FootPhase>) {
    forall j | 0 <= j < |phases| - 1 :: ContactFlag(phases[j]) != ContactFlag(phases[j + 1])
  }

  /** Strictly increasing event times, none after `limit`. */
  predicate EventsUpTo(events: seq<real>, limit: real) {
    StrictlyIncreasing(events) && forall k | 0 <= k < |events| :: events[k] <= limit
  }

  /**
   * Phase `j` begins at event `j`: every swing lifts off there, before
   * `limit`, and touches down at event `j + 1` when there is one.
   */
  predicate SwingsAtEvents(plan: SwingPlan, limit: real) {
    (forall j | 0 <= j < |plan.footPhases| && j < |plan.eventTimes| && plan.footPhases[j].SwingPhase? ::
       plan.footPhases[j].liftOff.time == Some(plan.eventTimes[j]) && plan.eventTimes[j] < limit) &&
    (forall j | 0 <= j < |plan.footPhases| && j + 1 < |plan.eventTimes| && plan.footPhases[j].SwingPhase? ::
       plan.footPhases[j].touchDown.time == Some(plan.eventTimes[j + 1]))
  }

  /**
   * Phase `j` lies between events `j - 1` and `j`: every swing after the
   * first phase lifts off at event `j - 1`, before `limit`, and every swing
   * touches down at event `j` when there is one.
   */
  predicate SwingsBetweenEvents(plan: SwingPlan, limit: real) {
    (forall j | 0 < j < |plan.footPhases| && j <= |plan.eventTimes| && plan.footPhases[j].SwingPhase? ::
       plan.footPhases[j].liftOff.time == Some(plan.eventTimes[j - 1]) && plan.eventTimes[j - 1] < limit) &&
    (forall j | 0 <= j < |plan.footPhases| && j < |plan.eventTimes| && plan.footPhases[j].SwingPhase? ::
       plan.footPhases[j].touchDown.time == Some(plan.eventTimes[j]))
  }

  lemma EvenStancesAppend(head: seq<FootPhase>, rest: seq<FootPhase>)
    requires EvenStances(head) && EvenStances(rest) && (|head| == 2 || |rest| == 0)
    ensures EvenStances(head + rest)
  {
    var all := head + rest;
    if |rest| > 0 {
      forall j | 2 <= j < |all| ensures ContactFlag(all[j]) <==> j % 2 == 0 {
        assert all[j] == rest[j - 2];
      }
    } else {
      assert all == head;
    }
  }

  lemma EvenStancesAlternate(phases: seq<FootPhase>)
    requires EvenStances(phases)
    ensures Alternating(phases)
  {
    forall j | 0 <= j < |phases| - 1 ensures ContactFlag(phases[j]) != ContactFlag(phases[j + 1]) {
      assert (j % 2 == 0) != ((j + 1) % 2 == 0);
    }
  }

  lemma SwingBeforeEvenStances(swing: FootPhase, phases: seq<FootPhase>)
    requires !ContactFlag(swing) && EvenStances(phases)
    ensures Alternating([swing] + phases)
  {
    EvenStancesAlternate(phases);
    var all := [swing] + phases;
    forall j | 1 <= j < |all| - 1 ensures ContactFlag(all[j]) != ContactFlag(all[j + 1]) {
      assert all[j] == phases[j - 1] && all[j + 1] == phases[j];
    }
    if |phases| > 0 {
      assert all[1] == phases[0];
    }
  }

  lemma EventsUpToAppend(head: seq<real>, rest: seq<real>, limit: real)
    requires EventsUpTo(head, limit) && EventsUpTo(rest, limit)
    requires |head| > 0 && |rest| > 0 ==> head[|head| - 1] < rest[0]
    ensures EventsUpTo(head + rest, limit)
  {
    var all := head + rest;
    var n := |head|;
    forall a, b | 0 <= a < b < |all| ensures all[a] < all[b] {
      if a < n <= b {
        assert all[a] == head[a] && all[b] == rest[b - n];
        assert head[a] <= head[n - 1];
        assert rest[0] <= rest[b - n];
      }
    }
  }

  lemma SwingsAtEventsAppend(head: SwingPlan, rest: SwingPlan, limit: real)
    requires |head.eventTimes| == |head.footPhases|
    requires SwingsAtEvents(head, limit) && SwingsAtEvents(rest, limit)
    requires |head.footPhases| > 0 && head.footPhases[|head.footPhases| - 1].SwingPhase? && |rest.eventTimes| > 0 ==>
      head.footPhases[|head.footPhases| - 1].touchDown.time == Some(rest.eventTimes[0])
    ensures SwingsAtEvents(Concat(head, rest), limit)
  {
    var all := Concat(head, rest);
    var n := |head.footPhases|;
    forall j | n <= j < |all.footPhases|
      ensures all.footPhases[j] == rest.footPhases[j - n]
    {
    }
    forall j | n <= j < |all.eventTimes|
      ensures all.eventTimes[j] == rest.eventTimes[j - n]
    {
    }
    forall j | 0 <= j < n
      ensures all.footPhases[j] == head.footPhases[j] && all.eventTimes[j] == head.eventTimes[j]
    {
    }
  }

  /**
   * A plan whose phases lie between its events, followed by one whose
   * phases begin at their events, has all its phases between its events
   * when the last swing of the first touches down where the second begins.
   */
  lemma SwingsBetweenEventsAppend(head: SwingPlan, rest: SwingPlan, limit: real)
    requires |head.footPhases| == |head.eventTimes| + 1
    requires SwingsBetweenEvents(head, limit) && SwingsAtEvents(rest, limit)
    requires head.footPhases[|head.eventTimes|].SwingPhase? && |rest.eventTimes| > 0 ==>
      head.footPhases[|head.eventTimes|].touchDown.time == Some(rest.eventTimes[0])
    ensures SwingsBetweenEvents(Concat(head, rest), limit)
  {
    var all := Concat(head, rest);
    var n := |head.footPhases|;
    forall j | n <= j < |all.footPhases|
      ensures all.footPhases[j] == rest.footPhases[j - n]
    {
    }
    forall j | n - 1 <= j < |all.eventTimes|
      ensures all.eventTimes[j] == rest.eventTimes[j - n + 1]
    {
    }
    forall j | 0 <= j < n - 1
      ensures all.eventTimes[j] == head.eventTimes[j]
    {
    }
    forall j | 0 <= j < n
      ensures all.footPhases[j] == head.footPhases[j]
    {
    }
  }

  /**
   * An interval that is not followed by a swing (no end time, or an end
   * after the horizon) is the last one planned.
   */
  lemma NoSwingEndsPlan(leg: LegPlanning, i: nat)
    requires OrderedTimings(leg) && i < |leg.timings|
    requires !(leg.timings[i].end.Some? && leg.timings[i].end.value < leg.finalTime)
    ensures PlanFrom(leg, i + 1) == SwingPlan([], [])
  {
    if i + 1 < |leg.timings| {
      assert HasEndTime(leg.timings[i]) && HasStartTime(leg.timings[i + 1]);
      assert leg.timings[i + 1].start.value > leg.finalTime;
    }
  }

  /**
   * An interval with a start time no later than the horizon contributes a
   * stance beginning at its start and, if it ends before the horizon, a
   * swing beginning at its end and touching down where the next interval
   * starts; without that swing it is the last interval planned.
   */
  lemma IntervalPlanShape(leg: LegPlanning, i: nat)
    requires OrderedTimings(leg) && i < |leg.timings| && HasStartTime(leg.timings[i])
    requires leg.timings[i].start.value <= leg.finalTime
    ensures var head := IntervalPlan(leg, i);
      && 1 <= |head.footPhases| <= 2
      && |head.eventTimes| == |head.footPhases|
      && head.eventTimes[0] == leg.timings[i].start.value
      && EvenStances(head.footPhases)
      && EventsUpTo(head.eventTimes, leg.finalTime)
      && SwingsAtEvents(head, leg.finalTime)
      && (|head.footPhases| == 1 ==> PlanFrom(leg, i + 1) == SwingPlan([], []))
      && (|head.footPhases| == 2 && i + 1 < |leg.timings| ==>
            && head.footPhases[1].touchDown.time == leg.timings[i + 1].start
            && head.eventTimes[1] < leg.timings[i + 1].start.value)
  {
    var timing := leg.timings[i];
    if timing.end.Some? && timing.end.value < leg.finalTime {
      assert timing.start.value < timing.end.value;
      if i + 1 < |leg.timings| {
        assert HasStartTime(leg.timings[i + 1]) && timing.end.value < leg.timings[i + 1].start.value;
      }
    } else {
      NoSwingEndsPlan(leg, i);
    }
  }

  /**
   * The interval a leg starts in contact with contributes a stance and, if
   * it ends before the horizon, its end event and a swing beginning there
   * and touching down where the next interval starts; without that swing
   * it is the only interval planned.
   */
  lemma FirstStanceShape(leg: LegPlanning)
    requires OrderedTimings(leg) && StartsWithStancePhase(leg.timings)
    ensures var head := IntervalPlan(leg, 0);
      && 1 <= |head.footPhases| <= 2
      && |head.footPhases| == |head.eventTimes| + 1
      && head.footPhases[0].StancePhase?
      && EventsUpTo(head.eventTimes, leg.finalTime)
      && SwingsBetweenEvents(head, leg.finalTime)
      && (|head.eventTimes| == 0 ==> PlanFrom(leg, 1) == SwingPlan([], []))
      && (|head.eventTimes| == 1 ==> head.footPhases[1].SwingPhase?)
      && (|head.eventTimes| == 1 && 1 < |leg.timings| ==>
            && head.footPhases[1].touchDown.time == leg.timings[1].start
            && head.eventTimes[0] < leg.timings[1].start.value)
  {
    var timing := leg.timings[0];
    if timing.end.Some? && timing.end.value < leg.finalTime {
      if 1 < |leg.timings| {
        assert HasStartTime(leg.timings[1]) && timing.end.value < leg.timings[1].start.value;
      }
    } else {
      NoSwingEndsPlan(leg, 0);
    }
  }

  /** Phase `j` of a plan from an interval with a start time begins at event `j`: stances at even and swings at odd indices. */
  lemma {:induction false} PlanFromCounts(leg: LegPlanning, i: nat)
    requires OrderedTimings(leg) && i <= |leg.timings|
    requires i < |leg.timings| ==> HasStartTime(leg.timings[i])
    ensures |PlanFrom(leg, i).footPhases| == |PlanFrom(leg, i).eventTimes|
    ensures |PlanFrom(leg, i).eventTimes| > 0 ==> PlanFrom(leg, i).eventTimes[0] == leg.timings[i].start.value
    ensures EvenStances(PlanFrom(leg, i).footPhases)
    decreases |leg.timings| - i
  {
    if i < |leg.timings| && !(leg.timings[i].start.value > leg.finalTime) {
      IntervalPlanShape(leg, i);
      PlanFromCounts(leg, i + 1);
      var head := IntervalPlan(leg, i);
      var rest := PlanFrom(leg, i + 1);
      assert PlanFrom(leg, i) == Concat(head, rest);
      EvenStancesAppend(head.footPhases, rest.footPhases);
    }
  }

  /** The events of a plan from an interval with a start time are strictly increasing and none is after the horizon. */
  lemma {:induction false} PlanFromEvents(leg: LegPlanning, i: nat)
    requires OrderedTimings(leg) && i <= |leg.timings|
    requires i < |leg.timings| ==> HasStartTime(leg.timings[i])
    ensures EventsUpTo(PlanFrom(leg, i).eventTimes, leg.finalTime)
    decreases |leg.timings| - i
  {
    if i < |leg.timings| && !(leg.timings[i].start.value > leg.finalTime) {
      IntervalPlanShape(leg, i);
      PlanFromCounts(leg, i + 1);
      PlanFromEvents(leg, i + 1);
      var head := IntervalPlan(leg, i);
      var rest := PlanFrom(leg, i + 1);
      assert PlanFrom(leg, i) == Concat(head, rest);
      if |rest.eventTimes| > 0 {
        assert |head.footPhases| == 2 && i + 1 < |leg.timings|;
      }
      EventsUpToAppend(head.eventTimes, rest.eventTimes, leg.finalTime);
    }
  }

  /**
   * In a plan from an interval with a start time, each swing lifts off at
   * the event that begins it, before the horizon, and touches down at the
   * next event, if any.
   */
  lemma {:induction false} PlanFromSwingTimes(leg: LegPlanning, i: nat)
    requires OrderedTimings(leg) && i <= |leg.timings|
    requires i < |leg.timings| ==> HasStartTime(leg.timings[i])
    ensures SwingsAtEvents(PlanFrom(leg, i), leg.finalTime)
    decreases |leg.timings| - i
  {
    if i < |leg.timings| && !(leg.timings[i].start.value > leg.finalTime) {
      IntervalPlanShape(leg, i);
      PlanFromCounts(leg, i + 1);
      PlanFromSwingTimes(leg, i + 1);
      var head := IntervalPlan(leg, i);
      var rest := PlanFrom(leg, i + 1);
      assert PlanFrom(leg, i) == Concat(head, rest);
      if |rest.eventTimes| > 0 {
        assert |head.footPhases| == 2 && i + 1 < |leg.timings|;
      }
      SwingsAtEventsAppend(head, rest, leg.finalTime);
    }
  }

  /**
   * A swing that touches down on no plane goes to the touch-down after the
   * horizon, at rest, and is the last phase planned.
   */
  lemma {:induction false} PlanFromHorizonTouchDown(leg: LegPlanning, i: nat)
    requires OrderedTimings(leg) && i <= |leg.timings|
    ensures forall j | 0 <= j < |PlanFrom(leg, i).footPhases| && PlanFrom(leg, i).footPhases[j].SwingPhase?
                         && PlanFrom(leg, i).footPhases[j].touchDown.terrainPlane.None? ::
      j == |PlanFrom(leg, i).footPhases| - 1 && PlanFrom(leg, i).footPhases[j].touchDown == HorizonTouchDown(leg.settings, leg.finalTime)
    decreases |leg.timings| - i
  {
    if i < |leg.timings| && !(leg.timings[i].start.Some? && leg.timings[i].start.value > leg.finalTime) {
      PlanFromHorizonTouchDown(leg, i + 1);
      var timing := leg.timings[i];
      var head := IntervalPlan(leg, i);
      var rest := PlanFrom(leg, i + 1);
      var plan := PlanFrom(leg, i);
      assert plan == Concat(head, rest);
      if timing.end.Some? && timing.end.value < leg.finalTime {
        var swing := head.footPhases[1];
        if i + 1 == |leg.timings| {
          var horizon := HorizonTouchDown(leg.settings, leg.finalTime);
          var liftOff := SwingEvent(timing.end, leg.settings.liftOffVelocity, Some(leg.footholds[i].plane));
          ScaledSwingScaling(leg.settings, liftOff, horizon, leg.signedDistanceField);
          assert swing == ScaledSwing(leg.settings, liftOff, horizon, leg.signedDistanceField);
          assert swing.touchDown == horizon;
          assert plan.footPhases == head.footPhases;
        } else {
          assert swing.touchDown.terrainPlane.Some?;
          forall j | 0 <= j < |plan.footPhases| && plan.footPhases[j].SwingPhase? && plan.footPhases[j].touchDown.terrainPlane.None?
            ensures j == |plan.footPhases| - 1 && plan.footPhases[j].touchDown == HorizonTouchDown(leg.settings, leg.finalTime)
          {
            assert plan.footPhases[j] == rest.footPhases[j - 2];
          }
        }
      } else {
        NoSwingEndsPlan(leg, i);
        assert plan.footPhases == [head.footPhases[0]];
      }
    }
  }

  /**
   * For contact timings extracted from a mode schedule, there is one more
   * phase than events (so the phase lookup by event index is always in
   * range), the first phase is a stance exactly when the leg starts in
   * contact, and stance and swing alternate.
   */
  lemma SwingTrajectoriesCounts(leg: LegPlanning)
    requires OrderedTimings(leg)
    ensures |SwingTrajectories(leg).footPhases| == |SwingTrajectories(leg).eventTimes| + 1
    ensures ContactFlag(SwingTrajectories(leg).footPhases[0]) <==> StartsWithStancePhase(leg.timings)
    ensures Alternating(SwingTrajectories(leg).footPhases)
  {
    var plan := SwingTrajectories(leg);
    if StartsWithSwingPhase(leg.timings) {
      PlanFromCounts(leg, 0);
      var tail := PlanFrom(leg, 0);
      assert plan.footPhases == [FirstSwing(leg)] + tail.footPhases;
      SwingBeforeEvenStances(FirstSwing(leg), tail.footPhases);
    } else {
      PlanFromCounts(leg, 1);
      var timing := leg.timings[0];
      var head := IntervalPlan(leg, 0);
      var rest := PlanFrom(leg, 1);
      assert plan == Concat(head, rest);
      if timing.end.Some? && timing.end.value < leg.finalTime {
        assert head.eventTimes == [timing.end.value];
      } else {
        NoSwingEndsPlan(leg, 0);
        assert head.eventTimes == [];
      }
      EvenStancesAppend(head.footPhases, rest.footPhases);
      EvenStancesAlternate(plan.footPhases);
    }
  }

  /** The event times of a leg are strictly increasing and none is after the horizon. */
  lemma SwingTrajectoriesEvents(leg: LegPlanning)
    requires OrderedTimings(leg)
    ensures EventsUpTo(SwingTrajectories(leg).eventTimes, leg.finalTime)
  {
    if StartsWithSwingPhase(leg.timings) {
      PlanFromEvents(leg, 0);
    } else {
      PlanFromCounts(leg, 1);
      PlanFromEvents(leg, 1);
      var timing := leg.timings[0];
      var head := IntervalPlan(leg, 0);
      var rest := PlanFrom(leg, 1);
      assert SwingTrajectories(leg) == Concat(head, rest);
      if timing.end.Some? && timing.end.value < leg.finalTime {
        assert head.eventTimes == [timing.end.value];
        if |rest.eventTimes| > 0 {
          assert 1 < |leg.timings| && timing.end.value < rest.eventTimes[0];
        }
      } else {
        NoSwingEndsPlan(leg, 0);
        assert head.eventTimes == [];
      }
      EventsUpToAppend(head.eventTimes, rest.eventTimes, leg.finalTime);
    }
  }

  /**
   * Every swing after the first phase lifts off at the event that begins it,
   * before the horizon, and every swing touches down at the event that ends
   * it, when that event is planned.
   */
  lemma SwingTrajectoriesSwingTimes(leg: LegPlanning)
    requires OrderedTimings(leg)
    ensures SwingsBetweenEvents(SwingTrajectories(leg), leg.finalTime)
  {
    if StartsWithSwingPhase(leg.timings) {
      SwingStartSwingTimes(leg);
    } else {
      StanceStartSwingTimes(leg);
    }
  }

  lemma SwingStartSwingTimes(leg: LegPlanning)
    requires OrderedTimings(leg) && StartsWithSwingPhase(leg.timings)
    ensures SwingsBetweenEvents(SwingTrajectories(leg), leg.finalTime)
  {
    PlanFromCounts(leg, 0);
    PlanFromSwingTimes(leg, 0);
    var first := SwingPlan([], [FirstSwing(leg)]);
    var tail := PlanFrom(leg, 0);
    if |tail.eventTimes| > 0 {
      assert TouchesDownAtLeastOnce(leg.timings) by {
        assert HasStartTime(leg.timings[0]);
      }
    }
    SwingsBetweenEventsAppend(first, tail, leg.finalTime);
    assert SwingTrajectories(leg) == Concat(first, tail);
  }

  lemma StanceStartSwingTimes(leg: LegPlanning)
    requires OrderedTimings(leg) && StartsWithStancePhase(leg.timings)
    ensures SwingsBetweenEvents(SwingTrajectories(leg), leg.finalTime)
  {
    FirstStanceShape(leg);
    PlanFromCounts(leg, 1);
    PlanFromSwingTimes(leg, 1);
    var head := IntervalPlan(leg, 0);
    var rest := PlanFrom(leg, 1);
    if |rest.eventTimes| > 0 {
      assert |head.eventTimes| == 1 && 1 < |leg.timings|;
    }
    SwingsBetweenEventsAppend(head, rest, leg.finalTime);
    assert SwingTrajectories(leg) == Concat(head, rest);
  }

  /**
   * A swing that touches down on no plane goes to the touch-down after the
   * horizon, at rest, and is the last phase of the leg.
   */
  lemma SwingTrajectoriesHorizonTouchDown(leg: LegPlanning)
    requires OrderedTimings(leg)
    ensures forall j | 0 <= j < |SwingTrajectories(leg).footPhases| && SwingTrajectories(leg).footPhases[j].SwingPhase?
                       && SwingTrajectories(leg).footPhases[j].touchDown.terrainPlane.None? ::
      && j == |SwingTrajectories(leg).footPhases| - 1
      && SwingTrajectories(leg).footPhases[j].touchDown == HorizonTouchDown(leg.settings, leg.finalTime)
  {
    PlanFromHorizonTouchDown(leg, 0);
    if StartsWithSwingPhase(leg.timings) {
      var plan := SwingTrajectories(leg);
      var tail := PlanFrom(leg, 0);
      if |leg.timings| > 0 {
        assert HasStartTime(leg.timings[0]);
      }
      forall j | 0 < j < |plan.footPhases| ensures plan.footPhases[j] == tail.footPhases[j - 1] {}
    }
  }
}
