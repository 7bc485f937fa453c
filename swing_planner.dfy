/**
 * The swing trajectory planner: per leg, the last contact, the nominal
 * footholds and the planned event times and phases, all replaced on every
 * update. Each loop is proved to build what module SwingPlanSpec defines.
 */
module SwingPlanning {
  import opened Wrappers
  import opened Rotations
  import opened Terrain
  import opened FootPhases
  import opened ModeSchedules
  import opened SwingPlanSpec
  import StateEstimator

  /** One vector per foot. */
  type FeetPositions = s: seq<Vec3> | |s| == NumContactPoints
    witness [Vec3(0.0, 0.0, 0.0), Vec3(0.0, 0.0, 0.0), Vec3(0.0, 0.0, 0.0), Vec3(0.0, 0.0, 0.0)]

  /** The two kinematics queries the planner makes; the kinematics itself is not modelled. */
  datatype KinematicsModel = KinematicsModel(
    positionBaseToFeetInBaseFrame: seq<real> -> FeetPositions,
    feetPositionsInOriginFrame: (BasePose, seq<real>) -> FeetPositions)

  datatype PlannerError = TerrainNotSet

  /** The com pose at the head of a centroidal state, as orientation then position. */
  function ComPoseOf(state: seq<real>): (pose: BasePose)
    requires |state| == StateEstimator.ComkinoStateDim
    ensures pose.orientation == Vec3(state[0], state[1], state[2]) && pose.position == Vec3(state[3], state[4], state[5])
  {
    var p := StateEstimator.GetComPose(state);
    BasePose(Vec3(p[0], p[1], p[2]), Vec3(p[3], p[4], p[5]))
  }

  /**
   * The plane a leg in contact stands on: the terrain's orientation at the
   * foot, placed at the measured foot position.
   */
  function ContactPlane(terrain: TerrainModel, footPosition: Vec3): (plane: TerrainPlane)
    ensures plane.positionInWorld == footPosition
    ensures plane.orientationWorldToTerrain == GetLocalTerrainAtPositionInWorldAlongGravity(terrain, footPosition).orientationWorldToTerrain
  {
    GetLocalTerrainAtPositionInWorldAlongGravity(terrain, footPosition).(positionInWorld := footPosition)
  }

  /** A leg that starts in contact records where it stands and when it is expected to lift off; other legs keep theirs. */
  function UpdatedLastContact(previous: LastContact, timings: seq<ContactTiming>, footPosition: Vec3, terrain: TerrainModel): (r: LastContact)
    ensures StartsWithStancePhase(timings) ==> r == LastContact(timings[0].end, ContactPlane(terrain, footPosition))
    ensures StartsWithSwingPhase(timings) ==> r == previous
  {
    if StartsWithStancePhase(timings) then LastContact(timings[0].end, ContactPlane(terrain, footPosition)) else previous
  }

  class SwingTrajectoryPlanner {
    const settings: SwingTrajectoryPlannerSettings
    const trig: Trig
    const kinematicsModel: KinematicsModel
    const nominalConfigurationBaseToFootInBaseFrame: FeetPositions
    var terrainModel: Option<TerrainModel>
    var lastContacts: seq<LastContact>
    var nominalFootholdsPerLeg: seq<seq<ConvexTerrain>>
    var feetNormalTrajectoriesEvents: seq<seq<real>>
    var feetNormalTrajectories: seq<seq<FootPhase>>

    ghost predicate Valid()
      reads this
    {
      && settings.swingTimeScale > 0.0
      && |lastContacts| == NumContactPoints
      && |nominalFootholdsPerLeg| == NumContactPoints
      && |feetNormalTrajectoriesEvents| == NumContactPoints
      && |feetNormalTrajectories| == NumContactPoints
    }

    /**
     * A planner with no terrain and nothing planned; the nominal foot offsets
     * come from the kinematics at the nominal joint angles. The last contacts
     * start value-initialized: lift-off time 0 and a level plane at the origin.
     */
    constructor (settings: SwingTrajectoryPlannerSettings, trig: Trig, kinematicsModel: KinematicsModel, nominalJointPositions: seq<real>)
      requires settings.swingTimeScale > 0.0
      ensures Valid() && terrainModel.None?
      ensures this.settings == settings && this.trig == trig && this.kinematicsModel == kinematicsModel
      ensures nominalConfigurationBaseToFootInBaseFrame == kinematicsModel.positionBaseToFeetInBaseFrame(nominalJointPositions)
      ensures forall leg | 0 <= leg < NumContactPoints ::
        && lastContacts[leg] == LastContact(Some(0.0), TerrainPlane(Vec3(0.0, 0.0, 0.0), Identity))
        && nominalFootholdsPerLeg[leg] == [] && feetNormalTrajectoriesEvents[leg] == [] && feetNormalTrajectories[leg] == []
    {
      this.settings := settings;
      this.trig := trig;
      this.kinematicsModel := kinematicsModel;
      nominalConfigurationBaseToFootInBaseFrame := kinematicsModel.positionBaseToFeetInBaseFrame(nominalJointPositions);
      terrainModel := None;
      var initialContact := LastContact(Some(0.0), TerrainPlane(Vec3(0.0, 0.0, 0.0), Identity));
      lastContacts := [initialContact, initialContact, initialContact, initialContact];
      nominalFootholdsPerLeg := [[], [], [], []];
      feetNormalTrajectoriesEvents := [[], [], [], []];
      feetNormalTrajectories := [[], [], [], []];
    }

    method UpdateTerrain(terrain: TerrainModel)
      modifies this`terrainModel
      ensures terrainModel == Some(terrain)
    {
      terrainModel := Some(terrain);
    }

    /** What the foothold selection of a leg depends on. */
    function FootholdPlanningOf(leg: nat, desiredBasePose: real -> BasePose, finalTime: real, terrain: TerrainModel): FootholdPlanning
      requires leg < NumContactPoints
    {
      FootholdPlanning(trig, terrain, desiredBasePose, nominalConfigurationBaseToFootInBaseFrame[leg], finalTime)
    }

    /** What the phase generation of a leg depends on, from the planner's current state. */
    function LegPlanningOf(leg: nat, timings: seq<ContactTiming>, finalTime: real): LegPlanning
      reads this
      requires Valid() && leg < NumContactPoints && terrainModel.Some?
    {
      LegPlanning(settings, lastContacts[leg], nominalFootholdsPerLeg[leg], timings, finalTime, GetSignedDistanceField(terrainModel.value))
    }

    /** Records the contact a leg is in now: its plane at the measured foot position and its expected lift-off. */
    method UpdateLastContact(leg: nat, expectedLiftOff: Option<real>, currentFootPosition: Vec3, terrain: TerrainModel)
      requires Valid() && leg < NumContactPoints
      modifies this`lastContacts
      ensures Valid()
      ensures lastContacts == old(lastContacts)[leg := LastContact(expectedLiftOff, ContactPlane(terrain, currentFootPosition))]
    {
      var lastContactTerrain := GetLocalTerrainAtPositionInWorldAlongGravity(terrain, currentFootPosition);
      lastContactTerrain := lastContactTerrain.(positionInWorld := currentFootPosition);
      lastContacts := lastContacts[leg := LastContact(expectedLiftOff, lastContactTerrain)];
    }

    /** The nominal footholds of a leg, collected interval by interval. */
    method SelectNominalFootholdTerrain(leg: nat, contactTimings: seq<ContactTiming>, desiredBasePose: real -> BasePose,
                                       finalTime: real, terrain: TerrainModel)
      returns (nominalFootholdTerrain: seq<ConvexTerrain>)
      requires Valid() && leg < NumContactPoints
      ensures nominalFootholdTerrain ==
        NominalFootholds(FootholdPlanningOf(leg, desiredBasePose, finalTime, terrain), lastContacts[leg].plane, contactTimings)
    {
      var q := FootholdPlanningOf(leg, desiredBasePose, finalTime, terrain);
      nominalFootholdTerrain := [];
      if StartsWithStancePhase(contactTimings) {
        nominalFootholdTerrain := [ConvexTerrain(lastContacts[leg].plane, [])];
      }
      ghost var current := nominalFootholdTerrain;
      var i := 0;
      while i < |contactTimings|
        invariant 0 <= i <= |contactTimings|
        invariant nominalFootholdTerrain == current + FootholdsOf(q, contactTimings[..i])
      {
        var contactPhase := contactTimings[i];
        assert contactTimings[..i + 1][..i] == contactTimings[..i] && contactTimings[..i + 1][i] == contactPhase;
        if HasStartTime(contactPhase) {
          var foothold := SelectFoothold(q, contactPhase);
          nominalFootholdTerrain := nominalFootholdTerrain + [foothold];
        }
        i := i + 1;
      }
      assert contactTimings[..i] == contactTimings;
    }

    /**
     * The foothold of one contact interval with a start time: the nominal
     * foot position under the desired base pose half-way through the
     * contact, and the terrain there.
     */
    static method SelectFoothold(q: FootholdPlanning, contactPhase: ContactTiming) returns (foothold: ConvexTerrain)
      requires HasStartTime(contactPhase)
      ensures foothold == NominalFoothold(q, contactPhase)
    {
      var middleContactTime :=
        if HasEndTime(contactPhase) then 0.5 * (contactPhase.start.value + contactPhase.end.value)
        else 0.5 * (contactPhase.start.value + Max(q.finalTime, contactPhase.start.value));
      var desiredBasePoseAtMiddle := q.desiredBasePose(middleContactTime);
      var rotationBaseToWorld := RotationMatrixBaseToOrigin(q.trig, desiredBasePoseAtMiddle.orientation);
      var offset := q.nominalOffsetInBase;
      var footXYoffsetInBase := Vec3(offset.x, offset.y, 0.0);
      var footZoffsetInWorld := Vec3(0.0, 0.0, offset.z);
      var nominalFootholdPositionInWorld :=
        Add(Add(desiredBasePoseAtMiddle.position, MatVec(rotationBaseToWorld, footXYoffsetInBase)), footZoffsetInWorld);
      if contactPhase.start.value < q.finalTime {
        foothold := GetConvexTerrainAtPositionInWorld(q.terrain, nominalFootholdPositionInWorld);
      } else {
        var plane := GetLocalTerrainAtPositionInWorldAlongGravity(q.terrain, nominalFootholdPositionInWorld);
        foothold := ConvexTerrain(plane, []);
      }
    }

    /** The first swing of a leg that starts in the air, as the planner builds it. */
    method FirstSwingPhase(leg: nat, contactTimings: seq<ContactTiming>, finalTime: real) returns (phase: FootPhase)
      requires Valid() && leg < NumContactPoints && terrainModel.Some?
      requires |nominalFootholdsPerLeg[leg]| == |contactTimings|
      ensures phase == FirstSwing(LegPlanningOf(leg, contactTimings, finalTime))
    {
      var liftOff := SwingEvent(lastContacts[leg].expectedLiftOff, settings.liftOffVelocity, Some(lastContacts[leg].plane));
      var touchDown;
      if TouchesDownAtLeastOnce(contactTimings) {
        touchDown := SwingEvent(contactTimings[0].start, settings.touchDownVelocity, Some(nominalFootholdsPerLeg[leg][0].plane));
      } else {
        touchDown := SwingEvent(Some(finalTime + settings.touchdownAfterHorizon), 0.0, None);
      }
      phase := ScaledSwingPhase(settings, liftOff, touchDown, GetSignedDistanceField(terrainModel.value));
    }

    /**
     * The event times and phases of a leg: the first swing if it starts in
     * the air, then per contact interval up to the horizon a stance and, if
     * the interval ends before the horizon, a swing.
     */
    method GenerateSwingTrajectories(leg: nat, contactTimings: seq<ContactTiming>, finalTime: real)
      returns (eventTimes: seq<real>, footPhases: seq<FootPhase>)
      requires Valid() && leg < NumContactPoints && terrainModel.Some?
      requires |nominalFootholdsPerLeg[leg]| == |contactTimings|
      ensures SwingPlan(eventTimes, footPhases) == SwingTrajectories(LegPlanningOf(leg, contactTimings, finalTime))
    {
      var plan := LegPlanning(settings, lastContacts[leg], nominalFootholdsPerLeg[leg], contactTimings, finalTime,
                              GetSignedDistanceField(terrainModel.value));
      assert plan == LegPlanningOf(leg, contactTimings, finalTime);
      ghost var spec := SwingTrajectories(plan);
      eventTimes := [];
      footPhases := [];
      if StartsWithSwingPhase(contactTimings) {
        var firstSwing := FirstSwingPhase(leg, contactTimings, finalTime);
        footPhases := [firstSwing];
      }
      assert Concat(SwingPlan(eventTimes, footPhases), PlanFrom(plan, 0)) == spec;
      var i := 0;
      while i < |contactTimings|
        invariant 0 <= i <= |contactTimings|
        invariant Concat(SwingPlan(eventTimes, footPhases), PlanFrom(plan, i)) == spec
      {
        if contactTimings[i].start.Some? && contactTimings[i].start.value > finalTime {
          assert PlanFrom(plan, i) == SwingPlan([], []);
          break;
        }
        var intervalEvents, intervalPhases := PlanInterval(plan, i);
        PlanFromStep(plan, i, SwingPlan(eventTimes, footPhases));
        eventTimes := eventTimes + intervalEvents;
        footPhases := footPhases + intervalPhases;
        i := i + 1;
      }
      assert PlanFrom(plan, i) == SwingPlan([], []) by {
        if i == |contactTimings| {}
      }
      assert eventTimes + [] == eventTimes && footPhases + [] == footPhases;
    }

    /**
     * What contact interval `i` adds to the plan: its start event (if any)
     * and a stance, then, if it ends before the horizon, its end event and
     * a scaled swing to the next foothold or to the touch-down after the
     * horizon.
     */
    static method PlanInterval(plan: LegPlanning, i: nat) returns (eventTimes: seq<real>, footPhases: seq<FootPhase>)
      requires Consistent(plan) && i < |plan.timings|
      ensures SwingPlan(eventTimes, footPhases) == IntervalPlan(plan, i)
    {
      var settings, contactTimings, finalTime := plan.settings, plan.timings, plan.finalTime;
      var currentContactTiming := contactTimings[i];
      var nominalFoothold := plan.footholds[i];
      eventTimes := [];
      if HasStartTime(currentContactTiming) {
        eventTimes := eventTimes + [currentContactTiming.start.value];
      }
      footPhases := [StancePhase(nominalFoothold, settings.errorGain)];
      if HasEndTime(currentContactTiming) && currentContactTiming.end.value < finalTime {
        var liftOff := SwingEvent(currentContactTiming.end, settings.liftOffVelocity, Some(nominalFoothold.plane));
        var touchDown;
        if i + 1 < |contactTimings| {
          touchDown := SwingEvent(contactTimings[i + 1].start, settings.touchDownVelocity, Some(plan.footholds[i + 1].plane));
        } else {
          touchDown := SwingEvent(Some(finalTime + settings.touchdownAfterHorizon), 0.0, None);
        }
        var swing := ScaledSwingPhase(settings, liftOff, touchDown, plan.signedDistanceField);
        eventTimes := eventTimes + [currentContactTiming.end.value];
        footPhases := footPhases + [swing];
      }
    }

    /** A swing between two events with its velocities and height scaled by the swing motion scaling. */
    static method ScaledSwingPhase(settings: SwingTrajectoryPlannerSettings, liftOff: SwingEvent, touchDown: SwingEvent,
                                   signedDistanceField: Option<SignedDistanceField>)
      returns (phase: FootPhase)
      requires settings.swingTimeScale > 0.0
      ensures phase == ScaledSwing(settings, liftOff, touchDown, signedDistanceField)
    {
      var scaling := GetSwingMotionScaling(settings, liftOff.time, touchDown.time);
      var scaledLiftOff := liftOff.(velocity := scaling * liftOff.velocity);
      var scaledTouchDown := touchDown.(velocity := scaling * touchDown.velocity);
      phase := SwingPhase(scaledLiftOff, scaling * settings.swingHeight, scaledTouchDown, signedDistanceField, settings.errorGain);
    }

    /** Replans one leg: its last contact if it starts in contact, then its footholds, then its phases. */
    method PlanLeg(leg: nat, contactTimings: seq<ContactTiming>, footPosition: Vec3, desiredBasePose: real -> BasePose,
                   finalTime: real, terrain: TerrainModel)
      requires Valid() && leg < NumContactPoints && terrainModel == Some(terrain) && TimingsWellFormed(contactTimings)
      modifies this`lastContacts, this`nominalFootholdsPerLeg, this`feetNormalTrajectoriesEvents, this`feetNormalTrajectories
      ensures Valid()
      ensures lastContacts == old(lastContacts)[leg := UpdatedLastContact(old(lastContacts[leg]), contactTimings, footPosition, terrain)]
      ensures nominalFootholdsPerLeg == old(nominalFootholdsPerLeg)[leg :=
        NominalFootholds(FootholdPlanningOf(leg, desiredBasePose, finalTime, terrain), lastContacts[leg].plane, contactTimings)]
      ensures |nominalFootholdsPerLeg[leg]| == |contactTimings|
      ensures var plan := SwingTrajectories(LegPlanning(settings, lastContacts[leg], nominalFootholdsPerLeg[leg], contactTimings,
                                                        finalTime, GetSignedDistanceField(terrain)));
        && feetNormalTrajectoriesEvents == old(feetNormalTrajectoriesEvents)[leg := plan.eventTimes]
        && feetNormalTrajectories == old(feetNormalTrajectories)[leg := plan.footPhases]
    {
      if |contactTimings| > 0 && StartsWithStancePhase(contactTimings) {
        UpdateLastContact(leg, contactTimings[0].end, footPosition, terrain);
      }
      var footholds := SelectNominalFootholdTerrain(leg, contactTimings, desiredBasePose, finalTime, terrain);
      NominalFootholdsMatchTimings(FootholdPlanningOf(leg, desiredBasePose, finalTime, terrain), lastContacts[leg].plane, contactTimings);
      nominalFootholdsPerLeg := nominalFootholdsPerLeg[leg := footholds];
      var eventTimes, footPhases := GenerateSwingTrajectories(leg, contactTimings, finalTime);
      feetNormalTrajectoriesEvents := feetNormalTrajectoriesEvents[leg := eventTimes];
      feetNormalTrajectories := feetNormalTrajectories[leg := footPhases];
    }

    /**
     * Replans every leg. Without a terrain model this is an error and nothing
     * changes. Otherwise, per leg: a leg that starts in contact records its
     * last contact at the measured foot position; then its nominal footholds
     * and its phases are replaced by the ones its contact timings call for.
     */
    method UpdateSwingMotions(initTime: real, finalTime: real, currentState: seq<real>, desiredBasePose: real -> BasePose,
                              contactTimingsPerLeg: seq<seq<ContactTiming>>)
      returns (result: Outcome<PlannerError>)
      requires Valid() && |currentState| == StateEstimator.ComkinoStateDim && |contactTimingsPerLeg| == NumContactPoints
      requires forall leg | 0 <= leg < NumContactPoints :: TimingsWellFormed(contactTimingsPerLeg[leg])
      modifies this
      ensures Valid() && terrainModel == old(terrainModel)
      ensures old(terrainModel).None? ==> result == Fail(TerrainNotSet) && unchanged(this)
      ensures old(terrainModel).Some? ==> result == Pass
      ensures old(terrainModel).Some? ==> forall leg | 0 <= leg < NumContactPoints ::
        && lastContacts[leg] == UpdatedLastContact(old(lastContacts[leg]), contactTimingsPerLeg[leg],
             kinematicsModel.feetPositionsInOriginFrame(ComPoseOf(currentState), StateEstimator.GetJointPositions(currentState))[leg], terrainModel.value)
        && nominalFootholdsPerLeg[leg] ==
             NominalFootholds(FootholdPlanningOf(leg, desiredBasePose, finalTime, terrainModel.value), lastContacts[leg].plane, contactTimingsPerLeg[leg])
        && |nominalFootholdsPerLeg[leg]| == |contactTimingsPerLeg[leg]|
        && SwingPlan(feetNormalTrajectoriesEvents[leg], feetNormalTrajectories[leg]) ==
             SwingTrajectories(LegPlanning(settings, lastContacts[leg], nominalFootholdsPerLeg[leg], contactTimingsPerLeg[leg],
                                           finalTime, GetSignedDistanceField(terrainModel.value)))
    {
      if terrainModel.None? {
        return Fail(TerrainNotSet);
      }
      var terrain := terrainModel.value;
      var basePose := ComPoseOf(currentState);
      var feetPositions := kinematicsModel.feetPositionsInOriginFrame(basePose, StateEstimator.GetJointPositions(currentState));
      for leg := 0 to NumContactPoints
        invariant Valid() && terrainModel == Some(terrain)
        invariant forall l | leg <= l < NumContactPoints :: lastContacts[l] == old(lastContacts[l])
        invariant forall l | 0 <= l < leg ::
          && lastContacts[l] == UpdatedLastContact(old(lastContacts[l]), contactTimingsPerLeg[l], feetPositions[l], terrain)
          && nominalFootholdsPerLeg[l] ==
               NominalFootholds(FootholdPlanningOf(l, desiredBasePose, finalTime, terrain), lastContacts[l].plane, contactTimingsPerLeg[l])
          && |nominalFootholdsPerLeg[l]| == |contactTimingsPerLeg[l]|
          && SwingPlan(feetNormalTrajectoriesEvents[l], feetNormalTrajectories[l]) ==
               SwingTrajectories(LegPlanning(settings, lastContacts[l], nominalFootholdsPerLeg[l], contactTimingsPerLeg[l],
                                             finalTime, GetSignedDistanceField(terrain)))
      {
        PlanLeg(leg, contactTimingsPerLeg[leg], feetPositions[leg], desiredBasePose, finalTime, terrain);
      }
      return Pass;
    }

    /**
     * The phase of a leg at a time: the one whose event interval contains
     * the time. At an exact event time either neighbour may be returned.
     */
    function GetFootPhase(leg: nat, time: real): (phase: FootPhase)
      reads this
      requires Valid() && leg < NumContactPoints
      requires |feetNormalTrajectories[leg]| == |feetNormalTrajectoriesEvents[leg]| + 1
      ensures NonDecreasing(feetNormalTrajectoriesEvents[leg]) ==>
        exists idx: nat :: IsTimeIndex(feetNormalTrajectoriesEvents[leg], time, idx) && idx < |feetNormalTrajectories[leg]|
                           && phase == feetNormalTrajectories[leg][idx]
    {
      var index := FindIndexInTimeArray(feetNormalTrajectoriesEvents[leg], time);
      feetNormalTrajectories[leg][index]
    }
  }
}
