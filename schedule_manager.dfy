/**
 * The mode-schedule manager of the switched quadruped model. Once per solver
 * run it moves the gait schedule to the start of the horizon, reads the
 * schedule for twice the horizon, and replans the swing phases of every leg
 * from the contact timings of that schedule. Between runs it answers which
 * legs are in contact at a time. The locks around the gait schedule and the
 * terrain are not modelled: the steps run one after the other.
 */
module ScheduleManager {
  import opened Wrappers
  import opened Terrain
  import opened ModeSchedules
  import opened GaitSchedules
  import opened SwingPlanSpec
  import opened SwingPlanning
  import StateEstimator

  class SwitchedModelModeScheduleManager {
    /** The schedule handed to the solver on the last run (held by the base class). */
    var modeSchedule: ModeSchedule
    const gaitSchedule: GaitSchedule
    const swingTrajectoryPlanner: SwingTrajectoryPlanner
    const terrainModel: TerrainModel

    ghost predicate Valid()
      reads this, gaitSchedule, swingTrajectoryPlanner
    {
      WellFormed(modeSchedule) && gaitSchedule.Valid() && swingTrajectoryPlanner.Valid()
    }

    /** Takes ownership of the three parts; the solver's schedule starts as the default one. */
    constructor (gaitSchedule: GaitSchedule, swingTrajectory: SwingTrajectoryPlanner, terrainModel: TerrainModel)
      requires gaitSchedule.Valid() && swingTrajectory.Valid()
      ensures Valid()
      ensures modeSchedule == DefaultModeSchedule
      ensures this.gaitSchedule == gaitSchedule && swingTrajectoryPlanner == swingTrajectory && this.terrainModel == terrainModel
    {
      modeSchedule := DefaultModeSchedule;
      this.gaitSchedule := gaitSchedule;
      swingTrajectoryPlanner := swingTrajectory;
      this.terrainModel := terrainModel;
    }

    /**
     * The stance flags at a time: the decoding of the mode the current
     * schedule has active then, so they encode back to that mode.
     */
    function GetContactFlags(time: real): (flags: seq<bool>)
      reads this
      requires WellFormed(modeSchedule)
      ensures |flags| == NumContactPoints
      ensures exists idx: nat :: IsTimeIndex(modeSchedule.eventTimes, time, idx) && idx < |modeSchedule.modeSequence|
                                 && StanceLeg2ModeNumber(flags) == modeSchedule.modeSequence[idx]
    {
      var mode := ModeAtTime(modeSchedule, time);
      ModeEncodingRoundTrip(mode, ModeNumber2StanceLeg(mode));
      ModeNumber2StanceLeg(mode)
    }

    /**
     * The synchronisation step before a solver run over [initTime, finalTime]:
     * the gait schedule is advanced to initTime, the schedule for twice the
     * horizon is read and handed to the solver, and the swing planner is
     * given the terrain and replans every leg from the contact timings of
     * exactly that schedule. Afterwards every leg has one more phase than
     * events, with increasing events, so phase lookups stay in range.
     */
    method PreSolverRunImpl(initTime: real, finalTime: real, currentState: seq<real>, desiredBasePose: real -> BasePose)
      requires Valid() && |currentState| == StateEstimator.ComkinoStateDim
      modifies this, gaitSchedule, swingTrajectoryPlanner
      ensures Valid()
      ensures gaitSchedule.time == initTime && gaitSchedule.modeSequenceTemplate == old(gaitSchedule.modeSequenceTemplate)
      ensures modeSchedule == gaitSchedule.modeSchedule
      ensures |modeSchedule.eventTimes| > 0 && initTime + 2.0 * (finalTime - initTime) <= Last(modeSchedule.eventTimes)
      ensures initTime <= finalTime ==> forall i | 0 <= i < |modeSchedule.eventTimes| :: initTime <= modeSchedule.eventTimes[i]
      ensures swingTrajectoryPlanner.terrainModel == Some(terrainModel)
      ensures forall leg | 0 <= leg < NumContactPoints ::
        && swingTrajectoryPlanner.lastContacts[leg] ==
             UpdatedLastContact(old(swingTrajectoryPlanner.lastContacts[leg]), ExtractContactTimingsPerLeg(modeSchedule)[leg],
               swingTrajectoryPlanner.kinematicsModel.feetPositionsInOriginFrame(ComPoseOf(currentState), StateEstimator.GetJointPositions(currentState))[leg],
               terrainModel)
        && swingTrajectoryPlanner.nominalFootholdsPerLeg[leg] ==
             NominalFootholds(swingTrajectoryPlanner.FootholdPlanningOf(leg, desiredBasePose, finalTime, terrainModel),
                              swingTrajectoryPlanner.lastContacts[leg].plane, ExtractContactTimingsPerLeg(modeSchedule)[leg])
        && |swingTrajectoryPlanner.nominalFootholdsPerLeg[leg]| == |ExtractContactTimingsPerLeg(modeSchedule)[leg]|
        && SwingPlan(swingTrajectoryPlanner.feetNormalTrajectoriesEvents[leg], swingTrajectoryPlanner.feetNormalTrajectories[leg]) ==
             SwingTrajectories(swingTrajectoryPlanner.LegPlanningOf(leg, ExtractContactTimingsPerLeg(modeSchedule)[leg], finalTime))
      ensures forall leg | 0 <= leg < NumContactPoints ::
        && |swingTrajectoryPlanner.feetNormalTrajectories[leg]| == |swingTrajectoryPlanner.feetNormalTrajectoriesEvents[leg]| + 1
        && StrictlyIncreasing(swingTrajectoryPlanner.feetNormalTrajectoriesEvents[leg])
    {
      var timeHorizon := finalTime - initTime;
      gaitSchedule.AdvanceToTime(initTime);
      var schedule := gaitSchedule.GetModeScheduleAhead(2.0 * timeHorizon);
      modeSchedule := schedule;
      var contactTimingsPerLeg := ExtractContactTimingsPerLeg(schedule);
      ExtractedTimingsWellFormed(schedule);
      swingTrajectoryPlanner.UpdateTerrain(terrainModel);
      var result := swingTrajectoryPlanner.UpdateSwingMotions(initTime, finalTime, currentState, desiredBasePose, contactTimingsPerLeg);
      forall leg | 0 <= leg < NumContactPoints
        ensures |swingTrajectoryPlanner.feetNormalTrajectories[leg]| == |swingTrajectoryPlanner.feetNormalTrajectoriesEvents[leg]| + 1
        ensures StrictlyIncreasing(swingTrajectoryPlanner.feetNormalTrajectoriesEvents[leg])
      {
        var plan := swingTrajectoryPlanner.LegPlanningOf(leg, contactTimingsPerLeg[leg], finalTime);
        SwingTrajectoriesCounts(plan);
        SwingTrajectoriesEvents(plan);
      }
    }
  }
}
