# Verified model of the ocs2 quadruped contact-planning core

This project models, in Dafny, the logic of the ocs2 legged-robot stack that runs once per MPC cycle around the optimal-control solver, together with the small exact conversions it relies on:

- **Swing trajectory planner** (`SwingPlanSpec`, `SwingPlanning`): turns each leg's contact timings into a list of event times and an alternating list of stance and swing foot phases, selects a nominal foothold per contact, records the last contact and looks up the phase active at a time. `SwingPlanSpec` holds the specification as functions; `SwingPlanning.SwingTrajectoryPlanner` is the stateful planner whose loops are proved to compute it.
- **Foot phases and terrain** (`FootPhases`, `Terrain`): the two-variant foot phase with its fixed contact flag and default constraints, and the terrain query interface with its defaults.
- **Mode schedules and the gait schedule** (`ModeSchedules`, `GaitSchedules`): mode numbers and their per-leg contact flags, the time lookup, extraction of contact timings, and the gait schedule whose template is tiled forward in time.
- **Mode-schedule manager** (`ScheduleManager`): the per-cycle synchronisation that advances the gait, reads a schedule twice the horizon ahead and re-plans the swing motions; contact flags at a time.
- **Wheeled com-kinematic constraints** (`ComKinoConstraints`): per-leg registration of the friction cone and the three equality terms under foot names, and the activation of each term from the leg's contact flag before every evaluation.
- **SLQ backward-pass bookkeeping** (`SlqBackwardPass`): the configuration checks of the solver, the split of the normalized time array into event-free segments with a jump between segments, the negated adaptive-time intervals, the trajectory size check, the reversed fill of the value-function array and the non-throwing stability check.
- **Small conversions**: ANYmal model names and factories (`AnymalModels`), configuration paths and interface assembly (`AnymalInterfaces`), the keyboard target generator (`KeyboardTarget`), the rigid-body/centroidal state layout (`StateEstimator`), the system observation record (`Observations`) and the rotation helpers (`Rotations`).

Floating-point numerics (trigonometry, square root, the Riccati integration, the jump map, the com model, the kinematics and the constraint values and derivatives) enter the model as function parameters, so every proof holds for any such function. NaN times (a contact with no start or no end) are `Option` values. The ROS package lookup is the parameter `getPath`.

## Model

| member | source | states |
|---|---|---|
| Rotations.RotationMatrixBaseToOrigin | common/ocs2_switched_model_interface/include/ocs2_switched_model_interface/core/Rotations.h:19-61 | the generated coefficients equal the product Rx(roll)·Ry(pitch)·Rz(yaw) of the elementary rotations |
| Rotations.RotationMatrixOriginToBase | common/ocs2_switched_model_interface/include/ocs2_switched_model_interface/core/Rotations.h:63-66 | the transpose of base-to-origin is the elementary rotations undone in reverse order, Rz(yaw)ᵀ·Ry(pitch)ᵀ·Rx(roll)ᵀ |
| Rotations.OriginToBaseInvertsBaseToOrigin | common/ocs2_switched_model_interface/include/ocs2_switched_model_interface/core/Rotations.h:63-66 | origin-to-base is the transpose of base-to-origin, and it undoes it whenever sin²+cos²=1 for each angle |
| Rotations.CrossProductMatrix | common/ocs2_switched_model_interface/include/ocs2_switched_model_interface/core/Rotations.h:88-97 | fails with the 3-by-1 error exactly when inner size ≠ 3 or outer size ≠ 1; otherwise M·b = a×b for every b, and Mᵀ = −M |
| Rotations.CrossProductMatrixAnnihilatesItsVector | common/ocs2_switched_model_interface/include/ocs2_switched_model_interface/core/Rotations.h:95 | the skew matrix of a maps a itself to zero |
| Terrain.GetConvexTerrainAtPositionInWorld | common/ocs2_switched_model_interface/include/ocs2_switched_model_interface/terrain/TerrainModel.h:27-29 | by default the convex region is the along-gravity plane at the same point with an empty boundary |
| Terrain.GetSignedDistanceField | common/ocs2_switched_model_interface/include/ocs2_switched_model_interface/terrain/TerrainModel.h:31-32 | a terrain without an override has no signed distance field |
| Terrain.DefaultsAgreeWithAlongGravity | common/ocs2_switched_model_interface/include/ocs2_switched_model_interface/terrain/TerrainModel.h:21-32 | a terrain keeping both defaults answers the convex query with the along-gravity plane and has no field |
| FootPhases.ContactFlag | common/ocs2_switched_model_interface/include/ocs2_switched_model_interface/foot_planner/FootPhase.h:74-101 | the contact flag is true exactly for a stance phase |
| FootPhases.GetFootTangentialConstraintInWorldFrame | common/ocs2_switched_model_interface/include/ocs2_switched_model_interface/foot_planner/FootPhase.h:60-77 | a tangential constraint exists exactly in stance, and then comes from the stance terrain |
| FootPhases.GetSignedDistanceConstraint | common/ocs2_switched_model_interface/include/ocs2_switched_model_interface/foot_planner/FootPhase.h:62-104 | stance gives the default {no field, 0.0}; a swing gives its own constraint |
| ModeSchedules.ModeNumber2StanceLeg | common/ocs2_switched_model_interface/src/logic/SwitchedModelModeScheduleManager.cpp:19-21 | four flags, one per leg; STANCE sets all, FLY none |
| ModeSchedules.ModeEncodingRoundTrip | common/ocs2_switched_model_interface/src/logic/SwitchedModelModeScheduleManager.cpp:19-21 | decoding and re-encoding a mode number, or encoding and decoding flags, is the identity |
| ModeSchedules.FindIndexInTimeArray | common/ocs2_switched_model_interface/src/foot_planner/SwingTrajectoryPlanner.cpp:51-54 | the index is at most the number of events and, for sorted events, brackets the query time |
| ModeSchedules.ModeAtTime | common/ocs2_switched_model_interface/src/logic/SwitchedModelModeScheduleManager.cpp:19-21 | the mode at t is the entry of the mode sequence at an index that brackets t |
| ModeSchedules.LegContactFlags | common/ocs2_switched_model_interface/src/logic/SwitchedModelModeScheduleManager.cpp:35 | one flag per mode, the leg's bit of that mode |
| ModeSchedules.ExtractContactTimings | common/ocs2_switched_model_interface/src/logic/SwitchedModelModeScheduleManager.cpp:35 | one interval per maximal run a..b of contact phases, in order: it starts at event a−1 (none iff a = 0) and ends at event b (none iff b is the last phase); every contact phase lies in a run; there are as many intervals as phases that open a run |
| ModeSchedules.TimingsAreContactRuns | common/ocs2_switched_model_interface/src/logic/SwitchedModelModeScheduleManager.cpp:35 | the extraction's intervals are those of the maximal contact runs, in increasing order, covering every contact phase, and their number is the number of run starts |
| ModeSchedules.ContactPhaseInOneRun | common/ocs2_switched_model_interface/src/logic/SwitchedModelModeScheduleManager.cpp:35 | a contact phase lies in exactly one extracted interval's run, and a phase without contact lies in none |
| ModeSchedules.ExtractContactTimingsPerLeg | common/ocs2_switched_model_interface/src/logic/SwitchedModelModeScheduleManager.cpp:35 | four timing lists, one per leg, each the intervals of that leg's maximal contact runs over the schedule's events, as many as the leg's run starts |
| ModeSchedules.TimingsFromWellFormed | common/ocs2_switched_model_interface/src/logic/SwitchedModelModeScheduleManager.cpp:35 | extracted timings: only the first may lack a start, only the last an end |
| ModeSchedules.TimingsFromOrdered | common/ocs2_switched_model_interface/src/logic/SwitchedModelModeScheduleManager.cpp:35 | for increasing events, each extracted contact starts before it ends and ends before the next starts |
| ModeSchedules.TimingsFromFirstStart | common/ocs2_switched_model_interface/src/logic/SwitchedModelModeScheduleManager.cpp:35 | the first contact interval found from phase p >= 1 on has a start time, and it is no earlier than the event before p |
| ModeSchedules.ExtractedTimingsWellFormed | common/ocs2_switched_model_interface/src/logic/SwitchedModelModeScheduleManager.cpp:34-37 | for a well-formed schedule every leg's timings are well formed and ordered |
| GaitSchedules.CycleEventsShape | common/ocs2_switched_model_interface/include/ocs2_switched_model_interface/logic/GaitSchedule.h:39-45 | one template cycle's events are strictly increasing, after its start and ending exactly one period later |
| GaitSchedules.TiledEventsShape | common/ocs2_switched_model_interface/include/ocs2_switched_model_interface/logic/GaitSchedule.h:39-45 | k tiled cycles give one event per mode, strictly increasing, after the start and ending at the k-th cycle start |
| GaitSchedules.TilingWellFormed | common/ocs2_switched_model_interface/include/ocs2_switched_model_interface/logic/GaitSchedule.h:39-45 | appending a tiling after the last event keeps the schedule well formed |
| GaitSchedules.TilingStep | common/ocs2_switched_model_interface/include/ocs2_switched_model_interface/logic/GaitSchedule.h:39-45 | appending one template cycle at the last event extends a k-cycle tiling to k+1 cycles |
| GaitSchedules.AppendTilingWellFormed | common/ocs2_switched_model_interface/include/ocs2_switched_model_interface/logic/GaitSchedule.h:39-45 | events followed by a start time later than them and a tiling stay strictly increasing |
| GaitSchedules.GaitSchedule.constructor | common/ocs2_switched_model_interface/include/ocs2_switched_model_interface/logic/GaitSchedule.h:22-50 | stores the schedule, the template and the phase-transition stance time |
| GaitSchedules.GaitSchedule.TilingLoopStep | common/ocs2_switched_model_interface/include/ocs2_switched_model_interface/logic/GaitSchedule.h:39-45 | one pass of the tiling loop extends a k-cycle tiling to k+1 cycles and lowers the number of periods left to the final time |
| GaitSchedules.GaitSchedule.TileModeSequenceTemplate | common/ocs2_switched_model_interface/include/ocs2_switched_model_interface/logic/GaitSchedule.h:39-45 | appends whole template cycles from startTime until the schedule reaches finalTime, keeping earlier events and ending in stance |
| GaitSchedules.GaitSchedule.AppendCycle | common/ocs2_switched_model_interface/include/ocs2_switched_model_interface/logic/GaitSchedule.h:39-45 | appends one template cycle after the last event: the cycle's events and its modes, in order |
| GaitSchedules.GaitSchedule.PeriodsLeftDecrease | common/ocs2_switched_model_interface/include/ocs2_switched_model_interface/logic/GaitSchedule.h:39-45 | the number of whole periods left to the final time is non-negative and drops by one per appended cycle, so tiling ends |
| GaitSchedules.GaitSchedule.EventsBefore | common/ocs2_switched_model_interface/include/ocs2_switched_model_interface/logic/GaitSchedule.h:48 | the count of events before t: every earlier event is before t and every later one is not |
| GaitSchedules.GaitSchedule.Kept | common/ocs2_switched_model_interface/include/ocs2_switched_model_interface/logic/GaitSchedule.h:48 | the suffix of a well-formed schedule from t on stays well formed, keeps only events not before t and drops only events before t |
| GaitSchedules.GaitSchedule.DiscardBefore | common/ocs2_switched_model_interface/include/ocs2_switched_model_interface/logic/GaitSchedule.h:48 | the stored schedule becomes its part from t on and stays valid |
| GaitSchedules.GaitSchedule.RetilingKeepsEvents | common/ocs2_switched_model_interface/include/ocs2_switched_model_interface/logic/GaitSchedule.h:24-28 | replacing the final mode by a tiling from the last event keeps every event and mode up to it and keeps all events after the lower bound |
| GaitSchedules.GaitSchedule.SplicedPrefix | common/ocs2_switched_model_interface/include/ocs2_switched_model_interface/logic/GaitSchedule.h:30-36 | the events kept before the splice time plus the transition stance form a well-formed schedule that ends before the stance does |
| GaitSchedules.GaitSchedule.AdvanceToTime | common/ocs2_switched_model_interface/include/ocs2_switched_model_interface/logic/GaitSchedule.h:48 | moves the schedule clock to t and drops the events before it, keeping the template |
| GaitSchedules.GaitSchedule.GetModeSchedule | common/ocs2_switched_model_interface/include/ocs2_switched_model_interface/logic/GaitSchedule.h:24-28 | returns the stored schedule, which reaches upperBoundTime, starts no earlier than lowerBoundTime and extends the old one |
| GaitSchedules.GaitSchedule.GetModeScheduleAhead | common/ocs2_switched_model_interface/src/logic/SwitchedModelModeScheduleManager.cpp:30 | the one-argument query: the schedule reaches time + horizon and starts no earlier than the clock |
| GaitSchedules.GaitSchedule.InsertModeSequenceTemplate | common/ocs2_switched_model_interface/include/ocs2_switched_model_interface/logic/GaitSchedule.h:30-36 | keeps the events before startTime, inserts the optional stance transition and tiles the new template up to finalTime |
| SwingPlanSpec.GetSwingMotionScaling | common/ocs2_switched_model_interface/src/foot_planner/SwingTrajectoryPlanner.cpp:119-125 | 1.0 when a time is missing; otherwise min(1, duration/swingTimeScale): never above 1 and positive for a positive duration |
| SwingPlanSpec.ScaledSwing | common/ocs2_switched_model_interface/src/foot_planner/SwingTrajectoryPlanner.cpp:72-76 | a swing from the lift-off to the touch-down event: the event times and planes, the terrain's distance field and the error gain are passed on unchanged |
| SwingPlanSpec.ScaledSwingScaling | common/ocs2_switched_model_interface/src/foot_planner/SwingTrajectoryPlanner.cpp:72-76 | both event velocities and the swing height are multiplied by the same scaling; a touch-down at rest stays at rest, and for a swing that lifts off before it touches down the height stays between 0 and the nominal height |
| SwingPlanSpec.MiddleContactTime | common/ocs2_switched_model_interface/src/foot_planner/SwingTrajectoryPlanner.cpp:142-148 | the midpoint of a finite contact; for an open contact the midpoint of start and max(finalTime, start) |
| SwingPlanSpec.LevelBaseFoothold | common/ocs2_switched_model_interface/src/foot_planner/SwingTrajectoryPlanner.cpp:150-158 | for a level base the nominal foothold is the base position plus the nominal offset |
| SwingPlanSpec.NominalFoothold | common/ocs2_switched_model_interface/src/foot_planner/SwingTrajectoryPlanner.cpp:150-167 | the full convex terrain at the nominal foot position if the contact starts before finalTime, otherwise only the plane |
| SwingPlanSpec.FootholdsOfShape | common/ocs2_switched_model_interface/src/foot_planner/SwingTrajectoryPlanner.cpp:140-169 | one foothold per contact with a start, in order |
| SwingPlanSpec.NominalFootholdsMatchTimings | common/ocs2_switched_model_interface/src/foot_planner/SwingTrajectoryPlanner.cpp:127-172 | one foothold per contact timing; the last contact plane for an ongoing stance, the nominal foothold for each contact with a start |
| SwingPlanSpec.FirstSwing | common/ocs2_switched_model_interface/src/foot_planner/SwingTrajectoryPlanner.cpp:61-77 | the leading swing lifts off from the last contact; it lands on the first foothold if the leg touches down at all, else after the horizon |
| SwingPlanSpec.NoSwingEndsPlan | common/ocs2_switched_model_interface/src/foot_planner/SwingTrajectoryPlanner.cpp:95-96 | a contact without a finite end before finalTime ends the plan |
| SwingPlanSpec.IntervalPlanShape | common/ocs2_switched_model_interface/src/foot_planner/SwingTrajectoryPlanner.cpp:80-111 | an interval starting no later than finalTime adds its start event and a stance, then possibly its end event and a swing touching down at the next interval's later start; without that swing the plan ends there |
| SwingPlanSpec.FirstStanceShape | common/ocs2_switched_model_interface/src/foot_planner/SwingTrajectoryPlanner.cpp:89-111 | for a leg starting in contact the first interval adds a stance without an event and possibly its end event with a swing to the next start; without that swing the plan ends there |
| SwingPlanSpec.PlanFromStep | common/ocs2_switched_model_interface/src/foot_planner/SwingTrajectoryPlanner.cpp:80-114 | peeling off one interval that starts no later than finalTime keeps the planned-so-far plus the rest unchanged (the loop's invariant step) |
| SwingPlanSpec.PlanFromCounts | common/ocs2_switched_model_interface/src/foot_planner/SwingTrajectoryPlanner.cpp:80-114 | from an interval with a start: as many phases as events, the first event is that start, stances at even and swings at odd positions |
| SwingPlanSpec.PlanFromEvents | common/ocs2_switched_model_interface/src/foot_planner/SwingTrajectoryPlanner.cpp:80-114 | from an interval with a start: events strictly increasing and none after finalTime |
| SwingPlanSpec.PlanFromSwingTimes | common/ocs2_switched_model_interface/src/foot_planner/SwingTrajectoryPlanner.cpp:97-110 | every swing lifts off at the event that begins it, before finalTime, and touches down at the next event, if any |
| SwingPlanSpec.PlanFromHorizonTouchDown | common/ocs2_switched_model_interface/src/foot_planner/SwingTrajectoryPlanner.cpp:66-105 | only the last phase may touch down without a plane, and it does so at finalTime + touchdownAfterHorizon with velocity 0 |
| SwingPlanSpec.SwingTrajectoriesCounts | common/ocs2_switched_model_interface/src/foot_planner/SwingTrajectoryPlanner.cpp:51-117 | one more phase than events; the first phase is stance exactly when the leg starts in contact; phases alternate |
| SwingPlanSpec.SwingTrajectoriesEvents | common/ocs2_switched_model_interface/src/foot_planner/SwingTrajectoryPlanner.cpp:62-114 | event times strictly increasing and none after finalTime |
| SwingPlanSpec.SwingTrajectoriesSwingTimes | common/ocs2_switched_model_interface/src/foot_planner/SwingTrajectoryPlanner.cpp:63-111 | each swing lifts off at the event before it (before finalTime) and touches down at the event after it |
| SwingPlanSpec.SwingStartSwingTimes | common/ocs2_switched_model_interface/src/foot_planner/SwingTrajectoryPlanner.cpp:61-111 | the swing timing property for a leg starting in swing |
| SwingPlanSpec.StanceStartSwingTimes | common/ocs2_switched_model_interface/src/foot_planner/SwingTrajectoryPlanner.cpp:80-111 | the swing timing property for a leg starting in stance |
| SwingPlanSpec.SwingTrajectoriesHorizonTouchDown | common/ocs2_switched_model_interface/src/foot_planner/SwingTrajectoryPlanner.cpp:64-105 | a swing without a target plane is the last phase and touches down after the horizon |
| SwingPlanning.ComPoseOf | common/ocs2_switched_model_interface/src/foot_planner/SwingTrajectoryPlanner.cpp:32 | the com pose is the first six entries of the comkino state |
| SwingPlanning.ContactPlane | common/ocs2_switched_model_interface/src/foot_planner/SwingTrajectoryPlanner.cpp:176-178 | the along-gravity plane moved to the foot position |
| SwingPlanning.UpdatedLastContact | common/ocs2_switched_model_interface/src/foot_planner/SwingTrajectoryPlanner.cpp:38-41 | a leg starting in stance records the first contact's end and the plane at the foot; otherwise the last contact is kept |
| SwingPlanning.SwingTrajectoryPlanner.constructor | common/ocs2_switched_model_interface/src/foot_planner/SwingTrajectoryPlanner.cpp:14-19 | no terrain yet; stores the settings and the nominal base-to-foot positions of the nominal joints |
| SwingPlanning.SwingTrajectoryPlanner.UpdateTerrain | common/ocs2_switched_model_interface/src/foot_planner/SwingTrajectoryPlanner.cpp:21-23 | installs the terrain |
| SwingPlanning.SwingTrajectoryPlanner.UpdateLastContact | common/ocs2_switched_model_interface/src/foot_planner/SwingTrajectoryPlanner.cpp:174-180 | only the leg's last contact changes, to the expected lift-off and the plane at the foot |
| SwingPlanning.SwingTrajectoryPlanner.SelectNominalFootholdTerrain | common/ocs2_switched_model_interface/src/foot_planner/SwingTrajectoryPlanner.cpp:127-172 | the loop builds exactly the specified nominal footholds |
| SwingPlanning.SwingTrajectoryPlanner.SelectFoothold | common/ocs2_switched_model_interface/src/foot_planner/SwingTrajectoryPlanner.cpp:140-168 | the foothold computed for one contact with a start is the specified nominal foothold |
| SwingPlanning.SwingTrajectoryPlanner.FirstSwingPhase | common/ocs2_switched_model_interface/src/foot_planner/SwingTrajectoryPlanner.cpp:61-77 | builds the specified leading swing |
| SwingPlanning.SwingTrajectoryPlanner.GenerateSwingTrajectories | common/ocs2_switched_model_interface/src/foot_planner/SwingTrajectoryPlanner.cpp:56-117 | the loop builds exactly the specified events and phases |
| SwingPlanning.SwingTrajectoryPlanner.PlanInterval | common/ocs2_switched_model_interface/src/foot_planner/SwingTrajectoryPlanner.cpp:89-111 | the events and phases one loop iteration appends are the specified contribution of that interval |
| SwingPlanning.SwingTrajectoryPlanner.ScaledSwingPhase | common/ocs2_switched_model_interface/src/foot_planner/SwingTrajectoryPlanner.cpp:72-76 | the swing built with the scaled velocities and height is the specified scaled swing |
| SwingPlanning.SwingTrajectoryPlanner.PlanLeg | common/ocs2_switched_model_interface/src/foot_planner/SwingTrajectoryPlanner.cpp:35-48 | one leg's iteration: last contact, footholds and plan of that leg replaced, other legs unchanged |
| SwingPlanning.SwingTrajectoryPlanner.UpdateSwingMotions | common/ocs2_switched_model_interface/src/foot_planner/SwingTrajectoryPlanner.cpp:25-49 | fails with nothing changed when no terrain is set; otherwise every leg's last contact, footholds and plan are the specified ones |
| SwingPlanning.SwingTrajectoryPlanner.GetFootPhase | common/ocs2_switched_model_interface/src/foot_planner/SwingTrajectoryPlanner.cpp:51-54 | the phase at an index that brackets the time in the leg's sorted events |
| ScheduleManager.SwitchedModelModeScheduleManager.constructor | common/ocs2_switched_model_interface/src/logic/SwitchedModelModeScheduleManager.cpp:11-17 | holds the default schedule and the given gait schedule, planner and terrain |
| ScheduleManager.SwitchedModelModeScheduleManager.GetContactFlags | common/ocs2_switched_model_interface/src/logic/SwitchedModelModeScheduleManager.cpp:19-21 | four flags whose encoding is the mode active at the time |
| ScheduleManager.SwitchedModelModeScheduleManager.PreSolverRunImpl | common/ocs2_switched_model_interface/src/logic/SwitchedModelModeScheduleManager.cpp:23-38 | gait clock at initTime; the stored schedule is the one read, reaching initTime + 2·horizon; every leg re-planned from that schedule's timings and the current terrain, with sorted events and one more phase than events |
| ComKinoConstraints.Find | common/ocs2_switched_model_interface/src/AnymalWheelsComKinoConstraintAd.cpp:82-88 | the first term with the name, or none exists |
| ComKinoConstraints.FrictionConeLayout | common/ocs2_switched_model_interface/src/AnymalWheelsComKinoConstraintAd.cpp:48-66 | leg l's friction cone, under the foot name plus its suffix, is inequality term l |
| ComKinoConstraints.EqualityTermsLayout | common/ocs2_switched_model_interface/src/AnymalWheelsComKinoConstraintAd.cpp:48-71 | leg l's zero-force, foot-normal and velocity terms, under the foot name plus their suffixes, are equality terms 3l, 3l+1 and 3l+2 |
| ComKinoConstraints.TermNamesDistinct | common/ocs2_switched_model_interface/src/AnymalWheelsComKinoConstraintAd.cpp:66-88 | two term names are equal exactly when foot and suffix are |
| ComKinoConstraints.EqualityNamesDistinct | common/ocs2_switched_model_interface/src/AnymalWheelsComKinoConstraintAd.cpp:66-88 | no two equality terms share a name |
| ComKinoConstraints.RefreshEqualityTerm | common/ocs2_switched_model_interface/src/AnymalWheelsComKinoConstraintAd.cpp:98-118 | a refresh keeps the term's kind and leg |
| ComKinoConstraints.RefreshEqualityTermMeaning | common/ocs2_switched_model_interface/src/AnymalWheelsComKinoConstraintAd.cpp:98-118 | zero force active iff not in contact; foot normal always active and set from the phase; lateral velocity active iff in contact, with A=[0 1 0], b=0 |
| ComKinoConstraints.RefreshedEqualitiesStep | common/ocs2_switched_model_interface/src/AnymalWheelsComKinoConstraintAd.cpp:95-120 | refreshing leg n's terms after legs 0..n-1 gives legs 0..n refreshed, so the loop's order is what the specification says |
| ComKinoConstraints.RefreshedEqualitiesLayout | common/ocs2_switched_model_interface/src/AnymalWheelsComKinoConstraintAd.cpp:95-120 | refreshing keeps every equality term's name, kind and leg |
| ComKinoConstraints.RefreshedEqualitiesPerLeg | common/ocs2_switched_model_interface/src/AnymalWheelsComKinoConstraintAd.cpp:95-120 | after refreshing all legs, each leg's three terms are refreshed for that leg's own phase |
| ComKinoConstraints.RefreshInequalityTerm | common/ocs2_switched_model_interface/src/AnymalWheelsComKinoConstraintAd.cpp:130-136 | the friction cone is active iff in contact, and then takes the phase's normal |
| ComKinoConstraints.AnymalWheelsComKinoConstraintAd.constructor | common/ocs2_switched_model_interface/src/AnymalWheelsComKinoConstraintAd.cpp:5-18 | registers the four friction cones and twelve equality terms and stores the handles |
| ComKinoConstraints.AnymalWheelsComKinoConstraintAd.Copy | common/ocs2_switched_model_interface/src/AnymalWheelsComKinoConstraintAd.cpp:23-33 | a copy with the same collections and shared planner |
| ComKinoConstraints.AnymalWheelsComKinoConstraintAd.Clone | common/ocs2_switched_model_interface/src/AnymalWheelsComKinoConstraintAd.cpp:38-40 | a fresh copy |
| ComKinoConstraints.AnymalWheelsComKinoConstraintAd.InitializeConstraintTerms | common/ocs2_switched_model_interface/src/AnymalWheelsComKinoConstraintAd.cpp:45-73 | the collections become the registered layout |
| ComKinoConstraints.AnymalWheelsComKinoConstraintAd.CollectConstraintPointers | common/ocs2_switched_model_interface/src/AnymalWheelsComKinoConstraintAd.cpp:78-90 | each handle points at the term registered under its name |
| ComKinoConstraints.AnymalWheelsComKinoConstraintAd.FindInequality | common/ocs2_switched_model_interface/src/AnymalWheelsComKinoConstraintAd.cpp:82-83 | the lookup by name finds leg's friction cone at index leg |
| ComKinoConstraints.AnymalWheelsComKinoConstraintAd.FindEqualities | common/ocs2_switched_model_interface/src/AnymalWheelsComKinoConstraintAd.cpp:84-88 | the lookups by name find the leg's terms at 3·leg, 3·leg+1, 3·leg+2 |
| ComKinoConstraints.AnymalWheelsComKinoConstraintAd.RefreshLegEqualities | common/ocs2_switched_model_interface/src/AnymalWheelsComKinoConstraintAd.cpp:97-118 | only that leg's three equality terms are refreshed |
| ComKinoConstraints.AnymalWheelsComKinoConstraintAd.UpdateStateInputEqualityConstraints | common/ocs2_switched_model_interface/src/AnymalWheelsComKinoConstraintAd.cpp:95-120 | the new equality terms are the old ones with every leg's terms refreshed for its phase at t, and the layout is kept |
| ComKinoConstraints.AnymalWheelsComKinoConstraintAd.RefreshLegInequality | common/ocs2_switched_model_interface/src/AnymalWheelsComKinoConstraintAd.cpp:128-136 | only that leg's friction cone is refreshed |
| ComKinoConstraints.AnymalWheelsComKinoConstraintAd.UpdateInequalityConstraints | common/ocs2_switched_model_interface/src/AnymalWheelsComKinoConstraintAd.cpp:125-138 | every friction cone refreshed from its leg's phase at t |
| ComKinoConstraints.AnymalWheelsComKinoConstraintAd.StateInputEqualityConstraint | common/ocs2_switched_model_interface/src/AnymalWheelsComKinoConstraintAd.cpp:143-146 | refreshes first, then returns the values of the active terms |
| ComKinoConstraints.AnymalWheelsComKinoConstraintAd.InequalityConstraint | common/ocs2_switched_model_interface/src/AnymalWheelsComKinoConstraintAd.cpp:151-154 | refreshes first, then returns the values of the active terms |
| ComKinoConstraints.AnymalWheelsComKinoConstraintAd.StateInputEqualityConstraintLinearApproximation | common/ocs2_switched_model_interface/src/AnymalWheelsComKinoConstraintAd.cpp:159-171 | refreshes first; keeps exactly the first numConstraints rows of value and both derivatives |
| ComKinoConstraints.AnymalWheelsComKinoConstraintAd.InequalityConstraintQuadraticApproximation | common/ocs2_switched_model_interface/src/AnymalWheelsComKinoConstraintAd.cpp:176-181 | refreshes first, then approximates the refreshed collection |
| SlqBackwardPass.ConfigurationCheck | ocs2_ddp/src/SLQ.cpp:41-60 | passes iff the algorithm is SLQ and the backward integrator one of the four supported; the algorithm error comes first |
| SlqBackwardPass.ThreadRiccatiEquations | ocs2_ddp/src/SLQ.cpp:62-68 | the Riccati equations are built with pre-computation only under line search, and risk-sensitive iff the coefficient is non-zero |
| SlqBackwardPass.SLQ.constructor | ocs2_ddp/src/SLQ.cpp:38-71 | every per-thread stock has nThreads entries: empty trajectories and one Riccati equation and integrator per thread |
| SlqBackwardPass.NewSlq | ocs2_ddp/src/SLQ.cpp:38-71 | construction succeeds exactly when the configuration check passes, and otherwise reports its error |
| SlqBackwardPass.SwitchingSegments | ocs2_ddp/src/SLQ.cpp:272-281 | numEvents+1 segments: the first begins at 0, the last ends at the end, each ends where the next begins, at the post-event index |
| SlqBackwardPass.NormalizedSwitchingTimesIndices | ocs2_ddp/src/SLQ.cpp:272-281 | the loop builds exactly the specified segments |
| SlqBackwardPass.SwitchingSegmentsRunnable | ocs2_ddp/src/SLQ.cpp:284-298 | the segments are non-empty, in range, and every jump happens inside the time array |
| SlqBackwardPass.ContiguousSlices | ocs2_ddp/src/SLQ.cpp:284-298 | slicing along contiguous segments concatenates to the covered range |
| SlqBackwardPass.SegmentsCoverTime | ocs2_ddp/src/SLQ.cpp:284-298 | the segments together cover the whole normalized time array |
| SlqBackwardPass.IntegrateRiccatiEquationNominalTime | ocs2_ddp/src/SLQ.cpp:258-303 | the collected trajectory is the backward pass with a jump after every segment but the last; a size other than the time array's is an error |
| SlqBackwardPass.BackwardPassStep | ocs2_ddp/src/SLQ.cpp:284-298 | the backward pass is the first segment's recording followed, unless it is the last segment, by the pass over the rest started from the jump map at the segment's end |
| SlqBackwardPass.IntegrateSegment | ocs2_ddp/src/SLQ.cpp:284-298 | one loop pass: what is collected plus the pass over the remaining segments equals what was collected before plus the pass over all segments |
| SlqBackwardPass.BackwardPassSize | ocs2_ddp/src/SLQ.cpp:284-298 | the collected size is the sum of the observed sizes per segment |
| SlqBackwardPass.ExactObserverPassesSizeCheck | ocs2_ddp/src/SLQ.cpp:300-302 | an integrator that records one state per requested time always passes the size check |
| SlqBackwardPass.DenormalizeValueFunction | ocs2_ddp/src/SLQ.cpp:246-252 | value function k in [first, second) is the converted sample outputN−1−(k−first), the rest unchanged; a full partition is the reversed conversion |
| SlqBackwardPass.AdaptiveSwitchingTimes | ocs2_ddp/src/SLQ.cpp:320-327 | numEvents+1 negated intervals: the first starts at −t_last, the last ends at −t_first, consecutive ones meet at the negated event times |
| SlqBackwardPass.NormalizedSwitchingTimes | ocs2_ddp/src/SLQ.cpp:320-327 | the reverse loop builds exactly the specified intervals |
| SlqBackwardPass.IntegrateRiccatiEquationAdaptiveTime | ocs2_ddp/src/SLQ.cpp:308-349 | times and states are the concatenated recorded blocks; exactly numEvents post-event indices, strictly increasing and inside the trajectory |
| SlqBackwardPass.AdaptiveBlocksStep | ocs2_ddp/src/SLQ.cpp:333-348 | interval i's recording is non-empty, and the following interval starts from the jump map applied to its last state |
| SlqBackwardPass.IntegrateInterval | ocs2_ddp/src/SLQ.cpp:333-348 | one loop pass: times and states grow by interval i's recorded block, a post-event index at the new size is added except after the last interval, and the rest of the blocks start from the new final state |
| SlqBackwardPass.PostEventIndicesIncrease | ocs2_ddp/src/SLQ.cpp:343-346 | the recorded post-event indices are strictly increasing and below the trajectory size |
| SlqBackwardPass.FlattenGrows | ocs2_ddp/src/SLQ.cpp:333-348 | each recorded block adds at least one sample |
| SlqBackwardPass.StabilityReport | ocs2_ddp/src/SLQ.cpp:155-166 | no report without the check; otherwise the gain message first, then the bias message, else none |
| SlqBackwardPass.CalculateControllerWorker | ocs2_ddp/src/SLQ.cpp:103-167 | writes only index k of the controller arrays and returns the stability report instead of throwing |
| AnymalModels.ToString | ocs2_anymal_models/src/AnymalModels.cpp:28-36 | every model has a non-empty name |
| AnymalModels.ToStringInjective | ocs2_anymal_models/src/AnymalModels.cpp:28-36 | distinct models have distinct names |
| AnymalModels.StringToAnymalModel | ocs2_anymal_models/src/AnymalModels.cpp:38-45 | succeeds iff the name is in the reverse table; an unknown name is an error naming it |
| AnymalModels.NameRoundTrip | ocs2_anymal_models/src/AnymalModels.cpp:33-45 | every model but Wheels is found again from its name; the Wheels round trip fails |
| AnymalModels.StringRoundTrip | ocs2_anymal_models/src/AnymalModels.cpp:38-45 | an accepted name is the name of the model returned |
| AnymalModels.GetAnymalKinematics | ocs2_anymal_models/src/AnymalModels.cpp:47-64 | succeeds for all six models |
| AnymalModels.GetAnymalKinematicsAd | ocs2_anymal_models/src/AnymalModels.cpp:66-83 | succeeds for all six models |
| AnymalModels.GetAnymalComModel | ocs2_anymal_models/src/AnymalModels.cpp:85-102 | succeeds for all six models |
| AnymalModels.GetAnymalComModelAd | ocs2_anymal_models/src/AnymalModels.cpp:104-121 | succeeds for all six models |
| AnymalModels.GetWholebodyDynamics | ocs2_anymal_models/src/AnymalModels.cpp:123-140 | succeeds iff the model is not wheeled; fails with the wheels message otherwise |
| AnymalModels.GetWholebodyDynamicsAd | ocs2_anymal_models/src/AnymalModels.cpp:142-159 | succeeds iff the model is not wheeled; fails with the wheels message otherwise |
| AnymalModels.FactoryCoverage | ocs2_anymal_models/src/AnymalModels.cpp:47-159 | every factory builds what was asked for and fails only for whole-body dynamics of a wheeled model, for either scalar type |
| KeyboardTarget.Deg2Rad | include/ocs2_quadruped_interface/TargetTrajectories_Keyboard_Quadruped.h:111 | rad·180 = deg·π |
| KeyboardTarget.PositionModeState | include/ocs2_quadruped_interface/TargetTrajectories_Keyboard_Quadruped.h:114-123 | state[j]=deg2rad(cmd[3+j]), state[3+j]=cmd[j], state[6+j]=cmd[9+j], state[9+j]=cmd[6+j] |
| KeyboardTarget.VelocityModeState | include/ocs2_quadruped_interface/TargetTrajectories_Keyboard_Quadruped.h:124-134 | state[6+j]=cmd[3+j], state[9+j]=cmd[j], state[j]=deg2rad(cmd[9+j]), state[3+j]=cmd[6+j] |
| KeyboardTarget.VelocityModeIsSwappedPositionMode | include/ocs2_quadruped_interface/TargetTrajectories_Keyboard_Quadruped.h:114-134 | velocity mode is position mode applied to the command with its halves swapped |
| KeyboardTarget.DesiredInput | include/ocs2_quadruped_interface/TargetTrajectories_Keyboard_Quadruped.h:143-147 | zero except 80.0 at indices 2, 5, 8 and 11 |
| KeyboardTarget.TargetTrajectoriesKeyboardQuadruped.constructor | include/ocs2_quadruped_interface/TargetTrajectories_Keyboard_Quadruped.h:71-90 | stores the mode, heights, default joints and velocities |
| KeyboardTarget.TargetTrajectoriesKeyboardQuadruped.EstimeTimeToTarget | include/ocs2_quadruped_interface/TargetTrajectories_Keyboard_Quadruped.h:217-223 | the larger of the rotation time abs(dyaw)/rotation velocity and the displacement time sqrt(dx²+dy²)/displacement velocity: at least each, and equal to one |
| KeyboardTarget.TargetTrajectoriesKeyboardQuadruped.TimeToTargetBounds | include/ocs2_quadruped_interface/TargetTrajectories_Keyboard_Quadruped.h:217-223 | the time to target is non-negative for positive velocities |
| KeyboardTarget.TargetTrajectoriesKeyboardQuadruped.DesiredBaseState | include/ocs2_quadruped_interface/TargetTrajectories_Keyboard_Quadruped.h:113-137 | the position or velocity layout for the two known modes, none for an unknown one |
| KeyboardTarget.TargetTrajectoriesKeyboardQuadruped.ToCostDesiredTimeStateInput | include/ocs2_quadruped_interface/TargetTrajectories_Keyboard_Quadruped.h:105-148 | 12 entries in the mode's layout; the time from state[2..4]; the stance input |
| KeyboardTarget.TargetTrajectoriesKeyboardQuadruped.InitialTargetState | include/ocs2_quadruped_interface/TargetTrajectories_Keyboard_Quadruped.h:178-182 | the current 12 base entries, then the default joints |
| KeyboardTarget.TargetTrajectoriesKeyboardQuadruped.FinalTargetState | include/ocs2_quadruped_interface/TargetTrajectories_Keyboard_Quadruped.h:184-197 | roll and pitch absolute; yaw, x, y current plus command; z from initZHeight; velocities copied; default joints |
| KeyboardTarget.TargetTrajectoriesKeyboardQuadruped.ToCostDesiredTrajectories | include/ocs2_quadruped_interface/TargetTrajectories_Keyboard_Quadruped.h:150-207 | two times (now and now + time to target), the initial and final target states, the stance input twice |
| KeyboardTarget.TargetTrajectoriesKeyboardQuadruped.PositionCommandMovesBase | include/ocs2_quadruped_interface/TargetTrajectories_Keyboard_Quadruped.h:114-197 | in position mode the target moves yaw, x and y by the command and sets roll, pitch and height from it |
| StateEstimator.SwitchedModelStateEstimator.EstimateComState | common/ocs2_switched_model_interface/src/SwitchedModelStateEstimator.cpp:20-31 | com pose of the base pose, then com velocity of the base local velocity |
| StateEstimator.SwitchedModelStateEstimator.EstimateComkinoModelState | common/ocs2_switched_model_interface/src/SwitchedModelStateEstimator.cpp:14-18 | the com state followed by the joint positions, unchanged |
| StateEstimator.SwitchedModelStateEstimator.EstimateRbdModelState | common/ocs2_switched_model_interface/src/SwitchedModelStateEstimator.cpp:33-46 | [base pose, joint positions, base local velocity, joint velocities], joints passed through |
| StateEstimator.RbdStateLayout | common/ocs2_switched_model_interface/src/SwitchedModelStateEstimator.cpp:20-46 | getBasePose, the joint positions, getBaseLocalVelocity and the joint velocities split a rigid-body state into its four blocks, in that order |
| StateEstimator.RbdStateOfBlocks | common/ocs2_switched_model_interface/src/SwitchedModelStateEstimator.cpp:33-46 | the rigid-body getters read back each block a 36-entry state is assembled from |
| StateEstimator.ComkinoStateLayout | common/ocs2_switched_model_interface/src/SwitchedModelStateEstimator.cpp:14-18 | getComPose, getComLocalVelocities and getJointPositions split a comkino state into its three blocks, in that order |
| StateEstimator.ComkinoStateOfBlocks | common/ocs2_switched_model_interface/src/SwitchedModelStateEstimator.cpp:33-46 | the comkino getters read back each block a 24-entry state is assembled from |
| StateEstimator.RbdRoundTrip | common/ocs2_switched_model_interface/src/SwitchedModelStateEstimator.cpp:14-46 | rbd → comkino → rbd is the identity when the com model's conversions undo each other |
| StateEstimator.ComkinoRoundTrip | common/ocs2_switched_model_interface/src/SwitchedModelStateEstimator.cpp:14-46 | comkino → rbd → comkino is the identity when the conversions undo each other |
| Observations.SystemObservation.constructor | ocs2_comm_interfaces/include/ocs2_comm_interfaces/SystemObservation.h:55 | an observation of the given dimensions with nothing promised about its fields |
| Observations.SystemObservation.Swap | ocs2_comm_interfaces/include/ocs2_comm_interfaces/SystemObservation.h:58-64 | time, state, input and subsystem of the two observations exchanged |
| Observations.SystemObservation.SetTime | ocs2_comm_interfaces/include/ocs2_comm_interfaces/SystemObservation.h:66-67 | the written time is read back; nothing else changes |
| Observations.SystemObservation.SetState | ocs2_comm_interfaces/include/ocs2_comm_interfaces/SystemObservation.h:69-70 | the written state is read back; nothing else changes |
| Observations.SystemObservation.SetStateEntry | ocs2_comm_interfaces/include/ocs2_comm_interfaces/SystemObservation.h:71-72 | only entry i of the state changes |
| Observations.SystemObservation.SetInput | ocs2_comm_interfaces/include/ocs2_comm_interfaces/SystemObservation.h:74-75 | the written input is read back; nothing else changes |
| Observations.SystemObservation.SetInputEntry | ocs2_comm_interfaces/include/ocs2_comm_interfaces/SystemObservation.h:76-77 | only entry i of the input changes |
| Observations.SystemObservation.SetSubsystem | ocs2_comm_interfaces/include/ocs2_comm_interfaces/SystemObservation.h:79-80 | the written subsystem is read back; nothing else changes |
| Observations.SwapTwice | ocs2_comm_interfaces/include/ocs2_comm_interfaces/SystemObservation.h:58-64 | swapping twice restores both observations |
| AnymalInterfaces.ConfigFolderIn | ocs2_anymal_mpc/src/AnymalInterface.cpp:22-24 | the folder starts with the package path, then "/config/", and ends with the configuration name |
| AnymalInterfaces.TaskFileIn | ocs2_anymal_mpc/src/AnymalInterface.cpp:26-28 | the task file is the folder followed by "/task.info" |
| AnymalInterfaces.GetConfigFolder | ocs2_anymal_mpc/src/AnymalInterface.cpp:22-24 | the MPC package's path, then "/config/", then the configuration name |
| AnymalInterfaces.GetTaskFilePath | ocs2_anymal_mpc/src/AnymalInterface.cpp:26-28 | the configuration folder followed by "/task.info" |
| AnymalInterfaces.GetConfigFolderLoopshaping | ocs2_anymal_loopshaping_mpc/src/AnymalLoopshapingInterface.cpp:21-23 | the loopshaping package's path, then "/config/", then the configuration name |
| AnymalInterfaces.GetTaskFilePathLoopshaping | ocs2_anymal_loopshaping_mpc/src/AnymalLoopshapingInterface.cpp:25-27 | the loopshaping configuration folder followed by "/task.info" |
| AnymalInterfaces.TaskFilePath | ocs2_anymal_mpc/src/AnymalInterface.cpp:22-28 | the task path starts with the package path and ends with "/task.info"; different configurations give different paths |
| AnymalInterfaces.TaskFilePathLoopshaping | ocs2_anymal_loopshaping_mpc/src/AnymalLoopshapingInterface.cpp:21-27 | the same for the loopshaping package |
| AnymalInterfaces.GetAnymalInterface | ocs2_anymal_mpc/src/AnymalInterface.cpp:11-20 | always succeeds, from the four plain and AD kinematics and com factories of the same model, with the task folder unchanged |
| AnymalInterfaces.GetAnymalLoopshapingInterface | ocs2_anymal_loopshaping_mpc/src/AnymalLoopshapingInterface.cpp:13-19 | wraps the plain interface built for the same model and folder, and keeps that folder |

## Left out

- Trigonometry and square root are uninterpreted functions; the rotation proofs assume only sin²+cos²=1 where needed.
- `findIndexInTimeArray`, `modeNumber2StanceLeg`, `stanceLeg2ModeNumber`, `startsWithSwingPhase`, `startsWithStancePhase`, `hasStartTime`, `hasEndTime`, `touchesDownAtLeastOnce`, `extractContactTimingsPerLeg` and `ModeSchedule::modeAtTime` are not modelled from their bodies: each is specified from its uses in the planner and the manager (extraction yields one contact interval per maximal run of contact phases). The time lookup only promises an index that brackets the time, with no choice about which phase owns an exact event instant.
- The bodies of `GaitSchedule`'s methods are not modelled as written: the methods are specified from the header's comments (tiling appends whole template cycles and ends in stance; `insertModeSequenceTemplate` keeps the events before the start time). The manager's `advanceToTime`, one-argument `getModeSchedule` and the planner's `update` are modelled as `AdvanceToTime`, `GetModeScheduleAhead` and `UpdateTerrain` followed by `UpdateSwingMotions`.
- The mutexes of the manager and of the keyboard target are dropped; their steps are plain sequential calls.
- SwingPlanning.SwingTrajectoryPlanner.constructor: requires a positive `swingTimeScale` (the scaling divides by it) and starts the last contacts as a lift-off at 0.0 on the identity plane, standing in for the value-initialised array of the header, whose initial value is not modelled.
- Spline blending, terrain clearance and signed-distance evaluation inside the swing phase, the foot-normal constraint numerics and `loadSwingTrajectorySettings` (settings file I/O) are not modelled.
- The com and kinematics model clones in the planner and estimator constructors are not modelled; the models are values.
- SlqBackwardPass: parallel work distribution, threads and atomics, `approximateIntermediateLQ`, the step-size and tolerance settings and the controller matrix algebra are left out; the controller arrays' new entries are inputs to `CalculateControllerWorker`.
- SlqBackwardPass.ThreadRiccatiEquations: the risk-sensitive flag is `coefficient != 0.0`, exact, where the source compares with a floating-point tolerance.
- SlqBackwardPass.IntegrateRiccatiEquationNominalTime: `retrieveActiveNormalizedTime` is not modelled, so the normalized time array and the post-event indices are inputs, required to be strictly increasing inside the array; the Riccati integration of `riccatiEquationsWorker` and its value-function fill are modelled as two members.
- The integrator-type enumeration is not modelled in full: the four supported types are named and the rest grouped as `OtherIntegrator`.
- Printing (the stability message and the task-folder message on standard error) is not modelled; the stability message is returned instead.
- KeyboardTarget: the ROS subscription and the read of the latest observation are replaced by an observation parameter. An unknown command mode builds an exception without throwing it and leaves the desired state uninitialised; the model leaves those entries unspecified.
- KeyboardTarget.TargetTrajectoriesKeyboardQuadruped.EstimeTimeToTarget: requires both target velocities to be non-zero; for a zero velocity the source's floating-point division gives an infinite or NaN time, which is not modelled.
- KeyboardTarget.TargetTrajectoriesKeyboardQuadruped.ToCostDesiredTimeStateInput: requires both target velocities to be non-zero, for the same reason; the infinite or NaN desired time of a zero velocity is not modelled.
- KeyboardTarget.TargetTrajectoriesKeyboardQuadruped.ToCostDesiredTrajectories: requires both target velocities to be non-zero, for the same reason; the infinite or NaN final time of a zero velocity is not modelled.
- Terrain.GetLocalTerrainAtPositionInWorldAlongGravity: a pure virtual method; each terrain supplies it as a function, and the model promises nothing about it beyond the defaults built from it.
- Observations.SystemObservation.constructor: the default constructor leaves the fields uninitialised; the model promises nothing about them.
- The getters' layout is not modelled from their declarations: it is specified from `estimateRbdModelState` and `estimateComkinoModelState`, which assemble the states block by block.
- ComKinoConstraints: the feet names are fixed to "LF", "RF", "LH", "RH" (the array itself is declared outside the modelled files), and `TermNamesDistinct` and `EqualityNamesDistinct` depend on those four values being distinct and none ending in another's suffix. The term sizes and the internals of the constraint collection are not modelled; term values, sizes and approximations are function parameters, and the constructor requires (`ApproximationCoversActiveRows`) that the collection's linear approximation has at least as many rows as there are active constraints, which the source's `topRows(numConstraints)` relies on.
- ScheduleManager.SwitchedModelModeScheduleManager.PreSolverRunImpl: the `modeSchedule` out-parameter is modelled as the manager's stored schedule.
- AnymalModels: the built kinematics, com and dynamics objects are represented by what was requested, not by their numerics.
- ROS, visualisation, transport and the Python bindings are outside the model.
