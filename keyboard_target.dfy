/**
 * The keyboard target of the quadruped: a 12-entry command (position,
 * orientation in degrees, linear and angular velocity) is reordered into a
 * desired base state, a time to reach it is estimated, and a two-point
 * target trajectory is built from the latest observation. The square root
 * is supplied as a function; the observation arrives as a parameter.
 */
module KeyboardTarget {
  import opened Wrappers

  /** The value of M_PI used by the degree conversion. */
  const Pi: real := 3.14159265358979323846

  /** Size of the command and of the desired base state. */
  const CommandDim: nat := 12

  /** Size of the twelve joint coordinates that follow the base in the state. */
  const JointDim: nat := 12

  /** Total vertical force per leg in the desired input (index 2 of each leg's three). */
  const StanceForce: real := 80.0

  datatype CommandMode = POSITION | VELOCITY | OtherMode(value: int)

  function Deg2Rad(deg: real): (rad: real)
    ensures rad * 180.0 == deg * Pi
  {
    deg * Pi / 180.0
  }

  /**
   * The desired base state in position mode: orientation (converted to
   * radians) before position, then angular before linear velocity.
   */
  function PositionModeState(command: seq<real>): (state: seq<real>)
    requires |command| == CommandDim
    ensures |state| == CommandDim
    ensures forall i | 0 <= i < 3 :: state[i] == Deg2Rad(command[i + 3])
    ensures forall i | 3 <= i < 6 :: state[i] == command[i - 3]
    ensures forall i | 6 <= i < 9 :: state[i] == command[i + 3]
    ensures forall i | 9 <= i < 12 :: state[i] == command[i - 3]
  {
    seq(CommandDim, i requires 0 <= i < CommandDim =>
      if i < 3 then Deg2Rad(command[3 + i])
      else if i < 6 then command[i - 3]
      else if i < 9 then command[i + 3]
      else command[i - 3])
  }

  /**
   * The desired base state in velocity mode: the command carries velocities
   * first, so the linear velocity lands at 9, the angular at 6, the pose
   * (orientation in radians) at 0 and the position at 3.
   */
  function VelocityModeState(command: seq<real>): (state: seq<real>)
    requires |command| == CommandDim
    ensures |state| == CommandDim
    ensures forall i | 6 <= i < 9 :: state[i] == command[i - 3]
    ensures forall i | 9 <= i < 12 :: state[i] == command[i - 9]
    ensures forall i | 0 <= i < 3 :: state[i] == Deg2Rad(command[i + 9])
    ensures forall i | 3 <= i < 6 :: state[i] == command[i + 3]
  {
    seq(CommandDim, i requires 0 <= i < CommandDim =>
      if i < 3 then Deg2Rad(command[9 + i])
      else if i < 6 then command[i + 3]
      else if i < 9 then command[i - 3]
      else command[i - 9])
  }

  /** Velocity mode reads the command with its two halves exchanged and otherwise places entries as position mode does. */
  lemma VelocityModeIsSwappedPositionMode(command: seq<real>)
    requires |command| == CommandDim
    ensures VelocityModeState(command) == PositionModeState(command[6..] + command[..6])
  {
    var swapped := command[6..] + command[..6];
    var v, p := VelocityModeState(command), PositionModeState(swapped);
    forall i | 0 <= i < CommandDim
      ensures v[i] == p[i]
    {
      var j := i % 3;
      if i < 3 {
        assert v[j] == Deg2Rad(command[9 + j]) && p[j] == Deg2Rad(swapped[3 + j]);
      } else if i < 6 {
        assert v[3 + j] == command[6 + j] && p[3 + j] == swapped[j];
      } else if i < 9 {
        assert v[6 + j] == command[3 + j] && p[6 + j] == swapped[9 + j];
      } else {
        assert v[9 + j] == command[j] && p[9 + j] == swapped[6 + j];
      }
    }
  }

  /** The desired input: zero except the vertical force of each leg, at 2, 5, 8 and 11. */
  function DesiredInput(inputDim: nat): (input: seq<real>)
    requires inputDim >= CommandDim
    ensures |input| == inputDim
    ensures forall i | 0 <= i < inputDim :: input[i] == if i == 2 || i == 5 || i == 8 || i == 11 then StanceForce else 0.0
  {
    seq(inputDim, i => if i == 2 || i == 5 || i == 8 || i == 11 then StanceForce else 0.0)
  }

  /** A target trajectory: times, states and inputs, one of each per point. */
  datatype CostDesiredTrajectories = CostDesiredTrajectories(
    desiredTimeTrajectory: seq<real>,
    desiredStateTrajectory: seq<seq<real>>,
    desiredInputTrajectory: seq<seq<real>>)

  /** The observation the target is built from: its time and state. */
  datatype Observation = Observation(time: real, state: seq<real>)

  class TargetTrajectoriesKeyboardQuadruped {
    const commandMode: CommandMode
    const initZHeight: real
    const defaultJointCoordinates: seq<real>
    const targetDisplacementVelocity: real
    const targetRotationVelocity: real
    const stateDim: nat
    const inputDim: nat
    const sqrt: real -> real

    /** The dimensions the target is built for: a base and twelve joints in the state, twelve entries of input at least. */
    predicate Valid() {
      |defaultJointCoordinates| == JointDim && stateDim >= CommandDim + JointDim && inputDim >= CommandDim
    }

    constructor (commandMode: CommandMode, initZHeight: real, defaultJointCoordinates: seq<real>,
                 targetDisplacementVelocity: real, targetRotationVelocity: real, stateDim: nat, inputDim: nat, sqrt: real -> real)
      requires |defaultJointCoordinates| == JointDim && stateDim >= CommandDim + JointDim && inputDim >= CommandDim
      ensures Valid()
      ensures this.commandMode == commandMode && this.initZHeight == initZHeight
      ensures this.defaultJointCoordinates == defaultJointCoordinates
      ensures this.targetDisplacementVelocity == targetDisplacementVelocity && this.targetRotationVelocity == targetRotationVelocity
      ensures this.stateDim == stateDim && this.inputDim == inputDim && this.sqrt == sqrt
    {
      this.commandMode := commandMode;
      this.initZHeight := initZHeight;
      this.defaultJointCoordinates := defaultJointCoordinates;
      this.targetDisplacementVelocity := targetDisplacementVelocity;
      this.targetRotationVelocity := targetRotationVelocity;
      this.stateDim := stateDim;
      this.inputDim := inputDim;
      this.sqrt := sqrt;
    }

    /**
     * The time to reach a target: the longer of the time to turn by dyaw at
     * the rotation velocity and the time to move by (dx, dy) at the
     * displacement velocity.
     */
    function EstimeTimeToTarget(dyaw: real, dx: real, dy: real): (t: real)
      requires targetRotationVelocity != 0.0 && targetDisplacementVelocity != 0.0
      ensures t >= Abs(dyaw) / targetRotationVelocity
      ensures t >= sqrt(dx * dx + dy * dy) / targetDisplacementVelocity
      ensures t == Abs(dyaw) / targetRotationVelocity || t == sqrt(dx * dx + dy * dy) / targetDisplacementVelocity
    {
      var rotationTime := Abs(dyaw) / targetRotationVelocity;
      var displacementTime := sqrt(dx * dx + dy * dy) / targetDisplacementVelocity;
      if rotationTime >= displacementTime then rotationTime else displacementTime
    }

    /**
     * The estimate is never negative when both velocities are positive and
     * the square root is.
     */
    lemma TimeToTargetBounds(dyaw: real, dx: real, dy: real)
      requires targetRotationVelocity > 0.0 && targetDisplacementVelocity > 0.0
      ensures sqrt(dx * dx + dy * dy) >= 0.0 ==> EstimeTimeToTarget(dyaw, dx, dy) >= 0.0
    {
      var rotationTime := Abs(dyaw) / targetRotationVelocity;
      DivisionNonNegative(Abs(dyaw), targetRotationVelocity);
      assert rotationTime >= 0.0;
    }

    /** The desired base state of a command in the configured mode; none for a mode that is neither. */
    function DesiredBaseState(command: seq<real>): (state: Option<seq<real>>)
      reads this
      requires |command| == CommandDim
      ensures commandMode == POSITION ==> state == Some(PositionModeState(command))
      ensures commandMode == VELOCITY ==> state == Some(VelocityModeState(command))
      ensures commandMode.OtherMode? ==> state == None
    {
      match commandMode
      case POSITION => Some(PositionModeState(command))
      case VELOCITY => Some(VelocityModeState(command))
      case OtherMode(value) => None
    }

    /**
     * Converts a command into the desired time, base state and input. A mode
     * that is neither position nor velocity builds an error that is never
     * raised: the state is then left as allocated, with no known contents.
     */
    method ToCostDesiredTimeStateInput(commandLineTarget: seq<real>)
      returns (desiredTime: real, desiredState: seq<real>, desiredInput: seq<real>)
      requires Valid() && |commandLineTarget| == CommandDim
      requires targetRotationVelocity != 0.0 && targetDisplacementVelocity != 0.0
      ensures |desiredState| == CommandDim
      ensures DesiredBaseState(commandLineTarget).Some? ==> desiredState == DesiredBaseState(commandLineTarget).value
      ensures desiredTime == EstimeTimeToTarget(desiredState[2], desiredState[3], desiredState[4])
      ensures desiredInput == DesiredInput(inputDim)
    {
      var state := new real[CommandDim];
      if commandMode == POSITION {
        for j := 0 to 3
          invariant forall i | 0 <= i < j :: state[i] == Deg2Rad(commandLineTarget[i + 3])
          invariant forall i | 3 <= i < 3 + j :: state[i] == commandLineTarget[i - 3]
          invariant forall i | 6 <= i < 6 + j :: state[i] == commandLineTarget[i + 3]
          invariant forall i | 9 <= i < 9 + j :: state[i] == commandLineTarget[i - 3]
        {
          state[j] := Deg2Rad(commandLineTarget[3 + j]);
          state[3 + j] := commandLineTarget[j];
          state[6 + j] := commandLineTarget[9 + j];
          state[9 + j] := commandLineTarget[6 + j];
        }
        assert state[..] == PositionModeState(commandLineTarget);
      } else if commandMode == VELOCITY {
        for j := 0 to 3
          invariant forall i | 6 <= i < 6 + j :: state[i] == commandLineTarget[i - 3]
          invariant forall i | 9 <= i < 9 + j :: state[i] == commandLineTarget[i - 9]
          invariant forall i | 0 <= i < j :: state[i] == Deg2Rad(commandLineTarget[i + 9])
          invariant forall i | 3 <= i < 3 + j :: state[i] == commandLineTarget[i + 3]
        {
          state[6 + j] := commandLineTarget[3 + j];
          state[9 + j] := commandLineTarget[j];
          state[j] := Deg2Rad(commandLineTarget[9 + j]);
          state[3 + j] := commandLineTarget[6 + j];
        }
        assert state[..] == VelocityModeState(commandLineTarget);
      }
      desiredState := state[..];
      desiredTime := EstimeTimeToTarget(desiredState[2], desiredState[3], desiredState[4]);
      desiredInput := DesiredInput(inputDim);
    }

    /**
     * The start of the target: the current base (the first twelve observed
     * entries), the default joints, zeros beyond.
     */
    function InitialTargetState(observedState: seq<real>): (x: seq<real>)
      reads this
      requires Valid() && |observedState| >= CommandDim
      ensures |x| == stateDim
      ensures x[..CommandDim] == observedState[..CommandDim]
      ensures x[CommandDim..CommandDim + JointDim] == defaultJointCoordinates
      ensures forall i | CommandDim + JointDim <= i < stateDim :: x[i] == 0.0
    {
      observedState[..CommandDim] + defaultJointCoordinates + seq(stateDim - CommandDim - JointDim, i => 0.0)
    }

    /**
     * The end of the target: roll and pitch as commanded, yaw and the
     * horizontal position moved by the command from where the robot is,
     * height above the initial height, velocities as commanded, default
     * joints, zeros beyond.
     */
    function FinalTargetState(observedState: seq<real>, desiredBaseState: seq<real>): (x: seq<real>)
      reads this
      requires Valid() && |observedState| >= CommandDim && |desiredBaseState| == CommandDim
      ensures |x| == stateDim
      ensures x[0] == desiredBaseState[0] && x[1] == desiredBaseState[1]
      ensures x[2] == observedState[2] + desiredBaseState[2]
      ensures x[3] == observedState[3] + desiredBaseState[3] && x[4] == observedState[4] + desiredBaseState[4]
      ensures x[5] == initZHeight + desiredBaseState[5]
      ensures x[6..CommandDim] == desiredBaseState[6..]
      ensures x[CommandDim..CommandDim + JointDim] == defaultJointCoordinates
      ensures forall i | CommandDim + JointDim <= i < stateDim :: x[i] == 0.0
    {
      desiredBaseState[..2] + [observedState[2] + desiredBaseState[2]]
        + [observedState[3] + desiredBaseState[3], observedState[4] + desiredBaseState[4]]
        + [initZHeight + desiredBaseState[5]] + desiredBaseState[6..]
        + defaultJointCoordinates + seq(stateDim - CommandDim - JointDim, i => 0.0)
    }

    /**
     * The two-point target built from a command and the latest observation:
     * from now at the current state to now + the estimated time at the
     * commanded state, with the same input at both points.
     */
    method ToCostDesiredTrajectories(commandLineTarget: seq<real>, observation: Observation)
      returns (trajectories: CostDesiredTrajectories)
      requires Valid() && |commandLineTarget| == CommandDim && |observation.state| >= CommandDim
      requires targetRotationVelocity != 0.0 && targetDisplacementVelocity != 0.0
      ensures |trajectories.desiredTimeTrajectory| == 2 && |trajectories.desiredStateTrajectory| == 2
      ensures |trajectories.desiredInputTrajectory| == 2
      ensures trajectories.desiredTimeTrajectory[0] == observation.time
      ensures trajectories.desiredStateTrajectory[0] == InitialTargetState(observation.state)
      ensures trajectories.desiredInputTrajectory == [DesiredInput(inputDim), DesiredInput(inputDim)]
      ensures DesiredBaseState(commandLineTarget).Some? ==>
        && trajectories.desiredTimeTrajectory[1] == observation.time + EstimeTimeToTarget(
             DesiredBaseState(commandLineTarget).value[2], DesiredBaseState(commandLineTarget).value[3], DesiredBaseState(commandLineTarget).value[4])
        && trajectories.desiredStateTrajectory[1] == FinalTargetState(observation.state, DesiredBaseState(commandLineTarget).value)
    {
      var desiredTime, desiredBaseState, desiredInput := ToCostDesiredTimeStateInput(commandLineTarget);
      var times := [observation.time, observation.time + desiredTime];
      var states := [InitialTargetState(observation.state), FinalTargetState(observation.state, desiredBaseState)];
      var inputs := [desiredInput, desiredInput];
      trajectories := CostDesiredTrajectories(times, states, inputs);
    }

    /**
     * In position mode the target moves the base by exactly the command:
     * yaw by the commanded yaw in radians, x and y by the commanded
     * displacement, while roll and pitch are taken as absolute.
     */
    lemma PositionCommandMovesBase(command: seq<real>, observedState: seq<real>)
      requires Valid() && |command| == CommandDim && |observedState| >= CommandDim && commandMode == POSITION
      ensures FinalTargetState(observedState, PositionModeState(command))[2] - InitialTargetState(observedState)[2] == Deg2Rad(command[5])
      ensures FinalTargetState(observedState, PositionModeState(command))[3] - InitialTargetState(observedState)[3] == command[0]
      ensures FinalTargetState(observedState, PositionModeState(command))[4] - InitialTargetState(observedState)[4] == command[1]
      ensures FinalTargetState(observedState, PositionModeState(command))[5] == initZHeight + command[2]
      ensures FinalTargetState(observedState, PositionModeState(command))[0] == Deg2Rad(command[3])
      ensures FinalTargetState(observedState, PositionModeState(command))[1] == Deg2Rad(command[4])
    {
      var x0 := InitialTargetState(observedState);
      assert x0[2] == x0[..CommandDim][2];
      assert x0[3] == x0[..CommandDim][3];
      assert x0[4] == x0[..CommandDim][4];
    }
  }

  function Abs(x: real): (r: real)
    ensures r >= 0.0 && (r == x || r == -x)
  {
    if x < 0.0 then -x else x
  }

  lemma DivisionNonNegative(a: real, b: real)
    requires a >= 0.0 && b > 0.0
    ensures a / b >= 0.0
  {
  }
}
