/**
 * Conversion between the full rigid-body state of the quadruped and the
 * centroidal ("comkino") state the controller works with. The centre-of-mass
 * model that maps base coordinates to com coordinates and back is supplied
 * as four functions.
 *
 * Layouts:
 *   rbd state (36):     base pose | joint angles | base local velocity | joint velocities
 *   comkino state (24): com pose | com local velocity | joint angles
 */
module StateEstimator {
  const BaseCoordinateDim: nat := 6
  const JointCoordinateDim: nat := 12
  const ComStateDim: nat := 12
  const ComkinoStateDim: nat := 24
  const RbdStateDim: nat := 36

  /** A pose or a twist of the base or the com: three rotational then three translational entries. */
  type BaseCoordinate = s: seq<real> | |s| == 6 witness [0.0, 0.0, 0.0, 0.0, 0.0, 0.0]

  /** The four conversions the centre-of-mass model offers. */
  datatype ComModel = ComModel(
    calculateComPose: BaseCoordinate -> BaseCoordinate,
    calculateComLocalVelocities: BaseCoordinate -> BaseCoordinate,
    calculateBasePose: BaseCoordinate -> BaseCoordinate,
    calculateBaseLocalVelocities: BaseCoordinate -> BaseCoordinate)

  /** The base-to-com conversions are undone by the com-to-base ones. */
  ghost predicate BaseToComInvertible(comModel: ComModel) {
    && (forall p: BaseCoordinate :: comModel.calculateBasePose(comModel.calculateComPose(p)) == p)
    && (forall v: BaseCoordinate :: comModel.calculateBaseLocalVelocities(comModel.calculateComLocalVelocities(v)) == v)
  }

  /** The com-to-base conversions are undone by the base-to-com ones. */
  ghost predicate ComToBaseInvertible(comModel: ComModel) {
    && (forall p: BaseCoordinate :: comModel.calculateComPose(comModel.calculateBasePose(p)) == p)
    && (forall v: BaseCoordinate :: comModel.calculateComLocalVelocities(comModel.calculateBaseLocalVelocities(v)) == v)
  }

  function GetBasePose(rbdState: seq<real>): BaseCoordinate
    requires |rbdState| == RbdStateDim
  {
    rbdState[0..6]
  }

  function GetRbdJointPositions(rbdState: seq<real>): seq<real>
    requires |rbdState| == RbdStateDim
  {
    rbdState[6..18]
  }

  function GetBaseLocalVelocity(rbdState: seq<real>): BaseCoordinate
    requires |rbdState| == RbdStateDim
  {
    rbdState[18..24]
  }

  function GetRbdJointVelocities(rbdState: seq<real>): seq<real>
    requires |rbdState| == RbdStateDim
  {
    rbdState[24..36]
  }

  function GetComPose(comkinoState: seq<real>): BaseCoordinate
    requires |comkinoState| == ComkinoStateDim
  {
    comkinoState[0..6]
  }

  function GetComLocalVelocities(comkinoState: seq<real>): BaseCoordinate
    requires |comkinoState| == ComkinoStateDim
  {
    comkinoState[6..12]
  }

  function GetJointPositions(comkinoState: seq<real>): seq<real>
    requires |comkinoState| == ComkinoStateDim
  {
    comkinoState[12..24]
  }

  /** The estimator holds its own copy of the com model; copying it copies the model. */
  datatype SwitchedModelStateEstimator = SwitchedModelStateEstimator(comModel: ComModel) {

    /** The com state of a rigid-body state: the com pose, then the com local velocity. */
    function EstimateComState(rbdState: seq<real>): (comState: seq<real>)
      requires |rbdState| == RbdStateDim
      ensures |comState| == ComStateDim
      ensures comState[..6] == comModel.calculateComPose(GetBasePose(rbdState))
      ensures comState[6..] == comModel.calculateComLocalVelocities(GetBaseLocalVelocity(rbdState))
    {
      comModel.calculateComPose(GetBasePose(rbdState)) + comModel.calculateComLocalVelocities(GetBaseLocalVelocity(rbdState))
    }

    /** The comkino state of a rigid-body state: its com state, then its joint angles. */
    function EstimateComkinoModelState(rbdState: seq<real>): (comkinoState: seq<real>)
      requires |rbdState| == RbdStateDim
      ensures |comkinoState| == ComkinoStateDim
      ensures GetComPose(comkinoState) == comModel.calculateComPose(GetBasePose(rbdState))
      ensures GetComLocalVelocities(comkinoState) == comModel.calculateComLocalVelocities(GetBaseLocalVelocity(rbdState))
      ensures GetJointPositions(comkinoState) == GetRbdJointPositions(rbdState)
    {
      var comState := EstimateComState(rbdState);
      var comkinoState := comState + GetRbdJointPositions(rbdState);
      assert comkinoState[0..6] == comState[..6] && comkinoState[6..12] == comState[6..];
      comkinoState
    }

    /**
     * The rigid-body state of a comkino state and the joint velocities, which
     * the comkino state does not carry: base pose, joint angles, base local
     * velocity, joint velocities.
     */
    function EstimateRbdModelState(comkinoState: seq<real>, dqJoints: seq<real>): (rbdState: seq<real>)
      requires |comkinoState| == ComkinoStateDim && |dqJoints| == JointCoordinateDim
      ensures |rbdState| == RbdStateDim
      ensures GetBasePose(rbdState) == comModel.calculateBasePose(GetComPose(comkinoState))
      ensures GetRbdJointPositions(rbdState) == GetJointPositions(comkinoState)
      ensures GetBaseLocalVelocity(rbdState) == comModel.calculateBaseLocalVelocities(GetComLocalVelocities(comkinoState))
      ensures GetRbdJointVelocities(rbdState) == dqJoints
    {
      var basePose := comModel.calculateBasePose(GetComPose(comkinoState));
      var baseLocalVelocities := comModel.calculateBaseLocalVelocities(GetComLocalVelocities(comkinoState));
      var qJoints := GetJointPositions(comkinoState);
      var rbdState := basePose + qJoints + baseLocalVelocities + dqJoints;
      assert rbdState[0..6] == basePose && rbdState[6..18] == qJoints;
      assert rbdState[18..24] == baseLocalVelocities && rbdState[24..36] == dqJoints;
      rbdState
    }
  }

  /** The rigid-body getters split a state into its four blocks, in layout order. */
  lemma RbdStateLayout(rbdState: seq<real>)
    requires |rbdState| == RbdStateDim
    ensures rbdState == GetBasePose(rbdState) + GetRbdJointPositions(rbdState)
                      + GetBaseLocalVelocity(rbdState) + GetRbdJointVelocities(rbdState)
  {
    assert rbdState == rbdState[0..6] + rbdState[6..18] + rbdState[18..24] + rbdState[24..36];
  }

  /** The rigid-body getters read back the blocks a state is assembled from. */
  lemma RbdStateOfBlocks(basePose: seq<real>, qJoints: seq<real>, baseLocalVelocity: seq<real>, dqJoints: seq<real>)
    requires |basePose| == BaseCoordinateDim && |qJoints| == JointCoordinateDim
    requires |baseLocalVelocity| == BaseCoordinateDim && |dqJoints| == JointCoordinateDim
    ensures var rbdState := basePose + qJoints + baseLocalVelocity + dqJoints;
      && |rbdState| == RbdStateDim
      && GetBasePose(rbdState) == basePose && GetRbdJointPositions(rbdState) == qJoints
      && GetBaseLocalVelocity(rbdState) == baseLocalVelocity && GetRbdJointVelocities(rbdState) == dqJoints
  {
    var rbdState := basePose + qJoints + baseLocalVelocity + dqJoints;
    assert rbdState[0..6] == basePose && rbdState[6..18] == qJoints;
    assert rbdState[18..24] == baseLocalVelocity && rbdState[24..36] == dqJoints;
  }

  /** The comkino getters split a state into its three blocks, in layout order. */
  lemma ComkinoStateLayout(comkinoState: seq<real>)
    requires |comkinoState| == ComkinoStateDim
    ensures comkinoState == GetComPose(comkinoState) + GetComLocalVelocities(comkinoState) + GetJointPositions(comkinoState)
  {
    assert comkinoState == comkinoState[0..6] + comkinoState[6..12] + comkinoState[12..24];
  }

  /** The comkino getters read back the blocks a state is assembled from. */
  lemma ComkinoStateOfBlocks(comPose: seq<real>, comLocalVelocities: seq<real>, qJoints: seq<real>)
    requires |comPose| == BaseCoordinateDim && |comLocalVelocities| == BaseCoordinateDim && |qJoints| == JointCoordinateDim
    ensures var comkinoState := comPose + comLocalVelocities + qJoints;
      && |comkinoState| == ComkinoStateDim
      && GetComPose(comkinoState) == comPose && GetComLocalVelocities(comkinoState) == comLocalVelocities
      && GetJointPositions(comkinoState) == qJoints
  {
    var comkinoState := comPose + comLocalVelocities + qJoints;
    assert comkinoState[0..6] == comPose && comkinoState[6..12] == comLocalVelocities && comkinoState[12..24] == qJoints;
  }

  /** A state of the given size is determined by its blocks. */
  lemma RbdStateFromBlocks(a: seq<real>, b: seq<real>)
    requires |a| == RbdStateDim && |b| == RbdStateDim
    requires a[0..6] == b[0..6] && a[6..18] == b[6..18] && a[18..24] == b[18..24] && a[24..36] == b[24..36]
    ensures a == b
  {
    assert a == a[0..6] + a[6..18] + a[18..24] + a[24..36];
    assert b == b[0..6] + b[6..18] + b[18..24] + b[24..36];
  }

  lemma ComkinoStateFromBlocks(a: seq<real>, b: seq<real>)
    requires |a| == ComkinoStateDim && |b| == ComkinoStateDim
    requires a[0..6] == b[0..6] && a[6..12] == b[6..12] && a[12..24] == b[12..24]
    ensures a == b
  {
    assert a == a[0..6] + a[6..12] + a[12..24];
    assert b == b[0..6] + b[6..12] + b[12..24];
  }

  /**
   * Going from the rigid-body state to the comkino state and back, with the
   * joint velocities put back, returns the state when the com model's
   * conversions undo each other.
   */
  lemma RbdRoundTrip(estimator: SwitchedModelStateEstimator, rbdState: seq<real>)
    requires |rbdState| == RbdStateDim && BaseToComInvertible(estimator.comModel)
    ensures estimator.EstimateRbdModelState(estimator.EstimateComkinoModelState(rbdState), GetRbdJointVelocities(rbdState)) == rbdState
  {
    var back := estimator.EstimateRbdModelState(estimator.EstimateComkinoModelState(rbdState), GetRbdJointVelocities(rbdState));
    RbdStateFromBlocks(back, rbdState);
  }

  /** Going from the comkino state to the rigid-body state and back returns it when the conversions undo each other. */
  lemma ComkinoRoundTrip(estimator: SwitchedModelStateEstimator, comkinoState: seq<real>, dqJoints: seq<real>)
    requires |comkinoState| == ComkinoStateDim && |dqJoints| == JointCoordinateDim && ComToBaseInvertible(estimator.comModel)
    ensures estimator.EstimateComkinoModelState(estimator.EstimateRbdModelState(comkinoState, dqJoints)) == comkinoState
  {
    var back := estimator.EstimateComkinoModelState(estimator.EstimateRbdModelState(comkinoState, dqJoints));
    ComkinoStateFromBlocks(back, comkinoState);
  }
}
