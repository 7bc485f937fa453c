/**
 * The constraint set of the wheeled quadruped in centroidal-kinematic form.
 * Per foot it registers one inequality (the friction cone) and three
 * equalities (zero contact force, foot-normal motion, lateral wheel velocity)
 * under the foot's name plus a suffix, keeps a pointer to each term, and
 * before every evaluation switches the terms on and off from the contact
 * flag of the leg's planned phase. The numerical content of the terms (their
 * values and derivatives) is not modelled: it is supplied as functions.
 */
module ComKinoConstraints {
  import opened Wrappers
  import opened FootPhases
  import opened ModeSchedules
  import opened SwingPlanning
  import opened ScheduleManager

  /** The names of the feet, in leg order. */
  const FeetNames: seq<string> := ["LF", "RF", "LH", "RH"]

  const FrictionConeSuffix: string := "_FrictionCone"
  const ZeroForceSuffix: string := "_ZeroForce"
  const EENormalSuffix: string := "_EENormal"
  const EEVelSuffix: string := "_f_EEVel"

  function FrictionConeName(leg: nat): string requires leg < NumContactPoints { FeetNames[leg] + FrictionConeSuffix }
  function ZeroForceName(leg: nat): string requires leg < NumContactPoints { FeetNames[leg] + ZeroForceSuffix }
  function EENormalName(leg: nat): string requires leg < NumContactPoints { FeetNames[leg] + EENormalSuffix }
  function EEVelName(leg: nat): string requires leg < NumContactPoints { FeetNames[leg] + EEVelSuffix }

  /** Friction coefficient and the second cone coefficient the constraint is built with. */
  datatype FrictionConeConfig = FrictionConeConfig(frictionCoefficient: real, regularization: real)

  /** A velocity constraint A·v = b on the foot velocity in the foot frame. */
  datatype EEVelocitySettings = EEVelocitySettings(A: seq<seq<real>>, b: seq<real>)

  /** The settings of a default-constructed velocity constraint: no rows. */
  const DefaultEEVelocitySettings: EEVelocitySettings := EEVelocitySettings([], [])

  /** One row: the lateral (y) velocity of the wheel in its foot frame is zero. */
  const LateralVelocitySettings: EEVelocitySettings := EEVelocitySettings([[0.0, 1.0, 0.0]], [0.0])

  /**
   * A constraint term of one leg with its activity flag and what it was last
   * configured with. `None` stands for a term not yet configured.
   */
  datatype ConstraintTerm =
    | FrictionCone(leg: nat, config: FrictionConeConfig, active: bool, surfaceNormal: Option<NormalDirection>)
    | ZeroForce(leg: nat, active: bool)
    | FootNormal(leg: nat, active: bool, normalConstraint: Option<FootNormalConstraintMatrix>)
    | EEVelocityInFootFrame(leg: nat, active: bool, velocitySettings: EEVelocitySettings)

  datatype NamedTerm = NamedTerm(name: string, term: ConstraintTerm)

  /** A constraint collection: named terms in the order they were added. */
  type Collection = seq<NamedTerm>

  datatype LinearApproximation = LinearApproximation(f: seq<real>, dfdx: seq<seq<real>>, dfdu: seq<seq<real>>)

  datatype QuadraticApproximation = QuadraticApproximation(
    f: seq<real>, dfdx: seq<seq<real>>, dfdu: seq<seq<real>>,
    dfdxx: seq<seq<seq<real>>>, dfduu: seq<seq<seq<real>>>, dfdux: seq<seq<seq<real>>>)

  /** The position of the first term with a name, if there is one. */
  function Find(c: Collection, name: string): (r: Option<nat>)
    ensures r.Some? ==> r.value < |c| && c[r.value].name == name && forall k | 0 <= k < r.value :: c[k].name != name
    ensures r.None? ==> forall k | 0 <= k < |c| :: c[k].name != name
  {
    if |c| == 0 then None
    else if c[0].name == name then Some(0)
    else match Find(c[1..], name)
      case None => None
      case Some(k) => Some(k + 1)
  }

  /** The values of the active terms, one after the other. */
  function ActiveValues(c: Collection, value: ConstraintTerm -> seq<real>): seq<real> {
    if |c| == 0 then [] else (if c[0].term.active then value(c[0].term) else []) + ActiveValues(c[1..], value)
  }

  /** The number of rows of the active terms. */
  function NumActiveConstraints(c: Collection, size: ConstraintTerm -> nat): nat {
    if |c| == 0 then 0 else (if c[0].term.active then size(c[0].term) else 0) + NumActiveConstraints(c[1..], size)
  }

  /** The friction cones of the first `n` legs, as registered. */
  function FrictionConeTerms(config: FrictionConeConfig, n: nat): Collection
    requires n <= NumContactPoints
  {
    if n == 0 then []
    else FrictionConeTerms(config, n - 1) + [NamedTerm(FrictionConeName(n - 1), FrictionCone(n - 1, config, true, None))]
  }

  /** The equality terms of the first `n` legs, as registered: zero force, foot normal, velocity. */
  function EqualityTerms(n: nat): Collection
    requires n <= NumContactPoints
  {
    if n == 0 then []
    else EqualityTerms(n - 1) + [NamedTerm(ZeroForceName(n - 1), ZeroForce(n - 1, true)),
                                 NamedTerm(EENormalName(n - 1), FootNormal(n - 1, true, None)),
                                 NamedTerm(EEVelName(n - 1), EEVelocityInFootFrame(n - 1, true, DefaultEEVelocitySettings))]
  }

  /** Where the friction cone of each leg sits in the registered inequality terms. */
  lemma {:induction false} FrictionConeLayout(config: FrictionConeConfig, n: nat)
    requires n <= NumContactPoints
    ensures |FrictionConeTerms(config, n)| == n
    ensures forall leg | 0 <= leg < n ::
      FrictionConeTerms(config, n)[leg] == NamedTerm(FrictionConeName(leg), FrictionCone(leg, config, true, None))
  {
    if n > 0 {
      FrictionConeLayout(config, n - 1);
      var prev := FrictionConeTerms(config, n - 1);
      var c := FrictionConeTerms(config, n);
      assert c == prev + [NamedTerm(FrictionConeName(n - 1), FrictionCone(n - 1, config, true, None))];
      forall leg | 0 <= leg < n
        ensures c[leg] == NamedTerm(FrictionConeName(leg), FrictionCone(leg, config, true, None))
      {
        if leg < n - 1 {
          assert c[leg] == prev[leg];
        }
      }
    }
  }

  /** Where the three equality terms of each leg sit in the registered equality terms. */
  lemma {:induction false} EqualityTermsLayout(n: nat)
    requires n <= NumContactPoints
    ensures |EqualityTerms(n)| == 3 * n
    ensures forall leg | 0 <= leg < n ::
      && EqualityTerms(n)[3 * leg] == NamedTerm(ZeroForceName(leg), ZeroForce(leg, true))
      && EqualityTerms(n)[3 * leg + 1] == NamedTerm(EENormalName(leg), FootNormal(leg, true, None))
      && EqualityTerms(n)[3 * leg + 2] == NamedTerm(EEVelName(leg), EEVelocityInFootFrame(leg, true, DefaultEEVelocitySettings))
  {
    if n > 0 {
      EqualityTermsLayout(n - 1);
      var prev := EqualityTerms(n - 1);
      var last := [NamedTerm(ZeroForceName(n - 1), ZeroForce(n - 1, true)),
                   NamedTerm(EENormalName(n - 1), FootNormal(n - 1, true, None)),
                   NamedTerm(EEVelName(n - 1), EEVelocityInFootFrame(n - 1, true, DefaultEEVelocitySettings))];
      var c := EqualityTerms(n);
      assert c == prev + last;
      forall leg | 0 <= leg < n
        ensures c[3 * leg] == NamedTerm(ZeroForceName(leg), ZeroForce(leg, true))
        ensures c[3 * leg + 1] == NamedTerm(EENormalName(leg), FootNormal(leg, true, None))
        ensures c[3 * leg + 2] == NamedTerm(EEVelName(leg), EEVelocityInFootFrame(leg, true, DefaultEEVelocitySettings))
      {
        if leg < n - 1 {
          assert c[3 * leg] == prev[3 * leg] && c[3 * leg + 1] == prev[3 * leg + 1] && c[3 * leg + 2] == prev[3 * leg + 2];
        } else {
          assert 3 * leg == |prev|;
          assert c[3 * leg] == last[0] && c[3 * leg + 1] == last[1] && c[3 * leg + 2] == last[2];
        }
      }
    }
  }

  /**
   * The registered names never collide: a name determines the foot and the
   * kind of term, so a lookup by name finds the term added under it.
   */
  lemma TermNamesDistinct(leg1: nat, leg2: nat, suffix1: string, suffix2: string)
    requires leg1 < NumContactPoints && leg2 < NumContactPoints
    requires suffix1 in {FrictionConeSuffix, ZeroForceSuffix, EENormalSuffix, EEVelSuffix}
    requires suffix2 in {FrictionConeSuffix, ZeroForceSuffix, EENormalSuffix, EEVelSuffix}
    ensures FeetNames[leg1] + suffix1 == FeetNames[leg2] + suffix2 <==> leg1 == leg2 && suffix1 == suffix2
  {
    if FeetNames[leg1] + suffix1 == FeetNames[leg2] + suffix2 {
      assert |suffix1| == |suffix2|;
      assert FeetNames[leg1] == (FeetNames[leg1] + suffix1)[..2];
      assert FeetNames[leg2] == (FeetNames[leg2] + suffix2)[..2];
      assert (FeetNames[leg1] + suffix1)[2..] == suffix1;
      assert (FeetNames[leg2] + suffix2)[2..] == suffix2;
    }
  }

  /** The three equality names of two legs agree only for the same leg and the same kind of term. */
  lemma EqualityNamesDistinct(leg1: nat, leg2: nat)
    requires leg1 < NumContactPoints && leg2 < NumContactPoints
    ensures ZeroForceName(leg1) == ZeroForceName(leg2) <==> leg1 == leg2
    ensures EENormalName(leg1) == EENormalName(leg2) <==> leg1 == leg2
    ensures EEVelName(leg1) == EEVelName(leg2) <==> leg1 == leg2
    ensures ZeroForceName(leg1) != EENormalName(leg2) && ZeroForceName(leg1) != EEVelName(leg2)
    ensures EENormalName(leg1) != ZeroForceName(leg2) && EENormalName(leg1) != EEVelName(leg2)
    ensures EEVelName(leg1) != ZeroForceName(leg2) && EEVelName(leg1) != EENormalName(leg2)
  {
    TermNamesDistinct(leg1, leg2, ZeroForceSuffix, ZeroForceSuffix);
    TermNamesDistinct(leg1, leg2, ZeroForceSuffix, EENormalSuffix);
    TermNamesDistinct(leg1, leg2, ZeroForceSuffix, EEVelSuffix);
    TermNamesDistinct(leg1, leg2, EENormalSuffix, ZeroForceSuffix);
    TermNamesDistinct(leg1, leg2, EENormalSuffix, EENormalSuffix);
    TermNamesDistinct(leg1, leg2, EENormalSuffix, EEVelSuffix);
    TermNamesDistinct(leg1, leg2, EEVelSuffix, ZeroForceSuffix);
    TermNamesDistinct(leg1, leg2, EEVelSuffix, EENormalSuffix);
    TermNamesDistinct(leg1, leg2, EEVelSuffix, EEVelSuffix);
  }

  /**
   * What the activity and configuration calls on an equality term do for a
   * leg whose phase is `phase`: zero force is on iff not in contact, the
   * foot-normal term is on and takes the phase's normal constraint at t, the
   * velocity term is on iff in contact and then takes the lateral-velocity
   * row. Friction cones are not equality terms and are left alone.
   */
  function RefreshEqualityTerm(term: ConstraintTerm, phase: FootPhase, t: real): (r: ConstraintTerm)
    ensures r.leg == term.leg
    ensures r.ZeroForce? == term.ZeroForce? && r.FootNormal? == term.FootNormal?
    ensures r.EEVelocityInFootFrame? == term.EEVelocityInFootFrame? && r.FrictionCone? == term.FrictionCone?
  {
    var inContact := ContactFlag(phase);
    match term
    case ZeroForce(leg, _) => ZeroForce(leg, !inContact)
    case FootNormal(leg, _, _) => FootNormal(leg, true, Some(FootNormalConstraintInWorldFrame(phase, t)))
    case EEVelocityInFootFrame(leg, _, settings) =>
      EEVelocityInFootFrame(leg, inContact, if inContact then LateralVelocitySettings else settings)
    case FrictionCone(_, _, _, _) => term
  }

  /** What a refresh does to each kind of equality term, as the phase decides. */
  lemma RefreshEqualityTermMeaning(term: ConstraintTerm, phase: FootPhase, t: real)
    ensures var r := RefreshEqualityTerm(term, phase, t);
      && (term.ZeroForce? ==> (r.active <==> !ContactFlag(phase)))
      && (term.FootNormal? ==> r.active && r.normalConstraint == Some(FootNormalConstraintInWorldFrame(phase, t)))
      && (term.EEVelocityInFootFrame? ==>
            && (r.active <==> ContactFlag(phase))
            && r.velocitySettings == (if ContactFlag(phase) then LateralVelocitySettings else term.velocitySettings))
      && (term.FrictionCone? ==> r == term)
  {
  }

  /**
   * What the activity and normal-direction calls on a friction cone do: it
   * is on iff the phase is in contact, and then takes the phase's normal
   * direction at t. Equality terms are left alone.
   */
  function RefreshInequalityTerm(term: ConstraintTerm, phase: FootPhase, t: real): (r: ConstraintTerm)
    ensures r.leg == term.leg && r.FrictionCone? == term.FrictionCone?
    ensures term.FrictionCone? ==>
      && r.config == term.config
      && (r.active <==> ContactFlag(phase))
      && r.surfaceNormal == (if ContactFlag(phase) then Some(NormalDirectionInWorldFrame(phase, t)) else term.surfaceNormal)
    ensures !term.FrictionCone? ==> r == term
  {
    var inContact := ContactFlag(phase);
    match term
    case FrictionCone(leg, config, _, normal) =>
      FrictionCone(leg, config, inContact, if inContact then Some(NormalDirectionInWorldFrame(phase, t)) else normal)
    case _ => term
  }

  /** Leg l points to inequality term l and to equality terms 3l, 3l+1 and 3l+2. */
  ghost predicate LegPointers(frictionCone: seq<nat>, zeroForce: seq<nat>, eeNormal: seq<nat>, eeVel: seq<nat>) {
    && |frictionCone| == NumContactPoints && |zeroForce| == NumContactPoints
    && |eeNormal| == NumContactPoints && |eeVel| == NumContactPoints
    && forall leg | 0 <= leg < NumContactPoints ::
         && frictionCone[leg] == leg && zeroForce[leg] == 3 * leg
         && eeNormal[leg] == 3 * leg + 1 && eeVel[leg] == 3 * leg + 2
  }

  /** Leg l's friction cone is inequality term l, registered under the leg's name. */
  ghost predicate InequalityLayout(c: Collection) {
    && |c| == NumContactPoints
    && forall leg | 0 <= leg < NumContactPoints ::
         c[leg].name == FrictionConeName(leg) && c[leg].term.FrictionCone? && c[leg].term.leg == leg
  }

  /** Leg l's zero-force, foot-normal and velocity terms are equality terms 3l, 3l+1 and 3l+2, under the leg's names. */
  ghost predicate EqualityLayout(c: Collection) {
    && |c| == 3 * NumContactPoints
    && forall leg | 0 <= leg < NumContactPoints ::
         && c[3 * leg].name == ZeroForceName(leg)
         && c[3 * leg].term.ZeroForce? && c[3 * leg].term.leg == leg
         && c[3 * leg + 1].name == EENormalName(leg)
         && c[3 * leg + 1].term.FootNormal? && c[3 * leg + 1].term.leg == leg
         && c[3 * leg + 2].name == EEVelName(leg)
         && c[3 * leg + 2].term.EEVelocityInFootFrame? && c[3 * leg + 2].term.leg == leg
  }

  /** The equality terms with the three terms of one leg refreshed for a phase. */
  function RefreshedLegEqualities(c: Collection, leg: nat, phase: FootPhase, t: real): Collection
    requires |c| == 3 * NumContactPoints && leg < NumContactPoints
  {
    c[3 * leg := c[3 * leg].(term := RefreshEqualityTerm(c[3 * leg].term, phase, t))]
     [3 * leg + 1 := c[3 * leg + 1].(term := RefreshEqualityTerm(c[3 * leg + 1].term, phase, t))]
     [3 * leg + 2 := c[3 * leg + 2].(term := RefreshEqualityTerm(c[3 * leg + 2].term, phase, t))]
  }

  /** The equality terms with the terms of legs 0 .. n-1 refreshed, the terms of leg l for phases[l]. */
  function RefreshedEqualities(c: Collection, phases: seq<FootPhase>, t: real, n: nat): (r: Collection)
    requires |c| == 3 * NumContactPoints && |phases| == NumContactPoints && n <= NumContactPoints
    ensures |r| == 3 * NumContactPoints
  {
    seq(3 * NumContactPoints, k requires 0 <= k < 3 * NumContactPoints =>
      if k < 3 * n then c[k].(term := RefreshEqualityTerm(c[k].term, phases[k / 3], t)) else c[k])
  }

  /** Refreshing no leg changes nothing. */
  lemma RefreshedNoEqualities(c: Collection, phases: seq<FootPhase>, t: real)
    requires |c| == 3 * NumContactPoints && |phases| == NumContactPoints
    ensures RefreshedEqualities(c, phases, t, 0) == c
  {
  }

  /** Refreshing the terms of leg n after those of legs 0 .. n-1 refreshes those of legs 0 .. n. */
  lemma RefreshedEqualitiesStep(c: Collection, phases: seq<FootPhase>, t: real, n: nat)
    requires |c| == 3 * NumContactPoints && |phases| == NumContactPoints && n < NumContactPoints
    ensures RefreshedLegEqualities(RefreshedEqualities(c, phases, t, n), n, phases[n], t) == RefreshedEqualities(c, phases, t, n + 1)
  {
    var before := RefreshedEqualities(c, phases, t, n);
    var after := RefreshedEqualities(c, phases, t, n + 1);
    var stepped := RefreshedLegEqualities(before, n, phases[n], t);
    forall k | 0 <= k < 3 * NumContactPoints
      ensures stepped[k] == after[k]
    {
      if 3 * n <= k < 3 * n + 3 {
        assert k / 3 == n;
      }
    }
  }

  /** Refreshing keeps every term's name, kind and leg. */
  lemma RefreshedEqualitiesLayout(c: Collection, phases: seq<FootPhase>, t: real, n: nat)
    requires EqualityLayout(c) && |phases| == NumContactPoints && n <= NumContactPoints
    ensures EqualityLayout(RefreshedEqualities(c, phases, t, n))
  {
    var r := RefreshedEqualities(c, phases, t, n);
    forall l | 0 <= l < NumContactPoints
      ensures r[3 * l].name == ZeroForceName(l) && r[3 * l].term.ZeroForce? && r[3 * l].term.leg == l
      ensures r[3 * l + 1].name == EENormalName(l) && r[3 * l + 1].term.FootNormal? && r[3 * l + 1].term.leg == l
      ensures r[3 * l + 2].name == EEVelName(l) && r[3 * l + 2].term.EEVelocityInFootFrame? && r[3 * l + 2].term.leg == l
    {
      assert c[3 * l].name == ZeroForceName(l);
    }
  }

  /** Each leg's three equality terms are those of `before` refreshed for the leg's phase. */
  ghost predicate LegTermsRefreshed(after: Collection, before: Collection, phases: seq<FootPhase>, t: real)
    requires |after| == 3 * NumContactPoints && |before| == 3 * NumContactPoints && |phases| == NumContactPoints
  {
    forall leg | 0 <= leg < NumContactPoints ::
      && after[3 * leg] == before[3 * leg].(term := RefreshEqualityTerm(before[3 * leg].term, phases[leg], t))
      && after[3 * leg + 1] == before[3 * leg + 1].(term := RefreshEqualityTerm(before[3 * leg + 1].term, phases[leg], t))
      && after[3 * leg + 2] == before[3 * leg + 2].(term := RefreshEqualityTerm(before[3 * leg + 2].term, phases[leg], t))
  }

  /** Refreshing all legs in turn refreshes every leg's three terms for its own phase. */
  lemma RefreshedEqualitiesPerLeg(c: Collection, phases: seq<FootPhase>, t: real)
    requires |c| == 3 * NumContactPoints && |phases| == NumContactPoints
    ensures LegTermsRefreshed(RefreshedEqualities(c, phases, t, NumContactPoints), c, phases, t)
  {
    var r := RefreshedEqualities(c, phases, t, NumContactPoints);
    forall leg | 0 <= leg < NumContactPoints
      ensures r[3 * leg] == c[3 * leg].(term := RefreshEqualityTerm(c[3 * leg].term, phases[leg], t))
      ensures r[3 * leg + 1] == c[3 * leg + 1].(term := RefreshEqualityTerm(c[3 * leg + 1].term, phases[leg], t))
      ensures r[3 * leg + 2] == c[3 * leg + 2].(term := RefreshEqualityTerm(c[3 * leg + 2].term, phases[leg], t))
    {
      assert (3 * leg) / 3 == leg && (3 * leg + 1) / 3 == leg && (3 * leg + 2) / 3 == leg;
    }
  }

  class AnymalWheelsComKinoConstraintAd {
    var inequalityCollection: Collection
    var equalityCollection: Collection
    /** Positions of the terms each leg points to, in the collections. */
    var frictionConeConstraints: seq<nat>
    var zeroForceConstraints: seq<nat>
    var eeNormalConstraints: seq<nat>
    var eeVelConstraints: seq<nat>
    const frictionCoefficient: real
    const modeScheduleManager: SwitchedModelModeScheduleManager
    const swingTrajectoryPlanner: SwingTrajectoryPlanner
    /** The numerics of the terms, not modelled. */
    const termValue: (ConstraintTerm, real, seq<real>, seq<real>) -> seq<real>
    const termSize: (ConstraintTerm, real) -> nat
    const linearApproximationAsMatrices: (Collection, real, seq<real>, seq<real>) -> LinearApproximation
    const quadraticApproximation: (Collection, real, seq<real>, seq<real>) -> QuadraticApproximation

    /**
     * Each leg points to its own friction cone, zero-force, foot-normal and
     * velocity term, and the stacked derivatives have a row for every row of
     * the active terms.
     */
    ghost predicate Valid()
      reads this
    {
      && LegPointers(frictionConeConstraints, zeroForceConstraints, eeNormalConstraints, eeVelConstraints)
      && InequalityLayout(inequalityCollection)
      && EqualityLayout(equalityCollection)
      && ApproximationCoversActiveRows(linearApproximationAsMatrices, termSize)
    }

    static ghost predicate ApproximationCoversActiveRows(
      linearApproximationAsMatrices: (Collection, real, seq<real>, seq<real>) -> LinearApproximation,
      termSize: (ConstraintTerm, real) -> nat)
    {
      forall c: Collection, t: real, x: seq<real>, u: seq<real> ::
        var n := NumActiveConstraints(c, term => termSize(term, t));
        && n <= |linearApproximationAsMatrices(c, t, x, u).f|
        && n <= |linearApproximationAsMatrices(c, t, x, u).dfdx|
        && n <= |linearApproximationAsMatrices(c, t, x, u).dfdu|
    }

    /** The planner can answer a phase query for every leg. */
    ghost predicate PlannerReady()
      reads swingTrajectoryPlanner
    {
      && swingTrajectoryPlanner.Valid()
      && forall leg | 0 <= leg < NumContactPoints ::
           |swingTrajectoryPlanner.feetNormalTrajectories[leg]| == |swingTrajectoryPlanner.feetNormalTrajectoriesEvents[leg]| + 1
    }

    /** The phase the planner has for a leg at a time. */
    function PhaseAt(leg: nat, t: real): FootPhase
      reads swingTrajectoryPlanner
      requires PlannerReady() && leg < NumContactPoints
    {
      swingTrajectoryPlanner.GetFootPhase(leg, t)
    }

    /**
     * Registers the terms of every foot and points each leg to its own
     * terms, found by the names they were registered under.
     */
    constructor (frictionCoefficient: real, modeScheduleManager: SwitchedModelModeScheduleManager,
                 swingTrajectoryPlanner: SwingTrajectoryPlanner,
                 termValue: (ConstraintTerm, real, seq<real>, seq<real>) -> seq<real>,
                 termSize: (ConstraintTerm, real) -> nat,
                 linearApproximationAsMatrices: (Collection, real, seq<real>, seq<real>) -> LinearApproximation,
                 quadraticApproximation: (Collection, real, seq<real>, seq<real>) -> QuadraticApproximation)
      requires ApproximationCoversActiveRows(linearApproximationAsMatrices, termSize)
      ensures Valid()
      ensures inequalityCollection == FrictionConeTerms(FrictionConeConfig(frictionCoefficient, 25.0), NumContactPoints)
      ensures equalityCollection == EqualityTerms(NumContactPoints)
      ensures this.frictionCoefficient == frictionCoefficient && this.modeScheduleManager == modeScheduleManager
      ensures this.swingTrajectoryPlanner == swingTrajectoryPlanner
    {
      this.frictionCoefficient := frictionCoefficient;
      this.modeScheduleManager := modeScheduleManager;
      this.swingTrajectoryPlanner := swingTrajectoryPlanner;
      this.termValue := termValue;
      this.termSize := termSize;
      this.linearApproximationAsMatrices := linearApproximationAsMatrices;
      this.quadraticApproximation := quadraticApproximation;
      inequalityCollection := [];
      equalityCollection := [];
      frictionConeConstraints := [0, 0, 0, 0];
      zeroForceConstraints := [0, 0, 0, 0];
      eeNormalConstraints := [0, 0, 0, 0];
      eeVelConstraints := [0, 0, 0, 0];
      new;
      InitializeConstraintTerms();
      FrictionConeLayout(FrictionConeConfig(frictionCoefficient, 25.0), NumContactPoints);
      EqualityTermsLayout(NumContactPoints);
      CollectConstraintPointers();
    }

    /**
     * A copy: both collections with the activity and configuration they have
     * now, the same manager and planner, and pointers into its own copies.
     */
    constructor Copy(rhs: AnymalWheelsComKinoConstraintAd)
      requires rhs.Valid()
      ensures Valid()
      ensures inequalityCollection == rhs.inequalityCollection && equalityCollection == rhs.equalityCollection
      ensures frictionCoefficient == rhs.frictionCoefficient && modeScheduleManager == rhs.modeScheduleManager
      ensures swingTrajectoryPlanner == rhs.swingTrajectoryPlanner
    {
      frictionCoefficient := rhs.frictionCoefficient;
      modeScheduleManager := rhs.modeScheduleManager;
      swingTrajectoryPlanner := rhs.swingTrajectoryPlanner;
      termValue := rhs.termValue;
      termSize := rhs.termSize;
      linearApproximationAsMatrices := rhs.linearApproximationAsMatrices;
      quadraticApproximation := rhs.quadraticApproximation;
      inequalityCollection := rhs.inequalityCollection;
      equalityCollection := rhs.equalityCollection;
      frictionConeConstraints := [0, 0, 0, 0];
      zeroForceConstraints := [0, 0, 0, 0];
      eeNormalConstraints := [0, 0, 0, 0];
      eeVelConstraints := [0, 0, 0, 0];
      new;
      CollectConstraintPointers();
    }

    method Clone() returns (c: AnymalWheelsComKinoConstraintAd)
      requires Valid()
      ensures fresh(c) && c.Valid()
      ensures c.inequalityCollection == inequalityCollection && c.equalityCollection == equalityCollection
      ensures c.swingTrajectoryPlanner == swingTrajectoryPlanner
    {
      c := new AnymalWheelsComKinoConstraintAd.Copy(this);
    }

    /** Adds, foot by foot, a friction cone to the inequalities and the three equality terms. */
    method InitializeConstraintTerms()
      requires inequalityCollection == [] && equalityCollection == []
      modifies this`inequalityCollection, this`equalityCollection
      ensures inequalityCollection == FrictionConeTerms(FrictionConeConfig(frictionCoefficient, 25.0), NumContactPoints)
      ensures equalityCollection == EqualityTerms(NumContactPoints)
    {
      for i := 0 to NumContactPoints
        invariant inequalityCollection == FrictionConeTerms(FrictionConeConfig(frictionCoefficient, 25.0), i)
        invariant equalityCollection == EqualityTerms(i)
      {
        var footName := FeetNames[i];
        var frictionCone := FrictionCone(i, FrictionConeConfig(frictionCoefficient, 25.0), true, None);
        var zeroForceConstraint := ZeroForce(i, true);
        var footNormalConstraint := FootNormal(i, true, None);
        var endEffectorVelocityInFootFrameConstraint := EEVelocityInFootFrame(i, true, DefaultEEVelocitySettings);
        inequalityCollection := inequalityCollection + [NamedTerm(footName + FrictionConeSuffix, frictionCone)];
        equalityCollection := equalityCollection + [NamedTerm(footName + ZeroForceSuffix, zeroForceConstraint)];
        equalityCollection := equalityCollection + [NamedTerm(footName + EENormalSuffix, footNormalConstraint)];
        equalityCollection := equalityCollection + [NamedTerm(footName + EEVelSuffix, endEffectorVelocityInFootFrameConstraint)];
      }
    }

    /** Points every leg to the terms registered under its foot's names. */
    method CollectConstraintPointers()
      requires |inequalityCollection| == NumContactPoints && |equalityCollection| == 3 * NumContactPoints
      requires forall leg | 0 <= leg < NumContactPoints ::
        && inequalityCollection[leg].name == FrictionConeName(leg)
        && inequalityCollection[leg].term.FrictionCone? && inequalityCollection[leg].term.leg == leg
        && equalityCollection[3 * leg].name == ZeroForceName(leg)
        && equalityCollection[3 * leg].term.ZeroForce? && equalityCollection[3 * leg].term.leg == leg
        && equalityCollection[3 * leg + 1].name == EENormalName(leg)
        && equalityCollection[3 * leg + 1].term.FootNormal? && equalityCollection[3 * leg + 1].term.leg == leg
        && equalityCollection[3 * leg + 2].name == EEVelName(leg)
        && equalityCollection[3 * leg + 2].term.EEVelocityInFootFrame? && equalityCollection[3 * leg + 2].term.leg == leg
      requires ApproximationCoversActiveRows(linearApproximationAsMatrices, termSize)
      modifies this`frictionConeConstraints, this`zeroForceConstraints, this`eeNormalConstraints, this`eeVelConstraints
      ensures Valid()
    {
      frictionConeConstraints := [0, 0, 0, 0];
      zeroForceConstraints := [0, 0, 0, 0];
      eeNormalConstraints := [0, 0, 0, 0];
      eeVelConstraints := [0, 0, 0, 0];
      for i := 0 to NumContactPoints
        invariant |frictionConeConstraints| == NumContactPoints && |zeroForceConstraints| == NumContactPoints
        invariant |eeNormalConstraints| == NumContactPoints && |eeVelConstraints| == NumContactPoints
        invariant forall leg | 0 <= leg < i ::
          && frictionConeConstraints[leg] == leg && zeroForceConstraints[leg] == 3 * leg
          && eeNormalConstraints[leg] == 3 * leg + 1 && eeVelConstraints[leg] == 3 * leg + 2
      {
        var footName := FeetNames[i];
        var frictionCone := FindInequality(i);
        var zeroForce, eeNormal, eeVel := FindEqualities(i);
        frictionConeConstraints := frictionConeConstraints[i := frictionCone];
        zeroForceConstraints := zeroForceConstraints[i := zeroForce];
        eeNormalConstraints := eeNormalConstraints[i := eeNormal];
        eeVelConstraints := eeVelConstraints[i := eeVel];
      }
    }

    /** The friction cone registered under a leg's name. */
    method FindInequality(leg: nat) returns (index: nat)
      requires leg < NumContactPoints && |inequalityCollection| == NumContactPoints
      requires forall l | 0 <= l < NumContactPoints :: inequalityCollection[l].name == FrictionConeName(l)
      ensures index == leg
    {
      forall k | 0 <= k < NumContactPoints
        ensures inequalityCollection[k].name == FrictionConeName(leg) <==> k == leg
      {
        TermNamesDistinct(k, leg, FrictionConeSuffix, FrictionConeSuffix);
      }
      var found := Find(inequalityCollection, FrictionConeName(leg));
      index := found.value;
    }

    /** The three equality terms registered under a leg's names. */
    method FindEqualities(leg: nat) returns (zeroForce: nat, eeNormal: nat, eeVel: nat)
      requires leg < NumContactPoints && |equalityCollection| == 3 * NumContactPoints
      requires forall l | 0 <= l < NumContactPoints ::
        && equalityCollection[3 * l].name == ZeroForceName(l)
        && equalityCollection[3 * l + 1].name == EENormalName(l)
        && equalityCollection[3 * l + 2].name == EEVelName(l)
      ensures zeroForce == 3 * leg && eeNormal == 3 * leg + 1 && eeVel == 3 * leg + 2
    {
      var c := equalityCollection;
      forall k | 0 <= k < 3 * NumContactPoints
        ensures c[k].name == ZeroForceName(leg) <==> k == 3 * leg
        ensures c[k].name == EENormalName(leg) <==> k == 3 * leg + 1
        ensures c[k].name == EEVelName(leg) <==> k == 3 * leg + 2
      {
        var l := k / 3;
        EqualityNamesDistinct(l, leg);
        if k == 3 * l {
          assert c[k].name == ZeroForceName(l);
        } else if k == 3 * l + 1 {
          assert c[k].name == EENormalName(l);
        } else {
          assert c[k].name == EEVelName(l);
        }
      }
      zeroForce := Find(c, ZeroForceName(leg)).value;
      eeNormal := Find(c, EENormalName(leg)).value;
      eeVel := Find(c, EEVelName(leg)).value;
    }

    /** The phases the planner has for the legs at a time, leg by leg. */
    ghost function PhasesAt(t: real): (phases: seq<FootPhase>)
      reads swingTrajectoryPlanner
      requires PlannerReady()
      ensures |phases| == NumContactPoints
      ensures forall leg | 0 <= leg < NumContactPoints :: phases[leg] == PhaseAt(leg, t)
    {
      [PhaseAt(0, t), PhaseAt(1, t), PhaseAt(2, t), PhaseAt(3, t)]
    }

    /**
     * The equality terms after a refresh at time t, compared with `before`:
     * the terms of every leg refreshed for the leg's phase at t, which by
     * RefreshedEqualitiesPerLeg sets the three terms each leg points to
     * (3l, 3l+1 and 3l+2, by Valid).
     */
    ghost predicate EqualitiesRefreshed(before: Collection, t: real)
      reads this, swingTrajectoryPlanner
      requires Valid() && PlannerReady() && |before| == 3 * NumContactPoints
    {
      equalityCollection == RefreshedEqualities(before, PhasesAt(t), t, NumContactPoints)
    }

    /** The inequality terms after a refresh at time t: each leg's friction cone has been set from the leg's phase at t. */
    ghost predicate InequalitiesRefreshed(before: Collection, t: real)
      reads this, swingTrajectoryPlanner
      requires Valid() && PlannerReady() && |before| == NumContactPoints
    {
      forall leg | 0 <= leg < NumContactPoints ::
        inequalityCollection[frictionConeConstraints[leg]] ==
          before[frictionConeConstraints[leg]].(term := RefreshInequalityTerm(before[frictionConeConstraints[leg]].term, PhaseAt(leg, t), t))
    }

    /** Sets the activity and configuration of the three equality terms of one leg. */
    method RefreshLegEqualities(leg: nat, footPhase: FootPhase, t: real)
      requires leg < NumContactPoints && EqualityLayout(equalityCollection)
      requires |zeroForceConstraints| == NumContactPoints && zeroForceConstraints[leg] == 3 * leg
      requires |eeNormalConstraints| == NumContactPoints && eeNormalConstraints[leg] == 3 * leg + 1
      requires |eeVelConstraints| == NumContactPoints && eeVelConstraints[leg] == 3 * leg + 2
      modifies this`equalityCollection
      ensures equalityCollection == RefreshedLegEqualities(old(equalityCollection), leg, footPhase, t)
    {
      var inContact := ContactFlag(footPhase);

      // zero forces for a leg in the air
      var zeroForce := zeroForceConstraints[leg];
      equalityCollection := equalityCollection[zeroForce := equalityCollection[zeroForce].(term := ZeroForce(leg, !inContact))];

      // the foot-normal constraint is always on
      var eeNormal := eeNormalConstraints[leg];
      equalityCollection := equalityCollection[eeNormal :=
        equalityCollection[eeNormal].(term := FootNormal(leg, true, Some(FootNormalConstraintInWorldFrame(footPhase, t))))];

      // no lateral wheel velocity for a leg in contact
      var eeVel := eeVelConstraints[leg];
      var velocitySettings := equalityCollection[eeVel].term.velocitySettings;
      if inContact {
        velocitySettings := LateralVelocitySettings;
      }
      equalityCollection := equalityCollection[eeVel :=
        equalityCollection[eeVel].(term := EEVelocityInFootFrame(leg, inContact, velocitySettings))];
    }

    method UpdateStateInputEqualityConstraints(t: real)
      requires Valid() && PlannerReady()
      modifies this`equalityCollection
      ensures Valid() && EqualitiesRefreshed(old(equalityCollection), t)
    {
      ghost var before := equalityCollection;
      ghost var phases := PhasesAt(t);
      RefreshedNoEqualities(before, phases, t);
      for i := 0 to NumContactPoints
        invariant equalityCollection == RefreshedEqualities(before, phases, t, i)
      {
        var footPhase := swingTrajectoryPlanner.GetFootPhase(i, t);
        assert footPhase == phases[i];
        RefreshedEqualitiesLayout(before, phases, t, i);
        RefreshLegEqualities(i, footPhase, t);
        RefreshedEqualitiesStep(before, phases, t, i);
      }
      RefreshedEqualitiesLayout(before, phases, t, NumContactPoints);
    }

    /** Sets the activity of a leg's friction cone and, in contact, its surface normal. */
    method RefreshLegInequality(leg: nat, footPhase: FootPhase, t: real)
      requires Valid() && leg < NumContactPoints
      modifies this`inequalityCollection
      ensures Valid()
      ensures inequalityCollection ==
        old(inequalityCollection)[leg := old(inequalityCollection[leg]).(term := RefreshInequalityTerm(old(inequalityCollection[leg].term), footPhase, t))]
    {
      var inContact := ContactFlag(footPhase);
      var frictionCone := frictionConeConstraints[leg];
      var term := inequalityCollection[frictionCone].term;
      var surfaceNormal := term.surfaceNormal;
      if inContact {
        surfaceNormal := Some(NormalDirectionInWorldFrame(footPhase, t));
      }
      inequalityCollection := inequalityCollection[frictionCone :=
        inequalityCollection[frictionCone].(term := FrictionCone(leg, term.config, inContact, surfaceNormal))];
    }

    method UpdateInequalityConstraints(t: real)
      requires Valid() && PlannerReady()
      modifies this`inequalityCollection
      ensures Valid() && InequalitiesRefreshed(old(inequalityCollection), t)
    {
      ghost var before := inequalityCollection;
      for i := 0 to NumContactPoints
        invariant Valid() && |before| == NumContactPoints
        invariant forall k | i <= k < NumContactPoints :: inequalityCollection[k] == before[k]
        invariant forall k | 0 <= k < i ::
          inequalityCollection[k] == before[k].(term := RefreshInequalityTerm(before[k].term, PhaseAt(k, t), t))
      {
        var footPhase := swingTrajectoryPlanner.GetFootPhase(i, t);
        RefreshLegInequality(i, footPhase, t);
      }
    }

    /** The stacked values of the equality terms active at t, after refreshing them for t. */
    method StateInputEqualityConstraint(t: real, x: seq<real>, u: seq<real>) returns (value: seq<real>)
      requires Valid() && PlannerReady()
      modifies this`equalityCollection
      ensures Valid() && EqualitiesRefreshed(old(equalityCollection), t)
      ensures value == ActiveValues(equalityCollection, term => termValue(term, t, x, u))
    {
      UpdateStateInputEqualityConstraints(t);
      value := ActiveValues(equalityCollection, term => termValue(term, t, x, u));
    }

    /** The stacked values of the inequality terms active at t, after refreshing them for t. */
    method InequalityConstraint(t: real, x: seq<real>, u: seq<real>) returns (value: seq<real>)
      requires Valid() && PlannerReady()
      modifies this`inequalityCollection
      ensures Valid() && InequalitiesRefreshed(old(inequalityCollection), t)
      ensures value == ActiveValues(inequalityCollection, term => termValue(term, t, x, u))
    {
      UpdateInequalityConstraints(t);
      value := ActiveValues(inequalityCollection, term => termValue(term, t, x, u));
    }

    /**
     * The linearisation of the equalities after refreshing them for t, cut
     * to as many rows as the active terms have.
     */
    method StateInputEqualityConstraintLinearApproximation(t: real, x: seq<real>, u: seq<real>)
      returns (g: LinearApproximation)
      requires Valid() && PlannerReady()
      modifies this`equalityCollection
      ensures Valid() && EqualitiesRefreshed(old(equalityCollection), t)
      ensures var n := NumActiveConstraints(equalityCollection, term => termSize(term, t));
              var full := linearApproximationAsMatrices(equalityCollection, t, x, u);
              && |g.f| == n && |g.dfdx| == n && |g.dfdu| == n
              && g.f == full.f[..n] && g.dfdx == full.dfdx[..n] && g.dfdu == full.dfdu[..n]
    {
      UpdateStateInputEqualityConstraints(t);
      var numConstraints := NumActiveConstraints(equalityCollection, term => termSize(term, t));
      var constraintApproximation := linearApproximationAsMatrices(equalityCollection, t, x, u);
      g := LinearApproximation(constraintApproximation.f[..numConstraints],
                               constraintApproximation.dfdx[..numConstraints],
                               constraintApproximation.dfdu[..numConstraints]);
    }

    /** The quadratic approximation of the inequalities after refreshing them for t. */
    method InequalityConstraintQuadraticApproximation(t: real, x: seq<real>, u: seq<real>)
      returns (approximation: QuadraticApproximation)
      requires Valid() && PlannerReady()
      modifies this`inequalityCollection
      ensures Valid() && InequalitiesRefreshed(old(inequalityCollection), t)
      ensures approximation == quadraticApproximation(inequalityCollection, t, x, u)
    {
      UpdateInequalityConstraints(t);
      approximation := quadraticApproximation(inequalityCollection, t, x, u);
    }
  }
}
