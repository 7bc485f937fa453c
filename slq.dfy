/**
 * The bookkeeping of the SLQ backward pass: the configuration checks of the
 * solver, the split of the normalized (negated, reversed) time line into
 * event-free segments with a jump between segments, the size check on the
 * integrated trajectory, the reversed copy of the integrated samples into
 * the value function, and the local, non-throwing stability report. The
 * Riccati integrator, the jump map, the conversion between vector and
 * matrix form and the controller algebra are supplied as functions.
 */
module SlqBackwardPass {
  import opened Wrappers

  datatype Algorithm = SLQ | ILQR

  /** The integrators the backward pass can be configured with; the others are grouped in `OtherIntegrator`. */
  datatype IntegratorType = ODE45 | BULIRSCH_STOER | ODE45_OCS2 | RK4 | OtherIntegrator(name: string)

  datatype SearchStrategy = LINE_SEARCH | LEVENBERG_MARQUARDT

  datatype DdpSettings = DdpSettings(
    algorithm: Algorithm,
    nThreads: nat,
    backwardPassIntegratorType: IntegratorType,
    preComputeRiccatiTerms: bool,
    strategy: SearchStrategy,
    riskSensitiveCoeff: real,
    checkNumericalStability: bool)

  datatype SlqError =
    | AlgorithmMismatch(algorithm: Algorithm)
    | UnsupportedIntegrator(integratorType: IntegratorType)
    | TrajectorySizeMismatch(actual: nat, expected: nat)

  /** The state of the Riccati equations in vector form (not modelled further). */
  type SsVector = seq<real>

  datatype ValueFunction = ValueFunction(dfdxx: seq<seq<real>>, dfdx: seq<real>, f: real)

  predicate SupportedBackwardIntegrator(integratorType: IntegratorType) {
    integratorType == ODE45 || integratorType == BULIRSCH_STOER || integratorType == ODE45_OCS2 || integratorType == RK4
  }

  /**
   * The constructor's checks, in their order: the algorithm must be SLQ,
   * then the backward integrator must be one of the four supported ones.
   */
  function ConfigurationCheck(settings: DdpSettings): (r: Outcome<SlqError>)
    ensures r.Pass? <==> settings.algorithm == SLQ && SupportedBackwardIntegrator(settings.backwardPassIntegratorType)
    ensures settings.algorithm != SLQ ==> r == Fail(AlgorithmMismatch(settings.algorithm))
    ensures settings.algorithm == SLQ && !SupportedBackwardIntegrator(settings.backwardPassIntegratorType) ==>
      r == Fail(UnsupportedIntegrator(settings.backwardPassIntegratorType))
  {
    if settings.algorithm != SLQ then Fail(AlgorithmMismatch(settings.algorithm))
    else if !SupportedBackwardIntegrator(settings.backwardPassIntegratorType) then Fail(UnsupportedIntegrator(settings.backwardPassIntegratorType))
    else Pass
  }

  /** One thread's Riccati equations: whether terms are precomputed and whether the problem is risk sensitive. */
  datatype RiccatiEquations = ContinuousTimeRiccatiEquations(preComputeRiccatiTerms: bool, isRiskSensitive: bool, riskSensitiveCoefficient: real)

  /** The Riccati equations every thread is given. */
  function ThreadRiccatiEquations(settings: DdpSettings): (eq: RiccatiEquations)
    ensures eq.preComputeRiccatiTerms <==> settings.preComputeRiccatiTerms && settings.strategy == LINE_SEARCH
    ensures eq.isRiskSensitive <==> settings.riskSensitiveCoeff != 0.0
    ensures eq.riskSensitiveCoefficient == settings.riskSensitiveCoeff
  {
    ContinuousTimeRiccatiEquations(settings.preComputeRiccatiTerms && settings.strategy == LINE_SEARCH,
                                   settings.riskSensitiveCoeff != 0.0, settings.riskSensitiveCoeff)
  }

  class SLQ {
    const settings: DdpSettings
    var allSsTrajectoryStock: seq<seq<SsVector>>
    var SsNormalizedTimeTrajectoryStock: seq<seq<real>>
    var SsNormalizedEventsPastTheEndIndecesStock: seq<seq<nat>>
    var riccatiEquationsPtrStock: seq<RiccatiEquations>
    var riccatiIntegratorPtrStock: seq<IntegratorType>

    /**
     * A solver whose configuration passed the checks: per thread an empty
     * work area, one set of Riccati equations and one integrator of the
     * configured type.
     */
    constructor (settings: DdpSettings)
      requires ConfigurationCheck(settings).Pass?
      ensures this.settings == settings
      ensures |allSsTrajectoryStock| == settings.nThreads && |SsNormalizedTimeTrajectoryStock| == settings.nThreads
      ensures |SsNormalizedEventsPastTheEndIndecesStock| == settings.nThreads
      ensures |riccatiEquationsPtrStock| == settings.nThreads && |riccatiIntegratorPtrStock| == settings.nThreads
      ensures forall i | 0 <= i < settings.nThreads ::
        && allSsTrajectoryStock[i] == [] && SsNormalizedTimeTrajectoryStock[i] == [] && SsNormalizedEventsPastTheEndIndecesStock[i] == []
        && riccatiEquationsPtrStock[i] == ThreadRiccatiEquations(settings)
        && riccatiIntegratorPtrStock[i] == settings.backwardPassIntegratorType
    {
      this.settings := settings;
      allSsTrajectoryStock := seq(settings.nThreads, _ => []);
      SsNormalizedTimeTrajectoryStock := seq(settings.nThreads, _ => []);
      SsNormalizedEventsPastTheEndIndecesStock := seq(settings.nThreads, _ => []);
      riccatiEquationsPtrStock := [];
      riccatiIntegratorPtrStock := [];
      new;
      for i := 0 to settings.nThreads
        invariant |riccatiEquationsPtrStock| == i && |riccatiIntegratorPtrStock| == i
        invariant forall j | 0 <= j < i ::
          riccatiEquationsPtrStock[j] == ThreadRiccatiEquations(settings) && riccatiIntegratorPtrStock[j] == settings.backwardPassIntegratorType
        invariant |allSsTrajectoryStock| == settings.nThreads && |SsNormalizedTimeTrajectoryStock| == settings.nThreads
        invariant |SsNormalizedEventsPastTheEndIndecesStock| == settings.nThreads
        invariant forall j | 0 <= j < settings.nThreads ::
          allSsTrajectoryStock[j] == [] && SsNormalizedTimeTrajectoryStock[j] == [] && SsNormalizedEventsPastTheEndIndecesStock[j] == []
      {
        var preComputeRiccatiTerms := settings.preComputeRiccatiTerms && settings.strategy == LINE_SEARCH;
        var isRiskSensitive := settings.riskSensitiveCoeff != 0.0;
        var riccatiEquations := ContinuousTimeRiccatiEquations(preComputeRiccatiTerms, isRiskSensitive, 0.0);
        riccatiEquations := riccatiEquations.(riskSensitiveCoefficient := settings.riskSensitiveCoeff);
        riccatiEquationsPtrStock := riccatiEquationsPtrStock + [riccatiEquations];
        riccatiIntegratorPtrStock := riccatiIntegratorPtrStock + [settings.backwardPassIntegratorType];
      }
    }
  }

  /** Construction: a solver if the configuration passes its checks, the first failing check otherwise. */
  method NewSlq(settings: DdpSettings) returns (result: Result<SLQ, SlqError>)
    ensures result.Success? <==> ConfigurationCheck(settings).Pass?
    ensures result.Failure? ==> result.error == ConfigurationCheck(settings).error
    ensures result.Success? ==>
      && fresh(result.value) && result.value.settings == settings
      && |result.value.riccatiEquationsPtrStock| == settings.nThreads && |result.value.riccatiIntegratorPtrStock| == settings.nThreads
  {
    var check := ConfigurationCheck(settings);
    if check.Fail? {
      return Failure(check.error);
    }
    var slq := new SLQ(settings);
    return Success(slq);
  }

  // ---------------------------------------------------------------------------
  // Integration over a fixed normalized time grid
  // ---------------------------------------------------------------------------

  /** A range [begin, end) of positions in the normalized time array. */
  datatype Segment = Segment(begin: nat, end: nat)

  /**
   * Post-event indices as the backward pass gets them: strictly increasing,
   * none at the start of the partition and each naming a time in the array.
   */
  predicate PostEventIndicesValid(postEventIndices: seq<nat>, n: nat) {
    && (forall j | 0 <= j < |postEventIndices| :: 0 < postEventIndices[j] < n)
    && (forall i, j | 0 <= i < j < |postEventIndices| :: postEventIndices[i] < postEventIndices[j])
  }

  /**
   * The event-free segments of a normalized time array of size n: from the
   * start to the first post-event index, between consecutive indices, and
   * from the last index to the end.
   */
  function SwitchingSegments(n: nat, postEventIndices: seq<nat>): (segments: seq<Segment>)
    ensures |segments| == |postEventIndices| + 1
    ensures segments[0].begin == 0 && segments[|segments| - 1].end == n
    ensures forall j | 0 <= j < |postEventIndices| ::
      segments[j].end == postEventIndices[j] && segments[j + 1].begin == postEventIndices[j]
  {
    seq(|postEventIndices| + 1, j requires 0 <= j <= |postEventIndices| =>
      Segment(if j == 0 then 0 else postEventIndices[j - 1], if j < |postEventIndices| then postEventIndices[j] else n))
  }

  /** The segments as the solver collects them: each post-event index closes one segment and opens the next. */
  method NormalizedSwitchingTimesIndices(n: nat, postEventIndices: seq<nat>) returns (segments: seq<Segment>)
    ensures segments == SwitchingSegments(n, postEventIndices)
  {
    segments := [Segment(0, 0)];
    for j := 0 to |postEventIndices|
      invariant |segments| == j + 1 && segments[0].begin == 0
      invariant forall i | 0 <= i < j :: segments[i].end == postEventIndices[i] && segments[i + 1].begin == postEventIndices[i]
      invariant segments[j].begin == (if j == 0 then 0 else postEventIndices[j - 1])
    {
      var index := postEventIndices[j];
      segments := segments[|segments| - 1 := segments[|segments| - 1].(end := index)];
      segments := segments + [Segment(index, index)];
    }
    segments := segments[|segments| - 1 := segments[|segments| - 1].(end := n)];
  }

  /** Every segment is a non-empty range of the array when the indices are valid. */
  predicate SegmentsInRange(segments: seq<Segment>, n: nat) {
    forall j | 0 <= j < |segments| :: segments[j].begin < segments[j].end <= n
  }

  lemma SwitchingSegmentsRunnable(n: nat, postEventIndices: seq<nat>)
    requires PostEventIndicesValid(postEventIndices, n) && n > 0
    ensures PassSegments(SwitchingSegments(n, postEventIndices), n)
  {
    var segments := SwitchingSegments(n, postEventIndices);
    forall j | 0 <= j < |segments|
      ensures segments[j].begin < segments[j].end <= n
    {
      if 0 < j < |postEventIndices| {
        assert segments[j].begin == postEventIndices[j - 1] && segments[j].end == postEventIndices[j];
      }
    }
  }

  /** The times of the segments, one after the other. */
  function Slices(time: seq<real>, segments: seq<Segment>): seq<real>
    requires SegmentsInRange(segments, |time|)
  {
    if |segments| == 0 then [] else time[segments[0].begin..segments[0].end] + Slices(time, segments[1..])
  }

  lemma {:induction false} ContiguousSlices(time: seq<real>, segments: seq<Segment>, b: nat)
    requires |segments| > 0 && SegmentsInRange(segments, |time|)
    requires segments[0].begin == b && segments[|segments| - 1].end == |time|
    requires forall j | 0 <= j < |segments| - 1 :: segments[j].end == segments[j + 1].begin
    ensures Slices(time, segments) == time[b..]
  {
    if |segments| == 1 {
      assert Slices(time, segments) == time[b..|time|] + Slices(time, []);
    } else {
      var e := segments[0].end;
      ContiguousSlices(time, segments[1..], e);
      assert time[b..] == time[b..e] + time[e..];
    }
  }

  /** The segments cover the normalized time array exactly once, in order. */
  lemma SegmentsCoverTime(time: seq<real>, postEventIndices: seq<nat>)
    requires PostEventIndicesValid(postEventIndices, |time|) && |time| > 0
    ensures SegmentsInRange(SwitchingSegments(|time|, postEventIndices), |time|)
    ensures Slices(time, SwitchingSegments(|time|, postEventIndices)) == time
  {
    SwitchingSegmentsRunnable(|time|, postEventIndices);
    ContiguousSlices(time, SwitchingSegments(|time|, postEventIndices), 0);
  }

  /** The integrator records at least one state for a non-empty time range. */
  ghost predicate ObservesSomething(integrateTimes: (SsVector, seq<real>) -> seq<SsVector>) {
    forall y: SsVector, times: seq<real> | |times| > 0 :: |integrateTimes(y, times)| > 0
  }

  /**
   * The states recorded by integrating segment after segment, starting the
   * first from `ssFinal` and every later one from the jump map applied at
   * the end time of the previous segment to the last recorded state.
   */
  function BackwardPass(integrateTimes: (SsVector, seq<real>) -> seq<SsVector>, jumpMap: (real, SsVector) -> SsVector,
                        time: seq<real>, segments: seq<Segment>, ssFinal: SsVector): seq<SsVector>
    requires PassSegments(segments, |time|) && ObservesSomething(integrateTimes)
  {
    if |segments| == 0 then []
    else
      var recorded := integrateTimes(ssFinal, time[segments[0].begin..segments[0].end]);
      if |segments| == 1 then recorded
      else recorded + BackwardPass(integrateTimes, jumpMap, time, segments[1..], jumpMap(time[segments[0].end], recorded[|recorded| - 1]))
  }

  /** Segments the backward pass can run over: non-empty ranges, each but the last ending before the end of the array. */
  predicate PassSegments(segments: seq<Segment>, n: nat) {
    SegmentsInRange(segments, n) && forall j | 0 <= j < |segments| - 1 :: segments[j].end < n
  }

  /** One step of the backward pass: the first segment's states, then the rest after the jump. */
  lemma BackwardPassStep(integrateTimes: (SsVector, seq<real>) -> seq<SsVector>, jumpMap: (real, SsVector) -> SsVector,
                         time: seq<real>, segments: seq<Segment>, ssFinal: SsVector)
    requires PassSegments(segments, |time|) && ObservesSomething(integrateTimes) && |segments| > 0
    ensures PassSegments(segments[1..], |time|)
    ensures var recorded := integrateTimes(ssFinal, time[segments[0].begin..segments[0].end]);
      && |recorded| > 0
      && BackwardPass(integrateTimes, jumpMap, time, segments, ssFinal) ==
           if |segments| == 1 then recorded
           else recorded + BackwardPass(integrateTimes, jumpMap, time, segments[1..], jumpMap(time[segments[0].end], recorded[|recorded| - 1]))
  {
  }

  /**
   * Integrates the Riccati equations over a fixed normalized time array:
   * segment by segment, with the jump map between segments but not after
   * the last. A trajectory whose size differs from the time array's is an
   * error.
   */
  method IntegrateRiccatiEquationNominalTime(integrateTimes: (SsVector, seq<real>) -> seq<SsVector>,
                                             jumpMap: (real, SsVector) -> SsVector,
                                             SsNormalizedTime: seq<real>, SsNormalizedPostEventIndices: seq<nat>,
                                             allSsFinal: SsVector)
    returns (result: Result<seq<SsVector>, SlqError>)
    requires |SsNormalizedTime| > 0 && PostEventIndicesValid(SsNormalizedPostEventIndices, |SsNormalizedTime|)
    requires ObservesSomething(integrateTimes)
    ensures PassSegments(SwitchingSegments(|SsNormalizedTime|, SsNormalizedPostEventIndices), |SsNormalizedTime|)
    ensures var trajectory := BackwardPass(integrateTimes, jumpMap, SsNormalizedTime,
                                           SwitchingSegments(|SsNormalizedTime|, SsNormalizedPostEventIndices), allSsFinal);
      result == if |trajectory| == |SsNormalizedTime| then Success(trajectory)
                else Failure(TrajectorySizeMismatch(|trajectory|, |SsNormalizedTime|))
  {
    var nominalTimeSize := |SsNormalizedTime|;
    var numEvents := |SsNormalizedPostEventIndices|;
    var segments := NormalizedSwitchingTimesIndices(nominalTimeSize, SsNormalizedPostEventIndices);
    SwitchingSegmentsRunnable(nominalTimeSize, SsNormalizedPostEventIndices);
    assert PassSegments(segments, nominalTimeSize);
    ghost var whole := BackwardPass(integrateTimes, jumpMap, SsNormalizedTime, segments, allSsFinal);

    var allSsTrajectory: seq<SsVector> := [];
    var ssFinal := allSsFinal;
    for i := 0 to numEvents + 1
      invariant PassSegments(segments[i..], nominalTimeSize)
      invariant allSsTrajectory + BackwardPass(integrateTimes, jumpMap, SsNormalizedTime, segments[i..], ssFinal) == whole
    {
      assert segments[i..][1..] == segments[i + 1..];
      allSsTrajectory, ssFinal := IntegrateSegment(integrateTimes, jumpMap, SsNormalizedTime, segments[i..], allSsTrajectory, ssFinal);
    }
    assert segments[numEvents + 1..] == [];
    assert allSsTrajectory == whole;
    if |allSsTrajectory| != nominalTimeSize {
      return Failure(TrajectorySizeMismatch(|allSsTrajectory|, nominalTimeSize));
    }
    return Success(allSsTrajectory);
  }

  /**
   * One pass of the solver's segment loop: integrate the first remaining
   * segment, append the recorded states and, unless it is the last segment,
   * apply the jump map at its end time to the last recorded state.
   */
  method IntegrateSegment(integrateTimes: (SsVector, seq<real>) -> seq<SsVector>, jumpMap: (real, SsVector) -> SsVector,
                          SsNormalizedTime: seq<real>, segments: seq<Segment>, allSsTrajectory: seq<SsVector>, ssFinal: SsVector)
    returns (allSsNext: seq<SsVector>, ssFinalNext: SsVector)
    requires PassSegments(segments, |SsNormalizedTime|) && ObservesSomething(integrateTimes) && |segments| > 0
    ensures PassSegments(segments[1..], |SsNormalizedTime|)
    ensures allSsNext + BackwardPass(integrateTimes, jumpMap, SsNormalizedTime, segments[1..], ssFinalNext) ==
            allSsTrajectory + BackwardPass(integrateTimes, jumpMap, SsNormalizedTime, segments, ssFinal)
  {
    BackwardPassStep(integrateTimes, jumpMap, SsNormalizedTime, segments, ssFinal);
    var beginTime, endTime := segments[0].begin, segments[0].end;
    var recorded := integrateTimes(ssFinal, SsNormalizedTime[beginTime..endTime]);
    allSsNext := allSsTrajectory + recorded;
    ssFinalNext := ssFinal;
    if |segments| > 1 {
      ssFinalNext := jumpMap(SsNormalizedTime[endTime], allSsNext[|allSsNext| - 1]);
    }
  }

  lemma {:induction false} BackwardPassSize(integrateTimes: (SsVector, seq<real>) -> seq<SsVector>, jumpMap: (real, SsVector) -> SsVector,
                                            time: seq<real>, segments: seq<Segment>, ssFinal: SsVector)
    requires PassSegments(segments, |time|) && ObservesSomething(integrateTimes)
    requires forall y: SsVector, times: seq<real> :: |integrateTimes(y, times)| == |times|
    ensures |BackwardPass(integrateTimes, jumpMap, time, segments, ssFinal)| == |Slices(time, segments)|
  {
    if |segments| > 1 {
      var recorded := integrateTimes(ssFinal, time[segments[0].begin..segments[0].end]);
      BackwardPassSize(integrateTimes, jumpMap, time, segments[1..], jumpMap(time[segments[0].end], recorded[|recorded| - 1]));
    }
  }

  /**
   * The size check only fails when the integrator does not record exactly
   * one state per requested time: with such an integrator the trajectory
   * has the size of the time array.
   */
  lemma ExactObserverPassesSizeCheck(integrateTimes: (SsVector, seq<real>) -> seq<SsVector>, jumpMap: (real, SsVector) -> SsVector,
                                     SsNormalizedTime: seq<real>, SsNormalizedPostEventIndices: seq<nat>, allSsFinal: SsVector)
    requires |SsNormalizedTime| > 0 && PostEventIndicesValid(SsNormalizedPostEventIndices, |SsNormalizedTime|)
    requires forall y: SsVector, times: seq<real> :: |integrateTimes(y, times)| == |times|
    ensures ObservesSomething(integrateTimes)
    ensures PassSegments(SwitchingSegments(|SsNormalizedTime|, SsNormalizedPostEventIndices), |SsNormalizedTime|)
    ensures |BackwardPass(integrateTimes, jumpMap, SsNormalizedTime,
                          SwitchingSegments(|SsNormalizedTime|, SsNormalizedPostEventIndices), allSsFinal)| == |SsNormalizedTime|
  {
    SegmentsCoverTime(SsNormalizedTime, SsNormalizedPostEventIndices);
    BackwardPassSize(integrateTimes, jumpMap, SsNormalizedTime,
                     SwitchingSegments(|SsNormalizedTime|, SsNormalizedPostEventIndices), allSsFinal);
  }

  // ---------------------------------------------------------------------------
  // Copying the integrated samples into the value function
  // ---------------------------------------------------------------------------

  /** The converted samples in reverse order. */
  function ReverseConverted(convert2Matrix: SsVector -> ValueFunction, samples: seq<SsVector>): (r: seq<ValueFunction>)
    ensures |r| == |samples|
    ensures forall i | 0 <= i < |samples| :: r[i] == convert2Matrix(samples[|samples| - 1 - i])
  {
    if |samples| == 0 then [] else [convert2Matrix(samples[|samples| - 1])] + ReverseConverted(convert2Matrix, samples[..|samples| - 1])
  }

  /**
   * The samples were integrated backwards in time, so the value function of
   * the partition is filled from the last sample down: position k takes
   * sample outputN-1-(k-first). Nothing outside the partition changes.
   */
  method DenormalizeValueFunction(valueFunctionTrajectory: array<ValueFunction>, first: nat, second: nat,
                                  allSsTrajectory: seq<SsVector>, outputN: nat, convert2Matrix: SsVector -> ValueFunction)
    requires first <= second <= valueFunctionTrajectory.Length
    requires |allSsTrajectory| == outputN && second - first <= outputN
    modifies valueFunctionTrajectory
    ensures forall k | first <= k < second :: valueFunctionTrajectory[k] == convert2Matrix(allSsTrajectory[outputN - 1 - (k - first)])
    ensures forall k | 0 <= k < valueFunctionTrajectory.Length && !(first <= k < second) ::
      valueFunctionTrajectory[k] == old(valueFunctionTrajectory[k])
    ensures second - first == outputN ==> valueFunctionTrajectory[first..second] == ReverseConverted(convert2Matrix, allSsTrajectory)
  {
    for k := first to second
      invariant forall j | first <= j < k :: valueFunctionTrajectory[j] == convert2Matrix(allSsTrajectory[outputN - 1 - (j - first)])
      invariant forall j | 0 <= j < valueFunctionTrajectory.Length && !(first <= j < k) ::
        valueFunctionTrajectory[j] == old(valueFunctionTrajectory[j])
    {
      valueFunctionTrajectory[k] := convert2Matrix(allSsTrajectory[outputN - 1 - k + first]);
    }
  }

  // ---------------------------------------------------------------------------
  // Integration with adaptive time steps
  // ---------------------------------------------------------------------------

  /** An integration interval in negated time. */
  datatype Interval = Interval(begin: real, end: real)

  /** A recorded state and the (negated) time it was recorded at. */
  datatype Observation = Observation(time: real, state: SsVector)

  /** Post-event indices of a nominal time array: each has a time before it. */
  predicate AdaptiveIndicesValid(nominalEventsPastTheEndIndices: seq<nat>, n: nat) {
    forall j | 0 <= j < |nominalEventsPastTheEndIndices| :: 1 <= nominalEventsPastTheEndIndices[j] < n
  }

  /**
   * The intervals of the adaptive backward pass in negated time: from
   * -t_last back to the last event, between events (newest first), and
   * from the first event back to -t_first. Interval j ends at the time of
   * the j-th post-event index counted from the back, and the next one starts
   * at the time just before it.
   */
  function AdaptiveSwitchingTimes(time: seq<real>, postEventIndices: seq<nat>): (intervals: seq<Interval>)
    requires |time| > 0 && AdaptiveIndicesValid(postEventIndices, |time|)
    ensures |intervals| == |postEventIndices| + 1
    ensures intervals[0].begin == -time[|time| - 1] && intervals[|intervals| - 1].end == -time[0]
    ensures forall j | 0 <= j < |postEventIndices| :: intervals[j].end == -time[postEventIndices[|postEventIndices| - 1 - j]]
    ensures forall j | 1 <= j <= |postEventIndices| :: intervals[j].begin == -time[postEventIndices[|postEventIndices| - j] - 1]
  {
    var m := |postEventIndices|;
    seq(m + 1, j requires 0 <= j <= m =>
      Interval(if j == 0 then -time[|time| - 1] else -time[postEventIndices[m - j] - 1],
               if j < m then -time[postEventIndices[m - 1 - j]] else -time[0]))
  }

  /** The intervals as the solver collects them, walking the post-event indices from the back. */
  method NormalizedSwitchingTimes(nominalTimeTrajectory: seq<real>, nominalEventsPastTheEndIndices: seq<nat>)
    returns (intervals: seq<Interval>)
    requires |nominalTimeTrajectory| > 0 && AdaptiveIndicesValid(nominalEventsPastTheEndIndices, |nominalTimeTrajectory|)
    ensures intervals == AdaptiveSwitchingTimes(nominalTimeTrajectory, nominalEventsPastTheEndIndices)
  {
    var time, m := nominalTimeTrajectory, |nominalEventsPastTheEndIndices|;
    ghost var spec := AdaptiveSwitchingTimes(time, nominalEventsPastTheEndIndices);
    intervals := [Interval(-time[|time| - 1], 0.0)];
    var r := m;
    while r > 0
      invariant 0 <= r <= m && |intervals| == m - r + 1
      invariant forall j | 0 <= j < m - r :: intervals[j] == spec[j]
      invariant intervals[m - r].begin == spec[m - r].begin
    {
      var index := nominalEventsPastTheEndIndices[r - 1];
      intervals := intervals[|intervals| - 1 := intervals[|intervals| - 1].(end := -time[index])];
      intervals := intervals + [Interval(-time[index - 1], 0.0)];
      r := r - 1;
    }
    intervals := intervals[|intervals| - 1 := intervals[|intervals| - 1].(end := -time[0])];
  }

  /** What the adaptive integrator records over one interval: at least the state it starts from. */
  type Recording = observations: seq<Observation> | |observations| > 0 witness [Observation(0.0, [])]

  /**
   * The observations of each interval: the first starts from `ssFinal`,
   * every later one from the jump map at the end time of the previous
   * interval applied to its last recorded state.
   */
  function AdaptiveBlocks(integrateAdaptive: (SsVector, real, real) -> Recording, jumpMap: (real, SsVector) -> SsVector,
                          intervals: seq<Interval>, ssFinal: SsVector): (blocks: seq<Recording>)
    ensures |blocks| == |intervals|
  {
    if |intervals| == 0 then []
    else
      var recorded := integrateAdaptive(ssFinal, intervals[0].begin, intervals[0].end);
      [recorded] + AdaptiveBlocks(integrateAdaptive, jumpMap, intervals[1..],
                                  jumpMap(intervals[0].end, recorded[|recorded| - 1].state))
  }

  lemma AdaptiveBlocksStep(integrateAdaptive: (SsVector, real, real) -> Recording, jumpMap: (real, SsVector) -> SsVector,
                           intervals: seq<Interval>, ssFinal: SsVector)
    requires |intervals| > 0
    ensures var recorded := integrateAdaptive(ssFinal, intervals[0].begin, intervals[0].end);
      && |recorded| > 0
      && AdaptiveBlocks(integrateAdaptive, jumpMap, intervals, ssFinal) ==
           [recorded] + AdaptiveBlocks(integrateAdaptive, jumpMap, intervals[1..], jumpMap(intervals[0].end, recorded[|recorded| - 1].state))
  {
  }

  function Flatten(blocks: seq<seq<Observation>>): seq<Observation> {
    if |blocks| == 0 then [] else Flatten(blocks[..|blocks| - 1]) + blocks[|blocks| - 1]
  }

  function Times(observations: seq<Observation>): (times: seq<real>)
    ensures |times| == |observations|
  {
    if |observations| == 0 then [] else Times(observations[..|observations| - 1]) + [observations[|observations| - 1].time]
  }

  function States(observations: seq<Observation>): (states: seq<SsVector>)
    ensures |states| == |observations|
  {
    if |observations| == 0 then [] else States(observations[..|observations| - 1]) + [observations[|observations| - 1].state]
  }

  lemma {:induction false} TimesAppend(a: seq<Observation>, b: seq<Observation>)
    ensures Times(a + b) == Times(a) + Times(b) && States(a + b) == States(a) + States(b)
  {
    if |b| > 0 {
      TimesAppend(a, b[..|b| - 1]);
      assert (a + b)[..|a + b| - 1] == a + b[..|b| - 1];
    } else {
      assert a + b == a;
    }
  }

  lemma FlattenSnoc(blocks: seq<seq<Observation>>, i: nat)
    requires i < |blocks|
    ensures Flatten(blocks[..i + 1]) == Flatten(blocks[..i]) + blocks[i]
  {
    assert blocks[..i + 1][..i] == blocks[..i];
  }

  /** Each block is non-empty, so the sizes after each block strictly increase. */
  lemma {:induction false} FlattenGrows(blocks: seq<Recording>, i: nat, j: nat)
    requires i < j <= |blocks|
    ensures |Flatten(blocks[..i])| < |Flatten(blocks[..j])|
  {
    assert blocks[..j][..j - 1] == blocks[..j - 1];
    if i < j - 1 {
      FlattenGrows(blocks, i, j - 1);
    }
  }

  /**
   * One pass of the solver's adaptive loop over interval i: integrate it,
   * append the recorded times and states and, unless it is the last
   * interval, keep the number of states as a post-event index and apply the
   * jump map at the interval's end time to the last state. `blocks` are the
   * recordings of the whole pass.
   */
  method IntegrateInterval(integrateAdaptive: (SsVector, real, real) -> Recording, jumpMap: (real, SsVector) -> SsVector,
                           intervals: seq<Interval>, i: nat, ghost blocks: seq<Recording>,
                           SsNormalizedTime: seq<real>, allSsTrajectory: seq<SsVector>,
                           SsNormalizedPostEventIndices: seq<nat>, ssFinal: SsVector)
    returns (timeNext: seq<real>, allSsNext: seq<SsVector>, postEventIndicesNext: seq<nat>, ssFinalNext: SsVector)
    requires i < |intervals| == |blocks|
    requires blocks[i..] == AdaptiveBlocks(integrateAdaptive, jumpMap, intervals[i..], ssFinal)
    requires SsNormalizedTime == Times(Flatten(blocks[..i])) && allSsTrajectory == States(Flatten(blocks[..i]))
    requires |SsNormalizedPostEventIndices| == i
    requires forall j | 0 <= j < i :: SsNormalizedPostEventIndices[j] == |Flatten(blocks[..j + 1])|
    ensures blocks[i + 1..] == AdaptiveBlocks(integrateAdaptive, jumpMap, intervals[i + 1..], ssFinalNext)
    ensures timeNext == Times(Flatten(blocks[..i + 1])) && allSsNext == States(Flatten(blocks[..i + 1]))
    ensures |postEventIndicesNext| == if i + 1 < |intervals| then i + 1 else i
    ensures forall j | 0 <= j < |postEventIndicesNext| :: postEventIndicesNext[j] == |Flatten(blocks[..j + 1])|
  {
    AdaptiveBlocksStep(integrateAdaptive, jumpMap, intervals[i..], ssFinal);
    assert intervals[i..][1..] == intervals[i + 1..] && blocks[i..][1..] == blocks[i + 1..];
    var beginTime, endTime := intervals[i].begin, intervals[i].end;
    var recorded := integrateAdaptive(ssFinal, beginTime, endTime);
    assert blocks[i] == recorded;
    FlattenSnoc(blocks, i);
    TimesAppend(Flatten(blocks[..i]), recorded);
    timeNext := SsNormalizedTime + Times(recorded);
    allSsNext := allSsTrajectory + States(recorded);
    postEventIndicesNext := SsNormalizedPostEventIndices;
    ssFinalNext := ssFinal;
    if i + 1 < |intervals| {
      postEventIndicesNext := postEventIndicesNext + [|allSsNext|];
      ssFinalNext := jumpMap(endTime, allSsNext[|allSsNext| - 1]);
    }
  }

  /**
   * Integrates the Riccati equations with adaptive steps over the negated
   * intervals. The recorded times and states grow together; after every
   * interval but the last, the number of states recorded so far is kept as
   * a post-event index and the jump map gives the next start.
   */
  method IntegrateRiccatiEquationAdaptiveTime(integrateAdaptive: (SsVector, real, real) -> Recording,
                                              jumpMap: (real, SsVector) -> SsVector,
                                              nominalTimeTrajectory: seq<real>, nominalEventsPastTheEndIndices: seq<nat>,
                                              allSsFinal: SsVector)
    returns (SsNormalizedTime: seq<real>, SsNormalizedPostEventIndices: seq<nat>, allSsTrajectory: seq<SsVector>)
    requires |nominalTimeTrajectory| > 0 && AdaptiveIndicesValid(nominalEventsPastTheEndIndices, |nominalTimeTrajectory|)
    ensures var blocks := AdaptiveBlocks(integrateAdaptive, jumpMap,
                                         AdaptiveSwitchingTimes(nominalTimeTrajectory, nominalEventsPastTheEndIndices), allSsFinal);
      && SsNormalizedTime == Times(Flatten(blocks)) && allSsTrajectory == States(Flatten(blocks))
      && |SsNormalizedPostEventIndices| == |nominalEventsPastTheEndIndices|
      && forall j | 0 <= j < |SsNormalizedPostEventIndices| :: SsNormalizedPostEventIndices[j] == |Flatten(blocks[..j + 1])|
    ensures |SsNormalizedTime| == |allSsTrajectory|
    ensures forall i, j | 0 <= i < j < |SsNormalizedPostEventIndices| :: SsNormalizedPostEventIndices[i] < SsNormalizedPostEventIndices[j]
    ensures forall j | 0 <= j < |SsNormalizedPostEventIndices| :: SsNormalizedPostEventIndices[j] < |allSsTrajectory|
  {
    var numEvents := |nominalEventsPastTheEndIndices|;
    var intervals := NormalizedSwitchingTimes(nominalTimeTrajectory, nominalEventsPastTheEndIndices);
    ghost var blocks := AdaptiveBlocks(integrateAdaptive, jumpMap, intervals, allSsFinal);

    SsNormalizedTime := [];
    SsNormalizedPostEventIndices := [];
    allSsTrajectory := [];
    var ssFinal := allSsFinal;
    for i := 0 to numEvents + 1
      invariant blocks[i..] == AdaptiveBlocks(integrateAdaptive, jumpMap, intervals[i..], ssFinal)
      invariant SsNormalizedTime == Times(Flatten(blocks[..i])) && allSsTrajectory == States(Flatten(blocks[..i]))
      invariant |SsNormalizedPostEventIndices| == (if i <= numEvents then i else numEvents)
      invariant forall j | 0 <= j < |SsNormalizedPostEventIndices| :: SsNormalizedPostEventIndices[j] == |Flatten(blocks[..j + 1])|
    {
      SsNormalizedTime, allSsTrajectory, SsNormalizedPostEventIndices, ssFinal :=
        IntegrateInterval(integrateAdaptive, jumpMap, intervals, i, blocks, SsNormalizedTime, allSsTrajectory, SsNormalizedPostEventIndices, ssFinal);
    }
    assert blocks[..numEvents + 1] == blocks;
    PostEventIndicesIncrease(blocks, SsNormalizedPostEventIndices);
  }

  /** Sizes recorded after each but the last block increase strictly and stay below the total. */
  lemma PostEventIndicesIncrease(blocks: seq<Recording>, postEventIndices: seq<nat>)
    requires |postEventIndices| < |blocks|
    requires forall j | 0 <= j < |postEventIndices| :: postEventIndices[j] == |Flatten(blocks[..j + 1])|
    ensures forall i, j | 0 <= i < j < |postEventIndices| :: postEventIndices[i] < postEventIndices[j]
    ensures forall j | 0 <= j < |postEventIndices| :: postEventIndices[j] < |Flatten(blocks)|
  {
    forall i, j | 0 <= i < j < |postEventIndices|
      ensures postEventIndices[i] < postEventIndices[j]
    {
      FlattenGrows(blocks, i + 1, j + 1);
    }
    forall j | 0 <= j < |postEventIndices|
      ensures postEventIndices[j] < |Flatten(blocks)|
    {
      FlattenGrows(blocks, j + 1, |blocks|);
      assert blocks[..|blocks|] == blocks;
    }
  }

  // ---------------------------------------------------------------------------
  // Controller stability check
  // ---------------------------------------------------------------------------

  /**
   * The message the stability check reports, if any. The check only runs
   * when enabled; unstable gains are reported before an unstable bias.
   */
  function StabilityReport(checkNumericalStability: bool, gainsFinite: bool, deltaBiasFinite: bool): (message: Option<string>)
    ensures message.None? <==> !checkNumericalStability || (gainsFinite && deltaBiasFinite)
    ensures message.Some? && !gainsFinite ==> message.value == "Feedback gains are unstable."
    ensures message.Some? && gainsFinite ==> message.value == "feedForwardControl is unstable."
  {
    if !checkNumericalStability then None
    else if !gainsFinite then Some("Feedback gains are unstable.")
    else if !deltaBiasFinite then Some("feedForwardControl is unstable.")
    else None
  }

  /**
   * Stores the controller at time index k and checks it. The gains and
   * biases are computed elsewhere and passed in. An unstable controller is
   * reported (the returned message) and kept: the check never fails the
   * call, and nothing but index k changes.
   */
  method CalculateControllerWorker(k: nat, checkNumericalStability: bool,
                                   gainArray: array<seq<seq<real>>>, biasArray: array<seq<real>>, deltaBiasArray: array<seq<real>>,
                                   gain: seq<seq<real>>, bias: seq<real>, deltaBias: seq<real>,
                                   matrixFinite: seq<seq<real>> -> bool, vectorFinite: seq<real> -> bool)
    returns (report: Option<string>)
    requires k < gainArray.Length && k < biasArray.Length && k < deltaBiasArray.Length
    requires biasArray != deltaBiasArray
    modifies gainArray, biasArray, deltaBiasArray
    ensures gainArray[..] == old(gainArray[..])[k := gain]
    ensures biasArray[..] == old(biasArray[..])[k := bias]
    ensures deltaBiasArray[..] == old(deltaBiasArray[..])[k := deltaBias]
    ensures report == StabilityReport(checkNumericalStability, matrixFinite(gain), vectorFinite(deltaBias))
  {
    gainArray[k] := gain;
    biasArray[k] := bias;
    deltaBiasArray[k] := deltaBias;
    report := None;
    if checkNumericalStability {
      if !matrixFinite(gainArray[k]) {
        report := Some("Feedback gains are unstable.");
      } else if !vectorFinite(deltaBiasArray[k]) {
        report := Some("feedForwardControl is unstable.");
      }
    }
  }
}
