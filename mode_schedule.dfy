/**
 * Mode schedules and contact timings: the vocabulary shared by the gait
 * schedule, the schedule manager and the swing planner. A mode schedule is
 * a list of event times and one more mode than events; mode i is active
 * between event i-1 and event i. A mode number encodes one stance bit per
 * leg (LF, RF, LH, RH from the most significant bit down). The helpers here
 * (the time lookup, the mode decoding and the extraction of contact timings)
 * are not modelled from their bodies; they are stated from the way the
 * modelled code uses them.
 */
module ModeSchedules {
  import opened Wrappers

  const NumContactPoints: nat := 4

  /** A mode number: one stance bit per leg. */
  type Mode = m: nat | m < 16

  const FLY: Mode := 0
  const STANCE: Mode := 15

  /** The stance flag of each leg, in the order LF, RF, LH, RH. */
  function ModeNumber2StanceLeg(mode: Mode): (flags: seq<bool>)
    ensures |flags| == NumContactPoints
    ensures mode == STANCE ==> forall leg | 0 <= leg < 4 :: flags[leg]
    ensures mode == FLY ==> forall leg | 0 <= leg < 4 :: !flags[leg]
  {
    [(mode / 8) % 2 == 1, (mode / 4) % 2 == 1, (mode / 2) % 2 == 1, mode % 2 == 1]
  }

  /** The inverse encoding: the mode whose stance bits are the given flags. */
  function StanceLeg2ModeNumber(flags: seq<bool>): Mode
    requires |flags| == NumContactPoints
  {
    (if flags[0] then 8 else 0) + (if flags[1] then 4 else 0) + (if flags[2] then 2 else 0) + (if flags[3] then 1 else 0)
  }

  /** Decoding and encoding are inverse bijections between modes and flag quadruples. */
  lemma ModeEncodingRoundTrip(mode: Mode, flags: seq<bool>)
    requires |flags| == NumContactPoints
    ensures StanceLeg2ModeNumber(ModeNumber2StanceLeg(mode)) == mode
    ensures ModeNumber2StanceLeg(StanceLeg2ModeNumber(flags)) == flags
  {
    var m := StanceLeg2ModeNumber(flags);
    assert ModeNumber2StanceLeg(m)[0] == flags[0];
    assert ModeNumber2StanceLeg(m)[1] == flags[1];
    assert ModeNumber2StanceLeg(m)[2] == flags[2];
    assert ModeNumber2StanceLeg(m)[3] == flags[3];
  }

  predicate StrictlyIncreasing(s: seq<real>) {
    forall i, j | 0 <= i < j < |s| :: s[i] < s[j]
  }

  predicate NonDecreasing(s: seq<real>) {
    forall i, j | 0 <= i < j < |s| :: s[i] <= s[j]
  }

  datatype ModeSchedule = ModeSchedule(eventTimes: seq<real>, modeSequence: seq<Mode>)

  /** One more mode than events, and events strictly increasing. */
  predicate WellFormed(s: ModeSchedule) {
    |s.modeSequence| == |s.eventTimes| + 1 && StrictlyIncreasing(s.eventTimes)
  }

  /** The default-constructed schedule: no events and the single mode 0. */
  const DefaultModeSchedule: ModeSchedule := ModeSchedule([], [FLY])

  /**
   * An index that brackets `t` in a sorted event list: every earlier event
   * is at most `t` and every later one at least `t`. At an exact event time
   * two indices qualify; which one the lookup picks is left open.
   */
  predicate IsTimeIndex(events: seq<real>, t: real, idx: nat) {
    idx <= |events| &&
    (forall j | 0 <= j < idx :: events[j] <= t) &&
    (forall j | idx <= j < |events| :: t <= events[j])
  }

  /** The interval index of a time in an event list (findIndexInTimeArray). */
  function FindIndexInTimeArray(events: seq<real>, t: real): (idx: nat)
    ensures idx <= |events|
    ensures NonDecreasing(events) ==> IsTimeIndex(events, t, idx)
  {
    if |events| == 0 || t < events[0] then 0
    else 1 + FindIndexInTimeArray(events[1..], t)
  }

  /** The mode active at a time. */
  function ModeAtTime(s: ModeSchedule, t: real): (mode: Mode)
    requires WellFormed(s)
    ensures exists idx: nat :: IsTimeIndex(s.eventTimes, t, idx) && idx < |s.modeSequence| && mode == s.modeSequence[idx]
  {
    var idx := FindIndexInTimeArray(s.eventTimes, t);
    s.modeSequence[idx]
  }

  /** A contact interval of one leg; a missing start or end is `None` (NaN in the source). */
  datatype ContactTiming = ContactTiming(start: Option<real>, end: Option<real>)

  predicate HasStartTime(timing: ContactTiming) { timing.start.Some? }
  predicate HasEndTime(timing: ContactTiming) { timing.end.Some? }

  /** The leg is in the air at the start: there is no contact or the first contact has a start time. */
  predicate StartsWithSwingPhase(timings: seq<ContactTiming>) {
    |timings| == 0 || HasStartTime(timings[0])
  }

  predicate StartsWithStancePhase(timings: seq<ContactTiming>) {
    !StartsWithSwingPhase(timings)
  }

  /** Some contact interval has a start time. */
  predicate TouchesDownAtLeastOnce(timings: seq<ContactTiming>) {
    exists i | 0 <= i < |timings| :: HasStartTime(timings[i])
  }

  /**
   * The shape of a leg's contact timings: only the first interval may lack
   * a start (it began before the schedule) and only the last may lack an end.
   */
  predicate TimingsWellFormed(timings: seq<ContactTiming>) {
    (forall i | 0 < i < |timings| :: HasStartTime(timings[i])) &&
    (forall i | 0 <= i < |timings| - 1 :: HasEndTime(timings[i]))
  }

  /** Every interval ends after it starts, and the next one starts after it ends. */
  predicate TimingsOrdered(timings: seq<ContactTiming>) {
    (forall i | 0 <= i < |timings| && HasStartTime(timings[i]) && HasEndTime(timings[i]) ::
       timings[i].start.value < timings[i].end.value) &&
    (forall i | 0 <= i < |timings| - 1 && HasEndTime(timings[i]) && HasStartTime(timings[i + 1]) ::
       timings[i].end.value < timings[i + 1].start.value)
  }

  /** The last phase index of the run of contact phases that contains `p`. */
  function RunEnd(flags: seq<bool>, p: nat): (e: nat)
    requires p < |flags| && flags[p]
    ensures p <= e < |flags|
    ensures forall q | p <= q <= e :: flags[q]
    ensures e + 1 == |flags| || !flags[e + 1]
    decreases |flags| - p
  {
    if p + 1 < |flags| && flags[p + 1] then RunEnd(flags, p + 1) else p
  }

  /** The contact intervals of the phases from `p` on: one per maximal run of contact phases. */
  function TimingsFrom(events: seq<real>, flags: seq<bool>, p: nat): seq<ContactTiming>
    requires |flags| == |events| + 1
    decreases |flags| - p
  {
    if p >= |flags| then []
    else if !flags[p] then TimingsFrom(events, flags, p + 1)
    else
      var e := RunEnd(flags, p);
      var start := if p == 0 then None else Some(events[p - 1]);
      var end := if e + 1 == |flags| then None else Some(events[e]);
      [ContactTiming(start, end)] + TimingsFrom(events, flags, e + 1)
  }

  /**
   * The contact intervals of one leg, from its per-phase contact flags
   * (extractContactTimings): one interval per maximal run of contact phases,
   * in order, so there are as many intervals as phases that start a run.
   */
  function ExtractContactTimings(events: seq<real>, flags: seq<bool>): (timings: seq<ContactTiming>)
    requires |flags| == |events| + 1
    ensures exists runs :: TimingsOfRuns(events, flags, timings, runs)
    ensures |timings| == RunStartCount(flags, 0)
  {
    TimingsAreContactRuns(events, flags);
    TimingsFrom(events, flags, 0)
  }

  /** A run of phases `first..last` (inclusive) of a leg. */
  datatype Run = Run(first: nat, last: nat)

  /** The run is in range, every phase of it is a contact phase, and it cannot be extended either way. */
  predicate MaximalContactRun(flags: seq<bool>, r: Run) {
    && r.first <= r.last < |flags|
    && (forall q | r.first <= q <= r.last :: flags[q])
    && (r.first == 0 || !flags[r.first - 1])
    && (r.last + 1 == |flags| || !flags[r.last + 1])
  }

  /**
   * The contact interval of a run: it starts at the event that opens its
   * first phase, none when that is the first phase, and ends at the event
   * that closes its last phase, none when that is the last phase.
   */
  function RunTiming(events: seq<real>, r: Run): ContactTiming
    requires r.first <= r.last <= |events|
  {
    ContactTiming(if r.first == 0 then None else Some(events[r.first - 1]),
                  if r.last == |events| then None else Some(events[r.last]))
  }

  /**
   * `timings` are the intervals of `runs`, which are maximal contact runs in
   * increasing order, and every contact phase lies in one of them.
   */
  predicate TimingsOfRuns(events: seq<real>, flags: seq<bool>, timings: seq<ContactTiming>, runs: seq<Run>)
    requires |flags| == |events| + 1
  {
    && |runs| == |timings|
    && (forall i | 0 <= i < |runs| :: MaximalContactRun(flags, runs[i]) && timings[i] == RunTiming(events, runs[i]))
    && (forall i, j | 0 <= i < j < |runs| :: runs[i].last < runs[j].first)
    && (forall p | 0 <= p < |flags| && flags[p] :: exists i :: 0 <= i < |runs| && runs[i].first <= p <= runs[i].last)
  }

  /** Phase `p` opens a run of contact phases. */
  predicate RunStart(flags: seq<bool>, p: nat)
    requires p < |flags|
  {
    flags[p] && (p == 0 || !flags[p - 1])
  }

  /** The number of phases from `p` on that open a run of contact phases. */
  function RunStartCount(flags: seq<bool>, p: nat): nat
    decreases |flags| - p
  {
    if p >= |flags| then 0 else (if RunStart(flags, p) then 1 else 0) + RunStartCount(flags, p + 1)
  }

  /** Inside a run of contact phases no run starts. */
  lemma {:induction false} RunStartCountInside(flags: seq<bool>, q: nat, e: nat)
    requires 0 < q <= e + 1 <= |flags|
    requires forall r | q - 1 <= r <= e :: flags[r]
    ensures RunStartCount(flags, q) == RunStartCount(flags, e + 1)
    decreases e + 1 - q
  {
    if q <= e {
      RunStartCountInside(flags, q + 1, e);
    }
  }

  /** At a contact phase the intervals start with the interval of the run through it. */
  lemma TimingsFromContact(events: seq<real>, flags: seq<bool>, p: nat)
    requires |flags| == |events| + 1 && p < |flags| && flags[p]
    ensures TimingsFrom(events, flags, p) ==
      [RunTiming(events, Run(p, RunEnd(flags, p)))] + TimingsFrom(events, flags, RunEnd(flags, p) + 1)
  {
  }

  /** The intervals from phase `p` on, where `p` does not continue a contact run, are the runs from `p` on. */
  lemma {:induction false} TimingsFromRuns(events: seq<real>, flags: seq<bool>, p: nat) returns (runs: seq<Run>)
    requires |flags| == |events| + 1
    requires 0 < p < |flags| && flags[p] ==> !flags[p - 1]
    ensures TimingsOfRunsFrom(events, flags, TimingsFrom(events, flags, p), runs, p)
    ensures |TimingsFrom(events, flags, p)| == RunStartCount(flags, p)
    decreases |flags| - p
  {
    if p >= |flags| {
      runs := [];
      assert TimingsFrom(events, flags, p) == [];
    } else if !flags[p] {
      runs := TimingsFromRuns(events, flags, p + 1);
      assert TimingsFrom(events, flags, p) == TimingsFrom(events, flags, p + 1);
      RunsSkip(events, flags, TimingsFrom(events, flags, p), runs, p);
    } else {
      var e := RunEnd(flags, p);
      var tailRuns := TimingsFromRuns(events, flags, e + 1);
      var tail := TimingsFrom(events, flags, e + 1);
      var head := Run(p, e);
      runs := [head] + tailRuns;
      TimingsFromContact(events, flags, p);
      RunsCons(events, flags, head, tail, tailRuns);
      RunStartCountInside(flags, p + 1, e);
    }
  }

  /** A maximal contact run put in front of the runs after it gives the runs from its first phase on. */
  lemma RunsCons(events: seq<real>, flags: seq<bool>, head: Run, tail: seq<ContactTiming>, tailRuns: seq<Run>)
    requires |flags| == |events| + 1 && MaximalContactRun(flags, head)
    requires TimingsOfRunsFrom(events, flags, tail, tailRuns, head.last + 1)
    ensures TimingsOfRunsFrom(events, flags, [RunTiming(events, head)] + tail, [head] + tailRuns, head.first)
  {
    var runs := [head] + tailRuns;
    var timings := [RunTiming(events, head)] + tail;
    forall i | 0 < i < |runs|
      ensures runs[i] == tailRuns[i - 1] && timings[i] == tail[i - 1]
    {
    }
    forall q | head.first <= q < |flags| && flags[q]
      ensures exists i :: 0 <= i < |runs| && runs[i].first <= q <= runs[i].last
    {
      if q <= head.last {
        assert runs[0] == head;
      } else {
        var i :| 0 <= i < |tailRuns| && tailRuns[i].first <= q <= tailRuns[i].last;
        assert runs[i + 1] == tailRuns[i];
      }
    }
  }

  /** A phase without contact adds no run. */
  lemma RunsSkip(events: seq<real>, flags: seq<bool>, timings: seq<ContactTiming>, runs: seq<Run>, p: nat)
    requires |flags| == |events| + 1 && p < |flags| && !flags[p]
    requires TimingsOfRunsFrom(events, flags, timings, runs, p + 1)
    ensures TimingsOfRunsFrom(events, flags, timings, runs, p)
  {
  }

  /** TimingsOfRuns restricted to the phases from `p` on. */
  predicate TimingsOfRunsFrom(events: seq<real>, flags: seq<bool>, timings: seq<ContactTiming>, runs: seq<Run>, p: nat)
    requires |flags| == |events| + 1
  {
    && |runs| == |timings|
    && (forall i | 0 <= i < |runs| :: MaximalContactRun(flags, runs[i]) && timings[i] == RunTiming(events, runs[i]) && p <= runs[i].first)
    && (forall i, j | 0 <= i < j < |runs| :: runs[i].last < runs[j].first)
    && (forall q | p <= q < |flags| && flags[q] :: exists i :: 0 <= i < |runs| && runs[i].first <= q <= runs[i].last)
  }

  /** The extracted intervals are exactly the maximal runs of contact phases, one per run start. */
  lemma TimingsAreContactRuns(events: seq<real>, flags: seq<bool>)
    requires |flags| == |events| + 1
    ensures exists runs :: TimingsOfRuns(events, flags, TimingsFrom(events, flags, 0), runs)
    ensures |TimingsFrom(events, flags, 0)| == RunStartCount(flags, 0)
  {
    var runs := TimingsFromRuns(events, flags, 0);
    assert TimingsOfRuns(events, flags, TimingsFrom(events, flags, 0), runs);
  }

  /**
   * A contact phase lies in exactly one extracted interval's run, and a
   * phase without contact lies in none.
   */
  lemma ContactPhaseInOneRun(events: seq<real>, flags: seq<bool>, timings: seq<ContactTiming>, runs: seq<Run>, p: nat)
    requires |flags| == |events| + 1 && TimingsOfRuns(events, flags, timings, runs) && p < |flags|
    ensures flags[p] ==> exists i :: 0 <= i < |runs| && runs[i].first <= p <= runs[i].last
    ensures forall i, j | 0 <= i < |runs| && 0 <= j < |runs| && runs[i].first <= p <= runs[i].last && runs[j].first <= p <= runs[j].last :: i == j
    ensures !flags[p] ==> forall i | 0 <= i < |runs| :: !(runs[i].first <= p <= runs[i].last)
  {
    if !flags[p] {
      forall i | 0 <= i < |runs| ensures !(runs[i].first <= p <= runs[i].last) {
        assert MaximalContactRun(flags, runs[i]);
      }
    }
  }

  /** The contact flags of one leg in every phase of a schedule. */
  function LegContactFlags(s: ModeSchedule, leg: nat): (flags: seq<bool>)
    requires leg < NumContactPoints
    ensures |flags| == |s.modeSequence|
    ensures forall p | 0 <= p < |flags| :: flags[p] == ModeNumber2StanceLeg(s.modeSequence[p])[leg]
  {
    seq(|s.modeSequence|, p requires 0 <= p < |s.modeSequence| => ModeNumber2StanceLeg(s.modeSequence[p])[leg])
  }

  /** The contact intervals of all four legs (extractContactTimingsPerLeg). */
  function ExtractContactTimingsPerLeg(s: ModeSchedule): (perLeg: seq<seq<ContactTiming>>)
    requires WellFormed(s)
    ensures |perLeg| == NumContactPoints
    ensures forall leg | 0 <= leg < NumContactPoints ::
      perLeg[leg] == ExtractContactTimings(s.eventTimes, LegContactFlags(s, leg))
    ensures forall leg | 0 <= leg < NumContactPoints ::
      && (exists runs :: TimingsOfRuns(s.eventTimes, LegContactFlags(s, leg), perLeg[leg], runs))
      && |perLeg[leg]| == RunStartCount(LegContactFlags(s, leg), 0)
  {
    seq(NumContactPoints, leg requires 0 <= leg < NumContactPoints => ExtractContactTimings(s.eventTimes, LegContactFlags(s, leg)))
  }

  /**
   * The extracted intervals are well formed: only the first may lack a
   * start, only the last may lack an end; the first lacks a start exactly
   * when the leg is in contact in the first phase.
   */
  lemma {:induction false} TimingsFromWellFormed(events: seq<real>, flags: seq<bool>, p: nat)
    requires |flags| == |events| + 1
    ensures TimingsWellFormed(TimingsFrom(events, flags, p))
    ensures p > 0 ==> forall i | 0 <= i < |TimingsFrom(events, flags, p)| :: HasStartTime(TimingsFrom(events, flags, p)[i])
    decreases |flags| - p
  {
    if p >= |flags| {
    } else if !flags[p] {
      TimingsFromWellFormed(events, flags, p + 1);
    } else {
      var e := RunEnd(flags, p);
      TimingsFromWellFormed(events, flags, e + 1);
      var tail := TimingsFrom(events, flags, e + 1);
      if e + 1 == |flags| {
        assert tail == [];
      }
    }
  }

  /** The first interval from phase `p >= 1` on starts, and no earlier than event `p - 1`. */
  lemma {:induction false} TimingsFromFirstStart(events: seq<real>, flags: seq<bool>, p: nat)
    requires |flags| == |events| + 1 && StrictlyIncreasing(events) && 1 <= p
    requires |TimingsFrom(events, flags, p)| > 0
    ensures HasStartTime(TimingsFrom(events, flags, p)[0])
    ensures events[p - 1] <= TimingsFrom(events, flags, p)[0].start.value
    decreases |flags| - p
  {
    if !flags[p] {
      TimingsFromFirstStart(events, flags, p + 1);
      assert events[p - 1] < events[p];
    }
  }

  /** Putting an interval in front of ordered intervals keeps them ordered when it fits before the first. */
  lemma OrderedCons(head: ContactTiming, tail: seq<ContactTiming>)
    requires TimingsOrdered(tail)
    requires HasStartTime(head) && HasEndTime(head) ==> head.start.value < head.end.value
    requires |tail| > 0 && HasEndTime(head) && HasStartTime(tail[0]) ==> head.end.value < tail[0].start.value
    ensures TimingsOrdered([head] + tail)
  {
    var all := [head] + tail;
    forall i | 0 < i < |all|
      ensures all[i] == tail[i - 1]
    {
    }
  }

  /** For strictly increasing events the extracted intervals are ordered. */
  lemma {:induction false} TimingsFromOrdered(events: seq<real>, flags: seq<bool>, p: nat)
    requires |flags| == |events| + 1 && StrictlyIncreasing(events)
    ensures TimingsOrdered(TimingsFrom(events, flags, p))
    decreases |flags| - p
  {
    if p >= |flags| {
      assert TimingsFrom(events, flags, p) == [];
    } else if !flags[p] {
      TimingsFromOrdered(events, flags, p + 1);
      assert TimingsFrom(events, flags, p) == TimingsFrom(events, flags, p + 1);
    } else {
      var e := RunEnd(flags, p);
      TimingsFromOrdered(events, flags, e + 1);
      var tail := TimingsFrom(events, flags, e + 1);
      var start := if p == 0 then None else Some(events[p - 1]);
      var end := if e + 1 == |flags| then None else Some(events[e]);
      var head := ContactTiming(start, end);
      assert TimingsFrom(events, flags, p) == [head] + tail;
      if |tail| > 0 && end.Some? {
        assert tail == TimingsFrom(events, flags, e + 2);
        TimingsFromFirstStart(events, flags, e + 2);
        assert events[e] < events[e + 1] by {
          assert e + 1 < |events|;
        }
      }
      if start.Some? && end.Some? {
        assert events[p - 1] < events[e] by {
          assert p - 1 < e < |events|;
        }
      }
      OrderedCons(head, tail);
    }
  }

  /** Contact timings extracted from a well-formed schedule are well formed and ordered, for every leg. */
  lemma ExtractedTimingsWellFormed(s: ModeSchedule)
    requires WellFormed(s)
    ensures forall leg | 0 <= leg < NumContactPoints ::
      TimingsWellFormed(ExtractContactTimingsPerLeg(s)[leg]) && TimingsOrdered(ExtractContactTimingsPerLeg(s)[leg])
  {
    forall leg | 0 <= leg < NumContactPoints
      ensures TimingsWellFormed(ExtractContactTimingsPerLeg(s)[leg]) && TimingsOrdered(ExtractContactTimingsPerLeg(s)[leg])
    {
      TimingsFromWellFormed(s.eventTimes, LegContactFlags(s, leg), 0);
      TimingsFromOrdered(s.eventTimes, LegContactFlags(s, leg), 0);
    }
  }
}
