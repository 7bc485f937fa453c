/**
 * The gait schedule: a stored mode schedule, the mode-sequence template
 * that is repeated to extend it, and the stance time inserted when a new
 * template is spliced in. The implementation file of the class is not part
 * of this model: the operations below follow the header's documentation
 * (define the schedule on a requested window, splice a template into a
 * time window, extend the schedule by repeating the template) and the
 * design rule that a stance of `phaseTransitionStanceTime` separates the old
 * timeline from a spliced template. `time`, `AdvanceToTime` and
 * `GetModeScheduleAhead` are the operations the schedule manager calls.
 */
module GaitSchedules {
  import opened ModeSchedules

  /**
   * A repeating unit: mode i lasts from switching time i to switching time
   * i + 1. A valid template has at least one mode and positive durations.
   */
  datatype ModeSequenceTemplate = ModeSequenceTemplate(switchingTimes: seq<real>, modeSequence: seq<Mode>)

  predicate TemplateValid(tmpl: ModeSequenceTemplate) {
    |tmpl.modeSequence| >= 1 && |tmpl.switchingTimes| == |tmpl.modeSequence| + 1 &&
    StrictlyIncreasing(tmpl.switchingTimes)
  }

  /** The duration of one template cycle. */
  function Period(tmpl: ModeSequenceTemplate): (p: real)
    requires TemplateValid(tmpl)
    ensures p > 0.0
  {
    tmpl.switchingTimes[|tmpl.switchingTimes| - 1] - tmpl.switchingTimes[0]
  }

  /** The event times of one template cycle started at `base`: the end of each of its modes. */
  function CycleEvents(tmpl: ModeSequenceTemplate, base: real): (r: seq<real>)
    requires TemplateValid(tmpl)
    ensures |r| == |tmpl.modeSequence|
  {
    seq(|tmpl.modeSequence|, i requires 0 <= i < |tmpl.modeSequence| =>
      base + (tmpl.switchingTimes[i + 1] - tmpl.switchingTimes[0]))
  }

  /** The start time of cycle `k` of a tiling begun at `start`. */
  function CycleStart(tmpl: ModeSequenceTemplate, start: real, k: nat): real
    requires TemplateValid(tmpl)
  {
    if k == 0 then start else CycleStart(tmpl, start, k - 1) + Period(tmpl)
  }

  /** The events of `k` whole cycles tiled from `start`. */
  function TiledEvents(tmpl: ModeSequenceTemplate, start: real, k: nat): seq<real>
    requires TemplateValid(tmpl)
  {
    if k == 0 then [] else TiledEvents(tmpl, start, k - 1) + CycleEvents(tmpl, CycleStart(tmpl, start, k - 1))
  }

  /** The modes of `k` whole cycles. */
  function TiledModes(tmpl: ModeSequenceTemplate, k: nat): seq<Mode> {
    if k == 0 then [] else TiledModes(tmpl, k - 1) + tmpl.modeSequence
  }

  function Last(s: seq<real>): real requires |s| > 0 { s[|s| - 1] }

  /** Each cycle's events are strictly increasing, after the cycle's start and at most one period later. */
  lemma CycleEventsShape(tmpl: ModeSequenceTemplate, base: real)
    requires TemplateValid(tmpl)
    ensures StrictlyIncreasing(CycleEvents(tmpl, base))
    ensures forall i | 0 <= i < |tmpl.modeSequence| :: base < CycleEvents(tmpl, base)[i] <= base + Period(tmpl)
    ensures Last(CycleEvents(tmpl, base)) == base + Period(tmpl)
  {
    var cycle := CycleEvents(tmpl, base);
    var sw := tmpl.switchingTimes;
    forall i, j | 0 <= i < j < |cycle| ensures cycle[i] < cycle[j] {
      assert sw[i + 1] < sw[j + 1];
    }
    forall i | 0 <= i < |cycle| ensures base < cycle[i] <= base + Period(tmpl) {
      assert sw[0] < sw[i + 1] <= sw[|sw| - 1];
    }
  }

  /**
   * The window part of TiledEventsShape, proved on its own: `k` tiled cycles
   * give as many events as modes, all after the tiling start, the last one
   * at the start of cycle `k`.
   */
  lemma {:induction false} TiledEventsWindow(tmpl: ModeSequenceTemplate, start: real, k: nat)
    requires TemplateValid(tmpl)
    ensures |TiledEvents(tmpl, start, k)| == |TiledModes(tmpl, k)|
    ensures forall i | 0 <= i < |TiledEvents(tmpl, start, k)| :: start < TiledEvents(tmpl, start, k)[i] <= CycleStart(tmpl, start, k)
    ensures k > 0 ==> Last(TiledEvents(tmpl, start, k)) == CycleStart(tmpl, start, k)
    ensures start <= CycleStart(tmpl, start, k)
  {
    if k > 0 {
      TiledEventsWindow(tmpl, start, k - 1);
      var base := CycleStart(tmpl, start, k - 1);
      CycleEventsShape(tmpl, base);
      var prev := TiledEvents(tmpl, start, k - 1);
      var cycle := CycleEvents(tmpl, base);
      var all := TiledEvents(tmpl, start, k);
      assert all == prev + cycle;
      forall i | 0 <= i < |all| ensures start < all[i] <= CycleStart(tmpl, start, k) {
        if i < |prev| {
          assert all[i] == prev[i];
        } else {
          assert all[i] == cycle[i - |prev|];
        }
      }
    }
  }

  /**
   * `k` tiled cycles give as many events as modes, strictly increasing, all
   * after the tiling start, the last one at the start of cycle `k`.
   */
  lemma {:induction false} TiledEventsShape(tmpl: ModeSequenceTemplate, start: real, k: nat)
    requires TemplateValid(tmpl)
    ensures |TiledEvents(tmpl, start, k)| == |TiledModes(tmpl, k)|
    ensures StrictlyIncreasing(TiledEvents(tmpl, start, k))
    ensures forall i | 0 <= i < |TiledEvents(tmpl, start, k)| :: start < TiledEvents(tmpl, start, k)[i] <= CycleStart(tmpl, start, k)
    ensures k > 0 ==> Last(TiledEvents(tmpl, start, k)) == CycleStart(tmpl, start, k)
    ensures start <= CycleStart(tmpl, start, k)
  {
    TiledEventsWindow(tmpl, start, k);
    if k > 0 {
      TiledEventsShape(tmpl, start, k - 1);
      var base := CycleStart(tmpl, start, k - 1);
      CycleEventsShape(tmpl, base);
      var prev := TiledEvents(tmpl, start, k - 1);
      var cycle := CycleEvents(tmpl, base);
      var all := TiledEvents(tmpl, start, k);
      assert all == prev + cycle;
      forall i, j | 0 <= i < j < |all| ensures all[i] < all[j] {
        if j < |prev| {
          assert all[i] == prev[i] && all[j] == prev[j];
        } else if i < |prev| {
          assert all[i] == prev[i] <= base;
          assert all[j] == cycle[j - |prev|];
        } else {
          assert all[i] == cycle[i - |prev|] && all[j] == cycle[j - |prev|];
        }
      }
    }
  }

  /** A well-formed schedule, extended by an event at `start` and a tiling from it, is well formed. */
  lemma AppendTilingWellFormed(events: seq<real>, start: real, tmpl: ModeSequenceTemplate, k: nat)
    requires TemplateValid(tmpl) && StrictlyIncreasing(events)
    requires |events| == 0 || Last(events) < start
    ensures StrictlyIncreasing(events + [start] + TiledEvents(tmpl, start, k))
  {
    TiledEventsShape(tmpl, start, k);
    var all := events + [start] + TiledEvents(tmpl, start, k);
    forall i, j | 0 <= i < j < |all| ensures all[i] < all[j] {
      if j > |events| && i < |events| {
        assert events[i] <= Last(events);
      }
    }
  }

  /** One more cycle: appending the cycle that starts at the last event gives the next tiling. */
  lemma TilingStep(tmpl: ModeSequenceTemplate, oldEvents: seq<real>, start: real, k: nat, eventTimes: seq<real>)
    requires TemplateValid(tmpl)
    requires eventTimes == oldEvents + [start] + TiledEvents(tmpl, start, k)
    requires Last(eventTimes) == CycleStart(tmpl, start, k)
    ensures eventTimes + CycleEvents(tmpl, Last(eventTimes)) == oldEvents + [start] + TiledEvents(tmpl, start, k + 1)
    ensures Last(eventTimes + CycleEvents(tmpl, Last(eventTimes))) == CycleStart(tmpl, start, k + 1)
  {
    TiledEventsShape(tmpl, start, k + 1);
    var tiled := TiledEvents(tmpl, start, k + 1);
    assert tiled == TiledEvents(tmpl, start, k) + CycleEvents(tmpl, Last(eventTimes));
    assert eventTimes + CycleEvents(tmpl, Last(eventTimes)) == oldEvents + [start] + tiled;
  }

  /** The schedule left by a tiling is well formed. */
  lemma TilingWellFormed(oldEvents: seq<real>, oldModes: seq<Mode>, start: real, tmpl: ModeSequenceTemplate, k: nat)
    requires TemplateValid(tmpl) && WellFormed(ModeSchedule(oldEvents, oldModes))
    requires |oldEvents| == 0 || Last(oldEvents) < start
    ensures WellFormed(ModeSchedule(oldEvents + [start] + TiledEvents(tmpl, start, k), oldModes + TiledModes(tmpl, k) + [STANCE]))
  {
    TiledEventsShape(tmpl, start, k);
    AppendTilingWellFormed(oldEvents, start, tmpl, k);
  }

  /** The event of the transition stance at `startTime`, if its duration is positive. */
  function TransitionEvents(stanceTime: real, startTime: real): seq<real> {
    if stanceTime > 0.0 then [startTime] else []
  }

  /** The mode of the transition stance, if its duration is positive. */
  function TransitionModes(stanceTime: real): seq<Mode> {
    if stanceTime > 0.0 then [STANCE] else []
  }

  class GaitSchedule {
    var modeSchedule: ModeSchedule
    var modeSequenceTemplate: ModeSequenceTemplate
    const phaseTransitionStanceTime: real
    /** The time the schedule has been advanced to. */
    var time: real

    ghost predicate Valid()
      reads this
    {
      WellFormed(modeSchedule) && TemplateValid(modeSequenceTemplate) && phaseTransitionStanceTime >= 0.0
    }

    /** Stores the initial schedule, the template and the transition stance time; the clock starts at 0. */
    constructor (initModeSchedule: ModeSchedule, initModeSequenceTemplate: ModeSequenceTemplate, phaseTransitionStanceTime: real)
      requires WellFormed(initModeSchedule) && TemplateValid(initModeSequenceTemplate) && phaseTransitionStanceTime >= 0.0
      ensures Valid()
      ensures modeSchedule == initModeSchedule && modeSequenceTemplate == initModeSequenceTemplate
      ensures this.phaseTransitionStanceTime == phaseTransitionStanceTime && time == 0.0
    {
      modeSchedule := initModeSchedule;
      modeSequenceTemplate := initModeSequenceTemplate;
      this.phaseTransitionStanceTime := phaseTransitionStanceTime;
      time := 0.0;
    }

    /** The number of events strictly before `t` in a sorted event list. */
    static function EventsBefore(events: seq<real>, t: real): (idx: nat)
      requires StrictlyIncreasing(events)
      ensures idx <= |events|
      ensures forall j | 0 <= j < idx :: events[j] < t
      ensures forall j | idx <= j < |events| :: t <= events[j]
    {
      if |events| == 0 || t <= events[0] then 0 else 1 + EventsBefore(events[1..], t)
    }

    /** The part of a schedule from `t` on: the events not before `t`, and the modes active from `t` on. */
    static function Kept(s: ModeSchedule, t: real): (kept: ModeSchedule)
      requires WellFormed(s)
      ensures WellFormed(kept) && |kept.eventTimes| <= |s.eventTimes|
      ensures forall i | 0 <= i < |kept.eventTimes| :: t <= kept.eventTimes[i]
      ensures kept.eventTimes == s.eventTimes[|s.eventTimes| - |kept.eventTimes|..]
      ensures kept.modeSequence == s.modeSequence[|s.eventTimes| - |kept.eventTimes|..]
      ensures forall j | 0 <= j < |s.eventTimes| - |kept.eventTimes| :: s.eventTimes[j] < t
    {
      var idx := EventsBefore(s.eventTimes, t);
      ModeSchedule(s.eventTimes[idx..], s.modeSequence[idx..])
    }

    /** Appends one template cycle after the last event: each mode and its end time. */
    static method AppendCycle(tmpl: ModeSequenceTemplate, eventTimes: seq<real>, modeSequence: seq<Mode>)
      returns (eventTimes': seq<real>, modeSequence': seq<Mode>)
      requires TemplateValid(tmpl) && |eventTimes| > 0
      ensures eventTimes' == eventTimes + CycleEvents(tmpl, Last(eventTimes))
      ensures modeSequence' == modeSequence + tmpl.modeSequence
    {
      var sw := tmpl.switchingTimes;
      var base := Last(eventTimes);
      eventTimes', modeSequence' := eventTimes, modeSequence;
      var i := 0;
      while i < |tmpl.modeSequence|
        invariant 0 <= i <= |tmpl.modeSequence|
        invariant eventTimes' == eventTimes + CycleEvents(tmpl, base)[..i]
        invariant modeSequence' == modeSequence + tmpl.modeSequence[..i]
        invariant Last(eventTimes') == base + (sw[i] - sw[0])
      {
        modeSequence' := modeSequence' + [tmpl.modeSequence[i]];
        var deltaTime := sw[i + 1] - sw[i];
        eventTimes' := eventTimes' + [Last(eventTimes') + deltaTime];
        i := i + 1;
      }
      assert CycleEvents(tmpl, base)[..i] == CycleEvents(tmpl, base);
      assert tmpl.modeSequence[..i] == tmpl.modeSequence;
    }

    /** A product with a positive factor has the sign of the other factor. */
    static lemma SignOfProduct(d: real, p: real)
      requires p > 0.0
      ensures d > 0.0 ==> d * p > 0.0
      ensures d < 0.0 ==> d * p < 0.0
    {
    }

    /** Moving one period closer to `finalTime` lowers the number of periods left by one. */
    static lemma PeriodsLeftDecrease(finalTime: real, last: real, period: real)
      requires period > 0.0 && last < finalTime
      ensures 0 <= ((finalTime - last) / period).Floor
      ensures ((finalTime - (last + period)) / period).Floor < ((finalTime - last) / period).Floor
    {
      var a := finalTime - last;
      var y := a / period;
      var q := (finalTime - (last + period)) / period;
      assert y * period == a;
      assert q * period == a - period;
      assert (q - (y - 1.0)) * period == q * period - (y - 1.0) * period;
      assert (y - 1.0) * period == y * period - period;
      var d := q - (y - 1.0);
      assert d * period == 0.0;
      SignOfProduct(d, period);
      assert (y - 1.0).Floor == y.Floor - 1;
      assert y > 0.0;
    }

    /**
     * One pass of the tiling loop: appending a cycle to `k` tiled cycles
     * gives `k + 1` of them, and the number of periods left to `finalTime`
     * drops.
     */
    static lemma TilingLoopStep(tmpl: ModeSequenceTemplate, oldEvents: seq<real>, oldModes: seq<Mode>, start: real, k: nat,
                                finalTime: real, eventTimes: seq<real>, modeSequence: seq<Mode>,
                                eventTimes': seq<real>, modeSequence': seq<Mode>)
      requires TemplateValid(tmpl)
      requires eventTimes == oldEvents + [start] + TiledEvents(tmpl, start, k)
      requires modeSequence == oldModes + TiledModes(tmpl, k)
      requires Last(eventTimes) == CycleStart(tmpl, start, k) < finalTime
      requires eventTimes' == eventTimes + CycleEvents(tmpl, Last(eventTimes))
      requires modeSequence' == modeSequence + tmpl.modeSequence
      ensures eventTimes' == oldEvents + [start] + TiledEvents(tmpl, start, k + 1)
      ensures modeSequence' == oldModes + TiledModes(tmpl, k + 1)
      ensures Last(eventTimes') == CycleStart(tmpl, start, k + 1)
      ensures 0 <= ((finalTime - Last(eventTimes)) / Period(tmpl)).Floor
      ensures ((finalTime - Last(eventTimes')) / Period(tmpl)).Floor < ((finalTime - Last(eventTimes)) / Period(tmpl)).Floor
    {
      TilingStep(tmpl, oldEvents, start, k, eventTimes);
      assert oldModes + TiledModes(tmpl, k + 1) == oldModes + (TiledModes(tmpl, k) + tmpl.modeSequence);
      PeriodsLeftDecrease(finalTime, Last(eventTimes), Period(tmpl));
      assert Last(eventTimes') == Last(eventTimes) + Period(tmpl);
    }

    /**
     * Extends the schedule from `startTime` by whole copies of the template
     * until the last event reaches `finalTime`: an event at `startTime`, then
     * the template's modes and their end times, cycle after cycle, and a
     * final stance mode after the last event. `cycles` is the number of
     * copies, the fewest that reach `finalTime`.
     */
    method TileModeSequenceTemplate(startTime: real, finalTime: real) returns (ghost cycles: nat)
      requires Valid()
      requires |modeSchedule.eventTimes| == 0 || Last(modeSchedule.eventTimes) < startTime
      modifies this`modeSchedule
      ensures Valid()
      ensures modeSchedule.eventTimes == old(modeSchedule.eventTimes) + [startTime] + TiledEvents(modeSequenceTemplate, startTime, cycles)
      ensures modeSchedule.modeSequence == old(modeSchedule.modeSequence) + TiledModes(modeSequenceTemplate, cycles) + [STANCE]
      ensures finalTime <= Last(modeSchedule.eventTimes)
      ensures cycles == 0 || CycleStart(modeSequenceTemplate, startTime, cycles - 1) < finalTime
    {
      var tmpl := modeSequenceTemplate;
      ghost var oldEvents, oldModes := modeSchedule.eventTimes, modeSchedule.modeSequence;
      var eventTimes := modeSchedule.eventTimes + [startTime];
      var modeSequence := modeSchedule.modeSequence;
      cycles := 0;
      while Last(eventTimes) < finalTime
        invariant eventTimes == oldEvents + [startTime] + TiledEvents(tmpl, startTime, cycles)
        invariant modeSequence == oldModes + TiledModes(tmpl, cycles)
        invariant Last(eventTimes) == CycleStart(tmpl, startTime, cycles)
        invariant cycles == 0 || CycleStart(tmpl, startTime, cycles - 1) < finalTime
        decreases ((finalTime - Last(eventTimes)) / Period(tmpl)).Floor
      {
        var eventTimes', modeSequence' := AppendCycle(tmpl, eventTimes, modeSequence);
        TilingLoopStep(tmpl, oldEvents, oldModes, startTime, cycles, finalTime, eventTimes, modeSequence, eventTimes', modeSequence');
        eventTimes, modeSequence := eventTimes', modeSequence';
        cycles := cycles + 1;
      }
      TilingWellFormed(oldEvents, oldModes, startTime, tmpl, cycles);
      modeSchedule := ModeSchedule(eventTimes, modeSequence + [STANCE]);
    }

    /** Drops the events before `t` and the modes that ended before it. */
    method DiscardBefore(t: real)
      requires Valid()
      modifies this`modeSchedule
      ensures Valid() && modeSchedule == Kept(old(modeSchedule), t)
    {
      modeSchedule := Kept(modeSchedule, t);
    }

    /**
     * Moves the schedule's clock to `t`, discarding the history before it:
     * the events from `t` on and the modes active from `t` on remain.
     */
    method AdvanceToTime(t: real)
      requires Valid()
      modifies this
      ensures Valid() && time == t
      ensures modeSequenceTemplate == old(modeSequenceTemplate)
      ensures modeSchedule == Kept(old(modeSchedule), t)
    {
      DiscardBefore(t);
      time := t;
    }

    /**
     * The schedule defined on [lowerBoundTime, upperBoundTime]. History
     * before the lower bound is discarded; the mode active at the lower
     * bound comes first. If the stored events do not reach the upper bound,
     * the final (default) mode after the last event is replaced by copies of
     * the template from that event on; if there are no events left, the
     * active mode is kept up to the upper bound. The stored schedule is the
     * one returned.
     */
    method GetModeSchedule(lowerBoundTime: real, upperBoundTime: real) returns (schedule: ModeSchedule)
      requires Valid()
      modifies this
      ensures Valid() && schedule == modeSchedule
      ensures modeSequenceTemplate == old(modeSequenceTemplate) && time == old(time)
      ensures |schedule.eventTimes| > 0 && upperBoundTime <= Last(schedule.eventTimes)
      ensures lowerBoundTime <= upperBoundTime ==>
        forall i | 0 <= i < |schedule.eventTimes| :: lowerBoundTime <= schedule.eventTimes[i]
      ensures var kept := Kept(old(modeSchedule), lowerBoundTime);
        var n := |kept.eventTimes|;
        && n <= |schedule.eventTimes|
        && schedule.modeSequence[0] == kept.modeSequence[0]
        && schedule.eventTimes[..n] == kept.eventTimes
        && schedule.modeSequence[..n] == kept.modeSequence[..n]
        && (n > 0 && upperBoundTime <= Last(kept.eventTimes) ==> schedule == kept)
    {
      DiscardBefore(lowerBoundTime);
      var eventTimes := modeSchedule.eventTimes;
      var modeSequence := modeSchedule.modeSequence;
      if |eventTimes| == 0 {
        ghost var cycles := TileModeSequenceTemplate(upperBoundTime, upperBoundTime);
        TiledEventsShape(modeSequenceTemplate, upperBoundTime, cycles);
      } else if Last(eventTimes) < upperBoundTime {
        var n := |eventTimes|;
        var tilingStartTime := Last(eventTimes);
        modeSchedule := ModeSchedule(eventTimes[..n - 1], modeSequence[..n]);
        ghost var cycles := TileModeSequenceTemplate(tilingStartTime, upperBoundTime);
        RetilingKeepsEvents(eventTimes, modeSequence, modeSequenceTemplate, cycles, lowerBoundTime);
      }
      schedule := modeSchedule;
    }

    /**
     * Replacing the final mode of a schedule by a tiling from its last event
     * keeps every event and every mode up to that event.
     */
    static lemma RetilingKeepsEvents(eventTimes: seq<real>, modeSequence: seq<Mode>, tmpl: ModeSequenceTemplate, k: nat, lower: real)
      requires TemplateValid(tmpl) && |eventTimes| > 0 && |modeSequence| == |eventTimes| + 1
      requires forall i | 0 <= i < |eventTimes| :: lower <= eventTimes[i]
      ensures var n := |eventTimes|;
        var events' := eventTimes[..n - 1] + [Last(eventTimes)] + TiledEvents(tmpl, Last(eventTimes), k);
        var modes' := modeSequence[..n] + TiledModes(tmpl, k) + [STANCE];
        && events'[..n] == eventTimes
        && modes'[..n] == modeSequence[..n]
        && forall i | 0 <= i < |events'| :: lower <= events'[i]
    {
      var n := |eventTimes|;
      var start := Last(eventTimes);
      TiledEventsShape(tmpl, start, k);
      var events' := eventTimes[..n - 1] + [start] + TiledEvents(tmpl, start, k);
      assert events'[..n] == eventTimes;
      forall i | 0 <= i < |events'| ensures lower <= events'[i] {
        if i >= n {
          assert events'[i] == TiledEvents(tmpl, start, k)[i - n];
        }
      }
    }

    /** The schedule for the window of length `timeHorizon` that starts at the current time. */
    method GetModeScheduleAhead(timeHorizon: real) returns (schedule: ModeSchedule)
      requires Valid()
      modifies this
      ensures Valid() && schedule == modeSchedule
      ensures modeSequenceTemplate == old(modeSequenceTemplate) && time == old(time)
      ensures |schedule.eventTimes| > 0 && time + timeHorizon <= Last(schedule.eventTimes)
      ensures 0.0 <= timeHorizon ==> forall i | 0 <= i < |schedule.eventTimes| :: time <= schedule.eventTimes[i]
    {
      schedule := GetModeSchedule(time, time + timeHorizon);
    }

    /**
     * Splices a new template in from `startTime`: the events before
     * `startTime` and the mode active then are kept, a stance of
     * `phaseTransitionStanceTime` follows (when that time is positive), and
     * copies of the new template are tiled from the end of that stance until
     * `finalTime` is reached. The new template replaces the stored one.
     */
    method InsertModeSequenceTemplate(modeSequenceTemplate: ModeSequenceTemplate, startTime: real, finalTime: real)
      returns (ghost cycles: nat)
      requires Valid() && TemplateValid(modeSequenceTemplate)
      modifies this`modeSequenceTemplate, this`modeSchedule
      ensures Valid() && this.modeSequenceTemplate == modeSequenceTemplate
      ensures var idx := EventsBefore(old(modeSchedule.eventTimes), startTime);
        && modeSchedule.eventTimes == old(modeSchedule.eventTimes)[..idx] + TransitionEvents(phaseTransitionStanceTime, startTime)
             + [startTime + phaseTransitionStanceTime] + TiledEvents(modeSequenceTemplate, startTime + phaseTransitionStanceTime, cycles)
        && modeSchedule.modeSequence == old(modeSchedule.modeSequence)[..idx + 1] + TransitionModes(phaseTransitionStanceTime)
             + TiledModes(modeSequenceTemplate, cycles) + [STANCE]
      ensures finalTime <= Last(modeSchedule.eventTimes)
    {
      this.modeSequenceTemplate := modeSequenceTemplate;
      var idx := EventsBefore(modeSchedule.eventTimes, startTime);
      var eventTimes := modeSchedule.eventTimes[..idx];
      var modeSequence := modeSchedule.modeSequence[..idx + 1];
      if phaseTransitionStanceTime > 0.0 {
        eventTimes := eventTimes + [startTime];
        modeSequence := modeSequence + [STANCE];
      }
      ghost var keptEvents := old(modeSchedule.eventTimes)[..idx] + TransitionEvents(phaseTransitionStanceTime, startTime);
      ghost var keptModes := old(modeSchedule.modeSequence)[..idx + 1] + TransitionModes(phaseTransitionStanceTime);
      assert eventTimes == keptEvents && modeSequence == keptModes;
      SplicedPrefix(old(modeSchedule), startTime, phaseTransitionStanceTime);
      modeSchedule := ModeSchedule(eventTimes, modeSequence);
      cycles := TileModeSequenceTemplate(startTime + phaseTransitionStanceTime, finalTime);
      assert modeSchedule.modeSequence == keptModes + TiledModes(modeSequenceTemplate, cycles) + [STANCE];
      assert modeSchedule.eventTimes == keptEvents + [startTime + phaseTransitionStanceTime]
        + TiledEvents(modeSequenceTemplate, startTime + phaseTransitionStanceTime, cycles);
      assert idx == EventsBefore(old(modeSchedule.eventTimes), startTime);
    }

    /**
     * The part of a schedule kept by a splice at `startTime`, followed by the
     * optional transition stance, is well formed and ends before the stance
     * does.
     */
    static lemma SplicedPrefix(s: ModeSchedule, startTime: real, stanceTime: real)
      requires WellFormed(s) && stanceTime >= 0.0
      ensures var idx := EventsBefore(s.eventTimes, startTime);
        var events := s.eventTimes[..idx] + TransitionEvents(stanceTime, startTime);
        && WellFormed(ModeSchedule(events, s.modeSequence[..idx + 1] + TransitionModes(stanceTime)))
        && (|events| == 0 || Last(events) < startTime + stanceTime)
    {
      var idx := EventsBefore(s.eventTimes, startTime);
      var prefix := s.eventTimes[..idx];
      var events := prefix + TransitionEvents(stanceTime, startTime);
      forall i, j | 0 <= i < j < |events| ensures events[i] < events[j] {
        if j < idx {
          assert events[i] == s.eventTimes[i] && events[j] == s.eventTimes[j];
        } else {
          assert events[i] == s.eventTimes[i] && events[j] == startTime;
        }
      }
      if |events| > 0 && stanceTime == 0.0 {
        assert Last(events) == s.eventTimes[idx - 1];
      }
    }
  }
}
