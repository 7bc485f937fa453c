/**
 * The observation the controller receives: a time, a state, an input and
 * the active subsystem, with accessors that read and write each field and
 * an exchange of all four fields with another observation.
 */
module Observations {
  /** The four fields of an observation as one value. */
  datatype ObservationValue = ObservationValue(time: real, state: seq<real>, input: seq<real>, subsystem: nat)

  class SystemObservation {
    const stateDim: nat
    const inputDim: nat
    var time: real
    var state: seq<real>
    var input: seq<real>
    var subsystem: nat

    /** The state and input keep the sizes fixed by the template dimensions. */
    ghost predicate Valid()
      reads this
    {
      |state| == stateDim && |input| == inputDim
    }

    function Value(): (v: ObservationValue)
      reads this
      ensures v.time == time && v.state == state && v.input == input && v.subsystem == subsystem
    {
      ObservationValue(time, state, input, subsystem)
    }

    /**
     * A default observation of the given dimensions. The fields are not
     * initialised, so nothing is promised about their contents.
     */
    constructor (stateDim: nat, inputDim: nat)
      ensures Valid() && this.stateDim == stateDim && this.inputDim == inputDim
    {
      this.stateDim := stateDim;
      this.inputDim := inputDim;
      time := 0.0;
      state := seq(stateDim, i => 0.0);
      input := seq(inputDim, i => 0.0);
      subsystem := 0;
    }

    /** Exchanges all four fields with `other`; exchanging with itself changes nothing. */
    method Swap(other: SystemObservation)
      requires Valid() && other.Valid() && other.stateDim == stateDim && other.inputDim == inputDim
      modifies this, other
      ensures Valid() && other.Valid()
      ensures Value() == old(other.Value()) && other.Value() == old(Value())
    {
      time, other.time := other.time, time;
      state, other.state := other.state, state;
      input, other.input := other.input, input;
      subsystem, other.subsystem := other.subsystem, subsystem;
    }

    method SetTime(t: real)
      modifies this
      ensures Value() == old(Value()).(time := t)
    {
      time := t;
    }

    method SetState(x: seq<real>)
      requires |x| == stateDim
      modifies this
      ensures Value() == old(Value()).(state := x)
    {
      state := x;
    }

    /** Writes one state entry, as the indexed accessor does. */
    method SetStateEntry(i: nat, value: real)
      requires i < |state|
      modifies this
      ensures Value() == old(Value()).(state := old(state)[i := value])
    {
      state := state[i := value];
    }

    method SetInput(u: seq<real>)
      requires |u| == inputDim
      modifies this
      ensures Value() == old(Value()).(input := u)
    {
      input := u;
    }

    /** Writes one input entry, as the indexed accessor does. */
    method SetInputEntry(i: nat, value: real)
      requires i < |input|
      modifies this
      ensures Value() == old(Value()).(input := old(input)[i := value])
    {
      input := input[i := value];
    }

    method SetSubsystem(s: nat)
      modifies this
      ensures Value() == old(Value()).(subsystem := s)
    {
      subsystem := s;
    }
  }

  /** Swapping twice restores both observations. */
  method SwapTwice(a: SystemObservation, b: SystemObservation)
    requires a.Valid() && b.Valid() && a.stateDim == b.stateDim && a.inputDim == b.inputDim
    modifies a, b
    ensures a.Value() == old(a.Value()) && b.Value() == old(b.Value())
  {
    a.Swap(b);
    a.Swap(b);
  }
}
