/** The choice of the next time point in the model-exchange loops: one fixed step ahead,
    never past the stop time, and snapped onto a time event the model has announced. */
module TimeStepper {
  import opened Fmi

  /** `min(time + step_size, stop_time)`. */
  function Candidate(time: real, stepSize: real, stopTime: real): (t: real)
    ensures t <= stopTime && t <= time + stepSize
    ensures t == stopTime || t == time + stepSize
  {
    if time + stepSize <= stopTime then time + stepSize else stopTime
  }

  /** A time event is due when the model announced one at or before the candidate time. */
  predicate TimeEvent(info: EventInfo, candidate: real)
  {
    info.timeEventDefined && info.nextEventTime <= candidate
  }

  /** The time the step ends at. */
  function NextTime(time: real, stepSize: real, stopTime: real, info: EventInfo): (t: real)
    // never past the stop time, never more than one step ahead
    ensures t <= stopTime && t <= time + stepSize
    // a due time event is hit exactly
    ensures TimeEvent(info, Candidate(time, stepSize, stopTime)) ==> t == info.nextEventTime
    // otherwise the step is a full step or ends exactly at the stop time
    ensures !TimeEvent(info, Candidate(time, stepSize, stopTime)) ==> t == time + stepSize || t == stopTime
    // an event inside the step is never skipped
    ensures (info.timeEventDefined && time < info.nextEventTime <= time + stepSize &&
             info.nextEventTime <= stopTime) ==> t == info.nextEventTime
    // the step makes progress while the announced event lies ahead
    ensures (time < stopTime && stepSize > 0.0 &&
             (info.timeEventDefined ==> info.nextEventTime > time)) ==> time < t
  {
    var candidate := Candidate(time, stepSize, stopTime);
    if TimeEvent(info, candidate) then info.nextEventTime else candidate
  }

  /** A `while time < stop` loop that moves on by `stepSize` can end: the step is positive, or
      the loop is never entered. */
  predicate LoopEnds(start: real, stop: real, stepSize: real)
  {
    stepSize > 0.0 || stop <= start
  }

  /** How many points `from`, `from + unit`, `from + 2 * unit`, ... lie before `to`:
      the ceiling of `(to - from) / unit`, and 0 once `from` has reached `to`. */
  function Steps(from: real, to: real, unit: real): (n: nat)
    requires unit > 0.0
    ensures n == 0 <==> from >= to
  {
    if from < to then
      DivideNegative(from - to, unit);
      -((from - to) / unit).Floor
    else 0
  }

  lemma DivideNegative(a: real, u: real)
    requires u > 0.0 && a < 0.0
    ensures a / u < 0.0
  {
    assert (a / u) * u == a;
  }

  lemma DivideShift(a: real, u: real)
    requires u > 0.0
    ensures (a + u) / u == a / u + 1.0
  {
    var q, r := a / u, (a + u) / u;
    assert q * u == a && r * u == a + u;
    var d := r - q - 1.0;
    assert d * u == 0.0;
  }

  lemma DivideMonotone(a: real, b: real, u: real)
    requires u > 0.0 && a <= b
    ensures a / u <= b / u
  {
    assert (b / u - a / u) * u == b - a;
  }

  /** One more point taken: one fewer point left. */
  lemma {:induction false} StepsAfterStep(from: real, to: real, unit: real)
    requires unit > 0.0 && from < to
    ensures Steps(from + unit, to, unit) == Steps(from, to, unit) - 1
  {
    DivideShift(from - to, unit);
    if from + unit >= to {
      DivideMonotone(0.0, from + unit - to, unit);
      assert 0.0 / unit == 0.0;
    }
  }

  /** Moving on never adds points; moving on by at least one unit removes at least one. */
  lemma {:induction false} StepsShrink(from: real, from': real, to: real, unit: real)
    requires unit > 0.0 && from <= from'
    ensures Steps(from', to, unit) <= Steps(from, to, unit)
    ensures from < to && from + unit <= from' ==> Steps(from', to, unit) < Steps(from, to, unit)
  {
    DivideMonotone(from - to, from' - to, unit);
    if from < to && from + unit <= from' {
      StepsAfterStep(from, to, unit);
      DivideMonotone(from + unit - to, from' - to, unit);
    }
  }
}
