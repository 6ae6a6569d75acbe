/** The model (FMU) as the simulation driver sees it: an adapter whose operations are the
    FMI functions the driver calls. The binding that really calls into the FMU is not part
    of this model; every answer the adapter gives is drawn from an `Oracle`, a total
    function of the calls made so far, and every call is appended, with its answer, to the
    instance's `trace`. */
module Fmi {
  import opened Optional

  /** The fields of `fmiEventInfo` (FMI 1.0) and `fmi2EventInfo` (FMI 2.0) the driver reads. */
  datatype EventInfo = EventInfo(
    timeEventDefined: bool,   // `upcomingTimeEvent` in FMI 1.0, `nextEventTimeDefined` in FMI 2.0
    nextEventTime: real,
    newDiscreteStatesNeeded: bool,
    terminateSimulation: bool)

  /** The condition under which the FMI 2.0 event iteration asks for another round. */
  predicate NeedsUpdate(info: EventInfo)
  {
    info.newDiscreteStatesNeeded && !info.terminateSimulation
  }

  /** One call into the model, with the values it passed or returned. */
  datatype Call =
    | Instantiate(instanceName: Option<string>)   // None: the binding's default name
    | SetupExperiment(startTime: real)
    | EnterInitializationMode
    | ExitInitializationMode
    | Initialize(info: EventInfo)                 // FMI 1.0 model exchange
    | InitializeSlave                             // FMI 1.0 co-simulation
    | SetTime(time: real)
    | GetContinuousStates(x: seq<real>)
    | GetDerivatives(dx: seq<real>)
    | SetContinuousStates(x: seq<real>)
    | CompletedIntegratorStep(stepEvent: bool, terminate: bool)
    | GetEventIndicators(z: seq<real>)
    | EventUpdate(info: EventInfo)                // FMI 1.0
    | EnterEventMode
    | NewDiscreteStates(info: EventInfo)          // FMI 2.0
    | EnterContinuousTimeMode
    | GetReal(vrs: seq<nat>, reals: seq<real>)
    | GetInteger(vrs: seq<nat>, integers: seq<int>)
    | GetBoolean(vrs: seq<nat>, booleans: seq<bool>)
    | DoStep(currentCommunicationPoint: real, communicationStepSize: real)
    | Terminate
    | FreeInstance

  /** What the model answers, as a function of the history of calls before the question.
      Vectors are given component by component, values by value reference. */
  datatype Oracle = Oracle(
    state: (seq<Call>, nat) -> real,
    derivative: (seq<Call>, nat) -> real,
    indicator: (seq<Call>, nat) -> real,
    eventInfo: seq<Call> -> EventInfo,
    stepEvent: seq<Call> -> bool,
    terminateRequested: seq<Call> -> bool,
    realValue: (seq<Call>, nat) -> real,
    integerValue: (seq<Call>, nat) -> int,
    booleanValue: (seq<Call>, nat) -> bool)

  /** The vector of `n` components the model answers after history `h`. */
  function Vector(answer: (seq<Call>, nat) -> real, h: seq<Call>, n: nat): (v: seq<real>)
    ensures |v| == n && forall i :: 0 <= i < n ==> v[i] == answer(h, i)
  {
    seq(n, i requires 0 <= i < n => answer(h, i))
  }

  /** A vector of `n` zeros: the binding's buffers before anything is read into them. */
  function Zeros(n: nat): (v: seq<real>)
    ensures |v| == n && forall i :: 0 <= i < n ==> v[i] == 0.0
  {
    seq(n, _ => 0.0)
  }

  /** The values the model answers after history `h` for the value references `vrs`. */
  function Values<T>(answer: (seq<Call>, nat) -> T, h: seq<Call>, vrs: seq<nat>): (v: seq<T>)
    ensures |v| == |vrs| && forall i :: 0 <= i < |vrs| ==> v[i] == answer(h, vrs[i])
  {
    seq(|vrs|, i requires 0 <= i < |vrs| => answer(h, vrs[i]))
  }

  /** The model's clock after history `h`: the time of the last `setTime`, or the start time
      of the last `setupExperiment`, whichever came later (0 before either). */
  function Clock(h: seq<Call>): real
  {
    if h == [] then 0.0
    else match h[|h| - 1]
      case SetTime(t) => t
      case SetupExperiment(t) => t
      case _ => Clock(h[..|h| - 1])
  }

  lemma ClockAfter(h: seq<Call>, c: Call)
    ensures Clock(h + [c]) == match c
      case SetTime(t) => t
      case SetupExperiment(t) => t
      case _ => Clock(h)
  {
    assert (h + [c])[..|h|] == h;
  }

  /** The times passed to `setTime`, in order. */
  function TimePoints(h: seq<Call>): (ts: seq<real>)
    ensures |ts| <= |h|
  {
    if h == [] then []
    else TimePoints(h[..|h| - 1]) + (if h[|h| - 1].SetTime? then [h[|h| - 1].time] else [])
  }

  lemma {:induction false} TimePointsAppend(a: seq<Call>, b: seq<Call>)
    ensures TimePoints(a + b) == TimePoints(a) + TimePoints(b)
    decreases |b|
  {
    if b == [] {
      assert a + b == a;
    } else {
      var n := |b| - 1;
      assert (a + b)[..|a + b| - 1] == a + b[..n];
      assert b[..n] + [b[n]] == b;
      TimePointsAppend(a, b[..n]);
    }
  }

  /** A call that moves no clock. */
  predicate Quiet(c: Call)
  {
    !c.SetTime? && !c.SetupExperiment?
  }

  /** Calls that move no clock keep the clock where it was and set no time. */
  lemma {:induction false} QuietKeepsClock(h: seq<Call>, log: seq<Call>)
    requires forall c :: c in log ==> Quiet(c)
    ensures Clock(h + log) == Clock(h) && TimePoints(h + log) == TimePoints(h)
    decreases |log|
  {
    if log != [] {
      var n := |log| - 1;
      assert log == log[..n] + [log[n]];
      assert h + log == (h + log[..n]) + [log[n]];
      assert log[n] in log;
      assert forall c :: c in log[..n] ==> c in log;
      QuietKeepsClock(h, log[..n]);
      ClockAfter(h + log[..n], log[n]);
      TimePointsAppend(h + log[..n], [log[n]]);
      assert [log[n]][..0] == [];
    } else {
      assert h + log == h;
    }
  }

  /** After a `setTime` followed only by calls that move no clock, the clock shows that time,
      and that time is the only one set. */
  lemma SetTimeThenQuiet(h: seq<Call>, t: real, log: seq<Call>)
    requires forall c :: c in log ==> Quiet(c)
    ensures Clock(h + [SetTime(t)] + log) == t
    ensures TimePoints(h + [SetTime(t)] + log) == TimePoints(h) + [t]
  {
    QuietKeepsClock(h + [SetTime(t)], log);
    ClockAfter(h, SetTime(t));
    TimePointsAppend(h, [SetTime(t)]);
    assert [SetTime(t)][..0] == [];
  }

  /** After a `setupExperiment` followed only by calls that move no clock, the clock shows
      its start time, and no time point has been set since `h`. */
  lemma SetupThenQuiet(h: seq<Call>, t: real, log: seq<Call>)
    requires forall c :: c in log ==> Quiet(c)
    ensures Clock(h + [SetupExperiment(t)] + log) == t
    ensures TimePoints(h + [SetupExperiment(t)] + log) == TimePoints(h)
  {
    QuietKeepsClock(h + [SetupExperiment(t)], log);
    ClockAfter(h, SetupExperiment(t));
    TimePointsAppend(h, [SetupExperiment(t)]);
    assert [SetupExperiment(t)][..0] == [];
  }

  /** The history after `n` rounds of `newDiscreteStates` starting from history `h`. */
  function Iterate(o: Oracle, h: seq<Call>, n: nat): (r: seq<Call>)
    ensures |r| == |h| + n
  {
    if n == 0 then h
    else
      var p := Iterate(o, h, n - 1);
      p + [NewDiscreteStates(o.eventInfo(p))]
  }

  /** `newDiscreteStates` rounds move no clock. */
  lemma {:induction false} IterateKeepsClock(o: Oracle, h: seq<Call>, n: nat)
    ensures Clock(Iterate(o, h, n)) == Clock(h)
    ensures TimePoints(Iterate(o, h, n)) == TimePoints(h)
  {
    if n > 0 {
      var p := Iterate(o, h, n - 1);
      var c := NewDiscreteStates(o.eventInfo(p));
      IterateKeepsClock(o, h, n - 1);
      ClockAfter(p, c);
      assert (p + [c])[..|p|] == p;
    }
  }

  /** The rounds only append: round `k` records the answer to the history of the `k`
      rounds before it. */
  lemma {:induction false} IterateCalls(o: Oracle, h: seq<Call>, n: nat)
    ensures Iterate(o, h, n)[..|h|] == h
    ensures forall k :: 0 <= k < n ==> Iterate(o, h, n)[|h| + k] == NewDiscreteStates(o.eventInfo(Iterate(o, h, k)))
  {
    if n > 0 {
      IterateCalls(o, h, n - 1);
      var p := Iterate(o, h, n - 1);
      assert Iterate(o, h, n) == p + [NewDiscreteStates(o.eventInfo(p))];
      forall k | 0 <= k < n
        ensures Iterate(o, h, n)[|h| + k] == NewDiscreteStates(o.eventInfo(Iterate(o, h, k)))
      {
        if k < n - 1 {
          assert Iterate(o, h, n)[|h| + k] == p[|h| + k];
        }
      }
    }
  }

  /** From history `h`, some number of `newDiscreteStates` rounds reaches an answer that
      needs no further round. */
  ghost predicate ConvergesFrom(o: Oracle, h: seq<Call>)
  {
    exists n: nat :: !NeedsUpdate(o.eventInfo(Iterate(o, h, n)))
  }

  /** The model's event iteration converges from every history. */
  ghost predicate Converges(o: Oracle)
  {
    forall h :: ConvergesFrom(o, h)
  }

  /** The time event the model announces after history `h`, if any, lies at least `gap`
      after its clock. */
  ghost predicate AheadAt(o: Oracle, h: seq<Call>, gap: real)
  {
    o.eventInfo(h).timeEventDefined ==> o.eventInfo(h).nextEventTime >= Clock(h) + gap
  }

  /** Every announced time event lies at least `gap` after the model's clock. */
  ghost predicate SchedulesAheadBy(o: Oracle, gap: real)
  {
    forall h :: AheadAt(o, h, gap)
  }

  ghost predicate EventsAhead(o: Oracle)
  {
    exists gap: real :: gap > 0.0 && SchedulesAheadBy(o, gap)
  }

  /** An event info the model reported when its clock read `t` schedules the next time event
      at least `gap` after `t`. */
  lemma ReportedAhead(o: Oracle, gap: real, h: seq<Call>, info: EventInfo, t: real)
    requires SchedulesAheadBy(o, gap) && info == o.eventInfo(h) && Clock(h) == t
    ensures info.timeEventDefined ==> info.nextEventTime >= t + gap
  {
    assert AheadAt(o, h, gap);
  }

  /** One model instance with the binding's buffers `x`, `dx` and `z` (continuous states,
      derivatives, event indicators) and the last `eventInfo` it reported. */
  class Instance {
    const oracle: Oracle
    const nx: nat
    const nz: nat
    const x: array<real>
    const dx: array<real>
    const z: array<real>
    var eventInfo: EventInfo
    var trace: seq<Call>

    ghost predicate Valid()
    {
      x.Length == nx && dx.Length == nx && z.Length == nz && x != dx && x != z && dx != z
    }

    constructor (oracle: Oracle, nx: nat, nz: nat)
      ensures Valid() && this.oracle == oracle && this.nx == nx && this.nz == nz
      ensures fresh(x) && fresh(dx) && fresh(z)
      ensures z[..] == Zeros(nz)
      ensures eventInfo == EventInfo(false, 0.0, false, false) && trace == []
    {
      this.oracle, this.nx, this.nz := oracle, nx, nz;
      x := new real[nx](_ => 0.0);
      dx := new real[nx](_ => 0.0);
      z := new real[nz](_ => 0.0);
      eventInfo := EventInfo(false, 0.0, false, false);
      trace := [];
    }

    method Instantiate(instanceName: Option<string>)
      modifies this`trace
      ensures trace == old(trace) + [Call.Instantiate(instanceName)]
    {
      trace := trace + [Call.Instantiate(instanceName)];
    }

    method SetupExperiment(startTime: real)
      modifies this`trace
      ensures trace == old(trace) + [Call.SetupExperiment(startTime)]
    {
      trace := trace + [Call.SetupExperiment(startTime)];
    }

    method EnterInitializationMode()
      modifies this`trace
      ensures trace == old(trace) + [Call.EnterInitializationMode]
    {
      trace := trace + [Call.EnterInitializationMode];
    }

    method ExitInitializationMode()
      modifies this`trace
      ensures trace == old(trace) + [Call.ExitInitializationMode]
    {
      trace := trace + [Call.ExitInitializationMode];
    }

    method Initialize()
      modifies this`trace, this`eventInfo
      ensures eventInfo == oracle.eventInfo(old(trace))
      ensures trace == old(trace) + [Call.Initialize(eventInfo)]
    {
      eventInfo := oracle.eventInfo(trace);
      trace := trace + [Call.Initialize(eventInfo)];
    }

    method InitializeSlave()
      modifies this`trace
      ensures trace == old(trace) + [Call.InitializeSlave]
    {
      trace := trace + [Call.InitializeSlave];
    }

    method SetTime(time: real)
      modifies this`trace
      ensures trace == old(trace) + [Call.SetTime(time)]
    {
      trace := trace + [Call.SetTime(time)];
    }

    method GetContinuousStates()
      requires Valid()
      modifies x, this`trace
      ensures x[..] == Vector(oracle.state, old(trace), nx)
      ensures trace == old(trace) + [Call.GetContinuousStates(x[..])]
    {
      forall i | 0 <= i < nx {
        x[i] := oracle.state(trace, i);
      }
      trace := trace + [Call.GetContinuousStates(x[..])];
    }

    method GetDerivatives()
      requires Valid()
      modifies dx, this`trace
      ensures dx[..] == Vector(oracle.derivative, old(trace), nx)
      ensures trace == old(trace) + [Call.GetDerivatives(dx[..])]
    {
      forall i | 0 <= i < nx {
        dx[i] := oracle.derivative(trace, i);
      }
      trace := trace + [Call.GetDerivatives(dx[..])];
    }

    method SetContinuousStates()
      modifies this`trace
      ensures trace == old(trace) + [Call.SetContinuousStates(x[..])]
    {
      trace := trace + [Call.SetContinuousStates(x[..])];
    }

    method CompletedIntegratorStep() returns (stepEvent: bool, terminate: bool)
      modifies this`trace
      ensures stepEvent == oracle.stepEvent(old(trace))
      ensures terminate == oracle.terminateRequested(old(trace))
      ensures trace == old(trace) + [Call.CompletedIntegratorStep(stepEvent, terminate)]
    {
      stepEvent, terminate := oracle.stepEvent(trace), oracle.terminateRequested(trace);
      trace := trace + [Call.CompletedIntegratorStep(stepEvent, terminate)];
    }

    method GetEventIndicators()
      requires Valid()
      modifies z, this`trace
      ensures z[..] == Vector(oracle.indicator, old(trace), nz)
      ensures trace == old(trace) + [Call.GetEventIndicators(z[..])]
    {
      forall i | 0 <= i < nz {
        z[i] := oracle.indicator(trace, i);
      }
      trace := trace + [Call.GetEventIndicators(z[..])];
    }

    method EventUpdate()
      modifies this`trace, this`eventInfo
      ensures eventInfo == oracle.eventInfo(old(trace))
      ensures trace == old(trace) + [Call.EventUpdate(eventInfo)]
    {
      eventInfo := oracle.eventInfo(trace);
      trace := trace + [Call.EventUpdate(eventInfo)];
    }

    method EnterEventMode()
      modifies this`trace
      ensures trace == old(trace) + [Call.EnterEventMode]
    {
      trace := trace + [Call.EnterEventMode];
    }

    method NewDiscreteStates()
      modifies this`trace, this`eventInfo
      ensures eventInfo == oracle.eventInfo(old(trace))
      ensures trace == old(trace) + [Call.NewDiscreteStates(eventInfo)]
    {
      eventInfo := oracle.eventInfo(trace);
      trace := trace + [Call.NewDiscreteStates(eventInfo)];
    }

    method EnterContinuousTimeMode()
      modifies this`trace
      ensures trace == old(trace) + [Call.EnterContinuousTimeMode]
    {
      trace := trace + [Call.EnterContinuousTimeMode];
    }

    method GetReal(vrs: seq<nat>) returns (values: seq<real>)
      modifies this`trace
      ensures values == Values(oracle.realValue, old(trace), vrs)
      ensures trace == old(trace) + [Call.GetReal(vrs, values)]
    {
      values := Values(oracle.realValue, trace, vrs);
      trace := trace + [Call.GetReal(vrs, values)];
    }

    method GetInteger(vrs: seq<nat>) returns (values: seq<int>)
      modifies this`trace
      ensures values == Values(oracle.integerValue, old(trace), vrs)
      ensures trace == old(trace) + [Call.GetInteger(vrs, values)]
    {
      values := Values(oracle.integerValue, trace, vrs);
      trace := trace + [Call.GetInteger(vrs, values)];
    }

    method GetBoolean(vrs: seq<nat>) returns (values: seq<bool>)
      modifies this`trace
      ensures values == Values(oracle.booleanValue, old(trace), vrs)
      ensures trace == old(trace) + [Call.GetBoolean(vrs, values)]
    {
      values := Values(oracle.booleanValue, trace, vrs);
      trace := trace + [Call.GetBoolean(vrs, values)];
    }

    method DoStep(currentCommunicationPoint: real, communicationStepSize: real)
      modifies this`trace
      ensures trace == old(trace) + [Call.DoStep(currentCommunicationPoint, communicationStepSize)]
    {
      trace := trace + [Call.DoStep(currentCommunicationPoint, communicationStepSize)];
    }

    method Terminate()
      modifies this`trace
      ensures trace == old(trace) + [Call.Terminate]
    {
      trace := trace + [Call.Terminate];
    }

    method FreeInstance()
      modifies this`trace
      ensures trace == old(trace) + [Call.FreeInstance]
    {
      trace := trace + [Call.FreeInstance];
    }
  }
}
