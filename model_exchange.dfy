/** The model-exchange drivers `simulateME1` (FMI 1.0) and `simulateME2` (FMI 2.0): a
    fixed-step forward Euler loop that hits announced time events exactly, detects state
    events as sign changes of the event indicators between two steps, handles events after
    the step, and records one row per step. */
module ModelExchange {
  import opened Optional
  import opened Description
  import opened Fmi
  import opened TimeStepper
  import opened Integrator
  import opened EventDetector
  import opened Recording

  /** What one pass of the loop leaves behind: the history of calls, the new time, the event
      info the driver holds, the event indicators it read, and whether it handled an event. */
  datatype Step = Step(trace: seq<Call>, time: real, info: EventInfo, z: seq<real>, event: bool)

  /** The `k`-th time point lies after the one before it, by at most one step. */
  predicate StepAfter(times: seq<real>, k: nat, stepSize: real)
    requires 1 <= k < |times|
  {
    times[k - 1] < times[k] <= times[k - 1] + stepSize
  }

  /** The last time point, or `start` before the first. */
  function Reached(times: seq<real>, start: real): real
  {
    if times == [] then start else times[|times| - 1]
  }

  /** Every time point lies after the one before it (or after `start`), by at most one step. */
  predicate Paced(times: seq<real>, start: real, stepSize: real)
    decreases |times|
  {
    times == [] ||
    (var before := times[..|times| - 1];
     Paced(before, start, stepSize) &&
     Reached(before, start) < times[|times| - 1] <= Reached(before, start) + stepSize)
  }

  /** The time column of a fixed-step run from `start` to `stop`: paced by the step size,
      ending exactly at `stop`, and empty when there is nothing to simulate. */
  predicate Cadence(times: seq<real>, start: real, stop: real, stepSize: real)
  {
    Paced(times, start, stepSize) &&
    (times == [] ==> stop <= start) &&
    (times != [] ==> Reached(times, start) == stop)
  }

  /** The part of `Cadence` that holds while the loop is still at `time`. */
  predicate CadenceSoFar(times: seq<real>, start: real, time: real, stepSize: real)
  {
    Paced(times, start, stepSize) && Reached(times, start) == time
  }

  lemma CadenceExtend(times: seq<real>, start: real, time: real, time': real, stepSize: real)
    requires CadenceSoFar(times, start, time, stepSize)
    requires time < time' <= time + stepSize
    ensures CadenceSoFar(times + [time'], start, time', stepSize)
  {
    assert (times + [time'])[..|times|] == times;
  }

  /** Pacing, point by point: every point lies after `start` and no later than the last
      one, each lies after the one before by at most one step, and the first lies at most
      one step after `start`. */
  lemma {:induction false} PacedPoints(times: seq<real>, start: real, stepSize: real)
    requires Paced(times, start, stepSize)
    ensures forall k :: 0 <= k < |times| ==> start < times[k] <= Reached(times, start)
    ensures forall k :: 1 <= k < |times| ==> StepAfter(times, k, stepSize)
    ensures |times| > 0 ==> times[0] <= start + stepSize
    decreases |times|
  {
    if times != [] {
      var before := times[..|times| - 1];
      PacedPoints(before, start, stepSize);
      assert start <= Reached(before, start);
      forall k | 1 <= k < |times|
        ensures StepAfter(times, k, stepSize)
      {
        if k < |times| - 1 {
          assert StepAfter(before, k, stepSize);
        }
      }
    }
  }

  /** A cadence, point by point: strictly increasing, each point after `start` and at most
      one step after the point before, the first at most one step after `start`, ending
      exactly at `stop`; and it is empty exactly when `start` is not before `stop`. */
  lemma CadencePoints(times: seq<real>, start: real, stop: real, stepSize: real)
    requires Cadence(times, start, stop, stepSize)
    ensures forall k :: 0 <= k < |times| ==> start < times[k] <= stop
    ensures forall k :: 1 <= k < |times| ==> StepAfter(times, k, stepSize)
    ensures |times| > 0 ==> times[0] <= start + stepSize && times[|times| - 1] == stop
    ensures |times| > 0 <==> start < stop
  {
    PacedPoints(times, start, stepSize);
  }

  lemma AppendSnoc(a: seq<real>, b: seq<real>, b': seq<real>, x: real)
    requires b' == b + [x]
    ensures (a + b) + [x] == a + b'
  {
  }

  /** Once the loop has reached `stopTime`, never having stepped past it, the time column is
      a complete fixed-step cadence. */
  lemma CadenceFinish(times: seq<real>, start: real, time: real, stop: real, stepSize: real)
    requires CadenceSoFar(times, start, time, stepSize)
    requires stop <= time && (times != [] ==> time <= stop)
    ensures Cadence(times, start, stop, stepSize)
  {
  }

  // ---------------------------------------------------------------------------------------
  // FMI 2.0 event iteration

  /** `n` rounds are what the iteration makes from `h`: the answer of round `n` asks for no
      further round, and the answers of all earlier rounds did. */
  ghost predicate SettlesAt(o: Oracle, h: seq<Call>, n: nat)
  {
    n >= 1 && !NeedsUpdate(o.eventInfo(Iterate(o, h, n - 1))) &&
    forall m :: 0 <= m < n - 1 ==> NeedsUpdate(o.eventInfo(Iterate(o, h, m)))
  }

  /** An answer that asks for no further round, somewhere, means a first such answer. */
  lemma {:induction false} FirstSettled(o: Oracle, h: seq<Call>, k: nat)
    requires !NeedsUpdate(o.eventInfo(Iterate(o, h, k)))
    ensures exists n: nat :: SettlesAt(o, h, n)
    decreases k
  {
    if j :| 0 <= j < k && !NeedsUpdate(o.eventInfo(Iterate(o, h, j))) {
      FirstSettled(o, h, j);
    } else {
      assert SettlesAt(o, h, k + 1);
    }
  }

  /** How many `newDiscreteStates` calls the iteration makes from history `h`: at least one
      (the flags are forced before the loop), and it stops at the first answer that needs no
      further round. */
  ghost function Settle(o: Oracle, h: seq<Call>): (n: nat)
    requires ConvergesFrom(o, h)
    ensures n >= 1 && !NeedsUpdate(o.eventInfo(Iterate(o, h, n - 1)))
    ensures forall m :: 0 <= m < n - 1 ==> NeedsUpdate(o.eventInfo(Iterate(o, h, m)))
  {
    var k: nat :| !NeedsUpdate(o.eventInfo(Iterate(o, h, k)));
    FirstSettled(o, h, k);
    var n: nat :| SettlesAt(o, h, n);
    n
  }

  /** Forces `newDiscreteStatesNeeded` and clears `terminateSimulation`, then calls
      `newDiscreteStates` while the model asks for another round and does not ask to stop. */
  method EventIteration(fmu: Instance)
    requires ConvergesFrom(fmu.oracle, fmu.trace)
    modifies fmu`trace, fmu`eventInfo
    ensures fmu.trace == Iterated(fmu.oracle, old(fmu.trace))
    ensures fmu.eventInfo == fmu.trace[|fmu.trace| - 1].info
  {
    ghost var o, h := fmu.oracle, fmu.trace;
    ghost var n := Settle(o, h);
    fmu.eventInfo := fmu.eventInfo.(newDiscreteStatesNeeded := true, terminateSimulation := false);
    ghost var k: nat := 0;
    while fmu.eventInfo.newDiscreteStatesNeeded && !fmu.eventInfo.terminateSimulation
      invariant k <= n && fmu.trace == Iterate(o, h, k)
      invariant k == 0 ==> NeedsUpdate(fmu.eventInfo)
      invariant k > 0 ==> fmu.eventInfo == o.eventInfo(Iterate(o, h, k - 1))
      decreases n - k
    {
      fmu.NewDiscreteStates();
      k := k + 1;
    }
    SettleCalls(o, h);
    assert Iterated(o, h) == Iterate(o, h, n);
  }

  /** The iteration records one answer per round; every round but the last was asked for,
      and the last answer, which the driver keeps, asks for no further round. */
  lemma SettleCalls(o: Oracle, h: seq<Call>)
    requires ConvergesFrom(o, h)
    ensures var n := Settle(o, h); var it := Iterate(o, h, n);
      it[..|h|] == h && |it| == |h| + n && it[..|it| - 1] == Iterate(o, h, n - 1) &&
      (forall i :: |h| <= i < |it| ==> it[i].NewDiscreteStates?) &&
      (forall i :: |h| <= i < |it| - 1 ==> NeedsUpdate(it[i].info)) &&
      it[|it| - 1] == NewDiscreteStates(o.eventInfo(Iterate(o, h, n - 1))) &&
      !NeedsUpdate(it[|it| - 1].info)
  {
    var n := Settle(o, h);
    IterateCalls(o, h, n);
    var it := Iterate(o, h, n);
    forall i | |h| <= i < |it|
      ensures it[i] == NewDiscreteStates(o.eventInfo(Iterate(o, h, i - |h|)))
    {
      assert it[|h| + (i - |h|)] == it[i];
    }
  }

  /** The history after the event iteration from `h`: one or more `newDiscreteStates`
      calls, every one but the last answered with a request for another round, the last
      answered without one; the answers all come at the clock of `h`, and no time is set. */
  ghost function Iterated(o: Oracle, h: seq<Call>): (it: seq<Call>)
    requires ConvergesFrom(o, h)
    ensures |it| > |h| && it[..|h|] == h && it[|it| - 1].NewDiscreteStates?
    ensures it[|it| - 1].info == o.eventInfo(it[..|it| - 1]) && !NeedsUpdate(it[|it| - 1].info)
  {
    var p := Unsettled(o, h);
    p + [NewDiscreteStates(o.eventInfo(p))]
  }

  /** The history the last round of the iteration from `h` is asked after. */
  ghost function Unsettled(o: Oracle, h: seq<Call>): (p: seq<Call>)
    requires ConvergesFrom(o, h)
    ensures |p| >= |h| && p[..|h|] == h && !NeedsUpdate(o.eventInfo(p))
    ensures Iterate(o, h, Settle(o, h)) == p + [NewDiscreteStates(o.eventInfo(p))]
  {
    SettleCalls(o, h);
    Iterate(o, h, Settle(o, h) - 1)
  }

  /** The iteration sets no time: every round, the last one included, is answered at the
      clock of `h`. */
  lemma IteratedClock(o: Oracle, h: seq<Call>)
    requires ConvergesFrom(o, h)
    ensures Clock(Unsettled(o, h)) == Clock(h) && TimePoints(Iterated(o, h)) == TimePoints(h)
  {
    var n := Settle(o, h);
    IterateKeepsClock(o, h, n);
    IterateKeepsClock(o, h, n - 1);
  }

  /** The iteration makes only `newDiscreteStates` calls, and every one but the last was
      answered with a request for another round. */
  lemma IteratedCalls(o: Oracle, h: seq<Call>)
    requires ConvergesFrom(o, h)
    ensures var it := Iterated(o, h);
      (forall i :: |h| <= i < |it| ==> it[i].NewDiscreteStates?) &&
      (forall i :: |h| <= i < |it| - 1 ==> NeedsUpdate(it[i].info))
  {
    SettleCalls(o, h);
    assert Iterated(o, h) == Iterate(o, h, Settle(o, h));
  }

  // ---------------------------------------------------------------------------------------
  // The integration part of a pass, shared by both versions

  /** Reads the states and the derivatives, sets the time `t` and sets the states advanced
      by one forward Euler step over `t - time`. */
  function Integrate(o: Oracle, h: seq<Call>, nx: nat, time: real, t: real): (h': seq<Call>)
    ensures |h'| == |h| + 4 && h'[..|h|] == h
  {
    var xs := Vector(o.state, h, nx);
    var h1 := h + [GetContinuousStates(xs)];
    var dxs := Vector(o.derivative, h1, nx);
    h1 + [GetDerivatives(dxs)] + [SetTime(t)] + [SetContinuousStates(Euler(xs, dxs, t - time))]
  }

  /** The integration part leaves the clock at `t`, the only time it sets. */
  lemma IntegrateClock(o: Oracle, h: seq<Call>, nx: nat, time: real, t: real)
    ensures var h' := Integrate(o, h, nx, time, t);
      Clock(h') == t && TimePoints(h') == TimePoints(h) + [t]
  {
    var h' := Integrate(o, h, nx, time, t);
    var h2 := h'[..|h| + 2];
    QuietKeepsClock(h, h2[|h|..]);
    assert h + h2[|h|..] == h2;
    assert h' == h2 + [SetTime(t)] + [h'[|h| + 3]];
    SetTimeThenQuiet(h2, t, [h'[|h| + 3]]);
  }

  /** Calls that move no clock after the integration part keep its clock and time points. */
  lemma QuietAfter(h: seq<Call>, h': seq<Call>)
    requires |h| <= |h'| && h'[..|h|] == h
    requires forall i :: |h| <= i < |h'| ==> Quiet(h'[i])
    ensures Clock(h') == Clock(h) && TimePoints(h') == TimePoints(h)
  {
    assert h' == h + h'[|h|..];
    QuietKeepsClock(h, h'[|h|..]);
  }

  /** The integration part of a pass: `time = min(time + step_size, stop_time)`, snapped to
      a due time event, then the states advanced in place by forward Euler over the elapsed
      time. */
  method Advance(fmu: Instance, time: real, stepSize: real, stopTime: real)
    returns (newTime: real, timeEvent: bool)
    requires fmu.Valid()
    modifies fmu`trace, fmu.x, fmu.dx
    ensures newTime == NextTime(time, stepSize, stopTime, fmu.eventInfo)
    ensures timeEvent == TimeEvent(fmu.eventInfo, Candidate(time, stepSize, stopTime))
    ensures fmu.trace == Integrate(fmu.oracle, old(fmu.trace), fmu.nx, time, newTime)
    // the buffers hold the derivatives read and the states set
    ensures var xs := Vector(fmu.oracle.state, old(fmu.trace), fmu.nx);
      var dxs := Vector(fmu.oracle.derivative, old(fmu.trace) + [GetContinuousStates(xs)], fmu.nx);
      fmu.dx[..] == dxs && fmu.x[..] == Euler(xs, dxs, newTime - time)
  {
    fmu.GetContinuousStates();
    fmu.GetDerivatives();
    var tPre := time;
    newTime := Candidate(time, stepSize, stopTime);
    timeEvent := fmu.eventInfo.timeEventDefined && fmu.eventInfo.nextEventTime <= newTime;
    if timeEvent {
      newTime := fmu.eventInfo.nextEventTime;
    }
    var dt := newTime - tPre;
    fmu.SetTime(newTime);
    ForwardEuler(fmu.x, fmu.dx, dt);
    fmu.SetContinuousStates();
  }

  // ---------------------------------------------------------------------------------------
  // One pass of the FMI 1.0 loop

  /** The calls one pass of `simulateME1`'s loop makes after history `h`, starting at `time`
      with the event info `info` and the previous event indicators `prez`. */
  function ME1Step(o: Oracle, h: seq<Call>, nx: nat, nz: nat, time: real, stepSize: real,
                   stopTime: real, info: EventInfo, prez: seq<real>): (r: Step)
    requires |prez| == nz
    ensures |r.z| == nz && |h| < |r.trace| && r.trace[..|h|] == h
  {
    var t := NextTime(time, stepSize, stopTime, info);
    var h4 := Integrate(o, h, nx, time, t);
    var stepEvent := o.stepEvent(h4);
    var h5 := h4 + [CompletedIntegratorStep(stepEvent, o.terminateRequested(h4))];
    var z := Vector(o.indicator, h5, nz);
    var h6 := h5 + [GetEventIndicators(z)];
    var event := TimeEvent(info, Candidate(time, stepSize, stopTime)) || StateEvent(prez, z) || stepEvent;
    Step(if event then h6 + [EventUpdate(o.eventInfo(h6))] else h6, t,
         if event then o.eventInfo(h6) else info, z, event)
  }

  /** The calls of one FMI 1.0 pass, in order: read the states and the derivatives, set the
      new time, set the states advanced by one Euler step of the elapsed time, report the
      completed step, read the event indicators, and call `eventUpdate` last and only when
      a time, state or step event occurred. */
  lemma ME1StepCalls(o: Oracle, h: seq<Call>, nx: nat, nz: nat, time: real, stepSize: real,
                     stopTime: real, info: EventInfo, prez: seq<real>)
    requires |prez| == nz
    ensures var r := ME1Step(o, h, nx, nz, time, stepSize, stopTime, info, prez);
      var log := r.trace[|h|..];
      var xs := Vector(o.state, h, nx);
      |log| == (if r.event then 7 else 6) &&
      log[0] == GetContinuousStates(xs) &&
      log[1] == GetDerivatives(Vector(o.derivative, h + [log[0]], nx)) &&
      log[2] == SetTime(r.time) &&
      log[3] == SetContinuousStates(Euler(xs, log[1].dx, r.time - time)) &&
      log[4].CompletedIntegratorStep? &&
      log[5] == GetEventIndicators(r.z) &&
      (r.event <==> TimeEvent(info, Candidate(time, stepSize, stopTime)) || StateEvent(prez, r.z) ||
                    log[4].stepEvent) &&
      (r.event ==> log[6] == EventUpdate(r.info)) &&
      ((exists i :: 0 <= i < |log| && log[i].EventUpdate?) <==> r.event)
  {
  }

  /** The pass ends at the new time, which is the only time it sets; the event info the driver
      holds afterwards is the one it held before, or, after an event, the model's answer at
      the new time. */
  lemma ME1StepClock(o: Oracle, h: seq<Call>, nx: nat, nz: nat, time: real, stepSize: real,
                     stopTime: real, info: EventInfo, prez: seq<real>)
    requires |prez| == nz
    ensures var r := ME1Step(o, h, nx, nz, time, stepSize, stopTime, info, prez);
      r.time == NextTime(time, stepSize, stopTime, info) &&
      TimePoints(r.trace) == TimePoints(h) + [r.time] &&
      (TimeEvent(info, Candidate(time, stepSize, stopTime)) ==> r.event) &&
      (!r.event ==> r.info == info) &&
      (r.event ==> r.info == o.eventInfo(r.trace[..|r.trace| - 1]) &&
                   Clock(r.trace[..|r.trace| - 1]) == r.time)
  {
    var r := ME1Step(o, h, nx, nz, time, stepSize, stopTime, info, prez);
    var h4 := Integrate(o, h, nx, time, r.time);
    IntegrateClock(o, h, nx, time, r.time);
    var h6 := r.trace[..|h| + 6];
    assert h6[..|h4|] == h4;
    QuietAfter(h4, h6);
    QuietAfter(h4, r.trace);
  }

  /** One pass of `simulateME1`'s loop, up to (not including) the sample. `prez` is the
      driver's copy of the previous event indicators. */
  method StepME1(fmu: Instance, prez: array<real>, time: real, stepSize: real, stopTime: real)
    returns (newTime: real)
    requires fmu.Valid() && prez.Length == fmu.nz && prez != fmu.z && prez != fmu.x
    modifies fmu`trace, fmu`eventInfo, fmu.x, fmu.dx, fmu.z, prez
    ensures var r := ME1Step(fmu.oracle, old(fmu.trace), fmu.nx, fmu.nz, time, stepSize, stopTime,
                             old(fmu.eventInfo), old(fmu.z[..]));
      fmu.trace == r.trace && fmu.eventInfo == r.info && fmu.z[..] == r.z && newTime == r.time
    // the state buffer holds the states the pass set
    ensures fmu.trace[|old(fmu.trace)| + 3] == SetContinuousStates(fmu.x[..])
  {
    var timeEvent;
    newTime, timeEvent := Advance(fmu, time, stepSize, stopTime);
    var stepEvent, _ := fmu.CompletedIntegratorStep();
    forall i | 0 <= i < prez.Length {
      prez[i] := fmu.z[i];
    }
    fmu.GetEventIndicators();
    var stateEvent := StateEvent(prez[..], fmu.z[..]);
    if timeEvent || stateEvent || stepEvent {
      fmu.EventUpdate();
    }
  }

  // ---------------------------------------------------------------------------------------
  // One pass of the FMI 2.0 loop

  /** The detection part of an FMI 2.0 pass: integration, the event indicators, and the
      completed step. */
  function ME2Detect(o: Oracle, h: seq<Call>, nx: nat, nz: nat, time: real, t: real): (h': seq<Call>)
    ensures |h'| == |h| + 6 && h'[..|h|] == h && h'[..|h| + 4] == Integrate(o, h, nx, time, t)
    ensures h'[|h| + 4] == GetEventIndicators(Vector(o.indicator, h'[..|h| + 4], nz))
    ensures h'[|h| + 5] == CompletedIntegratorStep(o.stepEvent(h'[..|h| + 5]), o.terminateRequested(h'[..|h| + 5]))
  {
    var h4 := Integrate(o, h, nx, time, t);
    var h5 := h4 + [GetEventIndicators(Vector(o.indicator, h4, nz))];
    h5 + [CompletedIntegratorStep(o.stepEvent(h5), o.terminateRequested(h5))]
  }

  /** The detection part leaves the clock at `t`, the only time the pass has set so far. */
  lemma DetectClock(o: Oracle, h: seq<Call>, nx: nat, nz: nat, time: real, t: real)
    ensures var h6 := ME2Detect(o, h, nx, nz, time, t);
      Clock(h6) == t && TimePoints(h6) == TimePoints(h) + [t]
  {
    var h4 := Integrate(o, h, nx, time, t);
    IntegrateClock(o, h, nx, time, t);
    QuietAfter(h4, ME2Detect(o, h, nx, nz, time, t));
  }

  /** The calls of FMI 2.0 event handling after history `h`: event mode, the event iteration
      and continuous-time mode. No time is set, and the last answer of the iteration is given
      at the clock of `h`. */
  ghost function EventTail(o: Oracle, h: seq<Call>): (r: seq<Call>)
    requires Converges(o)
    ensures |r| >= |h| + 3 && r[..|h| + 1] == h + [EnterEventMode]
    ensures r[|r| - 2].NewDiscreteStates? && r[|r| - 1] == EnterContinuousTimeMode
    ensures r[|r| - 2].info == o.eventInfo(r[..|r| - 2]) && !NeedsUpdate(r[|r| - 2].info)
  {
    var it := Iterated(o, h + [EnterEventMode]);
    var r := it + [EnterContinuousTimeMode];
    assert r[..|r| - 2] == it[..|it| - 1];
    assert r[..|h| + 1] == it[..|h| + 1];
    r
  }

  /** Event handling sets no time; the iteration's last answer is given at the clock of `h`. */
  lemma EventTailClock(o: Oracle, h: seq<Call>)
    requires Converges(o)
    ensures var r := EventTail(o, h);
      Clock(r[..|r| - 2]) == Clock(h) && TimePoints(r) == TimePoints(h)
  {
    var h7 := h + [EnterEventMode];
    var p := Unsettled(o, h7);
    var it := Iterated(o, h7);
    var r := EventTail(o, h);
    assert r == p + [NewDiscreteStates(o.eventInfo(p)), EnterContinuousTimeMode];
    assert r[..|r| - 2] == p;
    IteratedClock(o, h7);
    QuietKeepsClock(h, [EnterEventMode]);
    QuietKeepsClock(it, [EnterContinuousTimeMode]);
  }

  /** The calls one pass of `simulateME2`'s loop makes after history `h`. */
  ghost function ME2Step(o: Oracle, h: seq<Call>, nx: nat, nz: nat, time: real, stepSize: real,
                         stopTime: real, info: EventInfo, prez: seq<real>): (r: Step)
    requires |prez| == nz && Converges(o)
    ensures |r.z| == nz && |h| + 6 <= |r.trace|
    ensures r.trace[..|h| + 6] == ME2Detect(o, h, nx, nz, time, r.time)
  {
    var t := NextTime(time, stepSize, stopTime, info);
    var h6 := ME2Detect(o, h, nx, nz, time, t);
    var z := h6[|h| + 4].z;
    var event := TimeEvent(info, Candidate(time, stepSize, stopTime)) || StateEvent(prez, z) ||
                 h6[|h| + 5].stepEvent;
    var tail := EventTail(o, h6);
    Step(if event then tail else h6, t, if event then tail[|tail| - 2].info else info, z, event)
  }

  /** The calls of the detection part, in order: as in FMI 1.0 up to the new states, then the
      event indicators before the completed step. */
  lemma DetectCalls(o: Oracle, h: seq<Call>, nx: nat, nz: nat, time: real, t: real)
    ensures var log := ME2Detect(o, h, nx, nz, time, t)[|h|..];
      var xs := Vector(o.state, h, nx);
      |log| == 6 &&
      log[0] == GetContinuousStates(xs) &&
      log[1] == GetDerivatives(Vector(o.derivative, h + [log[0]], nx)) &&
      log[2] == SetTime(t) &&
      log[3] == SetContinuousStates(Euler(xs, log[1].dx, t - time)) &&
      log[4].GetEventIndicators? && |log[4].z| == nz &&
      log[5].CompletedIntegratorStep?
  {
  }

  /** The calls of one FMI 2.0 pass: the detection part, then nothing more unless an event
      occurred, which is a time event due at the candidate time, a sign change of an event
      indicator, or a step event. */
  lemma ME2StepCalls(o: Oracle, h: seq<Call>, nx: nat, nz: nat, time: real, stepSize: real,
                     stopTime: real, info: EventInfo, prez: seq<real>)
    requires |prez| == nz && Converges(o)
    ensures var r := ME2Step(o, h, nx, nz, time, stepSize, stopTime, info, prez);
      var log := r.trace[|h|..];
      |log| >= 6 && log[..6] == ME2Detect(o, h, nx, nz, time, r.time)[|h|..] &&
      log[4] == GetEventIndicators(r.z) &&
      (r.event <==> TimeEvent(info, Candidate(time, stepSize, stopTime)) || StateEvent(prez, r.z) ||
                    log[5].stepEvent) &&
      (!r.event ==> |log| == 6)
  {
    var r := ME2Step(o, h, nx, nz, time, stepSize, stopTime, info, prez);
    var h6 := ME2Detect(o, h, nx, nz, time, r.time);
    assert r.trace[|h|..][..6] == h6[|h|..];
  }

  /** After an event, and after the six calls of the detection part, an FMI 2.0 pass enters event mode, runs the event iteration (every
      round but the last asked for, the last asking for none, its answer kept by the driver)
      and returns to continuous-time mode. */
  lemma ME2EventCalls(o: Oracle, h: seq<Call>, nx: nat, nz: nat, time: real, stepSize: real,
                      stopTime: real, info: EventInfo, prez: seq<real>)
    requires |prez| == nz && Converges(o)
    ensures var r := ME2Step(o, h, nx, nz, time, stepSize, stopTime, info, prez);
      var log := r.trace[|h| + 6..];
      r.event ==> |log| >= 3 && log[0] == EnterEventMode &&
                  (forall i :: 1 <= i < |log| - 1 ==> log[i].NewDiscreteStates?) &&
                  (forall i :: 1 <= i < |log| - 2 ==> NeedsUpdate(log[i].info)) &&
                  log[|log| - 2] == NewDiscreteStates(r.info) && !NeedsUpdate(r.info) &&
                  log[|log| - 1] == EnterContinuousTimeMode
  {
    var r := ME2Step(o, h, nx, nz, time, stepSize, stopTime, info, prez);
    if r.event {
      var h6 := ME2Detect(o, h, nx, nz, time, r.time);
      assert r.trace == EventTail(o, h6);
      EventTailCalls(o, h6);
    }
  }

  /** The calls of event handling: event mode, the rounds of the iteration (all but the last
      asking for another), and continuous-time mode. */
  lemma EventTailCalls(o: Oracle, h: seq<Call>)
    requires Converges(o)
    ensures var r := EventTail(o, h);
      var log := r[|h|..];
      |log| >= 3 && log[0] == EnterEventMode &&
      (forall i :: 1 <= i < |log| - 1 ==> log[i].NewDiscreteStates?) &&
      (forall i :: 1 <= i < |log| - 2 ==> NeedsUpdate(log[i].info)) &&
      log[|log| - 1] == EnterContinuousTimeMode
  {
    var h7 := h + [EnterEventMode];
    var it := Iterated(o, h7);
    IteratedCalls(o, h7);
    assert EventTail(o, h) == it + [EnterContinuousTimeMode];
  }

  /** The FMI 2.0 pass sets only the new time and keeps the event info as the FMI 1.0 pass
      does; after an event the driver holds the last answer of the iteration, given at the
      new time, so a model that schedules its time events at least `gap` ahead schedules the
      next one at least `gap` after the new time. */
  lemma ME2StepClock(o: Oracle, h: seq<Call>, nx: nat, nz: nat, time: real, stepSize: real,
                     stopTime: real, info: EventInfo, prez: seq<real>, gap: real)
    requires |prez| == nz && Converges(o) && SchedulesAheadBy(o, gap)
    ensures var r := ME2Step(o, h, nx, nz, time, stepSize, stopTime, info, prez);
      r.time == NextTime(time, stepSize, stopTime, info) &&
      TimePoints(r.trace) == TimePoints(h) + [r.time] &&
      (TimeEvent(info, Candidate(time, stepSize, stopTime)) ==> r.event) &&
      (!r.event ==> r.info == info) &&
      (r.event && r.info.timeEventDefined ==> r.info.nextEventTime >= r.time + gap)
  {
    var r := ME2Step(o, h, nx, nz, time, stepSize, stopTime, info, prez);
    var t := NextTime(time, stepSize, stopTime, info);
    var h6 := ME2Detect(o, h, nx, nz, time, t);
    DetectClock(o, h, nx, nz, time, t);
    if r.event {
      var tail := EventTail(o, h6);
      EventTailClock(o, h6);
      TailAhead(o, h6, t, gap);
      assert r.trace == tail && r.time == t && r.info == tail[|tail| - 2].info;
    } else {
      assert r.trace == h6;
    }
  }

  /** The last answer of the event iteration after history `h6`, whose clock reads `t`. */
  lemma TailAhead(o: Oracle, h6: seq<Call>, t: real, gap: real)
    requires Converges(o) && SchedulesAheadBy(o, gap) && Clock(h6) == t
    ensures var r := EventTail(o, h6);
      r[|r| - 2].info.timeEventDefined ==> r[|r| - 2].info.nextEventTime >= t + gap
  {
    var r := EventTail(o, h6);
    EventTailClock(o, h6);
    ReportedAhead(o, gap, r[..|r| - 2], r[|r| - 2].info, t);
  }

  /** The part of a pass of `simulateME2`'s loop before event handling: the Euler step, the
      event indicators and `completedIntegratorStep`, and whether any kind of event is due. */
  method DetectME2(fmu: Instance, prez: array<real>, time: real, stepSize: real, stopTime: real)
    returns (newTime: real, event: bool)
    requires fmu.Valid() && prez.Length == fmu.nz && prez != fmu.z && prez != fmu.x
    modifies fmu`trace, fmu.x, fmu.dx, fmu.z, prez
    ensures newTime == NextTime(time, stepSize, stopTime, fmu.eventInfo)
    ensures fmu.trace == ME2Detect(fmu.oracle, old(fmu.trace), fmu.nx, fmu.nz, time, newTime)
    ensures fmu.z[..] == fmu.trace[|old(fmu.trace)| + 4].z
    ensures fmu.trace[|old(fmu.trace)| + 3] == SetContinuousStates(fmu.x[..])
    ensures event == (TimeEvent(fmu.eventInfo, Candidate(time, stepSize, stopTime)) ||
                      StateEvent(old(fmu.z[..]), fmu.z[..]) ||
                      fmu.trace[|old(fmu.trace)| + 5].stepEvent)
  {
    var timeEvent;
    newTime, timeEvent := Advance(fmu, time, stepSize, stopTime);
    forall i | 0 <= i < prez.Length {
      prez[i] := fmu.z[i];
    }
    fmu.GetEventIndicators();
    var stateEvent := StateEvent(prez[..], fmu.z[..]);
    var stepEvent, _ := fmu.CompletedIntegratorStep();
    event := timeEvent || stateEvent || stepEvent;
  }

  /** Event mode, the event iteration, and back to continuous-time mode. */
  method HandleEvents(fmu: Instance)
    requires Converges(fmu.oracle)
    modifies fmu`trace, fmu`eventInfo
    ensures fmu.trace == EventTail(fmu.oracle, old(fmu.trace))
    ensures fmu.eventInfo == fmu.trace[|fmu.trace| - 2].info
  {
    fmu.EnterEventMode();
    EventIteration(fmu);
    fmu.EnterContinuousTimeMode();
  }

  /** One pass of `simulateME2`'s loop, up to (not including) the sample. */
  method StepME2(fmu: Instance, prez: array<real>, time: real, stepSize: real, stopTime: real)
    returns (newTime: real)
    requires fmu.Valid() && prez.Length == fmu.nz && prez != fmu.z && prez != fmu.x && Converges(fmu.oracle)
    modifies fmu`trace, fmu`eventInfo, fmu.x, fmu.dx, fmu.z, prez
    ensures var r := ME2Step(fmu.oracle, old(fmu.trace), fmu.nx, fmu.nz, time, stepSize, stopTime,
                             old(fmu.eventInfo), old(fmu.z[..]));
      fmu.trace == r.trace && fmu.eventInfo == r.info && fmu.z[..] == r.z && newTime == r.time
    // the state buffer holds the states the pass set
    ensures fmu.trace[|old(fmu.trace)| + 3] == SetContinuousStates(fmu.x[..])
  {
    ghost var r := ME2Step(fmu.oracle, fmu.trace, fmu.nx, fmu.nz, time, stepSize, stopTime,
                           fmu.eventInfo, fmu.z[..]);
    var event;
    newTime, event := DetectME2(fmu, prez, time, stepSize, stopTime);
    assert newTime == r.time && fmu.z[..] == r.z && event == r.event;
    if event {
      ghost var h6 := fmu.trace;
      HandleEvents(fmu);
      assert fmu.trace == EventTail(fmu.oracle, h6);
      assert fmu.trace[..|h6|] == h6;
    }
  }

  // ---------------------------------------------------------------------------------------
  // Whole runs: the passes of a loop, one after another, until the stop time

  datatype Version = Fmi1 | Fmi2

  /** What a model-exchange loop runs with: the FMI version, the model, the sizes of its
      state and indicator vectors, the recorder's layout, the step size and the stop time. */
  datatype Loop = Loop(version: Version, oracle: Oracle, nx: nat, nz: nat, layout: Layout,
                       stepSize: real, stopTime: real)

  /** The driver between two passes: the calls made so far, the time, the event info it
      holds, the event indicators last read, and the rows recorded. */
  datatype Driver = Driver(trace: seq<Call>, time: real, info: EventInfo, z: seq<real>,
                           rows: seq<Row>)

  /** A driver the loop of `c` can be in: it holds as many previous indicators as the model
      has, and under FMI 2.0 the model's event iteration converges. */
  ghost predicate Fits(c: Loop, d: Driver)
  {
    |d.z| == c.nz && (c.version == Fmi2 ==> Converges(c.oracle))
  }

  /** One pass of the loop from `d`: the pass of `c`'s FMI version, with the indicators last
      read as the previous ones, then one sample at the new time. A driver the loop cannot
      be in is left as it is. */
  ghost function NextPass(c: Loop, d: Driver): (d': Driver)
    ensures Fits(c, d) ==> Fits(c, d')
  {
    if !Fits(c, d) then d
    else
      var r := if c.version == Fmi1
        then ME1Step(c.oracle, d.trace, c.nx, c.nz, d.time, c.stepSize, c.stopTime, d.info, d.z)
        else ME2Step(c.oracle, d.trace, c.nx, c.nz, d.time, c.stepSize, c.stopTime, d.info, d.z);
      var log := SampleLog(c.oracle, r.trace, c.layout);
      Driver(r.trace + log, r.time, r.info, r.z, d.rows + [RowOf(r.time, log)])
  }

  /** The pass of the loop of `c`, as a function of the driver. */
  ghost function PassOf(c: Loop): Driver -> Driver
  {
    d => NextPass(c, d)
  }

  /** The drivers a loop with pass `next` goes through in `n` passes from `d`: `d` itself,
      then the driver after each pass, each pass starting where the one before ended. */
  ghost function Passes(next: Driver -> Driver, d: Driver, n: nat): (ds: seq<Driver>)
    ensures |ds| == n + 1 && ds[0] == d
  {
    if n == 0 then [d] else var ds := Passes(next, d, n - 1); ds + [next(ds[n - 1])]
  }

  /** The loop from `d` makes exactly `n` passes: the time has reached the stop time after
      `n` passes, and lies before it after each of the passes before. */
  ghost predicate Stops(next: Driver -> Driver, stopTime: real, d: Driver, n: nat)
  {
    Running(next, stopTime, d, n) && Passes(next, d, n)[n].time >= stopTime
  }

  /** The loop from `d` is still running after `n` passes: the time lay before the stop time
      before each of them. */
  ghost predicate Running(next: Driver -> Driver, stopTime: real, d: Driver, n: nat)
  {
    var ds := Passes(next, d, n);
    forall j :: 0 <= j < n ==> ds[j].time < stopTime
  }

  /** A whole run of the loop of `c` from `d`: its passes until it stops, then `terminate`
      and `freeInstance`; `rows` are the rows recorded. */
  ghost predicate Ran(c: Loop, d: Driver, trace: seq<Call>, rows: seq<Row>)
  {
    exists n: nat :: Stops(PassOf(c), c.stopTime, d, n) &&
      var last := Passes(PassOf(c), d, n)[n];
      trace == last.trace + [Terminate, FreeInstance] && rows == last.rows
  }

  /** One more pass of a loop that is still running. */
  lemma PassesNext(next: Driver -> Driver, stopTime: real, d: Driver, n: nat)
    requires Running(next, stopTime, d, n) && Passes(next, d, n)[n].time < stopTime
    ensures Running(next, stopTime, d, n + 1)
    ensures Passes(next, d, n + 1)[n + 1] == next(Passes(next, d, n)[n])
  {
    assert Passes(next, d, n + 1)[..n + 1] == Passes(next, d, n);
  }

  /** More passes go through the same drivers first. */
  lemma {:induction false} PassesPrefix(next: Driver -> Driver, d: Driver, n: nat, m: nat)
    requires n <= m
    ensures Passes(next, d, m)[..n + 1] == Passes(next, d, n)
    decreases m
  {
    if n < m {
      var ds := Passes(next, d, m - 1);
      PassesPrefix(next, d, n, m - 1);
      assert Passes(next, d, m)[..n + 1] == ds[..n + 1];
    }
  }

  /** The number of passes is determined: a loop stops after one number of passes only. */
  lemma StopsUnique(next: Driver -> Driver, stopTime: real, d: Driver, n: nat, m: nat)
    requires Stops(next, stopTime, d, n) && Stops(next, stopTime, d, m)
    ensures n == m
  {
    if n < m {
      PassesPrefix(next, d, n, m);
      assert false;
    } else if m < n {
      PassesPrefix(next, d, m, n);
      assert false;
    }
  }

  /** A run is determined by where it starts: two runs from the same driver make the same
      calls and record the same rows. */
  lemma RanUnique(c: Loop, d: Driver, trace: seq<Call>, rows: seq<Row>, trace': seq<Call>,
                  rows': seq<Row>)
    requires Ran(c, d, trace, rows) && Ran(c, d, trace', rows')
    ensures trace == trace' && rows == rows'
  {
    var next := PassOf(c);
    var n: nat :| Stops(next, c.stopTime, d, n) &&
      trace == Passes(next, d, n)[n].trace + [Terminate, FreeInstance] && rows == Passes(next, d, n)[n].rows;
    var m: nat :| Stops(next, c.stopTime, d, m) &&
      trace' == Passes(next, d, m)[m].trace + [Terminate, FreeInstance] && rows' == Passes(next, d, m)[m].rows;
    StopsUnique(next, c.stopTime, d, n, m);
  }

  /** The calls `simulateME1` makes before its loop. */
  function ME1Start(o: Oracle, startTime: real): seq<Call>
  {
    var h := [Instantiate(None), SetTime(startTime)];
    h + [Initialize(o.eventInfo(h))]
  }

  /** The driver of `simulateME1` when its loop begins: at the start time, holding the event
      info `initialize` answered, with zero-filled indicators and no rows. */
  function ME1Initial(o: Oracle, startTime: real, nz: nat): Driver
  {
    Driver(ME1Start(o, startTime), startTime, o.eventInfo(ME1Start(o, startTime)[..2]),
           Zeros(nz), [])
  }

  /** The driver of `simulateME2` when its loop begins: after the setup, the event iteration,
      `enterContinuousTimeMode` and the sample at the start time, holding the iteration's last
      answer, with zero-filled indicators and one row. */
  ghost function ME2Initial(o: Oracle, startTime: real, nz: nat, l: Layout): Driver
    requires Converges(o)
  {
    var init := Iterated(o, ME2Setup(startTime)) + [EnterContinuousTimeMode];
    var log := SampleLog(o, init, l);
    Driver(init + log, startTime, init[|init| - 2].info, Zeros(nz), [RowOf(startTime, log)])
  }

  /** A pass of `simulateME1`'s loop followed by its sample. Besides the calls, it reports
      whether the driver's event info was refreshed by an `eventUpdate`, and what follows for
      the loop: the one time point set, the progress of the clock, and how far ahead a fresh
      event info schedules its time event. */
  method PassME1(fmu: Instance, recorder: Recorder, prez: array<real>, time: real, stepSize: real,
                 stopTime: real, ghost gap: real)
    returns (t: real, ghost refreshed: bool)
    requires fmu.Valid() && prez.Length == fmu.nz && prez != fmu.z && prez != fmu.x
    requires recorder.Valid() && recorder.fmu == fmu && SchedulesAheadBy(fmu.oracle, gap)
    modifies fmu`trace, fmu`eventInfo, fmu.x, fmu.dx, fmu.z, prez, recorder`rows
    ensures fmu.Valid() && recorder.Valid()
    ensures var r := ME1Step(fmu.oracle, old(fmu.trace), fmu.nx, fmu.nz, time, stepSize, stopTime,
                             old(fmu.eventInfo), old(fmu.z[..]));
      var log := SampleLog(fmu.oracle, r.trace, recorder.layout);
      t == r.time && refreshed == r.event && fmu.eventInfo == r.info && fmu.z[..] == r.z &&
      fmu.trace == r.trace + log && recorder.rows == old(recorder.rows) + [RowOf(t, log)]
    // the same pass, as a step of the loop's run
    ensures Driver(fmu.trace, t, fmu.eventInfo, fmu.z[..], recorder.rows) ==
      NextPass(Loop(Fmi1, fmu.oracle, fmu.nx, fmu.nz, recorder.layout, stepSize, stopTime),
               Driver(old(fmu.trace), time, old(fmu.eventInfo), old(fmu.z[..]), old(recorder.rows)))
    ensures old(fmu.trace) <= fmu.trace
    ensures TimePoints(fmu.trace) == TimePoints(old(fmu.trace)) + [t]
    ensures TimeColumn(recorder.rows) == TimeColumn(old(recorder.rows)) + [t]
    ensures t == NextTime(time, stepSize, stopTime, old(fmu.eventInfo))
    ensures TimeEvent(old(fmu.eventInfo), Candidate(time, stepSize, stopTime)) ==> refreshed
    ensures !refreshed ==> fmu.eventInfo == old(fmu.eventInfo)
    ensures refreshed && fmu.eventInfo.timeEventDefined ==> fmu.eventInfo.nextEventTime >= t + gap
  {
    ghost var c := Loop(Fmi1, fmu.oracle, fmu.nx, fmu.nz, recorder.layout, stepSize, stopTime);
    ghost var d := Driver(fmu.trace, time, fmu.eventInfo, fmu.z[..], recorder.rows);
    ghost var r := ME1Step(fmu.oracle, fmu.trace, fmu.nx, fmu.nz, time, stepSize, stopTime,
                           fmu.eventInfo, fmu.z[..]);
    assert Fits(c, d);
    t, refreshed := AdvanceME1(fmu, prez, time, stepSize, stopTime, gap);
    ghost var log := SampleLog(fmu.oracle, r.trace, recorder.layout);
    ghost var d' := Driver(r.trace + log, r.time, r.info, r.z, d.rows + [RowOf(r.time, log)]);
    assert NextPass(c, d) == d';
    recorder.Sample(t);
  }

  /** A pass of `simulateME1`'s loop without its sample. */
  method AdvanceME1(fmu: Instance, prez: array<real>, time: real, stepSize: real, stopTime: real,
                    ghost gap: real)
    returns (t: real, ghost refreshed: bool)
    requires fmu.Valid() && prez.Length == fmu.nz && prez != fmu.z && prez != fmu.x
    requires SchedulesAheadBy(fmu.oracle, gap)
    modifies fmu`trace, fmu`eventInfo, fmu.x, fmu.dx, fmu.z, prez
    ensures fmu.Valid()
    ensures var r := ME1Step(fmu.oracle, old(fmu.trace), fmu.nx, fmu.nz, time, stepSize, stopTime,
                             old(fmu.eventInfo), old(fmu.z[..]));
      t == r.time && refreshed == r.event && fmu.eventInfo == r.info && fmu.z[..] == r.z &&
      fmu.trace == r.trace
    ensures old(fmu.trace) <= fmu.trace
    ensures TimePoints(fmu.trace) == TimePoints(old(fmu.trace)) + [t]
    ensures t == NextTime(time, stepSize, stopTime, old(fmu.eventInfo))
    ensures TimeEvent(old(fmu.eventInfo), Candidate(time, stepSize, stopTime)) ==> refreshed
    ensures !refreshed ==> fmu.eventInfo == old(fmu.eventInfo)
    ensures refreshed && fmu.eventInfo.timeEventDefined ==> fmu.eventInfo.nextEventTime >= t + gap
  {
    ghost var h := fmu.trace;
    ghost var r := ME1Step(fmu.oracle, h, fmu.nx, fmu.nz, time, stepSize, stopTime, fmu.eventInfo, fmu.z[..]);
    ME1StepClock(fmu.oracle, h, fmu.nx, fmu.nz, time, stepSize, stopTime, fmu.eventInfo, fmu.z[..]);
    t := StepME1(fmu, prez, time, stepSize, stopTime);
    refreshed := r.event;
    if refreshed {
      ReportedAhead(fmu.oracle, gap, r.trace[..|r.trace| - 1], r.info, t);
    }
  }

  /** The start of `simulateME1`: instantiate, set the start time and initialize. */
  method StartME1(md: ModelDescription, o: Oracle, startTime: real) returns (fmu: Instance)
    ensures fresh(fmu) && fresh(fmu.x) && fresh(fmu.dx) && fresh(fmu.z) && fmu.Valid()
    ensures fmu.oracle == o && fmu.nx == md.numberOfContinuousStates && fmu.nz == md.numberOfEventIndicators
    ensures fmu.trace == ME1Start(o, startTime) && fmu.z[..] == Zeros(fmu.nz)
    ensures fmu.eventInfo == o.eventInfo(fmu.trace[..2]) && Clock(fmu.trace[..2]) == startTime
    ensures TimePoints(fmu.trace) == [startTime]
  {
    fmu := new Instance(o, md.numberOfContinuousStates, md.numberOfEventIndicators);
    fmu.Instantiate(None);
    fmu.SetTime(startTime);
    ghost var h := fmu.trace;
    assert h == [Instantiate(None), SetTime(startTime)];
    fmu.Initialize();
    assert fmu.trace == h + [Initialize(o.eventInfo(h))] && fmu.trace[..2] == h;
    assert fmu.trace == [Instantiate(None), SetTime(startTime), Initialize(fmu.eventInfo)];
    StartME1Clock(startTime, fmu.eventInfo);
  }

  lemma StartME1Clock(startTime: real, info: EventInfo)
    ensures Clock([Instantiate(None), SetTime(startTime)]) == startTime
    ensures TimePoints([Instantiate(None), SetTime(startTime), Initialize(info)]) == [startTime]
  {
    SetTimeThenQuiet([Instantiate(None)], startTime, []);
    SetTimeThenQuiet([Instantiate(None)], startTime, [Initialize(info)]);
    QuietKeepsClock([], [Instantiate(None)]);
    assert [Instantiate(None)] + [SetTime(startTime)] + [] == [Instantiate(None), SetTime(startTime)];
    assert [Instantiate(None)] + [SetTime(startTime)] + [Initialize(info)] ==
      [Instantiate(None), SetTime(startTime), Initialize(info)];
    assert [] + [Instantiate(None)] == [Instantiate(None)];
  }

  /** The loop of `simulateME1`, from `startTime` until the stop time. */
  method LoopME1(fmu: Instance, recorder: Recorder, prez: array<real>, startTime: real,
                 stopTime: real, stepSize: real, ghost gap: real)
    returns (ghost n: nat)
    requires LoopEnds(startTime, stopTime, stepSize) && gap > 0.0 && SchedulesAheadBy(fmu.oracle, gap)
    requires fmu.Valid() && prez.Length == fmu.nz && prez != fmu.z && prez != fmu.x
    requires recorder.Valid() && recorder.fmu == fmu && recorder.rows == []
    requires fmu.eventInfo.timeEventDefined ==> fmu.eventInfo.nextEventTime >= startTime + gap
    modifies fmu`trace, fmu`eventInfo, fmu.x, fmu.dx, fmu.z, prez, recorder`rows
    ensures recorder.Valid() && old(fmu.trace) <= fmu.trace
    ensures TimePoints(fmu.trace) == TimePoints(old(fmu.trace)) + TimeColumn(recorder.rows)
    ensures Cadence(TimeColumn(recorder.rows), startTime, stopTime, stepSize)
    // the loop makes the FMI 1.0 passes, one after another, until the stop time
    ensures var lp := Loop(Fmi1, fmu.oracle, fmu.nx, fmu.nz, recorder.layout, stepSize, stopTime);
      var d := Driver(old(fmu.trace), startTime, old(fmu.eventInfo), old(fmu.z[..]), []);
      Stops(PassOf(lp), stopTime, d, n) && fmu.trace == Passes(PassOf(lp), d, n)[n].trace &&
      recorder.rows == Passes(PassOf(lp), d, n)[n].rows
  {
    var time := startTime;
    ghost var c := startTime;
    ghost var lp := Loop(Fmi1, fmu.oracle, fmu.nx, fmu.nz, recorder.layout, stepSize, stopTime);
    ghost var d0 := Driver(fmu.trace, startTime, fmu.eventInfo, fmu.z[..], []);
    ghost var next := PassOf(lp);
    n := 0;
    while time < stopTime
      invariant fmu.Valid() && recorder.Valid()
      invariant Running(next, stopTime, d0, n)
      invariant Passes(next, d0, n)[n] == Driver(fmu.trace, time, fmu.eventInfo, fmu.z[..], recorder.rows)
      invariant old(fmu.trace) <= fmu.trace
      invariant TimePoints(fmu.trace) == TimePoints(old(fmu.trace)) + TimeColumn(recorder.rows)
      invariant CadenceSoFar(TimeColumn(recorder.rows), startTime, time, stepSize)
      invariant TimeColumn(recorder.rows) != [] ==> time <= stopTime
      invariant startTime <= c <= time
      invariant fmu.eventInfo.timeEventDefined ==>
                  fmu.eventInfo.nextEventTime >= c + gap && fmu.eventInfo.nextEventTime > time
      decreases Steps(c, stopTime, gap), if stepSize > 0.0 then Steps(time, stopTime, stepSize) else 0
    {
      ghost var c0, rows0, points0 := c, recorder.rows, TimePoints(fmu.trace);
      ghost var d := Driver(fmu.trace, time, fmu.eventInfo, fmu.z[..], recorder.rows);
      var t;
      ghost var refreshed;
      t, refreshed := PassME1(fmu, recorder, prez, time, stepSize, stopTime, gap);
      PassesNext(next, stopTime, d0, n);
      n := n + 1;
      AppendSnoc(TimePoints(old(fmu.trace)), TimeColumn(rows0), TimeColumn(recorder.rows), t);
      assert TimePoints(fmu.trace) == points0 + [t];
      if refreshed {
        c := t;
      }
      StepsShrink(c0, c, stopTime, gap);
      StepsShrink(time, t, stopTime, stepSize);
      CadenceExtend(TimeColumn(rows0), startTime, time, t, stepSize);
      time := t;
    }
    CadenceFinish(TimeColumn(recorder.rows), startTime, time, stopTime, stepSize);
  }

  /** The end of both drivers: terminate and free the instance. */
  method Finish(fmu: Instance)
    modifies fmu`trace
    ensures fmu.trace == old(fmu.trace) + [Terminate, FreeInstance]
    ensures TimePoints(fmu.trace) == TimePoints(old(fmu.trace))
  {
    fmu.Terminate();
    fmu.FreeInstance();
    QuietKeepsClock(old(fmu.trace), [Terminate, FreeInstance]);
  }

  /** `simulateME1`: instantiate, set the start time, initialize, then step with forward Euler
      until the stop time, handling events after each step and recording one row per step;
      finally terminate and free the instance. The rows are returned with their columns, and
      the calls made with the instance. */
  method SimulateME1(md: ModelDescription, o: Oracle, startTime: real, stopTime: real,
                     stepSize: real, output: Option<seq<string>>)
    returns (rows: seq<Row>, cols: seq<Column>, trace: seq<Call>)
    requires LoopEnds(startTime, stopTime, stepSize) && EventsAhead(o)
    ensures cols == Columns(LayoutOf(md.modelVariables, output))
    ensures forall row :: row in rows ==> Conforms(row, cols)
    ensures |trace| >= 5 && trace[..2] == [Instantiate(None), SetTime(startTime)]
    ensures trace[2] == Initialize(o.eventInfo(trace[..2]))
    ensures trace[|trace| - 2..] == [Terminate, FreeInstance]
    // the time column is the sequence of times given to `setTime` after the start time
    ensures TimePoints(trace) == [startTime] + TimeColumn(rows)
    ensures Cadence(TimeColumn(rows), startTime, stopTime, stepSize)
    // the calls and rows are those of the FMI 1.0 passes from the start until the stop time
    ensures Ran(Loop(Fmi1, o, md.numberOfContinuousStates, md.numberOfEventIndicators,
                     LayoutOf(md.modelVariables, output), stepSize, stopTime),
                ME1Initial(o, startTime, md.numberOfEventIndicators), trace, rows)
  {
    var fmu := StartME1(md, o, startTime);
    ghost var init := fmu.trace;
    assert init[2] == Initialize(o.eventInfo(init[..2]));
    var recorder := new Recorder(fmu, md, output);
    var prez := new real[fmu.nz](_ => 0.0);
    ghost var gap :| gap > 0.0 && SchedulesAheadBy(o, gap);
    ReportedAhead(o, gap, init[..2], fmu.eventInfo, startTime);
    ghost var n := LoopME1(fmu, recorder, prez, startTime, stopTime, stepSize, gap);
    ghost var lp := Loop(Fmi1, o, fmu.nx, fmu.nz, recorder.layout, stepSize, stopTime);
    ghost var d := ME1Initial(o, startTime, fmu.nz);
    Finish(fmu);
    rows, cols, trace := recorder.rows, recorder.cols, fmu.trace;
    assert trace[..2] == init[..2] && trace[2] == init[2];
    assert Stops(PassOf(lp), stopTime, d, n) && trace == Passes(PassOf(lp), d, n)[n].trace + [Terminate, FreeInstance];
  }

  /** A pass of `simulateME2`'s loop followed by its sample, reported as `PassME1` reports an
      FMI 1.0 pass. */
  method PassME2(fmu: Instance, recorder: Recorder, prez: array<real>, time: real, stepSize: real,
                 stopTime: real, ghost gap: real)
    returns (t: real, ghost refreshed: bool)
    requires fmu.Valid() && prez.Length == fmu.nz && prez != fmu.z && prez != fmu.x && Converges(fmu.oracle)
    requires recorder.Valid() && recorder.fmu == fmu && SchedulesAheadBy(fmu.oracle, gap)
    modifies fmu`trace, fmu`eventInfo, fmu.x, fmu.dx, fmu.z, prez, recorder`rows
    ensures fmu.Valid() && recorder.Valid()
    ensures var r := ME2Step(fmu.oracle, old(fmu.trace), fmu.nx, fmu.nz, time, stepSize, stopTime,
                             old(fmu.eventInfo), old(fmu.z[..]));
      var log := SampleLog(fmu.oracle, r.trace, recorder.layout);
      t == r.time && refreshed == r.event && fmu.eventInfo == r.info && fmu.z[..] == r.z &&
      fmu.trace == r.trace + log && recorder.rows == old(recorder.rows) + [RowOf(t, log)]
    // the same pass, as a step of the loop's run
    ensures Driver(fmu.trace, t, fmu.eventInfo, fmu.z[..], recorder.rows) ==
      NextPass(Loop(Fmi2, fmu.oracle, fmu.nx, fmu.nz, recorder.layout, stepSize, stopTime),
               Driver(old(fmu.trace), time, old(fmu.eventInfo), old(fmu.z[..]), old(recorder.rows)))
    ensures old(fmu.trace) <= fmu.trace
    ensures TimePoints(fmu.trace) == TimePoints(old(fmu.trace)) + [t]
    ensures TimeColumn(recorder.rows) == TimeColumn(old(recorder.rows)) + [t]
    ensures t == NextTime(time, stepSize, stopTime, old(fmu.eventInfo))
    ensures TimeEvent(old(fmu.eventInfo), Candidate(time, stepSize, stopTime)) ==> refreshed
    ensures !refreshed ==> fmu.eventInfo == old(fmu.eventInfo)
    ensures refreshed && fmu.eventInfo.timeEventDefined ==> fmu.eventInfo.nextEventTime >= t + gap
  {
    ghost var c := Loop(Fmi2, fmu.oracle, fmu.nx, fmu.nz, recorder.layout, stepSize, stopTime);
    ghost var d := Driver(fmu.trace, time, fmu.eventInfo, fmu.z[..], recorder.rows);
    ghost var r := ME2Step(fmu.oracle, fmu.trace, fmu.nx, fmu.nz, time, stepSize, stopTime,
                           fmu.eventInfo, fmu.z[..]);
    assert Fits(c, d);
    t, refreshed := AdvanceME2(fmu, prez, time, stepSize, stopTime, gap);
    ghost var log := SampleLog(fmu.oracle, r.trace, recorder.layout);
    ghost var d' := Driver(r.trace + log, r.time, r.info, r.z, d.rows + [RowOf(r.time, log)]);
    assert NextPass(c, d) == d';
    recorder.Sample(t);
  }

  /** A pass of `simulateME2`'s loop without its sample. */
  method AdvanceME2(fmu: Instance, prez: array<real>, time: real, stepSize: real, stopTime: real,
                    ghost gap: real)
    returns (t: real, ghost refreshed: bool)
    requires fmu.Valid() && prez.Length == fmu.nz && prez != fmu.z && prez != fmu.x && Converges(fmu.oracle)
    requires SchedulesAheadBy(fmu.oracle, gap)
    modifies fmu`trace, fmu`eventInfo, fmu.x, fmu.dx, fmu.z, prez
    ensures fmu.Valid()
    ensures var r := ME2Step(fmu.oracle, old(fmu.trace), fmu.nx, fmu.nz, time, stepSize, stopTime,
                             old(fmu.eventInfo), old(fmu.z[..]));
      t == r.time && refreshed == r.event && fmu.eventInfo == r.info && fmu.z[..] == r.z &&
      fmu.trace == r.trace
    ensures old(fmu.trace) <= fmu.trace
    ensures TimePoints(fmu.trace) == TimePoints(old(fmu.trace)) + [t]
    ensures t == NextTime(time, stepSize, stopTime, old(fmu.eventInfo))
    ensures TimeEvent(old(fmu.eventInfo), Candidate(time, stepSize, stopTime)) ==> refreshed
    ensures !refreshed ==> fmu.eventInfo == old(fmu.eventInfo)
    ensures refreshed && fmu.eventInfo.timeEventDefined ==> fmu.eventInfo.nextEventTime >= t + gap
  {
    ghost var h := fmu.trace;
    ghost var r := ME2Step(fmu.oracle, h, fmu.nx, fmu.nz, time, stepSize, stopTime, fmu.eventInfo, fmu.z[..]);
    ME2StepClock(fmu.oracle, h, fmu.nx, fmu.nz, time, stepSize, stopTime, fmu.eventInfo, fmu.z[..], gap);
    t := StepME2(fmu, prez, time, stepSize, stopTime);
    refreshed := r.event;
  }

  /** The calls `simulateME2` makes before its event iteration. */
  function ME2Setup(startTime: real): seq<Call>
  {
    [Instantiate(None), SetupExperiment(startTime), EnterInitializationMode, ExitInitializationMode]
  }

  /** The setup leaves the clock at the start time, and sets no time point. */
  lemma SetupClock(startTime: real)
    ensures Clock(ME2Setup(startTime)) == startTime && TimePoints(ME2Setup(startTime)) == []
  {
    var rest := [EnterInitializationMode, ExitInitializationMode];
    assert ME2Setup(startTime) == [Instantiate(None)] + [SetupExperiment(startTime)] + rest;
    SetupThenQuiet([Instantiate(None)], startTime, rest);
    QuietKeepsClock([], [Instantiate(None)]);
    assert [] + [Instantiate(None)] == [Instantiate(None)];
  }

  /** The start of `simulateME2`: instantiate, set up the experiment at the start time, pass
      through initialization mode, iterate the discrete states and enter continuous-time
      mode. */
  method StartME2(md: ModelDescription, o: Oracle, startTime: real, ghost gap: real)
    returns (fmu: Instance)
    requires Converges(o) && SchedulesAheadBy(o, gap)
    ensures fresh(fmu) && fresh(fmu.x) && fresh(fmu.dx) && fresh(fmu.z) && fmu.Valid()
    ensures fmu.oracle == o && fmu.nx == md.numberOfContinuousStates && fmu.nz == md.numberOfEventIndicators
    ensures fmu.trace == Iterated(o, ME2Setup(startTime)) + [EnterContinuousTimeMode]
    ensures fmu.eventInfo == fmu.trace[|fmu.trace| - 2].info && fmu.z[..] == Zeros(fmu.nz)
    ensures fmu.eventInfo.timeEventDefined ==> fmu.eventInfo.nextEventTime >= startTime + gap
    ensures TimePoints(fmu.trace) == []
  {
    fmu := new Instance(o, md.numberOfContinuousStates, md.numberOfEventIndicators);
    fmu.Instantiate(None);
    fmu.SetupExperiment(startTime);
    fmu.EnterInitializationMode();
    fmu.ExitInitializationMode();
    assert fmu.trace == ME2Setup(startTime);
    SetupClock(startTime);
    EventIteration(fmu);
    ghost var it := fmu.trace;
    IteratedClock(o, ME2Setup(startTime));
    fmu.EnterContinuousTimeMode();
    QuietKeepsClock(it, [EnterContinuousTimeMode]);
    assert fmu.trace[..|fmu.trace| - 2] == Unsettled(o, ME2Setup(startTime));
    ReportedAhead(o, gap, fmu.trace[..|fmu.trace| - 2], fmu.eventInfo, startTime);
  }

  /** The loop of `simulateME2`, from `startTime` until the stop time. `times` are the time
      points it steps to, each recorded by one row. */
  method LoopME2(fmu: Instance, recorder: Recorder, prez: array<real>, startTime: real,
                 stopTime: real, stepSize: real, ghost gap: real)
    returns (ghost times: seq<real>, ghost n: nat)
    requires LoopEnds(startTime, stopTime, stepSize) && gap > 0.0
    requires SchedulesAheadBy(fmu.oracle, gap) && Converges(fmu.oracle)
    requires fmu.Valid() && prez.Length == fmu.nz && prez != fmu.z && prez != fmu.x
    requires recorder.Valid() && recorder.fmu == fmu
    requires fmu.eventInfo.timeEventDefined ==> fmu.eventInfo.nextEventTime >= startTime + gap
    modifies fmu`trace, fmu`eventInfo, fmu.x, fmu.dx, fmu.z, prez, recorder`rows
    ensures recorder.Valid() && old(fmu.trace) <= fmu.trace
    ensures TimePoints(fmu.trace) == TimePoints(old(fmu.trace)) + times
    ensures TimeColumn(recorder.rows) == TimeColumn(old(recorder.rows)) + times
    ensures Cadence(times, startTime, stopTime, stepSize)
    // the loop makes the FMI 2.0 passes, one after another, until the stop time
    ensures var lp := Loop(Fmi2, fmu.oracle, fmu.nx, fmu.nz, recorder.layout, stepSize, stopTime);
      var d := Driver(old(fmu.trace), startTime, old(fmu.eventInfo), old(fmu.z[..]), old(recorder.rows));
      Stops(PassOf(lp), stopTime, d, n) && fmu.trace == Passes(PassOf(lp), d, n)[n].trace &&
      recorder.rows == Passes(PassOf(lp), d, n)[n].rows
  {
    var time := startTime;
    ghost var c := startTime;
    ghost var lp := Loop(Fmi2, fmu.oracle, fmu.nx, fmu.nz, recorder.layout, stepSize, stopTime);
    ghost var d0 := Driver(fmu.trace, startTime, fmu.eventInfo, fmu.z[..], recorder.rows);
    ghost var next := PassOf(lp);
    times, n := [], 0;
    while time < stopTime
      invariant fmu.Valid() && recorder.Valid()
      invariant Running(next, stopTime, d0, n)
      invariant Passes(next, d0, n)[n] == Driver(fmu.trace, time, fmu.eventInfo, fmu.z[..], recorder.rows)
      invariant old(fmu.trace) <= fmu.trace
      invariant TimePoints(fmu.trace) == TimePoints(old(fmu.trace)) + times
      invariant TimeColumn(recorder.rows) == TimeColumn(old(recorder.rows)) + times
      invariant CadenceSoFar(times, startTime, time, stepSize)
      invariant times != [] ==> time <= stopTime
      invariant startTime <= c <= time
      invariant fmu.eventInfo.timeEventDefined ==>
                  fmu.eventInfo.nextEventTime >= c + gap && fmu.eventInfo.nextEventTime > time
      decreases Steps(c, stopTime, gap), if stepSize > 0.0 then Steps(time, stopTime, stepSize) else 0
    {
      ghost var c0, columns0, points0 := c, TimeColumn(recorder.rows), TimePoints(fmu.trace);
      ghost var d := Driver(fmu.trace, time, fmu.eventInfo, fmu.z[..], recorder.rows);
      var t;
      ghost var refreshed;
      t, refreshed := PassME2(fmu, recorder, prez, time, stepSize, stopTime, gap);
      PassesNext(next, stopTime, d0, n);
      n := n + 1;
      AppendSnoc(TimePoints(old(fmu.trace)), times, times + [t], t);
      AppendSnoc(TimeColumn(old(recorder.rows)), times, times + [t], t);
      assert TimePoints(fmu.trace) == points0 + [t];
      assert TimeColumn(recorder.rows) == columns0 + [t];
      if refreshed {
        c := t;
      }
      StepsShrink(c0, c, stopTime, gap);
      StepsShrink(time, t, stopTime, stepSize);
      CadenceExtend(times, startTime, time, t, stepSize);
      times, time := times + [t], t;
    }
    CadenceFinish(times, startTime, time, stopTime, stepSize);
  }

  /** `simulateME2` after the start: record the start time, run the loop, terminate and free
      the instance. */
  method RunME2(fmu: Instance, md: ModelDescription, output: Option<seq<string>>,
                startTime: real, stopTime: real, stepSize: real, ghost gap: real)
    returns (rows: seq<Row>, cols: seq<Column>, trace: seq<Call>)
    requires LoopEnds(startTime, stopTime, stepSize) && gap > 0.0
    requires SchedulesAheadBy(fmu.oracle, gap) && Converges(fmu.oracle)
    requires fmu.Valid() && TimePoints(fmu.trace) == []
    requires fmu.eventInfo.timeEventDefined ==> fmu.eventInfo.nextEventTime >= startTime + gap
    modifies fmu`trace, fmu`eventInfo, fmu.x, fmu.dx, fmu.z
    ensures cols == Columns(LayoutOf(md.modelVariables, output))
    ensures forall row :: row in rows ==> Conforms(row, cols)
    ensures old(fmu.trace) <= trace && |trace| >= |old(fmu.trace)| + 2
    ensures trace[|trace| - 2..] == [Terminate, FreeInstance]
    ensures TimeColumn(rows) == [startTime] + TimePoints(trace)
    ensures Cadence(TimePoints(trace), startTime, stopTime, stepSize)
    // a sample at the start time, then the FMI 2.0 passes until the stop time
    ensures var l := LayoutOf(md.modelVariables, output);
      var log := SampleLog(fmu.oracle, old(fmu.trace), l);
      Ran(Loop(Fmi2, fmu.oracle, fmu.nx, fmu.nz, l, stepSize, stopTime),
          Driver(old(fmu.trace) + log, startTime, old(fmu.eventInfo), old(fmu.z[..]),
                 [RowOf(startTime, log)]),
          trace, rows)
  {
    var recorder := new Recorder(fmu, md, output);
    var prez := new real[fmu.nz](_ => 0.0);
    ghost var log := SampleLog(fmu.oracle, fmu.trace, recorder.layout);
    recorder.Sample(startTime);
    assert TimeColumn(recorder.rows) == [startTime];
    ghost var lp := Loop(Fmi2, fmu.oracle, fmu.nx, fmu.nz, recorder.layout, stepSize, stopTime);
    ghost var d := Driver(fmu.trace, startTime, fmu.eventInfo, fmu.z[..], recorder.rows);
    assert d == Driver(old(fmu.trace) + log, startTime, old(fmu.eventInfo), old(fmu.z[..]),
                       [RowOf(startTime, log)]);
    ghost var times, n := LoopME2(fmu, recorder, prez, startTime, stopTime, stepSize, gap);
    ghost var last := fmu.trace;
    Finish(fmu);
    rows, cols, trace := recorder.rows, recorder.cols, fmu.trace;
    assert Stops(PassOf(lp), stopTime, d, n) && rows == Passes(PassOf(lp), d, n)[n].rows &&
      trace == Passes(PassOf(lp), d, n)[n].trace + [Terminate, FreeInstance];
    assert TimePoints(trace) == times;
    assert old(fmu.trace) <= last;
  }

  /** `simulateME2`: start the instance, record the start time, then step with forward Euler
      until the stop time, handling events after each step and recording one row per step;
      finally terminate and free the instance. */
  method SimulateME2(md: ModelDescription, o: Oracle, startTime: real, stopTime: real,
                     stepSize: real, output: Option<seq<string>>)
    returns (rows: seq<Row>, cols: seq<Column>, trace: seq<Call>)
    requires LoopEnds(startTime, stopTime, stepSize) && EventsAhead(o) && Converges(o)
    ensures cols == Columns(LayoutOf(md.modelVariables, output))
    ensures forall row :: row in rows ==> Conforms(row, cols)
    ensures var init := Iterated(o, ME2Setup(startTime)) + [EnterContinuousTimeMode];
      init <= trace && |trace| >= |init| + 2
    ensures trace[|trace| - 2..] == [Terminate, FreeInstance]
    // a first row at the start time, then one row per time given to `setTime`
    ensures TimeColumn(rows) == [startTime] + TimePoints(trace)
    ensures Cadence(TimePoints(trace), startTime, stopTime, stepSize)
    // the calls and rows are those of the FMI 2.0 passes from the start until the stop time
    ensures Ran(Loop(Fmi2, o, md.numberOfContinuousStates, md.numberOfEventIndicators,
                     LayoutOf(md.modelVariables, output), stepSize, stopTime),
                ME2Initial(o, startTime, md.numberOfEventIndicators, LayoutOf(md.modelVariables, output)),
                trace, rows)
  {
    ghost var gap :| gap > 0.0 && SchedulesAheadBy(o, gap);
    var fmu := StartME2(md, o, startTime, gap);
    rows, cols, trace := RunME2(fmu, md, output, startTime, stopTime, stepSize, gap);
  }
}
