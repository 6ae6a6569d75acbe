/** The co-simulation drivers `simulateCS1` (FMI 1.0) and `simulateCS2` (FMI 2.0): sample at
    the current communication point, let the slave step over one step size, move on by one
    step size, until the stop time is reached. */
module CoSimulation {
  import opened Optional
  import opened Description
  import opened Fmi
  import opened TimeStepper
  import opened Recording

  /** The communication points of a run: `start`, `start + stepSize`, ... for as long as they
      lie before `stop`. */
  function CommunicationPoints(start: real, stop: real, stepSize: real): (ts: seq<real>)
    requires LoopEnds(start, stop, stepSize)
    // the first point is the start, when it lies before the stop time
    ensures |ts| > 0 <==> start < stop
    ensures |ts| > 0 ==> ts[0] == start
    decreases if start < stop then Steps(start, stop, stepSize) else 0
  {
    if start < stop then
      StepsAfterStep(start, stop, stepSize);
      [start] + CommunicationPoints(start + stepSize, stop, stepSize)
    else []
  }

  lemma Distribute(a: real, u: real)
    ensures a * u + u == (a + 1.0) * u
  {}

  /** The `k`-th communication point is `k` steps after the start; every point lies before
      the stop time, and one more step from the last would reach it. */
  lemma {:induction false} CommunicationPointsSpaced(start: real, stop: real, stepSize: real)
    requires stepSize > 0.0
    ensures var ts := CommunicationPoints(start, stop, stepSize);
      |ts| == Steps(start, stop, stepSize) &&
      (forall k :: 0 <= k < |ts| ==> ts[k] == start + k as real * stepSize && ts[k] < stop) &&
      (|ts| > 0 ==> ts[|ts| - 1] + stepSize >= stop)
    decreases Steps(start, stop, stepSize)
  {
    var ts := CommunicationPoints(start, stop, stepSize);
    if start < stop {
      StepsAfterStep(start, stop, stepSize);
      var rest := CommunicationPoints(start + stepSize, stop, stepSize);
      CommunicationPointsSpaced(start + stepSize, stop, stepSize);
      assert ts == [start] + rest;
      forall k | 0 <= k < |ts|
        ensures ts[k] == start + k as real * stepSize && ts[k] < stop
      {
        if k > 0 {
          assert ts[k] == rest[k - 1] == start + stepSize + (k - 1) as real * stepSize;
          Distribute((k - 1) as real, stepSize);
        }
      }
      if rest == [] {
        assert start + stepSize >= stop;
      } else {
        assert ts[|ts| - 1] == rest[|rest| - 1];
      }
    }
  }

  lemma CommunicationPointsExample()
    ensures CommunicationPoints(0.0, 1.0, 0.25) == [0.0, 0.25, 0.5, 0.75]
  {
    var ts := CommunicationPoints(0.0, 1.0, 0.25);
    assert Steps(0.0, 1.0, 0.25) == 4 by {
      assert (0.0 - 1.0) / 0.25 == -4.0;
    }
    assert ts[0] == 0.0 && ts[1] == 0.25 && ts[2] == 0.5 && ts[3] == 0.75;
  }

  /** The calls a run makes after history `h` for the communication points `ts`: at each
      point, a sample, then one `doStep` from that point over `stepSize`. */
  function CoSimLog(o: Oracle, h: seq<Call>, l: Layout, ts: seq<real>, stepSize: real): seq<Call>
  {
    if ts == [] then []
    else
      var p := CoSimLog(o, h, l, ts[..|ts| - 1], stepSize);
      p + SampleLog(o, h + p, l) + [DoStep(ts[|ts| - 1], stepSize)]
  }

  /** The rows such a run records: one per communication point, taken before its step. */
  function CoSimRows(o: Oracle, h: seq<Call>, l: Layout, ts: seq<real>, stepSize: real): seq<Row>
  {
    if ts == [] then []
    else
      var p := CoSimLog(o, h, l, ts[..|ts| - 1], stepSize);
      CoSimRows(o, h, l, ts[..|ts| - 1], stepSize) + [RowOf(ts[|ts| - 1], SampleLog(o, h + p, l))]
  }

  /** The `doStep` calls of a log, in order. */
  function StepCalls(log: seq<Call>): seq<Call>
  {
    if log == [] then []
    else StepCalls(log[..|log| - 1]) + (if log[|log| - 1].DoStep? then [log[|log| - 1]] else [])
  }

  lemma {:induction false} StepCallsAppend(a: seq<Call>, b: seq<Call>)
    ensures StepCalls(a + b) == StepCalls(a) + StepCalls(b)
    decreases |b|
  {
    if b == [] {
      assert a + b == a;
    } else {
      var n := |b| - 1;
      assert (a + b)[..|a + b| - 1] == a + b[..n];
      StepCallsAppend(a, b[..n]);
    }
  }

  lemma {:induction false} GettersStepNowhere(log: seq<Call>)
    requires forall c :: c in log ==> IsGetter(c)
    ensures StepCalls(log) == []
    decreases |log|
  {
    if log != [] {
      assert log[|log| - 1] in log;
      assert forall c :: c in log[..|log| - 1] ==> c in log;
      GettersStepNowhere(log[..|log| - 1]);
    }
  }

  /** Sampling adds no `doStep` call; the step after it adds one. */
  lemma StepCallsAfterSample(p: seq<Call>, log: seq<Call>, t: real, stepSize: real)
    requires forall c :: c in log ==> IsGetter(c)
    ensures StepCalls(p + log + [DoStep(t, stepSize)]) == StepCalls(p) + [DoStep(t, stepSize)]
  {
    GettersStepNowhere(log);
    StepCallsAppend(p, log);
    StepCallsAppend(p + log, [DoStep(t, stepSize)]);
    assert [DoStep(t, stepSize)][..0] == [];
  }

  /** One `doStep` call from each point of `ts`, in order, over `stepSize`. */
  function StepsFrom(ts: seq<real>, stepSize: real): seq<Call>
  {
    if ts == [] then [] else StepsFrom(ts[..|ts| - 1], stepSize) + [DoStep(ts[|ts| - 1], stepSize)]
  }

  /** The `k`-th of those calls steps from the `k`-th point. */
  lemma {:induction false} StepsFromIndex(ts: seq<real>, stepSize: real)
    ensures var steps := StepsFrom(ts, stepSize);
      |steps| == |ts| && forall k :: 0 <= k < |ts| ==> steps[k] == DoStep(ts[k], stepSize)
    decreases |ts|
  {
    if ts != [] {
      var n := |ts| - 1;
      StepsFromIndex(ts[..n], stepSize);
      var prev := StepsFrom(ts[..n], stepSize);
      forall k | 0 <= k < n
        ensures StepsFrom(ts, stepSize)[k] == DoStep(ts[k], stepSize)
      {
        assert StepsFrom(ts, stepSize)[k] == prev[k] && ts[..n][k] == ts[k];
      }
    }
  }

  /** The `doStep` calls a run makes after its samples are exactly one per communication
      point, in order, each from that point over the configured step size. */
  lemma {:induction false} CoSimSteps(o: Oracle, h: seq<Call>, l: Layout, ts: seq<real>, stepSize: real)
    ensures StepCalls(CoSimLog(o, h, l, ts, stepSize)) == StepsFrom(ts, stepSize)
    decreases |ts|
  {
    if ts != [] {
      var n := |ts| - 1;
      var p := CoSimLog(o, h, l, ts[..n], stepSize);
      var log := SampleLog(o, h + p, l);
      CoSimSteps(o, h, l, ts[..n], stepSize);
      SampleLogGetters(o, h + p, l);
      StepCallsAfterSample(p, log, ts[n], stepSize);
    }
  }

  lemma TimesSnoc(prev: seq<Row>, ts: seq<real>, log: seq<Call>)
    requires |ts| > 0 && TimeColumn(prev) == ts[..|ts| - 1]
    ensures TimeColumn(prev + [RowOf(ts[|ts| - 1], log)]) == ts
  {
    TimeColumnSnoc(prev, ts[|ts| - 1], log);
    assert ts[..|ts| - 1] + [ts[|ts| - 1]] == ts;
  }

  /** A run records one row per communication point, and the row's time is that point: every
      row is sampled at the point its step starts from. */
  lemma {:induction false} CoSimTimes(o: Oracle, h: seq<Call>, l: Layout, ts: seq<real>, stepSize: real)
    ensures TimeColumn(CoSimRows(o, h, l, ts, stepSize)) == ts
    decreases |ts|
  {
    if ts != [] {
      var n := |ts| - 1;
      var p := CoSimLog(o, h, l, ts[..n], stepSize);
      var log := SampleLog(o, h + p, l);
      var prev := CoSimRows(o, h, l, ts[..n], stepSize);
      assert CoSimRows(o, h, l, ts, stepSize) == prev + [RowOf(ts[n], log)];
      CoSimTimes(o, h, l, ts[..n], stepSize);
      TimesSnoc(prev, ts, log);
    }
  }

  /** One more communication point: one more sample and step after the earlier ones. */
  lemma CoSimSnoc(o: Oracle, h: seq<Call>, l: Layout, ts: seq<real>, t: real, stepSize: real)
    ensures var p := CoSimLog(o, h, l, ts, stepSize);
      CoSimLog(o, h, l, ts + [t], stepSize) == p + SampleLog(o, h + p, l) + [DoStep(t, stepSize)] &&
      CoSimRows(o, h, l, ts + [t], stepSize) ==
        CoSimRows(o, h, l, ts, stepSize) + [RowOf(t, SampleLog(o, h + p, l))]
  {
    assert (ts + [t])[..|ts|] == ts;
  }

  /** Consecutive points of `ts` are one step apart, all lie before the stop time, and one
      more step from the last reaches it. */
  ghost predicate Chain(ts: seq<real>, stop: real, stepSize: real)
  {
    (forall k :: 0 <= k < |ts| - 1 ==> ts[k + 1] == ts[k] + stepSize) &&
    (forall k :: 0 <= k < |ts| ==> ts[k] < stop) &&
    (|ts| > 0 ==> ts[|ts| - 1] + stepSize >= stop)
  }

  lemma ChainCons(start: real, rest: seq<real>, stop: real, stepSize: real)
    requires start < stop && Chain(rest, stop, stepSize)
    requires rest != [] ==> rest[0] == start + stepSize
    requires rest == [] ==> start + stepSize >= stop
    ensures Chain([start] + rest, stop, stepSize)
  {
    var ts := [start] + rest;
    assert forall k :: 1 <= k < |ts| ==> ts[k] == rest[k - 1];
  }

  /** The communication points form such a chain. */
  lemma {:induction false} CommunicationPointsChain(start: real, stop: real, stepSize: real)
    requires stepSize > 0.0
    ensures Chain(CommunicationPoints(start, stop, stepSize), stop, stepSize)
    decreases Steps(start, stop, stepSize)
  {
    if start < stop {
      StepsAfterStep(start, stop, stepSize);
      CommunicationPointsChain(start + stepSize, stop, stepSize);
      ChainCons(start, CommunicationPoints(start + stepSize, stop, stepSize), stop, stepSize);
    }
  }

  /** One pass of the loop keeps the run's calls and rows those of the points taken so far. */
  lemma PassTaken(o: Oracle, h: seq<Call>, l: Layout, all: seq<real>, n: nat, stepSize: real,
                  trace: seq<Call>, rows: seq<Row>)
    requires n < |all|
    requires trace == h + CoSimLog(o, h, l, all[..n], stepSize)
    requires rows == CoSimRows(o, h, l, all[..n], stepSize)
    ensures var log := SampleLog(o, trace, l);
      trace + log + [DoStep(all[n], stepSize)] == h + CoSimLog(o, h, l, all[..n + 1], stepSize) &&
      rows + [RowOf(all[n], log)] == CoSimRows(o, h, l, all[..n + 1], stepSize)
  {
    assert all[..n + 1] == all[..n] + [all[n]];
    CoSimSnoc(o, h, l, all[..n], all[n], stepSize);
    var p := CoSimLog(o, h, l, all[..n], stepSize);
    var log := SampleLog(o, trace, l);
    Associative(h, p, log);
    Associative(h, p + log, [DoStep(all[n], stepSize)]);
  }

  /** One pass of the loop: sample at `time`, then step from `time` over `stepSize`. */
  method PassCS(fmu: Instance, recorder: Recorder, time: real, stepSize: real)
    requires recorder.Valid() && recorder.fmu == fmu
    modifies fmu`trace, recorder`rows
    ensures recorder.Valid()
    ensures var log := SampleLog(fmu.oracle, old(fmu.trace), recorder.layout);
      fmu.trace == old(fmu.trace) + log + [DoStep(time, stepSize)] &&
      recorder.rows == old(recorder.rows) + [RowOf(time, log)]
  {
    recorder.Sample(time);
    fmu.DoStep(time, stepSize);
  }

  /** The loop shared by both co-simulation drivers. */
  method LoopCS(fmu: Instance, recorder: Recorder, startTime: real, stopTime: real, stepSize: real)
    requires LoopEnds(startTime, stopTime, stepSize)
    requires recorder.Valid() && recorder.fmu == fmu && recorder.rows == []
    modifies fmu`trace, recorder`rows
    ensures recorder.Valid()
    ensures var ts := CommunicationPoints(startTime, stopTime, stepSize);
      fmu.trace == old(fmu.trace) + CoSimLog(fmu.oracle, old(fmu.trace), recorder.layout, ts, stepSize) &&
      recorder.rows == CoSimRows(fmu.oracle, old(fmu.trace), recorder.layout, ts, stepSize)
  {
    ghost var o, h, l := fmu.oracle, fmu.trace, recorder.layout;
    ghost var all := CommunicationPoints(startTime, stopTime, stepSize);
    if stepSize > 0.0 {
      CommunicationPointsChain(startTime, stopTime, stepSize);
    }
    ghost var n: nat := 0;
    var time := startTime;
    while time < stopTime
      invariant recorder.Valid()
      invariant n <= |all| && (n < |all| ==> time == all[n]) && (n == |all| ==> time >= stopTime)
      invariant fmu.trace == h + CoSimLog(o, h, l, all[..n], stepSize)
      invariant recorder.rows == CoSimRows(o, h, l, all[..n], stepSize)
      decreases |all| - n
    {
      PassTaken(o, h, l, all, n, stepSize, fmu.trace, recorder.rows);
      PassCS(fmu, recorder, time, stepSize);
      n, time := n + 1, time + stepSize;
    }
    assert all[..n] == all;
  }

  /** Record, loop over the communication points, then terminate and free the instance. */
  method RunCS(fmu: Instance, md: ModelDescription, output: Option<seq<string>>,
               startTime: real, stopTime: real, stepSize: real)
    returns (rows: seq<Row>, cols: seq<Column>)
    requires LoopEnds(startTime, stopTime, stepSize)
    modifies fmu`trace
    ensures cols == Columns(LayoutOf(md.modelVariables, output))
    ensures forall row :: row in rows ==> Conforms(row, cols)
    ensures var l := LayoutOf(md.modelVariables, output);
      var ts := CommunicationPoints(startTime, stopTime, stepSize);
      fmu.trace == old(fmu.trace) + CoSimLog(fmu.oracle, old(fmu.trace), l, ts, stepSize) +
                   [Terminate, FreeInstance] &&
      rows == CoSimRows(fmu.oracle, old(fmu.trace), l, ts, stepSize)
  {
    var recorder := new Recorder(fmu, md, output);
    LoopCS(fmu, recorder, startTime, stopTime, stepSize);
    ghost var run := fmu.trace;
    fmu.Terminate();
    fmu.FreeInstance();
    assert fmu.trace == run + [Terminate, FreeInstance];
    rows, cols := recorder.rows, recorder.cols;
  }

  /** `simulateCS1`: instantiate the slave under the name `rectifier1`, initialize it, run
      the loop, terminate and free the instance. */
  method SimulateCS1(md: ModelDescription, o: Oracle, startTime: real, stopTime: real,
                     stepSize: real, output: Option<seq<string>>)
    returns (rows: seq<Row>, cols: seq<Column>, trace: seq<Call>)
    requires LoopEnds(startTime, stopTime, stepSize)
    ensures cols == Columns(LayoutOf(md.modelVariables, output))
    ensures forall row :: row in rows ==> Conforms(row, cols)
    ensures var init := [Instantiate(Some("rectifier1")), InitializeSlave];
      var l := LayoutOf(md.modelVariables, output);
      var ts := CommunicationPoints(startTime, stopTime, stepSize);
      trace == init + CoSimLog(o, init, l, ts, stepSize) + [Terminate, FreeInstance] &&
      rows == CoSimRows(o, init, l, ts, stepSize)
  {
    var fmu := new Instance(o, 0, 0);
    fmu.Instantiate(Some("rectifier1"));
    fmu.InitializeSlave();
    assert fmu.trace == [Instantiate(Some("rectifier1")), InitializeSlave];
    rows, cols := RunCS(fmu, md, output, startTime, stopTime, stepSize);
    trace := fmu.trace;
  }

  /** `simulateCS2`: instantiate, set up the experiment at the start time, pass through
      initialization mode, run the loop, terminate and free the instance. */
  method SimulateCS2(md: ModelDescription, o: Oracle, startTime: real, stopTime: real,
                     stepSize: real, output: Option<seq<string>>)
    returns (rows: seq<Row>, cols: seq<Column>, trace: seq<Call>)
    requires LoopEnds(startTime, stopTime, stepSize)
    ensures cols == Columns(LayoutOf(md.modelVariables, output))
    ensures forall row :: row in rows ==> Conforms(row, cols)
    ensures var init := [Instantiate(None), SetupExperiment(startTime), EnterInitializationMode,
                         ExitInitializationMode];
      var l := LayoutOf(md.modelVariables, output);
      var ts := CommunicationPoints(startTime, stopTime, stepSize);
      trace == init + CoSimLog(o, init, l, ts, stepSize) + [Terminate, FreeInstance] &&
      rows == CoSimRows(o, init, l, ts, stepSize)
  {
    var fmu := new Instance(o, 0, 0);
    fmu.Instantiate(None);
    fmu.SetupExperiment(startTime);
    fmu.EnterInitializationMode();
    fmu.ExitInitializationMode();
    assert fmu.trace == [Instantiate(None), SetupExperiment(startTime), EnterInitializationMode,
                         ExitInitializationMode];
    rows, cols := RunCS(fmu, md, output, startTime, stopTime, stepSize);
    trace := fmu.trace;
  }
}
