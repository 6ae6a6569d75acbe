/** The entry point `simulate`: fill in the arguments the caller left out, then hand over to
    the driver for the FMI version and type. */
module Simulate {
  import opened Optional
  import opened Description
  import opened Fmi
  import opened TimeStepper
  import opened Recording
  import opened ModelExchange
  import opened CoSimulation

  /** The two kinds of FMU interface a driver can use. */
  datatype FmiType = ModelExchangeType | CoSimulationType

  /** The step size used when none is given: `10 ** (round(log10(0.09)) - 3)`, which is
      `10 ** (-1 - 3)` whatever the experiment's length. */
  const DefaultStepSize: real := 0.0001

  /** The optional arguments of `simulate`. */
  datatype Arguments = Arguments(
    startTime: Option<real>,
    stopTime: Option<real>,
    stepSize: Option<real>,
    fmiType: Option<FmiType>,
    output: Option<seq<string>>)

  /** The arguments after defaulting. */
  datatype Settings = Settings(startTime: real, stopTime: real, stepSize: real, fmiType: FmiType)

  /** `fmiType` is co-simulation exactly when the FMU offers it; the start and stop times come
      from the default experiment when there is one, and are 0 and 1 otherwise. */
  function Resolve(md: ModelDescription, args: Arguments): (s: Settings)
    // what the caller gives is kept
    ensures args.fmiType.Some? ==> s.fmiType == args.fmiType.value
    ensures args.startTime.Some? ==> s.startTime == args.startTime.value
    ensures args.stopTime.Some? ==> s.stopTime == args.stopTime.value
    ensures args.stepSize.Some? ==> s.stepSize == args.stepSize.value
    // what the caller leaves out is chosen from the model description
    ensures args.fmiType.None? ==> (s.fmiType == CoSimulationType <==> md.hasCoSimulation)
    ensures args.startTime.None? ==>
      s.startTime == (match md.defaultExperiment
                      case Some(e) => e.startTime
                      case None => 0.0)
    ensures args.stopTime.None? ==>
      s.stopTime == (match md.defaultExperiment
                     case Some(e) => e.stopTime
                     case None => 1.0)
    ensures args.stepSize.None? ==> s.stepSize == DefaultStepSize
  {
    var fmiType := match args.fmiType
      case Some(t) => t
      case None => if md.hasCoSimulation then CoSimulationType else ModelExchangeType;
    var startTime := match args.startTime
      case Some(t) => t
      case None => if md.defaultExperiment.Some? then md.defaultExperiment.value.startTime else 0.0;
    var stopTime := match args.stopTime
      case Some(t) => t
      case None => if md.defaultExperiment.Some? then md.defaultExperiment.value.stopTime else 1.0;
    var stepSize := match args.stepSize
      case Some(t) => t
      case None => DefaultStepSize;
    Settings(startTime, stopTime, stepSize, fmiType)
  }

  /** The arguments that spell out every setting. */
  function Explicit(s: Settings, output: Option<seq<string>>): Arguments
  {
    Arguments(Some(s.startTime), Some(s.stopTime), Some(s.stepSize), Some(s.fmiType), output)
  }

  /** Defaulting is idempotent: passing the settings it chose explicitly chooses them again,
      whatever the model description says. */
  lemma ResolveIdempotent(md: ModelDescription, md': ModelDescription, args: Arguments)
    ensures Resolve(md', Explicit(Resolve(md, args), args.output)) == Resolve(md, args)
  {}

  /** Without a default experiment and without arguments, a run goes from 0 to 1 in steps of
      1e-4, and it is a co-simulation exactly when the FMU offers one. */
  lemma ResolveNoExperiment(md: ModelDescription, output: Option<seq<string>>)
    requires md.defaultExperiment.None?
    ensures var s := Resolve(md, Arguments(None, None, None, None, output));
      s.startTime == 0.0 && s.stopTime == 1.0 && s.stepSize == 0.0001 &&
      (s.fmiType == ModelExchangeType <==> !md.hasCoSimulation)
  {}

  /** The step size is positive when the caller's is, or when none is given; then the loop of
      every driver can end. */
  lemma ResolvedStepPositive(md: ModelDescription, args: Arguments)
    requires args.stepSize.Some? ==> args.stepSize.value > 0.0
    ensures var s := Resolve(md, args); s.stepSize > 0.0 && LoopEnds(s.startTime, s.stopTime, s.stepSize)
  {}

  /** `simulate`: default the arguments, then run `simulateME1`/`simulateCS1` for FMI 1.0 and
      `simulateME2`/`simulateCS2` for every other version. */
  method Simulate(md: ModelDescription, o: Oracle, args: Arguments)
    returns (rows: seq<Row>, cols: seq<Column>, trace: seq<Call>)
    requires var s := Resolve(md, args); LoopEnds(s.startTime, s.stopTime, s.stepSize)
    requires Resolve(md, args).fmiType == ModelExchangeType ==>
      EventsAhead(o) && (md.fmiVersion != "1.0" ==> Converges(o))
    ensures cols == Columns(LayoutOf(md.modelVariables, args.output))
    ensures forall row :: row in rows ==> Conforms(row, cols)
    ensures |trace| >= 2 && trace[|trace| - 2..] == [Terminate, FreeInstance]
    ensures var s := Resolve(md, args);
      var l := LayoutOf(md.modelVariables, args.output);
      var ts := CommunicationPoints(s.startTime, s.stopTime, s.stepSize);
      match (md.fmiVersion == "1.0", s.fmiType)
      case (true, ModelExchangeType) =>
        trace[..2] == [Instantiate(None), SetTime(s.startTime)] &&
        TimePoints(trace) == [s.startTime] + TimeColumn(rows) &&
        Cadence(TimeColumn(rows), s.startTime, s.stopTime, s.stepSize) &&
        Ran(Loop(Fmi1, o, md.numberOfContinuousStates, md.numberOfEventIndicators, l, s.stepSize,
                 s.stopTime),
            ME1Initial(o, s.startTime, md.numberOfEventIndicators), trace, rows)
      case (false, ModelExchangeType) =>
        var init := Iterated(o, ME2Setup(s.startTime)) + [EnterContinuousTimeMode];
        init <= trace &&
        TimeColumn(rows) == [s.startTime] + TimePoints(trace) &&
        Cadence(TimePoints(trace), s.startTime, s.stopTime, s.stepSize) &&
        Ran(Loop(Fmi2, o, md.numberOfContinuousStates, md.numberOfEventIndicators, l, s.stepSize,
                 s.stopTime),
            ME2Initial(o, s.startTime, md.numberOfEventIndicators, l), trace, rows)
      case (true, CoSimulationType) =>
        var init := [Instantiate(Some("rectifier1")), InitializeSlave];
        trace == init + CoSimLog(o, init, l, ts, s.stepSize) + [Terminate, FreeInstance] &&
        rows == CoSimRows(o, init, l, ts, s.stepSize)
      case (false, CoSimulationType) =>
        var init := ME2Setup(s.startTime);
        trace == init + CoSimLog(o, init, l, ts, s.stepSize) + [Terminate, FreeInstance] &&
        rows == CoSimRows(o, init, l, ts, s.stepSize)
  {
    var s := Resolve(md, args);
    if md.fmiVersion == "1.0" {
      if s.fmiType == ModelExchangeType {
        rows, cols, trace := SimulateME1(md, o, s.startTime, s.stopTime, s.stepSize, args.output);
      } else {
        rows, cols, trace := SimulateCS1(md, o, s.startTime, s.stopTime, s.stepSize, args.output);
      }
    } else {
      if s.fmiType == ModelExchangeType {
        rows, cols, trace := SimulateME2(md, o, s.startTime, s.stopTime, s.stepSize, args.output);
      } else {
        rows, cols, trace := SimulateCS2(md, o, s.startTime, s.stopTime, s.stepSize, args.output);
      }
    }
  }
}
