/** The parts of an FMU's model description that the simulation driver reads.
    The description is parsed elsewhere; here it is a read-only record. */
module Description {
  import opened Optional

  /** The `type` attribute of a scalar variable. */
  datatype VariableType = Real | Integer | Boolean | String | Enumeration

  datatype ScalarVariable = ScalarVariable(
    name: string,
    valueReference: nat,
    vtype: VariableType,
    causality: string)

  datatype DefaultExperiment = DefaultExperiment(startTime: real, stopTime: real)

  datatype ModelDescription = ModelDescription(
    fmiVersion: string,
    hasCoSimulation: bool,   // `coSimulation is not None`
    defaultExperiment: Option<DefaultExperiment>,
    numberOfContinuousStates: nat,
    numberOfEventIndicators: nat,
    modelVariables: seq<ScalarVariable>)
}
