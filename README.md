# FMPy `simulate1.py`: the fixed-step simulation drivers

This project models the simulation core of FMPy's `fmpy/simulate1.py` and proves its contracts in Dafny. FMPy runs Functional Mock-up Units (FMUs) through the FMI 1.0 and FMI 2.0 C interfaces. The modelled core covers:

- `simulate`: defaulting of the start time, stop time, step size and FMI type, and dispatch to one of four drivers.
- `simulateME1` and `simulateME2`: the model-exchange drivers. Each runs a fixed-step forward Euler loop. The step is clamped to the stop time and snapped onto an announced time event. A state event is a sign change of an event indicator between two steps. Events are handled after the step: FMI 1.0 makes one `eventUpdate` call; FMI 2.0 calls `enterEventMode`, iterates `newDiscreteStates` and calls `enterContinuousTimeMode`. One row is sampled per step.
- `simulateCS1` and `simulateCS2`: the co-simulation drivers. They sample at the current communication point, call `doStep` over one step size, and move on by one step size.
- `Recorder`: selects the recorded variables, builds the column layout (`time`, then the Real, Integer and Boolean variables), and appends one row per sample.

The FMU is not modelled. It is replaced by an adapter, `Fmi.Instance`, with the binding's buffers `x`, `dx` and `z` and the last `eventInfo`. Every adapter operation appends the call, with the values it passed or received, to the instance's `trace`. Every answer comes from an `Oracle`: a total function of the calls made before the question. The drivers' contracts are therefore statements about the trace of calls, the rows recorded and the times set. Times, states and indicators are exact `real`s.

Modules, one per file:

- `Optional`: Python's `None`.
- `Description`: the model description as a read-only record.
- `Fmi`: the calls, the oracle, the model's clock and the adapter class.
- `TimeStepper`: the choice of the next time point.
- `Integrator`: forward Euler, in place on the state buffer.
- `EventDetector`: zero crossings.
- `Recording`: variable selection, columns, the `Recorder` class.
- `ModelExchange`: `simulateME1` and `simulateME2`.
- `CoSimulation`: `simulateCS1` and `simulateCS2`.
- `Simulate`: `simulate`.

Behaviour of the code that the model keeps as it is:

- A step can have negative length: when `nextEventTime` lies before the current time, lines 157-162 and 246-251 still set the time to it. `TimeStepper.NextTime` does the same, and progress is proved only while the announced event lies ahead.
- In the FMI 2.0 loop, the event indicators are read before `completedIntegratorStep` (lines 261-269). The FMI 1.0 loop uses the other order (lines 172-177). The model keeps both orders.
- `terminateSimulation` from `completedIntegratorStep` and the `terminateSimulation` flag of the event info never stop the stepping loops (lines 149 and 238). The event-info flag ends only the `newDiscreteStates` iterations (lines 224 and 280).
- Status codes are never inspected, and the event iteration has no bound. The model adds no error handling and no bound.
- A loop whose step size is zero or negative ends only if it is never entered, that is when the start is not before the stop. Every driver requires exactly that (`TimeStepper.LoopEnds`).

A whole model-exchange run is specified pass by pass. `ModelExchange.NextPass` is one pass of the loop as a function of the driver's state (the calls so far, the time, the event info, the last indicators and the rows). `ModelExchange.Passes` chains the passes, and `ModelExchange.Ran` says that a run's calls and rows are those of the passes up to the first one that reaches the stop time, followed by `terminate` and `freeInstance`.

## Model

| member | source | states |
|---|---|---|
| Simulate.Resolve | fmpy/simulate1.py:89-109 | A given argument is kept. Without one, the FMI type is co-simulation exactly when the FMU offers it. Start and stop come from the default experiment when there is one, otherwise 0 and 1. The step is 1e-4. |
| Simulate.ResolveIdempotent | fmpy/simulate1.py:89-109 | Passing the chosen settings back explicitly chooses them again, whatever the model description. |
| Simulate.ResolveNoExperiment | fmpy/simulate1.py:93-109 | Without a default experiment and without arguments, a run goes from 0 to 1 in steps of 1e-4. It is model exchange exactly when the FMU offers no co-simulation. |
| Simulate.ResolvedStepPositive | fmpy/simulate1.py:107-109 | The resolved step is positive whenever the caller's is, or when none is given, so every driver's loop can end. |
| Simulate.Simulate | fmpy/simulate1.py:85-130 | FMI 1.0 goes to `simulateME1`/`simulateCS1` and every other version to `simulateME2`/`simulateCS2`, by the resolved type. Every run ends with `terminate`, `freeInstance`. Every row fits the columns. Each branch gives its driver's start calls and its cadence or communication points. A model-exchange branch gives the whole run, pass by pass, from the driver's start. |
| Recording.Recorded | fmpy/simulate1.py:36 | A variable is recorded when no output list is given and its causality is `output`, or when its name is in the list. |
| Recording.Group | fmpy/simulate1.py:37 | An Enumeration is read with the Integer getter; every other type with its own. |
| Recording.Select | fmpy/simulate1.py:35-37 | The recorded variables of one group, in the order of the model description. |
| Recording.LayoutOf | fmpy/simulate1.py:35-61 | The Real, Integer and Boolean selections a recorder reads. |
| Recording.Columns | fmpy/simulate1.py:30-61 | `time` as Float64, then the Reals as Float64, then the Integers and the Booleans as Int32. |
| Recording.ReadReals | fmpy/simulate1.py:67-69 | The Real getter is called only when there are Real variables, with their value references, and answers the model's values after the calls before it. |
| Recording.ReadIntegers | fmpy/simulate1.py:71-73 | The Integer getter is called only when there are Integer variables, with their value references, and answers the model's values after the calls before it. |
| Recording.ReadBooleans | fmpy/simulate1.py:75-77 | The Boolean getter is called only when there are Boolean variables, with their value references, and answers the model's values after the calls before it. |
| Recording.SampleLog | fmpy/simulate1.py:63-77 | One getter call per non-empty group, Real, Integer and Boolean in that order, each answered by the model after the calls before it. |
| Recording.Cells | fmpy/simulate1.py:65-77 | The values the getter calls answered, in order. |
| Recording.RowOf | fmpy/simulate1.py:65-79 | The row a sample appends: the time, then the values read. |
| Recording.SelectMembers | fmpy/simulate1.py:35-37 | A variable is in a group exactly when it is recorded (no output list and causality `output`, or its name is listed) and its type, with Enumeration read as Integer, is that group. |
| Recording.SelectAppend | fmpy/simulate1.py:35-37 | Selection keeps the order of the model description: it distributes over concatenation. |
| Recording.Recorder.constructor | fmpy/simulate1.py:30-61 | The loop over the model variables builds exactly the selected Real, Integer and Boolean groups. There are no rows yet, and the columns are the layout's. |
| Recording.ColumnsComeFromSelection | fmpy/simulate1.py:39-61 | Every column after `time` belongs to a recorded, non-String variable of that name. It is Float64 exactly for the Real group. |
| Recording.SelectedHaveColumns | fmpy/simulate1.py:35-61 | Every recorded non-String variable has a column of its name: Float64 for Reals, Int32 for Integers, Enumerations and Booleans. |
| Recording.MemberIndex | fmpy/simulate1.py:35-37 | A recorded variable has a position in its group's selection. |
| Recording.SampleLogReadsOnly | fmpy/simulate1.py:63-79 | A sample makes at most three calls, all getters. It moves no clock and sets no time. |
| Recording.SampleRowConforms | fmpy/simulate1.py:63-79 | A sample's row starts with its time and has one cell per column, each of the column's type. |
| Recording.Recorder.Read | fmpy/simulate1.py:65-77 | It calls the getters Real, Integer, Boolean in that order, skipping empty groups. The row is the time followed by the values they answered. |
| Recording.Recorder.Sample | fmpy/simulate1.py:63-79 | Exactly one row is appended, and it fits the columns. The time column gains `time`, and no time is set on the model. |
| Recording.TimeColumnSnoc | fmpy/simulate1.py:79 | Appending a sample's row appends its time to the time column. |
| TimeStepper.Candidate | fmpy/simulate1.py:155 | The candidate is one full step ahead or the stop time, and never past either. |
| TimeStepper.TimeEvent | fmpy/simulate1.py:157 | A time event is due when the model announced one at or before the candidate time. The same holds at line 246. |
| TimeStepper.LoopEnds | fmpy/simulate1.py:149 | A `while time < stop` loop can end: the step is positive, or the loop is never entered. The same holds at lines 201, 238, 305. |
| TimeStepper.NextTime | fmpy/simulate1.py:154-160 | The step ends no later than the stop time and one step ahead. A due time event is hit exactly; otherwise the step is full or ends at the stop time. An event inside the step is never skipped. The step moves forward whenever the announced event lies ahead. |
| TimeStepper.StepsShrink | fmpy/simulate1.py:149 | The number of steps left before the stop time never grows as time advances, and shrinks once time moves on by a whole step. |
| Integrator.Euler | fmpy/simulate1.py:167 | Each state component moves by `dt` times its derivative. The same holds at line 256. |
| Integrator.ForwardEuler | fmpy/simulate1.py:167 | The state buffer, in place, becomes the Euler update of its old contents. |
| Integrator.EulerComponentwise | fmpy/simulate1.py:162-167 | The update keeps the length and moves each component by `dt` times its own derivative, and by nothing else. |
| EventDetector.StateEvent | fmpy/simulate1.py:177 | A state event is reported exactly when some indicator's product with its previous value is negative. |
| EventDetector.StateEventIsSignChange | fmpy/simulate1.py:175-177 | A state event is exactly a strict sign change of some indicator between the two snapshots. |
| EventDetector.ZeroNeverCrosses | fmpy/simulate1.py:263 | Indicators that are zero before or after the step never report an event. |
| EventDetector.StateEventExamples | fmpy/simulate1.py:177 | Going from 1.0 to -0.5 is a state event; going from 1.0 to 0.5 is not. |
| Fmi.NeedsUpdate | fmpy/simulate1.py:224 | Another round of the event iteration is due exactly when `newDiscreteStatesNeeded` is set and `terminateSimulation` is not. The same holds at line 280. |
| Fmi.Iterate | fmpy/simulate1.py:224-226 | `n` rounds of `newDiscreteStates`, each answered by the model after the calls before it; they add exactly `n` calls. The same holds at lines 280-281. |
| Fmi.IterateCalls | fmpy/simulate1.py:224-226 | Rounds of `newDiscreteStates` only append, and each round records the model's answer to the history before it. |
| Fmi.IterateKeepsClock | fmpy/simulate1.py:224-226 | The rounds move no clock and set no time. |
| ModelExchange.Settle | fmpy/simulate1.py:221-226 | The iteration makes at least one round. It stops at the first answer that needs no further round, and every earlier answer needed one. |
| ModelExchange.EventIteration | fmpy/simulate1.py:220-226 | It forces the flags, then calls `newDiscreteStates` while another round is needed and no termination is asked. It leaves exactly the iterated history, and the driver holds the last answer. |
| ModelExchange.SettleCalls | fmpy/simulate1.py:224-226 | The iteration records one answer per round. Every answer but the last asks for another round, and the last does not. |
| ModelExchange.Iterated | fmpy/simulate1.py:224-226 | The iterated history extends the one before. Its last call is a `newDiscreteStates` whose answer needs no further round. |
| ModelExchange.IteratedClock | fmpy/simulate1.py:224-226 | The iteration sets no time, and its last answer is given at the clock before it. |
| ModelExchange.IteratedCalls | fmpy/simulate1.py:224-226 | The iteration makes only `newDiscreteStates` calls, and every one but the last asked for another round. |
| ModelExchange.IntegrateClock | fmpy/simulate1.py:151-169 | The integration part sets exactly one time point, the new time, and leaves the clock there. |
| ModelExchange.Integrate | fmpy/simulate1.py:151-169 | The calls of the integration part: read the states, read the derivatives, set the new time, set the states advanced by one Euler step over the elapsed time. The same holds at lines 240-258. |
| ModelExchange.Advance | fmpy/simulate1.py:151-169 | It reads states and derivatives, steps to `NextTime` and flags the time event as due at the candidate time. Then it sets the time and sets the states advanced by Euler over the elapsed time. The derivative buffer holds the derivatives read, and the state buffer the states set. |
| ModelExchange.ME1Step | fmpy/simulate1.py:151-181 | One FMI 1.0 pass: integration, `completedIntegratorStep`, the event indicators, then `eventUpdate` exactly when a time, state or step event occurred; the new event info is kept after an event only. |
| ModelExchange.ME1StepCalls | fmpy/simulate1.py:151-181 | The calls of one FMI 1.0 pass, in order: states, derivatives, `setTime(new time)`, the Euler-updated states, `completedIntegratorStep`, then the event indicators. `eventUpdate` is called once, last, exactly when there is a time, state or step event. |
| ModelExchange.ME1StepClock | fmpy/simulate1.py:154-181 | A pass ends at `NextTime` and sets only that time. A due time event always triggers handling. Without an event the event info is kept; after one, it is the model's answer at the new time. |
| ModelExchange.StepME1 | fmpy/simulate1.py:151-181 | The in-place pass, with `prez` copied from the previous indicators, makes exactly the calls and leaves exactly the event info, indicators and time of the pass specification. The state buffer holds the states the pass set. |
| ModelExchange.AdvanceME1 | fmpy/simulate1.py:151-181 | An FMI 1.0 pass sets exactly one time point, `NextTime`. A due time event is always handled, and a refreshed event info schedules its next event at least the model's margin ahead. |
| ModelExchange.PassME1 | fmpy/simulate1.py:149-183 | A pass followed by one sample at the new time, which is exactly `NextPass` of the FMI 1.0 loop. It sets exactly one time point, which is also appended to the time column. A time event is always handled, and a refreshed event info schedules its next event at least the model's margin ahead. |
| ModelExchange.ME1Start | fmpy/simulate1.py:139-141 | The calls before the FMI 1.0 loop: `instantiate`, `setTime(start)`, `initialize` with the model's answer. |
| ModelExchange.ME1Initial | fmpy/simulate1.py:138-147 | The FMI 1.0 loop starts after those calls, at the start time, with the event info of `initialize`, zero previous indicators and no rows. |
| ModelExchange.StartME1 | fmpy/simulate1.py:138-141 | `instantiate`, `setTime(start)`, `initialize`, in that order. The event info is the model's answer at the start time, and the indicator buffer is all zeros. |
| ModelExchange.LoopME1 | fmpy/simulate1.py:149-183 | The loop makes the FMI 1.0 passes, each from the calls, time, event info and indicators the one before left, and stops at the first that reaches the stop time. One row per step. The time column is exactly the times set, strictly increasing, at most one step apart, and ending exactly at the stop time. |
| ModelExchange.Finish | fmpy/simulate1.py:185-186 | `terminate` then `freeInstance`, setting no time. |
| ModelExchange.SimulateME1 | fmpy/simulate1.py:136-188 | The run starts with `instantiate`, `setTime(start)`, `initialize` and ends with `terminate`, `freeInstance`. There is no row at the start time. The time column is the times set after the start and forms a full fixed-step cadence to the stop time. Every row fits the columns. The calls and rows are those of the run of FMI 1.0 passes from `ME1Initial`. |
| ModelExchange.CadencePoints | fmpy/simulate1.py:149-160 | The sampled times are strictly increasing and after the start. Each is at most one step after the one before, and the last is exactly the stop time. There are none exactly when the start is not before the stop. |
| ModelExchange.PacedPoints | fmpy/simulate1.py:243-249 | The step-by-step pacing, point by point: after the start, increasing, at most one step apart. |
| ModelExchange.CadenceFinish | fmpy/simulate1.py:238 | Once the loop reaches the stop time without passing it, the times so far form a complete cadence. |
| ModelExchange.NextPass | fmpy/simulate1.py:151-183 | One pass of the loop of either version from a driver state, then one sample at the new time; it keeps the loop's driver states as they are. The same holds at lines 240-285. |
| ModelExchange.PassOf | fmpy/simulate1.py:149 | The pass of a loop as a function of the driver state. The same holds at line 238. |
| ModelExchange.Passes | fmpy/simulate1.py:149 | The driver states a loop goes through: the start, then one per pass, each pass starting where the one before ended. The same holds at line 238. |
| ModelExchange.Running | fmpy/simulate1.py:149 | The loop condition held before each pass so far. The same holds at line 238. |
| ModelExchange.Stops | fmpy/simulate1.py:149 | The loop ends after exactly `n` passes: the time reaches the stop time after them and not before. The same holds at line 238. |
| ModelExchange.Ran | fmpy/simulate1.py:149-188 | A whole run: the passes until the loop stops, then `terminate` and `freeInstance`. The same holds at lines 238-290. |
| ModelExchange.PassesPrefix | fmpy/simulate1.py:149 | More passes go through the same driver states first. The same holds at line 238. |
| ModelExchange.StopsUnique | fmpy/simulate1.py:149 | A loop stops after one number of passes only. The same holds at line 238. |
| ModelExchange.RanUnique | fmpy/simulate1.py:149-188 | Two runs from the same driver state make the same calls and record the same rows. The same holds at lines 238-290. |
| ModelExchange.ME2Detect | fmpy/simulate1.py:240-269 | The detection part of an FMI 2.0 pass: integration, the event indicators, then `completedIntegratorStep`. |
| ModelExchange.EventTail | fmpy/simulate1.py:274-283 | Event handling after a history: `enterEventMode`, the event iteration, `enterContinuousTimeMode`; the last answer of the iteration needs no further round. |
| ModelExchange.ME2Step | fmpy/simulate1.py:240-283 | One FMI 2.0 pass: detection, then event handling exactly when a time, state or step event occurred; the new event info is kept after an event only. |
| ModelExchange.DetectCalls | fmpy/simulate1.py:240-269 | The detection part of an FMI 2.0 pass, in order: states, derivatives, `setTime`, the Euler-updated states, the event indicators, then `completedIntegratorStep`. |
| ModelExchange.ME2StepCalls | fmpy/simulate1.py:240-271 | An FMI 2.0 pass handles events exactly when there is a due time event, a sign change or a step event. Otherwise it makes only the six detection calls. |
| ModelExchange.ME2EventCalls | fmpy/simulate1.py:271-283 | After an event: `enterEventMode`, then rounds of `newDiscreteStates` (all but the last asking for another, the last asking for none and kept by the driver), then `enterContinuousTimeMode`. |
| ModelExchange.EventTailCalls | fmpy/simulate1.py:274-283 | Event handling is `enterEventMode`, the rounds, then `enterContinuousTimeMode`. |
| ModelExchange.ME2StepClock | fmpy/simulate1.py:243-283 | An FMI 2.0 pass ends at `NextTime` and sets only that time. A due time event is always handled. Without an event the event info is kept; after one, its next time event is at least the model's margin after the new time. |
| ModelExchange.DetectME2 | fmpy/simulate1.py:240-271 | The in-place detection part makes the specified calls. It reports an event exactly for a due time event, a sign change against the previous indicators, or a step event. |
| ModelExchange.HandleEvents | fmpy/simulate1.py:274-283 | It makes exactly the event-handling calls, and the driver keeps the last answer of the iteration. |
| ModelExchange.StepME2 | fmpy/simulate1.py:240-283 | The in-place FMI 2.0 pass makes exactly the calls and leaves exactly the event info, indicators and time of the pass specification. The state buffer holds the states the pass set. |
| ModelExchange.AdvanceME2 | fmpy/simulate1.py:240-283 | An FMI 2.0 pass sets exactly one time point, `NextTime`. A due time event is always handled, and a refreshed event info schedules its next event at least the model's margin ahead. |
| ModelExchange.PassME2 | fmpy/simulate1.py:238-285 | An FMI 2.0 pass followed by one sample at the new time, which is exactly `NextPass` of the FMI 2.0 loop. The new time is set on the model and appended to the time column. |
| ModelExchange.ME2Setup | fmpy/simulate1.py:215-218 | The FMI 2.0 setup before the iteration: `instantiate` with the default name, `setupExperiment(start)`, then enter and exit initialization mode. |
| ModelExchange.SetupClock | fmpy/simulate1.py:215-218 | The setup calls leave the model's clock at the start time and set no time point. |
| ModelExchange.StartME2 | fmpy/simulate1.py:214-228 | `instantiate`, `setupExperiment(start)`, enter and exit initialization mode, the event iteration, then `enterContinuousTimeMode`. No time point is set. The driver holds the last answer of the iteration, and the indicator buffer is all zeros. |
| ModelExchange.ME2Initial | fmpy/simulate1.py:214-236 | The FMI 2.0 loop starts after the setup, the iteration and one sample at the start time, with the last answer of the iteration, zero previous indicators and that sample's row. |
| ModelExchange.LoopME2 | fmpy/simulate1.py:238-285 | The loop makes the FMI 2.0 passes, each from the calls, time, event info and indicators the one before left, and stops at the first that reaches the stop time. Each step sets its time on the model and records it. The times are strictly increasing, at most one step apart, and end exactly at the stop time. |
| ModelExchange.RunME2 | fmpy/simulate1.py:230-290 | One sample at the start time, then the run of FMI 2.0 passes from there until the stop time, then `terminate`, `freeInstance`: the calls and rows are exactly those of `Ran`. The time column is the start followed by the times set. |
| ModelExchange.SimulateME2 | fmpy/simulate1.py:212-290 | The run begins with the setup and initial iteration and ends with `terminate`, `freeInstance`. The time column is the start time followed by the times set, which form a full fixed-step cadence to the stop time. Every row fits the columns. The calls and rows are those of the run of FMI 2.0 passes from `ME2Initial`. |
| CoSimulation.CommunicationPoints | fmpy/simulate1.py:199-204 | There are communication points exactly when the start is before the stop, and the first one is the start. |
| CoSimulation.CommunicationPointsSpaced | fmpy/simulate1.py:199-204 | The k-th point is the start plus k steps. All points lie before the stop time, and one more step from the last reaches it. Their number is the ceiling of the span over the step. |
| CoSimulation.CommunicationPointsChain | fmpy/simulate1.py:303-308 | Consecutive points are exactly one step apart, all lie before the stop time, and one more step reaches it. |
| CoSimulation.CommunicationPointsExample | fmpy/simulate1.py:199-204 | Start 0, stop 1 and step 0.25 give the points 0, 0.25, 0.5 and 0.75. |
| CoSimulation.CoSimLog | fmpy/simulate1.py:201-204 | The calls of a co-simulation loop: at each communication point a sample, then one `doStep` from that point over the step size. The same holds at lines 305-308. |
| CoSimulation.CoSimRows | fmpy/simulate1.py:202 | One row per communication point, sampled before its step. The same holds at line 306. |
| CoSimulation.CoSimSteps | fmpy/simulate1.py:203 | A run makes exactly one `doStep` per communication point, in order, each from that point over the step size. |
| CoSimulation.CoSimTimes | fmpy/simulate1.py:202 | A run records one row per communication point, timed at the point its step starts from. |
| CoSimulation.CoSimSnoc | fmpy/simulate1.py:305-308 | One more communication point adds one sample and then one `doStep` after the earlier calls, and one row after the earlier rows. |
| CoSimulation.PassCS | fmpy/simulate1.py:305-308 | It samples at the current time, then calls `doStep` from that time over the step size. |
| CoSimulation.LoopCS | fmpy/simulate1.py:201-204 | The loop's calls and rows are exactly those of the communication points from start to stop. |
| CoSimulation.RunCS | fmpy/simulate1.py:197-209 | The communication-point calls, then `terminate` and `freeInstance`. The rows fit the columns. |
| CoSimulation.SimulateCS1 | fmpy/simulate1.py:191-209 | `instantiate("rectifier1")` and `initialize`, then one sample and one `doStep` per communication point, then `terminate` and `freeInstance`. |
| CoSimulation.SimulateCS2 | fmpy/simulate1.py:293-313 | `instantiate`, `setupExperiment(start)`, enter and exit initialization mode, then one sample and one `doStep` per communication point, then `terminate` and `freeInstance`. |

## Left out

- Archive staging (`mkdtemp`, zip extraction, the Windows long-path expansion, lines 111-119) is file-system I/O. As written, line 114 uses `sys`, which is imported only inside the `__main__` block (line 318), so `simulate` called from another module would stop there with a `NameError`.
- `shutil.rmtree` at line 133 can never be reached after the returns; it is not modelled.
- `Recorder.result` (lines 81-82) only assembles a numpy structured array; the model returns the rows and columns.
- The `print(time)` at line 266 and the plotting in the `__main__` block are output only.
- `read_model_description` is not part of this model; the model description is a record given as input.
- The FMI bindings (`fmi1.FMU1Model`, `FMU1Slave`, `fmi2.FMU2Model`, `FMU2Slave`, the ctypes value-reference arrays and getters) are foreign calls. They are replaced by `Fmi.Instance` and its oracle. One class stands for all four bindings, and its buffers start zero-filled.
- The instance name of every `instantiate` call but `simulateCS1`'s is the binding's default, recorded as `None`.
- Status codes returned by the FMI calls are ignored by the source and are not modelled.
- `tolerance=None` in `setupExperiment` is not recorded.
- Floating-point rounding is not modelled: times, states and indicators are exact reals. The co-simulation `time += step_size` therefore has no drift, and the number of communication points is exact.
- The default step size is the constant 1e-4, which is what `10 ** (round(log10(0.09)) - 3)` evaluates to. The unused `total_time` is dropped.
- String variables are selected but never read or given a column, as in the source.
- The `terminateSimulation` answer of `completedIntegratorStep` in FMI 2.0 is recorded in the trace but does not stop the loop, as in the source.
- SimulateME1: requires that the model schedules every announced time event at least some fixed positive margin after its clock (`EventsAhead`), and `LoopEnds`. The source has no such requirement, and with a stale `nextEventTime` it may never terminate.
- SimulateME2: requires `EventsAhead`, `LoopEnds` and also that the FMI 2.0 event iteration converges from every history (`Converges`). Without these the source may loop forever.
- LoopME1: requires the margin on time events, as `SimulateME1` does, and a positive step or a start that is not before the stop (`LoopEnds`).
- LoopME2: requires the margin and convergence, as `SimulateME2` does, and `LoopEnds`.
- RunME2: requires the margin, convergence and `LoopEnds`, as `SimulateME2` does.
- LoopCS: requires `LoopEnds`; with a zero or negative step and a start before the stop the source's loop never ends.
- RunCS: requires `LoopEnds`, as `LoopCS` does.
- CommunicationPoints: requires `LoopEnds`, as `LoopCS` does.
- CommunicationPointsSpaced: stated for a positive step only; with a non-positive step a loop that can end has no points, so there is nothing to space.
- CommunicationPointsChain: stated for a positive step only, for the same reason.
- NeedsUpdate: the event-info flags are modelled as `bool`. The source tests `newDiscreteStatesNeeded == fmi2True` in the initial iteration (line 224) but `!= fmi2False` in the event-mode iteration (line 280). An FMU that answers an `fmi2Boolean` other than 0 or 1 (say 2) would end the first after one round and continue the second. The model reads every non-zero answer as true, so the two guards coincide; they differ only for answers outside `fmi2True`/`fmi2False`, which FMI 2.0 does not define.
- EventIteration: requires that the iteration converges from the current history; the source simply loops until it does.
- Simulate: requires a positive step size or a start that is not before the stop, and the termination conditions above for model exchange. With a zero or negative step and a start before the stop, the source's loops never end.
- SimulateCS1: requires a positive step size or a start that is not before the stop; otherwise the loop never ends.
- SimulateCS2: requires a positive step size or a start that is not before the stop; otherwise the loop never ends.
- The FMI 1.0 `completedIntegratorStep` returns only the step-event flag (line 172). The adapter records one call type for both versions, so the FMI 1.0 record also carries the oracle's terminate answer, which `simulateME1` never reads.
