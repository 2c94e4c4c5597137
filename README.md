# libRSF: measurement down-sampling and the GNSS application's control loop

This project models two parts of libRSF, a library for robust sensor fusion with factor graphs.

**Down-sampling (`resampling.dfy`, module `Resampling`).**
- `SampleMeasurementsDown` walks a list of timestamped measurements once and pushes each one into an averaging window.
- A measurement closes the window when its timestamp reaches `TimeNext`, or when it equals the last timestamp of the input.
- A closed window is averaged and stamped with the timestamp of its own last element, then emitted. `TimeNext` then advances by one sample time.
- `AverageMeasurement` averages a window:
  - the timestamps and the mean vectors by their arithmetic mean;
  - the diagonal covariances by the element-wise inverse of the summed element-wise inverses (information fusion);
  - every other field is taken from the last element.
- Arithmetic is exact (`real`).

The loop is a method over `seq` accumulators. It returns a ghost list of the windows it closed, and it is proved against a declarative definition:
- `IsWindowing` says the windows concatenate to the input, none is empty, and each one ends at its first element that closes it.
- This definition has exactly one solution (`WindowingUnique`).
- Output element `j` is `Sample(window j)`.

**GNSS application (`app_gnss.dfy`, module `AppGnss`).** `Predict`, `Measure`, `InitGraph` and `CreateGraphAndSolve` drive a factor graph and sensor routines that are not part of this model.
- The graph is a class with two fields:
  - an append-only log of the operations issued on it (`Command`);
  - the state means the prior step reads.
- Each routine is a method whose postcondition gives the commands it appends, through a function. Lemmas then state, per configuration, which commands those are, in which order and with which arguments.
- The run returns exit status 1 and issues nothing when the first or last timestamp is missing. Otherwise it returns 0 and the trace `RunCommands`:
  - initialisation;
  - one pass per timestamp: predict (not at the first timestamp), measure, an extra graph solve at the first timestamp, the solve with its force flag, and a save;
  - a final forced solve and save;
  - the conversion to the global frame when GNSS is active and the tangent plane was initialised.
- The time increment is an input: the timestamps after the first one.

Two behaviours of the code are worth stating explicitly:
- At the first timestamp the code (applications/App_GNSS.cpp:186-191) runs an extra unconditional `Graph.solve`, then `Solve` with the usual formula. Because `TimeOld` is `TimeFirst - 1` there, that solve is not always forced (`FirstStepSolveNotAlwaysForced`).
- `Measure` adds the Prior3 prior at every timestep (applications/App_GNSS.cpp:66-82), although its comment (applications/App_GNSS.cpp:65) calls it an optional prior for the first position.

`fmod` is C's `fmod` with divisor 60, the only divisor the code uses: the remainder of the quotient truncated toward zero. Negative times therefore give a non-positive remainder (`Fmod60`).

## Model

| member | source | states |
|---|---|---|
| Resampling.InfoSum | src/Resampling.cpp:86-92 | the summed information of one component is non-negative, positive for a non-empty window, and at least each element's own information |
| Resampling.InfoSumIsSum | src/Resampling.cpp:92 | the information accumulated the loop's way equals the sum of the element-wise inverse covariances |
| Resampling.AccumulateStep | src/Resampling.cpp:88-93 | one iteration of the accumulation loop adds the element's timestamp, mean and information to the sums |
| Resampling.Accumulate | src/Resampling.cpp:83-93 | after the loop, `Time` is the sum of the timestamps, `Mean[k]` the sum of component k of the means, and `Info[k]` the sum of the inverses of covariance entry k |
| Resampling.AverageMeasurement | src/Resampling.cpp:65-103 | the result is `Average(input)`: the default measurement for an empty window, the element itself for one element, and otherwise the averages; other fields always come from the last element |
| Resampling.AverageTimeWithinWindow | src/Resampling.cpp:90-95 | the averaged timestamp lies between any lower and upper bound of the window's timestamps |
| Resampling.AverageMeanWithinWindow | src/Resampling.cpp:91-94 | the averaged mean keeps the vector size, and each component lies between the bounds of that component over the window |
| Resampling.AverageOfEqualMeans | src/Resampling.cpp:91-94 | averaging measurements with equal means returns that mean |
| Resampling.AverageCovarianceAt | src/Resampling.cpp:100 | for two or more elements, covariance entry k is the inverse of the summed information of entry k |
| Resampling.AverageFusesInformation | src/Resampling.cpp:86-100 | the fused covariance is the inverse of the summed information, is positive, and is no larger than the covariance of any element of the window |
| Resampling.Deadline | src/Resampling.cpp:38-58 | `TimeNext` after j flushes, built by one `+= SampleTime` per flush; with a non-negative sample time it is never before the first deadline, and with a non-positive one never after it |
| Resampling.Closes | src/Resampling.cpp:48 | the closing test: the last timestamp closes every window, and with a non-negative sample time no other timestamp before the first deadline closes any |
| Resampling.DeadlineClosedForm | src/Resampling.cpp:37-38 | `TimeNext` after j flushes is the first timestamp plus (j + 1) sample times |
| Resampling.ConcatLength | src/Resampling.cpp:42-60 | non-empty windows concatenate to at least as many elements as there are windows, and the last element is the last window's last element |
| Resampling.SampledSnoc | src/Resampling.cpp:51-54 | appending a window's sample to the output keeps one sample per window, in order |
| Resampling.FlushStep | src/Resampling.cpp:48-59 | closing the open window at an element that closes it (and at none before it) extends the windowing of the consumed prefix |
| Resampling.FlushedAll | src/Resampling.cpp:39-62 | once every element is consumed, the windows form the windowing of the input: 1 to \|input\| windows, the last ending at the input's last element |
| Resampling.WellFormedSlice | src/Resampling.cpp:45 | a window cut from a uniformly sized input with positive covariances is itself such a window |
| Resampling.LoopStart | src/Resampling.cpp:37-41 | the loop starts with no windows, no output, an empty open window and `TimeNext` = first timestamp + sample time |
| Resampling.LoopKeep | src/Resampling.cpp:45-48 | an element that does not close the window joins it, and the loop state is kept |
| Resampling.LoopFlush | src/Resampling.cpp:48-59 | an element that closes the window joins it; the window is emitted as its sample, the open window is cleared and `TimeNext` advances by one sample time |
| Resampling.LoopDone | src/Resampling.cpp:42-62 | after the last element no window is left open, because the last element closes its window; the output samples the windowing of the input, has 1 to \|input\| elements, and ends with the input's last timestamp |
| Resampling.SampleWindow | src/Resampling.cpp:51-54 | the emitted element is the window's average, stamped with the timestamp of the window's last element rather than the averaged time |
| Resampling.Push | src/Resampling.cpp:42-59 | one pass of the loop keeps the loop state. A closing element leaves the output extended by the sample of the window plus that element, the window cleared and `TimeNext` advanced by one sample time. Any other element leaves the output and `TimeNext` unchanged and the element appended to the window |
| Resampling.SampleMeasurementsDown | src/Resampling.cpp:27-63 | empty input gives empty output; otherwise the windows it closed partition the input in order by the closing rule, output j is the sample of window j, 1 <= \|output\| <= \|input\|, and the last output carries the last input timestamp |
| Resampling.ClosingRuleTail | src/Resampling.cpp:58 | dropping the first window leaves windows that obey the closing rule from the next deadline on |
| Resampling.FirstWindowDetermined | src/Resampling.cpp:48 | a window is closed by its first element that reaches the deadline or the last timestamp, so two windows that start at the same place are equal |
| Resampling.FirstWindowShared | src/Resampling.cpp:45-57 | two cuts of the same elements by the closing rule share their first window, and the rest of each is a cut of the remaining elements from the next deadline |
| Resampling.WindowingUniqueFrom | src/Resampling.cpp:42-60 | two cuts of the same elements that both obey the closing rule from the same deadline are equal |
| Resampling.WindowingUnique | src/Resampling.cpp:42-60 | there is exactly one windowing of an input, so the windows (and with them the output) are determined by input and sample time |
| AppGnss.Graph.constructor | applications/App_GNSS.cpp:138 | a fresh graph has issued nothing and holds the given state means |
| AppGnss.Graph.Issue | applications/App_GNSS.cpp:43-49 | calling an external graph routine appends its command and leaves the state means as they are |
| AppGnss.Graph.AddStateVariable | applications/App_GNSS.cpp:115 | adding the position state appends `AddState` and gives the state a zero mean unless it already has one |
| AppGnss.PredictCommandsFacts | applications/App_GNSS.cpp:40-50 | `AddIMU` is issued iff IMU is active and `AddOdometry` iff odometry is active, over TimeOld to TimeNow, IMU first, and nothing else |
| AppGnss.Predict | applications/App_GNSS.cpp:34-51 | appends exactly the prediction commands and leaves the means unchanged |
| AppGnss.MeasureCommandsFacts | applications/App_GNSS.cpp:59-82 | `AddGNSS` is issued iff GNSS is active, and first. A `Prior3` prior is added iff the prior is active with type Prior3, on the position at TimeNow. Its center is the current mean with the height replaced by parameter 2, and its noise is the square-root information of the last three parameters |
| AppGnss.Measure | applications/App_GNSS.cpp:53-83 | appends exactly the measurement commands computed from the current means and leaves the means unchanged |
| AppGnss.InitCommandsCases | applications/App_GNSS.cpp:91-126 | the initialisation commands for each of the six GNSS / IMU / odometry cases, as explicit lists |
| AppGnss.InitCommandsFacts | applications/App_GNSS.cpp:93-109 | `InitWithGNSS(t, 0.1)` iff GNSS is active, and first; `InitIMU(t, 2.0)` iff IMU is active; `InitOdom` iff odometry is active and IMU is not |
| AppGnss.InitFallback | applications/App_GNSS.cpp:111-126 | with GNSS no state, prior or freeze is issued; without GNSS the last three commands are add position state, zero-centred prior with shared standard deviation 1.0, and freeze outside window 1.0 at TimeInitial |
| AppGnss.InitIssuesNoSolve | applications/App_GNSS.cpp:85-127 | initialisation issues no solve, no conversion and no motion factor |
| AppGnss.InitGraph | applications/App_GNSS.cpp:85-127 | appends exactly the initialisation commands; only the fallback adds a (zero) position mean; the tangent plane is initialised iff GNSS is active and a first fix exists |
| AppGnss.Trunc | applications/App_GNSS.cpp:191 | the truncated quotient is the integer next to x on the side of zero: at most x for non-negative x, at least x for negative x, and less than one away |
| AppGnss.Fmod60 | applications/App_GNSS.cpp:191 | C's `fmod(T, 60)` has the sign of T and is smaller than 60 in magnitude: in [0, 60) for T >= 0, in (-60, 0] for T < 0 |
| AppGnss.ForceSolve | applications/App_GNSS.cpp:191 | the force flag `fmod(TimeNow, 60) < (TimeNow - TimeOld) * 1.1`; on non-negative times a step that does not advance never forces, and a step of at least 60 / 1.1 always forces |
| AppGnss.FmodOfNonNegative | applications/App_GNSS.cpp:191 | for non-negative times, fmod(T, 60) is the floor-based remainder T - 60 floor(T/60) |
| AppGnss.FmodPeriodic | applications/App_GNSS.cpp:191 | fmod(T, 60) repeats every 60 time units on non-negative times |
| AppGnss.BoundaryNeverSkipped | applications/App_GNSS.cpp:191 | a step that reaches or crosses a multiple of 60 always forces the solve |
| AppGnss.FirstStepSolveNotAlwaysForced | applications/App_GNSS.cpp:165-191 | at the first timestamp (TimeOld = TimeFirst - 1) the solve is not forced when TimeFirst is 30 |
| AppGnss.ScheduleFacts | applications/App_GNSS.cpp:165-201 | on an increasing timeline, pass k is at timestamp k; it comes from TimeFirst - 1 for the first pass and from the previous timestamp afterwards, and TimeOld < TimeNow |
| AppGnss.StepsSnoc | applications/App_GNSS.cpp:168-201 | the loop's trace grows by one pass's commands per pass |
| AppGnss.RunStep | applications/App_GNSS.cpp:176-197 | one pass appends predict (after the first timestamp), measure, the extra graph solve (at the first timestamp), the solve with the fmod force flag, and a non-final save |
| AppGnss.UpdateLoop | applications/App_GNSS.cpp:164-201 | the do-while loop appends the commands of every pass over the timeline, in order, and leaves the means unchanged |
| AppGnss.Finish | applications/App_GNSS.cpp:203-219 | the end of the run appends a forced solve, a final save and, when GNSS is active and the frame initialised, the global conversion |
| AppGnss.CreateGraphAndSolve | applications/App_GNSS.cpp:129-226 | a missing first or last timestamp returns 1 with nothing issued; otherwise returns 0 with the trace of init, all passes and the final commands |
| AppGnss.StepFactorsFacts | applications/App_GNSS.cpp:176-183 | a pass adds only motion and measurement factors; motion factors exist only after the first timestamp, span the pass's TimeOld to TimeNow, and all come before the measurement factors |
| AppGnss.StepSolveFlags | applications/App_GNSS.cpp:185-197 | a pass calls the solve step exactly once, with its own force flag |
| AppGnss.StepsSolveFlags | applications/App_GNSS.cpp:168-201 | the loop calls the solve step once per pass, in order, each with that pass's force flag |
| AppGnss.FinalSolveFlags | applications/App_GNSS.cpp:204-219 | the end of the run calls the solve step once, forced |
| AppGnss.RunSolveFlags | applications/App_GNSS.cpp:165-207 | a run solves \|timeline\| + 1 times: at timestamp k forced iff fmod(TimeNow, 60) < 1.1 (TimeNow - TimeOld) with TimeOld starting at TimeFirst - 1, then once more, forced |
| AppGnss.StepPredicts | applications/App_GNSS.cpp:176-180 | a pass's motion factors exist only after the first timestamp and span that pass's interval |
| AppGnss.PredictNeverAtFirst | applications/App_GNSS.cpp:176-180 | across the loop, no motion factor is added at the first timestamp, and each spans the interval of one of the passes |
| AppGnss.StepGraphSolves | applications/App_GNSS.cpp:185-189 | a pass runs the extra graph solve once at the first timestamp and never otherwise |
| AppGnss.InitialGraphSolveOnce | applications/App_GNSS.cpp:185-189 | when only the first pass is at TimeFirst, the loop runs the extra graph solve exactly once |
| AppGnss.StepNeverConverts | applications/App_GNSS.cpp:168-201 | a pass never converts to the global frame |
| AppGnss.StepsNeverConvert | applications/App_GNSS.cpp:168-201 | the loop never converts to the global frame |
| AppGnss.RunConvertsIff | applications/App_GNSS.cpp:203-219 | a run converts to the global frame iff GNSS is active and the tangent plane was initialised; it ends with the forced solve and the final save, followed only by that conversion; when it converts, the conversion is the last command and occurs nowhere before it |

## Left out

- Resampling.SampleMeasurementsDown: requires every mean vector to have the size of the first and every covariance entry to be positive. The C++ code takes both for granted, through Eigen's sizes and through `cwiseInverse`, which yields infinities on zero entries.
- Resampling.AverageMeasurement: has the same requirement as SampleMeasurementsDown.
- Floating point: timestamps, means, covariances, the sums and `fmod` use exact reals, so IEEE rounding is not modelled.
- `PRINT_ERROR` on empty input is logging and is left out. `PrintProgress`, the iteration timer and the `Summary` record are also left out.
- AppGnss.Measure: requires that, when a Prior3 prior is configured, the position at TimeNow exists as a 3-D state and the parameter vector has at least three entries. The graph's `getStateData().getElement` and Eigen's `tail(3)` are not part of this model, so their behaviour on a missing state or a short vector is left out.
- AppGnss.CreateGraphAndSolve: requires the same of every timestamp of the run (`RunReady`).
- AppGnss.PriorReady: "the position at TimeNow exists" only means that the supplied state means have an entry for that key. No command that creates the state is required before it, so with only the prior active, a pass after the first timestamp issues `AddPrior3` on a position state that no `AddState`, motion or GNSS command has created. Which routine creates the position states is not part of this model.
- The state means the sensor routines produce are given to the graph as an input. Adding a state gives a zero mean unless the state already exists. The libRSF `FactorGraph` is not part of this model.
- The routines the application calls are recorded as commands only, and their effect on the graph is not modelled: `AddIMU`, `AddOdometry`, `AddGNSS`, `InitWithGNSS`, `InitIMU`, `InitOdom`, `Solve`, `Save`, `FactorGraph::solve`, `setAllConstantOutsideWindow` and `convertAllStatesToGlobal`. The nonlinear solver and robust noise models are left out with them.
- `GetFirstTimestamp`, `GetLastTimestamp` and `IncrementTime` are inputs: an optional first and last timestamp, and the list of timestamps the increment moves through.
  - `TimeLast` is an argument of `IncrementTime` (applications/App_GNSS.cpp:201), which decides when the do-while loop ends. Its stopping rule is abstracted into the given list of later timestamps, which the model does not relate to the last timestamp. Apart from that, the last timestamp feeds the progress output.
  - The first `GetFirstTimestamp` call, whose result is ignored, is not modelled separately.
  - Whether the tangent plane gets initialised is also an input.
- Reading the input file, writing the `_local` output file, `printReport`, `main` and command-line parsing are I/O and are left out.
