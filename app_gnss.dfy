/**
 * Control logic of the GNSS estimation application (libRSF, applications/App_GNSS.cpp).
 *
 * The factor graph and the sensor routines it is driven by are external; the
 * model records which graph operations are issued, in which order and with
 * which arguments, as an append-only log of commands.
 */
module AppGnss {

  datatype Option<T> = None | Some(value: T)

  /** Name of the position state variables. */
  const PositionState: string := "Position"

  /** Key of a state variable: name, timestamp and instance number. */
  datatype StateKey = StateKey(name: string, time: real, number: nat)

  function PositionKey(t: real): StateKey
  {
    StateKey(PositionState, t, 0)
  }

  datatype FactorType = Prior3 | OtherFactor(code: nat)

  /** Diagonal Gaussian noise, given by its square-root information or by one shared standard deviation. */
  datatype Noise = SqrtInformationDiagonal(diagonal: seq<real>) | StdDevSharedDiagonal(stdDev: real)

  /** The graph operations the application issues. */
  datatype Command =
    | InitWithGNSS(time: real, uncertainty: real)
    | InitIMU(time: real, duration: real)
    | InitOdom(odomType: FactorType, time: real)
    | AddIMU(timeOld: real, timeNow: real)
    | AddOdometry(odomType: FactorType, timeOld: real, timeNow: real)
    | AddGNSS(timeOld: real, timeNow: real)
    | AddState(key: StateKey)
    | AddPrior3(key: StateKey, center: seq<real>, noise: Noise)
    | FreezeOutsideWindow(window: real, time: real)
    | GraphSolve                // the solver run directly on the graph
    | Solve(force: bool)        // the application's solve step
    | Save(final: bool)
    | ConvertToGlobal

  datatype SensorConfig = SensorConfig(isActive: bool, factorType: FactorType, parameter: seq<real>)

  datatype Config = Config(gnss: SensorConfig, imu: SensorConfig, odom: SensorConfig, prior: SensorConfig)

  /**
   * What the run learns from the measurement set through external routines:
   * the first and last relevant timestamps (absent when they cannot be
   * found), the timestamps the time increment moves to after the first one,
   * and whether the first GNSS fix initialises the tangent plane.
   */
  datatype Measurements = Measurements(
    firstTimestamp: Option<real>,
    lastTimestamp: Option<real>,
    laterTimestamps: seq<real>,
    gnssFixAvailable: bool)

  const Zero3: seq<real> := [0.0, 0.0, 0.0]

  // ---------------------------------------------------------------------------
  // The factor graph, as seen by the application
  // ---------------------------------------------------------------------------

  /**
   * The graph: the log of operations issued on it, and the mean of each state
   * variable it holds. The means produced by the external sensor routines are
   * not computed here; the constructor receives them.
   */
  class Graph {
    var log: seq<Command>
    var means: map<StateKey, seq<real>>

    constructor (estimates: map<StateKey, seq<real>>)
      ensures log == [] && means == estimates
    {
      log := [];
      means := estimates;
    }

    /** An operation whose effect on the state means is not modelled. */
    method Issue(c: Command)
      modifies this
      ensures log == old(log) + [c]
      ensures means == old(means)
    {
      log := log + [c];
    }

    /** Adds a 3-D state with zero mean; an existing state keeps its mean. */
    method AddStateVariable(key: StateKey)
      modifies this
      ensures log == old(log) + [AddState(key)]
      ensures key in means
      ensures means == if key in old(means) then old(means) else old(means)[key := Zero3]
    {
      log := log + [AddState(key)];
      if key !in means {
        means := means[key := Zero3];
      }
    }
  }

  // ---------------------------------------------------------------------------
  // Predict
  // ---------------------------------------------------------------------------

  function PredictCommands(config: Config, timeOld: real, timeNow: real): seq<Command>
  {
    (if config.imu.isActive then [AddIMU(timeOld, timeNow)] else []) +
    (if config.odom.isActive then [AddOdometry(config.odom.factorType, timeOld, timeNow)] else [])
  }

  /** Which motion factors a prediction adds, and in which order. */
  lemma PredictCommandsFacts(config: Config, timeOld: real, timeNow: real, cs: seq<Command>)
    requires cs == PredictCommands(config, timeOld, timeNow)
    ensures AddIMU(timeOld, timeNow) in cs <==> config.imu.isActive
    ensures AddOdometry(config.odom.factorType, timeOld, timeNow) in cs <==> config.odom.isActive
    ensures |cs| == (if config.imu.isActive then 1 else 0) + (if config.odom.isActive then 1 else 0)
    ensures forall i :: 0 <= i < |cs| ==>
      cs[i] == AddIMU(timeOld, timeNow) || cs[i] == AddOdometry(config.odom.factorType, timeOld, timeNow)
    ensures forall i, j :: 0 <= i < j < |cs| ==> cs[i].AddIMU? && cs[j].AddOdometry?
  {
  }

  /** Motion factors from IMU, then from odometry, for the active sensors. */
  method Predict(g: Graph, config: Config, timeOld: real, timeNow: real)
    modifies g
    ensures g.log == old(g.log) + PredictCommands(config, timeOld, timeNow)
    ensures g.means == old(g.means)
  {
    if config.imu.isActive {
      g.Issue(AddIMU(timeOld, timeNow));
    }
    if config.odom.isActive {
      g.Issue(AddOdometry(config.odom.factorType, timeOld, timeNow));
    }
  }

  // ---------------------------------------------------------------------------
  // Measure
  // ---------------------------------------------------------------------------

  predicate PriorConfigured(config: Config)
  {
    config.prior.isActive && config.prior.factorType == Prior3
  }

  /** What the prior step reads: a 3-D position at timeNow and a parameter vector of at least three entries. */
  ghost predicate PriorReady(config: Config, means: map<StateKey, seq<real>>, timeNow: real)
  {
    PositionKey(timeNow) in means && |means[PositionKey(timeNow)]| == 3 && |config.prior.parameter| >= 3
  }

  function MeasureCommands(config: Config, timeOld: real, timeNow: real, means: map<StateKey, seq<real>>): seq<Command>
    requires PriorConfigured(config) ==> PriorReady(config, means, timeNow)
  {
    (if config.gnss.isActive then [AddGNSS(timeOld, timeNow)] else []) +
    (if PriorConfigured(config) then
       var p := config.prior.parameter;
       [AddPrior3(PositionKey(timeNow), means[PositionKey(timeNow)][2 := p[2]],
                  SqrtInformationDiagonal(p[|p| - 3..]))]
     else [])
  }

  /** Which measurement factors a step adds, and the prior's center and weight. */
  lemma MeasureCommandsFacts(config: Config, timeOld: real, timeNow: real, means: map<StateKey, seq<real>>, cs: seq<Command>)
    requires PriorConfigured(config) ==> PriorReady(config, means, timeNow)
    requires cs == MeasureCommands(config, timeOld, timeNow, means)
    ensures AddGNSS(timeOld, timeNow) in cs <==> config.gnss.isActive
    ensures |cs| == (if config.gnss.isActive then 1 else 0) + (if PriorConfigured(config) then 1 else 0)
    ensures forall i :: 0 <= i < |cs| ==> cs[i] == AddGNSS(timeOld, timeNow) || cs[i].AddPrior3?
    ensures config.gnss.isActive ==> cs[0] == AddGNSS(timeOld, timeNow)
    ensures PriorConfigured(config) ==>
      var p, m := config.prior.parameter, means[PositionKey(timeNow)];
      var c := cs[|cs| - 1];
      c.AddPrior3? && c.key == PositionKey(timeNow) &&
      |c.center| == 3 && c.center[0] == m[0] && c.center[1] == m[1] && c.center[2] == p[2] &&
      c.noise == SqrtInformationDiagonal(p[|p| - 3..])
  {
  }

  /**
   * GNSS factors when GNSS is active; then, when a Prior3 prior is configured,
   * a prior on the position at timeNow centred on its current mean with the
   * height replaced by parameter 2, weighted by the last three parameters.
   */
  method Measure(g: Graph, config: Config, timeOld: real, timeNow: real)
    requires PriorConfigured(config) ==> PriorReady(config, g.means, timeNow)
    modifies g
    ensures g.log == old(g.log) + MeasureCommands(config, timeOld, timeNow, old(g.means))
    ensures g.means == old(g.means)
  {
    if config.gnss.isActive {
      g.Issue(AddGNSS(timeOld, timeNow));
    }
    if config.prior.isActive && config.prior.factorType == Prior3 {
      var point := g.means[PositionKey(timeNow)];
      point := point[2 := config.prior.parameter[2]];
      var p := config.prior.parameter;
      var noise := SqrtInformationDiagonal(p[|p| - 3..]);
      g.Issue(AddPrior3(PositionKey(timeNow), point, noise));
    }
  }

  // ---------------------------------------------------------------------------
  // InitGraph
  // ---------------------------------------------------------------------------

  function InitCommands(config: Config, timeInitial: real): seq<Command>
  {
    (if config.gnss.isActive then [InitWithGNSS(timeInitial, 0.1)] else []) +
    (if config.imu.isActive then [InitIMU(timeInitial, 2.0)]
     else if config.odom.isActive then [InitOdom(config.odom.factorType, timeInitial)]
     else []) +
    (if !config.gnss.isActive then FallbackCommands(timeInitial) else [])
  }

  /** The commands of the fallback initialisation without GNSS. */
  function FallbackCommands(t: real): seq<Command>
  {
    [AddState(PositionKey(t)), AddPrior3(PositionKey(t), Zero3, StdDevSharedDiagonal(1.0)), FreezeOutsideWindow(1.0, t)]
  }

  /** Initialisation, configuration by configuration. */
  lemma InitCommandsCases(config: Config, t: real)
    ensures var gnss, imu, odom := config.gnss.isActive, config.imu.isActive, config.odom.isActive;
      var cs := InitCommands(config, t);
      (gnss && imu ==> cs == [InitWithGNSS(t, 0.1), InitIMU(t, 2.0)]) &&
      (gnss && !imu && odom ==> cs == [InitWithGNSS(t, 0.1), InitOdom(config.odom.factorType, t)]) &&
      (gnss && !imu && !odom ==> cs == [InitWithGNSS(t, 0.1)]) &&
      (!gnss && imu ==> cs == [InitIMU(t, 2.0)] + FallbackCommands(t)) &&
      (!gnss && !imu && odom ==> cs == [InitOdom(config.odom.factorType, t)] + FallbackCommands(t)) &&
      (!gnss && !imu && !odom ==> cs == FallbackCommands(t))
  {
    var gnss, imu, odom := config.gnss.isActive, config.imu.isActive, config.odom.isActive;
    var cs := InitCommands(config, t);
    if gnss {
      if imu {
        assert cs == [InitWithGNSS(t, 0.1), InitIMU(t, 2.0)];
      } else if odom {
        assert cs == [InitWithGNSS(t, 0.1), InitOdom(config.odom.factorType, t)];
      } else {
        assert cs == [InitWithGNSS(t, 0.1)];
      }
    } else {
      if imu {
        assert cs == [InitIMU(t, 2.0)] + FallbackCommands(t);
      } else if odom {
        assert cs == [InitOdom(config.odom.factorType, t)] + FallbackCommands(t);
      } else {
        assert cs == FallbackCommands(t);
      }
    }
  }

  /** Initialisation uses the first GNSS fix iff GNSS is active, IMU iff it is active, and odometry only without IMU. */
  lemma InitCommandsFacts(config: Config, timeInitial: real, cs: seq<Command>)
    requires cs == InitCommands(config, timeInitial)
    ensures InitWithGNSS(timeInitial, 0.1) in cs <==> config.gnss.isActive
    ensures config.gnss.isActive ==> cs[0] == InitWithGNSS(timeInitial, 0.1)
    ensures InitIMU(timeInitial, 2.0) in cs <==> config.imu.isActive
    ensures InitOdom(config.odom.factorType, timeInitial) in cs <==> config.odom.isActive && !config.imu.isActive
  {
    InitCommandsCases(config, timeInitial);
  }

  /** Without GNSS, initialisation ends with the fallback commands; with GNSS it issues none of their kinds. */
  lemma InitFallback(config: Config, timeInitial: real, cs: seq<Command>)
    requires cs == InitCommands(config, timeInitial)
    ensures config.gnss.isActive ==>
      forall i :: 0 <= i < |cs| ==> !cs[i].AddState? && !cs[i].AddPrior3? && !cs[i].FreezeOutsideWindow?
    ensures !config.gnss.isActive ==> |cs| >= 3 && cs[|cs| - 3..] == FallbackCommands(timeInitial)
  {
    InitCommandsCases(config, timeInitial);
  }

  /** Initialisation neither solves, nor converts, nor adds motion factors. */
  lemma InitIssuesNoSolve(config: Config, timeInitial: real, cs: seq<Command>)
    requires cs == InitCommands(config, timeInitial)
    ensures forall i :: 0 <= i < |cs| ==> !cs[i].Solve? && !cs[i].GraphSolve? && cs[i] != ConvertToGlobal
    ensures forall i :: 0 <= i < |cs| ==> !IsPredict(cs[i])
  {
    InitCommandsCases(config, timeInitial);
  }

  /** The state means after initialisation: the fallback adds a zero position unless one exists. */
  function MeansAfterInit(config: Config, means: map<StateKey, seq<real>>, timeInitial: real): map<StateKey, seq<real>>
  {
    if !config.gnss.isActive && PositionKey(timeInitial) !in means
    then means[PositionKey(timeInitial) := Zero3]
    else means
  }

  /**
   * Initialisation: from the first GNSS fix when GNSS is active; IMU bias
   * initialisation over 2 s, or else a rotation prior for odometry; without
   * GNSS, a position at the origin with a unit prior, followed by a freeze
   * outside a 1.0 window at TimeInitial.
   * Returns whether the tangent plane got initialised.
   */
  method InitGraph(g: Graph, data: Measurements, config: Config, timeInitial: real)
    returns (frameInitialized: bool)
    modifies g
    ensures g.log == old(g.log) + InitCommands(config, timeInitial)
    ensures g.means == MeansAfterInit(config, old(g.means), timeInitial)
    ensures frameInitialized <==> config.gnss.isActive && data.gnssFixAvailable
  {
    var isInitialized := false;
    frameInitialized := false;
    if config.gnss.isActive {
      g.Issue(InitWithGNSS(timeInitial, 0.1));
      frameInitialized := data.gnssFixAvailable;
      isInitialized := true;
    }
    if config.imu.isActive {
      g.Issue(InitIMU(timeInitial, 2.0));
    } else if config.odom.isActive {
      g.Issue(InitOdom(config.odom.factorType, timeInitial));
    }
    if !isInitialized {
      g.AddStateVariable(PositionKey(timeInitial));
      g.Issue(AddPrior3(PositionKey(timeInitial), Zero3, StdDevSharedDiagonal(1.0)));
      g.Issue(FreezeOutsideWindow(1.0, timeInitial));
    }
  }

  // ---------------------------------------------------------------------------
  // Solve scheduling
  // ---------------------------------------------------------------------------

  /** Truncation toward zero: the integer next to x on the side of zero. */
  function Trunc(x: real): (n: int)
    ensures x >= 0.0 ==> n as real <= x < n as real + 1.0
    ensures x < 0.0 ==> n as real - 1.0 < x <= n as real
  {
    if x >= 0.0 then x.Floor else -((-x).Floor)
  }

  /**
   * C's fmod with divisor 60, the only divisor the application uses: the
   * remainder of the quotient truncated toward zero, so it has the sign of x
   * and is smaller than 60 in magnitude.
   */
  function Fmod60(x: real): (r: real)
    ensures x >= 0.0 ==> 0.0 <= r < 60.0
    ensures x < 0.0 ==> -60.0 < r <= 0.0
  {
    x - 60.0 * Trunc(x / 60.0) as real
  }

  /**
   * A step's solve is forced when the current time is less than 1.1 step
   * lengths past a multiple of 60. On non-negative times: a step that does
   * not advance never forces it, and a step of at least 60 / 1.1 always does.
   */
  predicate ForceSolve(timeNow: real, timeOld: real)
    ensures timeNow >= 0.0 && timeOld >= timeNow ==> !ForceSolve(timeNow, timeOld)
    ensures timeNow >= 0.0 && (timeNow - timeOld) * 1.1 >= 60.0 ==> ForceSolve(timeNow, timeOld)
  {
    Fmod60(timeNow) < (timeNow - timeOld) * 1.1
  }

  /** On non-negative times, fmod(x, 60) is the floor-based remainder x - 60 floor(x / 60). */
  lemma FmodOfNonNegative(x: real)
    requires x >= 0.0
    ensures Fmod60(x) == x - 60.0 * (x / 60.0).Floor as real
  {
  }

  /** fmod(., 60) repeats every 60 time units on non-negative times. */
  lemma FmodPeriodic(x: real)
    requires x >= 0.0
    ensures Fmod60(x + 60.0) == Fmod60(x)
  {
    assert (x + 60.0) / 60.0 == x / 60.0 + 1.0;
    assert ((x + 60.0) / 60.0).Floor == (x / 60.0).Floor + 1;
  }

  /**
   * No multiple of 60 is skipped: a step from timeOld to timeNow >= 0 that
   * reaches or passes 60 m forces the solve.
   */
  lemma BoundaryNeverSkipped(timeOld: real, timeNow: real, m: int)
    requires timeNow >= 0.0
    requires timeOld < 60.0 * m as real <= timeNow
    ensures ForceSolve(timeNow, timeOld)
  {
    var q := (timeNow / 60.0).Floor;
    assert m as real <= timeNow / 60.0;
    assert m <= q;
    assert Fmod60(timeNow) == timeNow - 60.0 * q as real;
  }

  /** The first step's solve is not always forced: its step length is 1, so only times near a multiple of 60 force it. */
  lemma FirstStepSolveNotAlwaysForced()
    ensures !ForceSolve(30.0, 30.0 - 1.0)
  {
    assert (30.0 / 60.0).Floor == 0;
  }

  // ---------------------------------------------------------------------------
  // The update loop
  // ---------------------------------------------------------------------------

  /** TimeOld at pass k: one before the first timestamp at the start, then the previous timestamp. */
  function PreviousTime(timeFirst: real, times: seq<real>, k: nat): real
    requires k < |times|
  {
    if k == 0 then timeFirst - 1.0 else times[k - 1]
  }

  /** One pass of the loop: the time it comes from, the time it is at, and whether its solve is forced. */
  datatype Step = Step(timeOld: real, timeNow: real, force: bool)

  /** The pass of the loop at timeNow, coming from timeOld. */
  function StepAt(timeOld: real, timeNow: real): Step
  {
    Step(timeOld, timeNow, ForceSolve(timeNow, timeOld))
  }

  /** The passes of the loop over the timestamps, driven by the time increment. */
  function Schedule(timeFirst: real, times: seq<real>): seq<Step>
  {
    seq(|times|, k requires 0 <= k < |times| => StepAt(PreviousTime(timeFirst, times, k), times[k]))
  }

  /** Pass k is at timestamp k, comes from the timestamp before it (or from one before the first), and TimeOld < TimeNow on an increasing timeline. */
  lemma ScheduleFacts(timeFirst: real, times: seq<real>)
    requires times != [] && times[0] == timeFirst
    requires forall k :: 0 < k < |times| ==> times[k - 1] < times[k]
    ensures var steps := Schedule(timeFirst, times);
      |steps| == |times| &&
      (forall k :: 0 <= k < |times| ==> steps[k].timeNow == times[k] && steps[k].timeOld < steps[k].timeNow) &&
      steps[0].timeOld == timeFirst - 1.0 &&
      (forall k :: 0 < k < |times| ==> steps[k].timeOld == steps[k - 1].timeNow)
  {
  }

  ghost predicate PriorReadyAll(config: Config, means: map<StateKey, seq<real>>, steps: seq<Step>)
  {
    PriorConfigured(config) ==> forall k :: 0 <= k < |steps| ==> PriorReady(config, means, steps[k].timeNow)
  }

  predicate IsPredict(c: Command)
  {
    c.AddIMU? || c.AddOdometry?
  }

  predicate IsMeasure(c: Command)
  {
    c.AddGNSS? || c.AddPrior3?
  }

  /**
   * One pass: predict (not at the first timestamp), measure, an extra graph
   * solve at the first timestamp, the solve, then save.
   */
  function StepCommands(config: Config, timeFirst: real, step: Step, means: map<StateKey, seq<real>>): seq<Command>
    requires PriorConfigured(config) ==> PriorReady(config, means, step.timeNow)
  {
    (if step.timeNow > timeFirst then PredictCommands(config, step.timeOld, step.timeNow) else []) +
    MeasureCommands(config, step.timeOld, step.timeNow, means) +
    (if step.timeNow == timeFirst then [GraphSolve] else []) +
    [Solve(step.force), Save(false)]
  }

  /** The commands of the update loop, pass by pass. */
  function Steps(config: Config, timeFirst: real, steps: seq<Step>, means: map<StateKey, seq<real>>): seq<Command>
    requires PriorReadyAll(config, means, steps)
  {
    if steps == [] then []
    else
      var n := |steps| - 1;
      Steps(config, timeFirst, steps[..n], means) + StepCommands(config, timeFirst, steps[n], means)
  }

  /** Steps grows by one pass's commands per pass. */
  lemma StepsSnoc(config: Config, timeFirst: real, steps: seq<Step>, k: nat, means: map<StateKey, seq<real>>)
    requires PriorReadyAll(config, means, steps) && k < |steps|
    ensures PriorReadyAll(config, means, steps[..k]) && PriorReadyAll(config, means, steps[..k + 1])
    ensures Steps(config, timeFirst, steps[..k + 1], means) ==
            Steps(config, timeFirst, steps[..k], means) + StepCommands(config, timeFirst, steps[k], means)
  {
    assert steps[..k + 1][..k] == steps[..k];
  }

  function FinalCommands(config: Config, frameInitialized: bool): seq<Command>
  {
    [Solve(true), Save(true)] + (if config.gnss.isActive && frameInitialized then [ConvertToGlobal] else [])
  }

  /** All timestamps the loop visits. */
  function Timeline(timeFirst: real, data: Measurements): seq<real>
  {
    [timeFirst] + data.laterTimestamps
  }

  /** What the run needs of its inputs: a configured prior finds a 3-D position at every timestamp. */
  ghost predicate RunReady(config: Config, data: Measurements, estimates: map<StateKey, seq<real>>)
  {
    data.firstTimestamp.Some? ==>
      var t0 := data.firstTimestamp.value;
      PriorReadyAll(config, MeansAfterInit(config, estimates, t0), Schedule(t0, Timeline(t0, data)))
  }

  /** The whole command trace of a run whose first and last timestamps exist. */
  function RunCommands(config: Config, data: Measurements, estimates: map<StateKey, seq<real>>): seq<Command>
    requires RunReady(config, data, estimates) && data.firstTimestamp.Some?
  {
    var t0 := data.firstTimestamp.value;
    InitCommands(config, t0) +
    Steps(config, t0, Schedule(t0, Timeline(t0, data)), MeansAfterInit(config, estimates, t0)) +
    FinalCommands(config, config.gnss.isActive && data.gnssFixAvailable)
  }

  lemma AppendAssoc<T>(a: seq<T>, b: seq<T>, c: seq<T>)
    ensures a + b + c == a + (b + c)
  {
  }

  lemma AppendAssoc4<T>(a: seq<T>, b: seq<T>, c: seq<T>, d: seq<T>, x: T, y: T)
    ensures a + b + c + d + [x] + [y] == a + (b + c + d + [x, y])
  {
  }

  /** One pass of the update loop's body, at timeNow after timeOld. */
  method RunStep(g: Graph, config: Config, timeFirst: real, timeOld: real, timeNow: real)
    requires PriorConfigured(config) ==> PriorReady(config, g.means, timeNow)
    modifies g
    ensures g.log == old(g.log) + StepCommands(config, timeFirst, StepAt(timeOld, timeNow), old(g.means))
    ensures g.means == old(g.means)
  {
    ghost var before := g.log;
    ghost var predict := if timeNow > timeFirst then PredictCommands(config, timeOld, timeNow) else [];
    ghost var measure := MeasureCommands(config, timeOld, timeNow, g.means);
    ghost var initial := if timeNow == timeFirst then [GraphSolve] else [];
    if timeNow > timeFirst {
      Predict(g, config, timeOld, timeNow);
    }
    assert g.log == before + predict;
    Measure(g, config, timeOld, timeNow);
    if timeNow == timeFirst {
      g.Issue(GraphSolve);
    }
    var force := ForceSolve(timeNow, timeOld);
    g.Issue(Solve(force));
    g.Issue(Save(false));
    AppendAssoc4(before, predict, measure, initial, Solve(force), Save(false));
  }

  /**
   * The update loop, a do-while over the timestamps: each pass runs one step
   * and then advances the time to the next timestamp, leaving after the last.
   */
  method UpdateLoop(g: Graph, config: Config, timeFirst: real, times: seq<real>)
    requires times != [] && times[0] == timeFirst
    requires PriorReadyAll(config, g.means, Schedule(timeFirst, times))
    modifies g
    ensures g.log == old(g.log) + Steps(config, timeFirst, Schedule(timeFirst, times), old(g.means))
    ensures g.means == old(g.means)
  {
    ghost var means, start := g.means, g.log;
    ghost var steps := Schedule(timeFirst, times);
    var timeOld := timeFirst - 1.0;
    var timeNow := timeFirst;
    var k := 0;
    while true
      invariant 0 <= k < |times| && timeNow == times[k]
      invariant timeOld == PreviousTime(timeFirst, times, k)
      invariant g.means == means
      invariant g.log == start + Steps(config, timeFirst, steps[..k], means)
      decreases |times| - k
    {
      assert steps[k] == StepAt(timeOld, timeNow);
      RunStep(g, config, timeFirst, timeOld, timeNow);
      StepsSnoc(config, timeFirst, steps, k, means);
      AppendAssoc(start, Steps(config, timeFirst, steps[..k], means), StepCommands(config, timeFirst, steps[k], means));
      // the time increment: leave after the last timestamp, else move to the next one
      if k + 1 == |times| {
        assert steps[..k + 1] == steps;
        break;
      }
      assert PreviousTime(timeFirst, times, k + 1) == timeNow;
      timeOld, timeNow, k := timeNow, times[k + 1], k + 1;
    }
  }

  /** The end of the run: a forced solve, the final save, then the conversion to the global frame when possible. */
  method Finish(g: Graph, config: Config, frameInitialized: bool)
    modifies g
    ensures g.log == old(g.log) + FinalCommands(config, frameInitialized)
    ensures g.means == old(g.means)
  {
    g.Issue(Solve(true));
    g.Issue(Save(true));
    if config.gnss.isActive && frameInitialized {
      g.Issue(ConvertToGlobal);
    }
  }

  /**
   * The application's run: exit status 1 without touching the graph when the
   * first or last timestamp cannot be found; otherwise initialise, loop over
   * the timestamps (a do-while driven by the time increment), solve with force
   * and save the final result, convert to the global frame when GNSS is
   * active and the tangent plane was initialised, and return 0.
   */
  method CreateGraphAndSolve(config: Config, data: Measurements, estimates: map<StateKey, seq<real>>)
    returns (status: int, trace: seq<Command>)
    requires RunReady(config, data, estimates)
    ensures data.firstTimestamp.None? || data.lastTimestamp.None? ==> status == 1 && trace == []
    ensures data.firstTimestamp.Some? && data.lastTimestamp.Some? ==>
      status == 0 && trace == RunCommands(config, data, estimates)
  {
    if data.firstTimestamp.None? {
      return 1, [];
    }
    if data.lastTimestamp.None? {
      return 1, [];
    }
    var timeFirst := data.firstTimestamp.value;
    var g := new Graph(estimates);
    var frameInitialized := InitGraph(g, data, config, timeFirst);
    var times := Timeline(timeFirst, data);
    assert g.log == InitCommands(config, timeFirst);
    UpdateLoop(g, config, timeFirst, times);
    Finish(g, config, frameInitialized);
    status, trace := 0, g.log;
  }

  // ---------------------------------------------------------------------------
  // Properties of the run
  // ---------------------------------------------------------------------------

  /** The force flags of the Solve commands, in order. */
  function SolveFlags(cs: seq<Command>): seq<bool>
  {
    if cs == [] then []
    else (if cs[0].Solve? then [cs[0].force] else []) + SolveFlags(cs[1..])
  }

  lemma {:induction false} SolveFlagsAppend(a: seq<Command>, b: seq<Command>)
    ensures SolveFlags(a + b) == SolveFlags(a) + SolveFlags(b)
  {
    if a == [] {
      assert a + b == b;
    } else {
      assert (a + b)[0] == a[0];
      assert (a + b)[1..] == a[1..] + b;
      SolveFlagsAppend(a[1..], b);
      var head := if a[0].Solve? then [a[0].force] else [];
      calc {
        SolveFlags(a + b);
        head + SolveFlags(a[1..] + b);
        head + (SolveFlags(a[1..]) + SolveFlags(b));
        (head + SolveFlags(a[1..])) + SolveFlags(b);
      }
    }
  }

  lemma {:induction false} SolveFlagsNone(cs: seq<Command>)
    requires forall i :: 0 <= i < |cs| ==> !cs[i].Solve?
    ensures SolveFlags(cs) == []
  {
    if cs != [] {
      SolveFlagsNone(cs[1..]);
    }
  }

  /** The factors a pass adds before it solves: its prediction commands, then its measurement commands. */
  function StepFactors(config: Config, timeFirst: real, step: Step, means: map<StateKey, seq<real>>): seq<Command>
    requires PriorConfigured(config) ==> PriorReady(config, means, step.timeNow)
  {
    (if step.timeNow > timeFirst then PredictCommands(config, step.timeOld, step.timeNow) else []) +
    MeasureCommands(config, step.timeOld, step.timeNow, means)
  }

  /**
   * A pass's factors are motion and measurement factors; motion factors span
   * TimeOld to TimeNow and are only added after the first timestamp, and all
   * of them come before the measurement factors.
   */
  lemma StepFactorsFacts(config: Config, timeFirst: real, step: Step, means: map<StateKey, seq<real>>, cs: seq<Command>)
    requires PriorConfigured(config) ==> PriorReady(config, means, step.timeNow)
    requires cs == StepFactors(config, timeFirst, step, means)
    ensures forall i :: 0 <= i < |cs| ==> IsPredict(cs[i]) || IsMeasure(cs[i])
    ensures forall i :: 0 <= i < |cs| && IsPredict(cs[i]) ==>
      step.timeNow > timeFirst && cs[i].timeOld == step.timeOld && cs[i].timeNow == step.timeNow
    ensures forall i, j :: 0 <= i < j < |cs| && IsMeasure(cs[i]) ==> !IsPredict(cs[j])
  {
    var predict := if step.timeNow > timeFirst then PredictCommands(config, step.timeOld, step.timeNow) else [];
    var measure := MeasureCommands(config, step.timeOld, step.timeNow, means);
    PredictCommandsFacts(config, step.timeOld, step.timeNow, PredictCommands(config, step.timeOld, step.timeNow));
    MeasureCommandsFacts(config, step.timeOld, step.timeNow, means, measure);
    FactorsConcat(predict, measure, step.timeOld, step.timeNow);
  }

  /** Motion factors over one interval followed by measurement factors. */
  lemma FactorsConcat(predict: seq<Command>, measure: seq<Command>, timeOld: real, timeNow: real)
    requires forall i :: 0 <= i < |predict| ==>
      IsPredict(predict[i]) && predict[i].timeOld == timeOld && predict[i].timeNow == timeNow
    requires forall i :: 0 <= i < |measure| ==> IsMeasure(measure[i])
    ensures var cs := predict + measure;
      (forall i :: 0 <= i < |cs| ==> IsPredict(cs[i]) || IsMeasure(cs[i])) &&
      (forall i :: 0 <= i < |cs| && IsPredict(cs[i]) ==> i < |predict| && cs[i].timeOld == timeOld && cs[i].timeNow == timeNow) &&
      (forall i, j :: 0 <= i < j < |cs| && IsMeasure(cs[i]) ==> !IsPredict(cs[j]))
  {
    var cs := predict + measure;
    assert forall i :: 0 <= i < |predict| ==> cs[i] == predict[i];
    assert forall i :: |predict| <= i < |cs| ==> cs[i] == measure[i - |predict|];
  }

  lemma StepCommandsSplit(config: Config, timeFirst: real, step: Step, means: map<StateKey, seq<real>>)
    requires PriorConfigured(config) ==> PriorReady(config, means, step.timeNow)
    ensures StepCommands(config, timeFirst, step, means) ==
            StepFactors(config, timeFirst, step, means) +
            (if step.timeNow == timeFirst then [GraphSolve] else []) +
            [Solve(step.force), Save(false)]
  {
  }

  /** A pass solves exactly once, with its own force flag. */
  lemma StepSolveFlags(config: Config, timeFirst: real, step: Step, means: map<StateKey, seq<real>>)
    requires PriorConfigured(config) ==> PriorReady(config, means, step.timeNow)
    ensures SolveFlags(StepCommands(config, timeFirst, step, means)) == [step.force]
  {
    StepCommandsSplit(config, timeFirst, step, means);
    var factors := StepFactors(config, timeFirst, step, means);
    var initial := if step.timeNow == timeFirst then [GraphSolve] else [];
    var tail := [Solve(step.force), Save(false)];
    StepFactorsFacts(config, timeFirst, step, means, factors);
    SolveFlagsNone(factors + initial);
    SolveFlagsAppend(factors + initial, tail);
    assert SolveFlags(tail) == [step.force] by {
      assert tail[1..] == [Save(false)];
      assert SolveFlags([Save(false)]) == [] by {
        assert [Save(false)][1..] == [];
      }
      assert [step.force] + [] == [step.force];
    }
  }

  /** The loop solves once per pass, in order, with each pass's force flag. */
  lemma {:induction false} StepsSolveFlags(config: Config, timeFirst: real, steps: seq<Step>, means: map<StateKey, seq<real>>)
    requires PriorReadyAll(config, means, steps)
    ensures |SolveFlags(Steps(config, timeFirst, steps, means))| == |steps|
    ensures forall k :: 0 <= k < |steps| ==> SolveFlags(Steps(config, timeFirst, steps, means))[k] == steps[k].force
  {
    if steps != [] {
      var n := |steps| - 1;
      var prefix := Steps(config, timeFirst, steps[..n], means);
      StepsSolveFlags(config, timeFirst, steps[..n], means);
      StepSolveFlags(config, timeFirst, steps[n], means);
      SolveFlagsAppend(prefix, StepCommands(config, timeFirst, steps[n], means));
      var flags := SolveFlags(prefix) + [steps[n].force];
      assert SolveFlags(Steps(config, timeFirst, steps, means)) == flags;
      forall k | 0 <= k < |steps|
        ensures flags[k] == steps[k].force
      {
        if k < n {
          assert steps[..n][k] == steps[k];
        }
      }
    }
  }

  lemma FinalSolveFlags(config: Config, frameInitialized: bool)
    ensures SolveFlags(FinalCommands(config, frameInitialized)) == [true]
  {
    var fin := FinalCommands(config, frameInitialized);
    assert fin[1..][1..] == if config.gnss.isActive && frameInitialized then [ConvertToGlobal] else [];
    assert SolveFlags(fin[1..][1..]) == [] by {
      SolveFlagsNone(fin[1..][1..]);
    }
  }

  /**
   * The solves of a whole run: one per timestamp, forced iff
   * fmod(TimeNow, 60) < 1.1 (TimeNow - TimeOld), then a final forced solve.
   */
  lemma RunSolveFlags(config: Config, data: Measurements, estimates: map<StateKey, seq<real>>)
    requires RunReady(config, data, estimates) && data.firstTimestamp.Some?
    ensures var flags := SolveFlags(RunCommands(config, data, estimates));
            var times := Timeline(data.firstTimestamp.value, data);
            |flags| == |times| + 1 && flags[|times|] &&
            forall k :: 0 <= k < |times| ==> flags[k] == ForceSolve(times[k], PreviousTime(times[0], times, k))
  {
    var t0 := data.firstTimestamp.value;
    var times := Timeline(t0, data);
    var steps := Schedule(t0, times);
    var means := MeansAfterInit(config, estimates, t0);
    var init := InitCommands(config, t0);
    var loop := Steps(config, t0, steps, means);
    var fin := FinalCommands(config, config.gnss.isActive && data.gnssFixAvailable);
    var flags := SolveFlags(loop);
    assert SolveFlags(RunCommands(config, data, estimates)) == flags + [true] by {
      InitIssuesNoSolve(config, t0, init);
      SolveFlagsNone(init);
      FinalSolveFlags(config, config.gnss.isActive && data.gnssFixAvailable);
      SolveFlagsAppend(init, loop);
      SolveFlagsAppend(init + loop, fin);
      assert [] + flags == flags;
    }
    StepsSolveFlags(config, t0, steps, means);
    forall k | 0 <= k < |times|
      ensures (flags + [true])[k] == ForceSolve(times[k], PreviousTime(times[0], times, k))
    {
      assert (flags + [true])[k] == flags[k] == steps[k].force;
    }
  }

  lemma StepPredicts(config: Config, timeFirst: real, step: Step, means: map<StateKey, seq<real>>)
    requires PriorConfigured(config) ==> PriorReady(config, means, step.timeNow)
    ensures var cs := StepCommands(config, timeFirst, step, means);
      forall i :: 0 <= i < |cs| && IsPredict(cs[i]) ==>
        step.timeNow > timeFirst && cs[i].timeOld == step.timeOld && cs[i].timeNow == step.timeNow
  {
    StepCommandsSplit(config, timeFirst, step, means);
    var factors := StepFactors(config, timeFirst, step, means);
    StepFactorsFacts(config, timeFirst, step, means, factors);
    var cs := StepCommands(config, timeFirst, step, means);
    assert forall i :: 0 <= i < |factors| ==> cs[i] == factors[i];
  }

  /** Every prediction command of cs spans the TimeOld and TimeNow of a pass after the first timestamp. */
  ghost predicate PredictsAfterFirst(cs: seq<Command>, timeFirst: real, steps: seq<Step>)
  {
    forall i :: 0 <= i < |cs| && IsPredict(cs[i]) ==>
      cs[i].timeNow > timeFirst && exists k :: 0 <= k < |steps| && steps[k] == Step(cs[i].timeOld, cs[i].timeNow, steps[k].force)
  }

  /** The loop never predicts at the first timestamp, and predicts only over the intervals of its passes. */
  lemma {:induction false} PredictNeverAtFirst(config: Config, timeFirst: real, steps: seq<Step>,
                                               means: map<StateKey, seq<real>>)
    requires PriorReadyAll(config, means, steps)
    ensures PredictsAfterFirst(Steps(config, timeFirst, steps, means), timeFirst, steps)
  {
    if steps != [] {
      var n := |steps| - 1;
      PredictNeverAtFirst(config, timeFirst, steps[..n], means);
      var prefix := Steps(config, timeFirst, steps[..n], means);
      var step := StepCommands(config, timeFirst, steps[n], means);
      StepPredicts(config, timeFirst, steps[n], means);
      var cs := prefix + step;
      forall i | 0 <= i < |cs| && IsPredict(cs[i])
        ensures cs[i].timeNow > timeFirst &&
                exists k :: 0 <= k < |steps| && steps[k] == Step(cs[i].timeOld, cs[i].timeNow, steps[k].force)
      {
        if i < |prefix| {
          assert cs[i] == prefix[i];
          var k :| 0 <= k < n && steps[..n][k] == Step(cs[i].timeOld, cs[i].timeNow, steps[..n][k].force);
          assert steps[k] == steps[..n][k];
        } else {
          assert cs[i] == step[i - |prefix|];
          assert steps[n] == Step(cs[i].timeOld, cs[i].timeNow, steps[n].force);
        }
      }
    }
  }

  /** The number of occurrences of c in cs. */
  function Count(cs: seq<Command>, c: Command): nat
  {
    if cs == [] then 0 else (if cs[0] == c then 1 else 0) + Count(cs[1..], c)
  }

  lemma {:induction false} CountAppend(a: seq<Command>, b: seq<Command>, c: Command)
    ensures Count(a + b, c) == Count(a, c) + Count(b, c)
  {
    if a == [] {
      assert a + b == b;
    } else {
      assert (a + b)[0] == a[0];
      assert (a + b)[1..] == a[1..] + b;
      CountAppend(a[1..], b, c);
    }
  }

  lemma {:induction false} CountAbsent(cs: seq<Command>, c: Command)
    requires c !in cs
    ensures Count(cs, c) == 0
  {
    if cs != [] {
      assert cs[1..] <= cs || c !in cs[1..];
      CountAbsent(cs[1..], c);
    }
  }

  lemma StepGraphSolves(config: Config, timeFirst: real, step: Step, means: map<StateKey, seq<real>>)
    requires PriorConfigured(config) ==> PriorReady(config, means, step.timeNow)
    ensures Count(StepCommands(config, timeFirst, step, means), GraphSolve) == if step.timeNow == timeFirst then 1 else 0
  {
    StepCommandsSplit(config, timeFirst, step, means);
    var factors := StepFactors(config, timeFirst, step, means);
    var initial := if step.timeNow == timeFirst then [GraphSolve] else [];
    var tail := [Solve(step.force), Save(false)];
    StepFactorsFacts(config, timeFirst, step, means, factors);
    CountAbsent(factors, GraphSolve);
    CountAbsent(tail, GraphSolve);
    CountAppend(factors, initial, GraphSolve);
    CountAppend(factors + initial, tail, GraphSolve);
    assert Count(initial, GraphSolve) == if step.timeNow == timeFirst then 1 else 0 by {
      if step.timeNow == timeFirst {
        assert initial[1..] == [];
      }
    }
  }

  /** The extra graph solve happens once per pass at the first timestamp: once when only the first pass is there. */
  lemma {:induction false} InitialGraphSolveOnce(config: Config, timeFirst: real, steps: seq<Step>,
                                                 means: map<StateKey, seq<real>>)
    requires PriorReadyAll(config, means, steps)
    requires steps != [] && steps[0].timeNow == timeFirst
    requires forall k :: 0 < k < |steps| ==> steps[k].timeNow > timeFirst
    ensures Count(Steps(config, timeFirst, steps, means), GraphSolve) == 1
  {
    var n := |steps| - 1;
    var step := StepCommands(config, timeFirst, steps[n], means);
    StepGraphSolves(config, timeFirst, steps[n], means);
    if n == 0 {
      assert Steps(config, timeFirst, steps[..0], means) == [];
      CountAppend([], step, GraphSolve);
    } else {
      InitialGraphSolveOnce(config, timeFirst, steps[..n], means);
      CountAppend(Steps(config, timeFirst, steps[..n], means), step, GraphSolve);
    }
  }

  lemma StepNeverConverts(config: Config, timeFirst: real, step: Step, means: map<StateKey, seq<real>>)
    requires PriorConfigured(config) ==> PriorReady(config, means, step.timeNow)
    ensures ConvertToGlobal !in StepCommands(config, timeFirst, step, means)
  {
    StepCommandsSplit(config, timeFirst, step, means);
    var factors := StepFactors(config, timeFirst, step, means);
    StepFactorsFacts(config, timeFirst, step, means, factors);
  }

  /** The update loop never converts to the global frame. */
  lemma {:induction false} StepsNeverConvert(config: Config, timeFirst: real, steps: seq<Step>,
                                             means: map<StateKey, seq<real>>)
    requires PriorReadyAll(config, means, steps)
    ensures ConvertToGlobal !in Steps(config, timeFirst, steps, means)
  {
    if steps != [] {
      var n := |steps| - 1;
      StepsNeverConvert(config, timeFirst, steps[..n], means);
      StepNeverConverts(config, timeFirst, steps[n], means);
    }
  }

  /**
   * A run converts its result to the global frame iff GNSS is active and the
   * tangent plane was initialised, and does so once, as its last operation
   * after the final forced solve and final save.
   */
  lemma RunConvertsIff(config: Config, data: Measurements, estimates: map<StateKey, seq<real>>)
    requires RunReady(config, data, estimates) && data.firstTimestamp.Some?
    ensures var cs := RunCommands(config, data, estimates);
      (ConvertToGlobal in cs <==> config.gnss.isActive && data.gnssFixAvailable) &&
      var n := if config.gnss.isActive && data.gnssFixAvailable then 3 else 2;
      |cs| >= n && cs[|cs| - n] == Solve(true) && cs[|cs| - n + 1] == Save(true)
    ensures var cs := RunCommands(config, data, estimates);
      config.gnss.isActive && data.gnssFixAvailable ==>
        cs[|cs| - 1] == ConvertToGlobal && ConvertToGlobal !in cs[..|cs| - 1]
  {
    var t0 := data.firstTimestamp.value;
    var steps := Schedule(t0, Timeline(t0, data));
    var means := MeansAfterInit(config, estimates, t0);
    var init := InitCommands(config, t0);
    var loop := Steps(config, t0, steps, means);
    var fin := FinalCommands(config, config.gnss.isActive && data.gnssFixAvailable);
    assert ConvertToGlobal !in init + loop by {
      InitIssuesNoSolve(config, t0, init);
      StepsNeverConvert(config, t0, steps, means);
    }
    var cs := (init + loop) + fin;
    assert ConvertToGlobal in fin <==> config.gnss.isActive && data.gnssFixAvailable;
    assert cs[|init + loop|] == fin[0] && cs[|init + loop| + 1] == fin[1];
    if config.gnss.isActive && data.gnssFixAvailable {
      assert cs[..|cs| - 1] == (init + loop) + [Solve(true), Save(true)];
    }
  }
}
