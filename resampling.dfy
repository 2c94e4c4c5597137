/**
 * Down-sampling of timestamped sensor measurements (libRSF, src/Resampling.cpp).
 *
 * A measurement carries a timestamp, a mean vector, a diagonal covariance and
 * further fields that averaging does not look at. Arithmetic is exact (`real`).
 */
module Resampling {

  /** The fields of a sensor record that averaging copies from the last element. */
  datatype Attributes = Attributes(dataType: nat, extra: seq<real>)

  datatype SensorData = SensorData(
    timestamp: real,
    mean: seq<real>,
    covariance: seq<real>,   // the diagonal of the covariance matrix
    attributes: Attributes)

  /** A default-constructed measurement. */
  const DefaultSensorData := SensorData(0.0, [], [], Attributes(0, []))

  function Last<T>(s: seq<T>): T
    requires s != []
  {
    s[|s| - 1]
  }

  /**
   * What averaging needs: every mean vector has the size of the first one, so
   * does every covariance diagonal, and every covariance entry is positive (so
   * that its element-wise inverse exists).
   */
  ghost predicate WellFormed(w: seq<SensorData>)
  {
    forall i :: 0 <= i < |w| ==>
      |w[i].mean| == |w[0].mean| &&
      |w[i].covariance| == |w[0].covariance| &&
      forall k :: 0 <= k < |w[i].covariance| ==> w[i].covariance[k] > 0.0
  }

  // ---------------------------------------------------------------------------
  // Sums, columns and vector helpers
  // ---------------------------------------------------------------------------

  /** Left-to-right sum, in the order the averaging loop accumulates. */
  function Sum(xs: seq<real>): real
  {
    if xs == [] then 0.0 else Sum(xs[..|xs| - 1]) + Last(xs)
  }

  function Timestamps(w: seq<SensorData>): seq<real>
  {
    seq(|w|, i requires 0 <= i < |w| => w[i].timestamp)
  }

  /** Component k of every mean vector. */
  function MeanColumn(w: seq<SensorData>, k: nat): seq<real>
    requires forall i :: 0 <= i < |w| ==> k < |w[i].mean|
  {
    seq(|w|, i requires 0 <= i < |w| => w[i].mean[k])
  }

  /** Component k of every information (inverse covariance) diagonal. */
  function InfoColumn(w: seq<SensorData>, k: nat): seq<real>
    requires forall i :: 0 <= i < |w| ==> k < |w[i].covariance| && w[i].covariance[k] > 0.0
  {
    seq(|w|, i requires 0 <= i < |w| => 1.0 / w[i].covariance[k])
  }

  /** The summed information of component k; positive as soon as the window is not empty. */
  function InfoSum(w: seq<SensorData>, k: nat): (s: real)
    requires forall i :: 0 <= i < |w| ==> k < |w[i].covariance| && w[i].covariance[k] > 0.0
    ensures s >= 0.0
    ensures w != [] ==> s > 0.0
    ensures forall i :: 0 <= i < |w| ==> s >= 1.0 / w[i].covariance[k]
  {
    if w == [] then 0.0
    else
      var c := Last(w).covariance[k];
      assert 1.0 / c > 0.0;
      InfoSum(w[..|w| - 1], k) + 1.0 / c
  }

  lemma {:induction false} InfoSumIsSum(w: seq<SensorData>, k: nat)
    requires forall i :: 0 <= i < |w| ==> k < |w[i].covariance| && w[i].covariance[k] > 0.0
    ensures InfoSum(w, k) == Sum(InfoColumn(w, k))
  {
    if w != [] {
      var w' := w[..|w| - 1];
      InfoSumIsSum(w', k);
      assert InfoColumn(w, k)[..|w| - 1] == InfoColumn(w', k);
    }
  }

  function Zeros(n: nat): (v: seq<real>)
  {
    seq(n, k requires 0 <= k < n => 0.0)
  }

  function AddVectors(a: seq<real>, b: seq<real>): seq<real>
    requires |a| == |b|
  {
    seq(|a|, k requires 0 <= k < |a| => a[k] + b[k])
  }

  function CwiseInverse(v: seq<real>): seq<real>
    requires forall k :: 0 <= k < |v| ==> v[k] != 0.0
  {
    seq(|v|, k requires 0 <= k < |v| => 1.0 / v[k])
  }

  // ---------------------------------------------------------------------------
  // AverageMeasurement
  // ---------------------------------------------------------------------------

  /**
   * The averaged measurement: empty window gives the default measurement, a
   * single element is returned as is; otherwise the mean of the timestamps,
   * the component-wise mean of the mean vectors, the component-wise inverse of
   * the summed inverse covariances, and every other field of the last element.
   */
  function Average(w: seq<SensorData>): SensorData
    requires WellFormed(w)
  {
    if |w| == 0 then DefaultSensorData
    else if |w| == 1 then w[0]
    else
      var n := |w| as real;
      var d, e := |w[0].mean|, |w[0].covariance|;
      SensorData(
        Sum(Timestamps(w)) / n,
        seq(d, k requires 0 <= k < d => Sum(MeanColumn(w, k)) / n),
        seq(e, k requires 0 <= k < e => 1.0 / InfoSum(w, k)),
        Last(w).attributes)
  }

  /** Extending the accumulated prefix by input[i] adds its timestamp, its mean and its information. */
  lemma AccumulateStep(input: seq<SensorData>, i: nat)
    requires WellFormed(input) && i < |input|
    ensures Sum(Timestamps(input[..i + 1])) == Sum(Timestamps(input[..i])) + input[i].timestamp
    ensures forall k :: 0 <= k < |input[0].mean| ==>
      Sum(MeanColumn(input[..i + 1], k)) == Sum(MeanColumn(input[..i], k)) + input[i].mean[k]
    ensures forall k :: 0 <= k < |input[0].covariance| ==>
      InfoSum(input[..i + 1], k) == InfoSum(input[..i], k) + 1.0 / input[i].covariance[k]
  {
    assert input[..i + 1][..i] == input[..i];
    assert Timestamps(input[..i + 1])[..i] == Timestamps(input[..i]);
    forall k | 0 <= k < |input[0].mean|
      ensures Sum(MeanColumn(input[..i + 1], k)) == Sum(MeanColumn(input[..i], k)) + input[i].mean[k]
    {
      assert MeanColumn(input[..i + 1], k)[..i] == MeanColumn(input[..i], k);
    }
  }

  /** The accumulation loop: sums of the timestamps, of every mean component and of every information component. */
  method Accumulate(input: seq<SensorData>) returns (time: real, mean: seq<real>, info: seq<real>)
    requires WellFormed(input) && input != []
    ensures time == Sum(Timestamps(input))
    ensures |mean| == |input[0].mean| && forall k :: 0 <= k < |mean| ==> mean[k] == Sum(MeanColumn(input, k))
    ensures |info| == |input[0].covariance| && forall k :: 0 <= k < |info| ==> info[k] == InfoSum(input, k)
  {
    var d, e := |input[0].mean|, |input[0].covariance|;
    time := 0.0;
    mean := Zeros(d);
    info := Zeros(e);
    var i := 0;
    while i < |input|
      invariant 0 <= i <= |input|
      invariant time == Sum(Timestamps(input[..i]))
      invariant |mean| == d && forall k :: 0 <= k < d ==> mean[k] == Sum(MeanColumn(input[..i], k))
      invariant |info| == e && forall k :: 0 <= k < e ==> info[k] == InfoSum(input[..i], k)
    {
      var m := input[i];
      AccumulateStep(input, i);
      time := time + m.timestamp;
      mean := AddVectors(mean, m.mean);
      info := AddVectors(info, CwiseInverse(m.covariance));
      i := i + 1;
    }
    assert input[..i] == input;
  }

  /** Averaging: an empty window and a single element are handled first; otherwise accumulate, then divide. */
  method AverageMeasurement(input: seq<SensorData>) returns (r: SensorData)
    requires WellFormed(input)
    ensures r == Average(input)
    ensures input == [] ==> r == DefaultSensorData
    ensures |input| == 1 ==> r == input[0]
    ensures input != [] ==> r.attributes == Last(input).attributes
  {
    if |input| == 0 {
      return DefaultSensorData;
    }
    if |input| == 1 {
      return input[0];
    }
    var time, mean, info := Accumulate(input);
    var n := |input| as real;
    mean := seq(|mean|, k requires 0 <= k < |mean| => mean[k] / n);
    time := time / n;
    forall k | 0 <= k < |info|
      ensures info[k] > 0.0
    {
    }
    r := Last(input).(timestamp := time, mean := mean, covariance := CwiseInverse(info));
  }

  // ---------------------------------------------------------------------------
  // Properties of the average
  // ---------------------------------------------------------------------------

  /** Every term of a sum lies in [lo, hi], so the sum lies in [n lo, n hi]. */
  lemma {:induction false} SumBounds(xs: seq<real>, lo: real, hi: real)
    requires forall i :: 0 <= i < |xs| ==> lo <= xs[i] <= hi
    ensures |xs| as real * lo <= Sum(xs) <= |xs| as real * hi
  {
    if xs != [] {
      var xs' := xs[..|xs| - 1];
      SumBounds(xs', lo, hi);
      var n' := |xs'| as real;
      assert |xs| as real * lo == n' * lo + lo;
      assert |xs| as real * hi == n' * hi + hi;
    }
  }

  lemma MeanOfBounded(xs: seq<real>, lo: real, hi: real)
    requires xs != []
    requires forall i :: 0 <= i < |xs| ==> lo <= xs[i] <= hi
    ensures lo <= Sum(xs) / |xs| as real <= hi
  {
    SumBounds(xs, lo, hi);
    var n := |xs| as real;
    assert Sum(xs) / n * n == Sum(xs);
  }

  /** The averaged timestamp lies between the smallest and the largest timestamp of the window. */
  lemma AverageTimeWithinWindow(w: seq<SensorData>, lo: real, hi: real)
    requires WellFormed(w) && w != []
    requires forall i :: 0 <= i < |w| ==> lo <= w[i].timestamp <= hi
    ensures lo <= Average(w).timestamp <= hi
  {
    if |w| > 1 {
      MeanOfBounded(Timestamps(w), lo, hi);
    }
  }

  /** Each averaged mean component lies between the smallest and largest value of that component. */
  lemma AverageMeanWithinWindow(w: seq<SensorData>, k: nat, lo: real, hi: real)
    requires WellFormed(w) && w != [] && k < |w[0].mean|
    requires forall i :: 0 <= i < |w| ==> lo <= w[i].mean[k] <= hi
    ensures |Average(w).mean| == |w[0].mean|
    ensures lo <= Average(w).mean[k] <= hi
  {
    if |w| > 1 {
      MeanOfBounded(MeanColumn(w, k), lo, hi);
    }
  }

  /** Averaging measurements that agree on their mean keeps that mean. */
  lemma AverageOfEqualMeans(w: seq<SensorData>, m: seq<real>)
    requires WellFormed(w) && w != []
    requires forall i :: 0 <= i < |w| ==> w[i].mean == m
    ensures Average(w).mean == m
  {
    if |w| > 1 {
      forall k | 0 <= k < |m|
        ensures Average(w).mean[k] == m[k]
      {
        MeanOfBounded(MeanColumn(w, k), m[k], m[k]);
      }
    }
  }

  /**
   * Information fusion: the averaged covariance is the inverse of the summed
   * information, it is positive, and it is no larger than the covariance of
   * any element of the window.
   */
  lemma InverseOfLarger(s: real, c: real)
    requires c > 0.0 && s >= 1.0 / c
    ensures s > 0.0 && 1.0 / s <= c
  {
    assert 1.0 / c > 0.0;
    assert s * c >= (1.0 / c) * c == 1.0;
  }

  lemma AverageCovarianceAt(w: seq<SensorData>, k: nat)
    requires WellFormed(w) && |w| >= 2 && k < |w[0].covariance|
    ensures |Average(w).covariance| == |w[0].covariance|
    ensures Average(w).covariance[k] == 1.0 / InfoSum(w, k)
  {
  }

  lemma AverageFusesInformation(w: seq<SensorData>, k: nat)
    requires WellFormed(w) && |w| >= 2 && k < |w[0].covariance|
    ensures |Average(w).covariance| == |w[0].covariance|
    ensures Sum(InfoColumn(w, k)) > 0.0
    ensures Average(w).covariance[k] == 1.0 / Sum(InfoColumn(w, k))
    ensures Average(w).covariance[k] > 0.0
    ensures forall i :: 0 <= i < |w| ==> Average(w).covariance[k] <= w[i].covariance[k]
  {
    InfoSumIsSum(w, k);
    AverageCovarianceAt(w, k);
    var s := InfoSum(w, k);
    forall i | 0 <= i < |w|
      ensures 1.0 / s <= w[i].covariance[k]
    {
      InverseOfLarger(s, w[i].covariance[k]);
    }
  }

  // ---------------------------------------------------------------------------
  // SampleMeasurementsDown
  // ---------------------------------------------------------------------------

  /**
   * TimeNext after j flushes: the first timestamp plus one sample time, then
   * one more sample time per flush. With a non-negative sample time no
   * deadline comes before the first one.
   */
  function {:induction false} Deadline(t0: real, sampleTime: real, j: nat): (d: real)
    ensures sampleTime >= 0.0 ==> d >= t0 + sampleTime
    ensures sampleTime <= 0.0 ==> d <= t0 + sampleTime
  {
    if j == 0 then t0 + sampleTime else Deadline(t0, sampleTime, j - 1) + sampleTime
  }

  lemma {:induction false} DeadlineClosedForm(t0: real, sampleTime: real, j: nat)
    ensures Deadline(t0, sampleTime, j) == t0 + (j + 1) as real * sampleTime
  {
    if j > 0 {
      DeadlineClosedForm(t0, sampleTime, j - 1);
      assert (j + 1) as real * sampleTime == j as real * sampleTime + sampleTime;
    }
  }

  /**
   * A measurement with timestamp t closes window j. The last timestamp closes
   * every window; with a non-negative sample time, no other timestamp before
   * the first deadline closes any window.
   */
  predicate Closes(t: real, t0: real, sampleTime: real, tMax: real, j: nat)
    ensures t == tMax ==> Closes(t, t0, sampleTime, tMax, j)
    ensures sampleTime >= 0.0 && t < t0 + sampleTime && t != tMax ==> !Closes(t, t0, sampleTime, tMax, j)
  {
    t >= Deadline(t0, sampleTime, j) || t == tMax
  }

  function Concat<T>(ws: seq<seq<T>>): seq<T>
  {
    if ws == [] then [] else Concat(ws[..|ws| - 1]) + Last(ws)
  }

  /**
   * The windows, numbered from j0, follow the closing rule: none is empty, the
   * last element of window j closes it, and no earlier element of it does.
   */
  ghost predicate ClosingRule(ws: seq<seq<SensorData>>, t0: real, sampleTime: real, tMax: real, j0: nat)
  {
    forall j :: 0 <= j < |ws| ==>
      ws[j] != [] &&
      Closes(Last(ws[j]).timestamp, t0, sampleTime, tMax, j0 + j) &&
      forall i :: 0 <= i < |ws[j]| - 1 ==> !Closes(ws[j][i].timestamp, t0, sampleTime, tMax, j0 + j)
  }

  /** ws cuts the input, in order and without loss, into the windows the closing rule gives. */
  ghost predicate IsWindowing(input: seq<SensorData>, sampleTime: real, ws: seq<seq<SensorData>>)
  {
    Concat(ws) == input &&
    (forall j :: 0 <= j < |ws| ==> ws[j] != []) &&
    (input != [] ==> ClosingRule(ws, input[0].timestamp, sampleTime, Last(input).timestamp, 0))
  }

  /** The emitted sample for a window: its average, stamped with the window's last timestamp. */
  function Sample(window: seq<SensorData>): SensorData
    requires WellFormed(window) && window != []
  {
    Average(window).(timestamp := Last(window).timestamp)
  }

  lemma {:induction false} ConcatFront<T>(w: seq<T>, ws: seq<seq<T>>)
    ensures Concat([w] + ws) == w + Concat(ws)
  {
    if ws != [] {
      var ws' := ws[..|ws| - 1];
      assert ([w] + ws)[..|ws|] == [w] + ws';
      ConcatFront(w, ws');
    }
  }

  lemma {:induction false} ConcatLength<T>(ws: seq<seq<T>>)
    requires forall j :: 0 <= j < |ws| ==> ws[j] != []
    ensures |Concat(ws)| >= |ws|
    ensures ws != [] ==> Concat(ws) != [] && Last(Concat(ws)) == Last(Last(ws))
  {
    if ws != [] {
      ConcatLength(ws[..|ws| - 1]);
    }
  }

  /** output holds one sample per window, in order. */
  ghost predicate SampledAll(output: seq<SensorData>, ws: seq<seq<SensorData>>)
  {
    |output| == |ws| &&
    forall j :: 0 <= j < |ws| ==> ws[j] != [] && WellFormed(ws[j]) && output[j] == Sample(ws[j])
  }

  lemma SampledSnoc(output: seq<SensorData>, ws: seq<seq<SensorData>>, w: seq<SensorData>, s: SensorData)
    requires SampledAll(output, ws)
    requires w != [] && WellFormed(w) && s == Sample(w)
    ensures SampledAll(output + [s], ws + [w])
  {
    assert forall j :: 0 <= j < |ws| ==> (ws + [w])[j] == ws[j] && (output + [s])[j] == output[j];
  }

  /**
   * Loop state of the down-sampling: the windows closed so far cut
   * input[..start] by the closing rule, and each of them can be averaged.
   */
  ghost predicate Flushed(input: seq<SensorData>, ws: seq<seq<SensorData>>, start: nat,
                          t0: real, sampleTime: real, tMax: real)
  {
    start <= |input| &&
    Concat(ws) == input[..start] &&
    ClosingRule(ws, t0, sampleTime, tMax, 0) &&
    forall j :: 0 <= j < |ws| ==> WellFormed(ws[j])
  }

  /** Closing the window input[start..end] keeps the loop state. */
  lemma FlushStep(input: seq<SensorData>, ws: seq<seq<SensorData>>, start: nat, end: nat,
                  t0: real, sampleTime: real, tMax: real)
    requires WellFormed(input)
    requires Flushed(input, ws, start, t0, sampleTime, tMax)
    requires start < end <= |input|
    requires Closes(input[end - 1].timestamp, t0, sampleTime, tMax, |ws|)
    requires forall k :: start <= k < end - 1 ==> !Closes(input[k].timestamp, t0, sampleTime, tMax, |ws|)
    ensures WellFormed(input[start..end])
    ensures Flushed(input, ws + [input[start..end]], end, t0, sampleTime, tMax)
  {
    var w := input[start..end];
    WellFormedSlice(input, start, end);
    assert (ws + [w])[..|ws|] == ws;
    assert input[..start] + w == input[..end];
    forall k | 0 <= k < |w| - 1
      ensures !Closes(w[k].timestamp, t0, sampleTime, tMax, |ws|)
    {
      assert w[k] == input[start + k];
    }
  }

  /** Once the whole input is flushed, the windows form the windowing of the input. */
  lemma FlushedAll(input: seq<SensorData>, ws: seq<seq<SensorData>>, sampleTime: real)
    requires input != []
    requires Flushed(input, ws, |input|, input[0].timestamp, sampleTime, Last(input).timestamp)
    ensures IsWindowing(input, sampleTime, ws)
    ensures 1 <= |ws| <= |input|
    ensures Last(Last(ws)) == Last(input)
  {
    assert input[..|input|] == input;
    ConcatLength(ws);
  }

  lemma WellFormedSlice(input: seq<SensorData>, lo: nat, hi: nat)
    requires WellFormed(input) && lo <= hi <= |input|
    ensures WellFormed(input[lo..hi])
  {
    var s := input[lo..hi];
    forall i | 0 <= i < |s|
      ensures |s[i].mean| == |s[0].mean| && |s[i].covariance| == |s[0].covariance|
    {
      assert s[i] == input[lo + i] && s[0] == input[lo];
    }
  }

  /**
   * The state of the down-sampling loop before input[i] is pushed: the
   * windows closed so far cut input[..start] by the closing rule and have
   * been sampled into output, the open window holds input[start..i], none of
   * whose elements closes it, and TimeNext is the deadline of the next window.
   */
  ghost predicate LoopState(input: seq<SensorData>, sampleTime: real, output: seq<SensorData>,
                            windows: seq<seq<SensorData>>, start: nat, i: nat,
                            window: seq<SensorData>, timeNext: real)
  {
    input != [] && start <= i <= |input| && window == input[start..i] &&
    var t0, tMax := input[0].timestamp, Last(input).timestamp;
    timeNext == Deadline(t0, sampleTime, |windows|) &&
    Flushed(input, windows, start, t0, sampleTime, tMax) &&
    (forall k :: start <= k < i ==> !Closes(input[k].timestamp, t0, sampleTime, tMax, |windows|)) &&
    SampledAll(output, windows)
  }

  lemma LoopStart(input: seq<SensorData>, sampleTime: real)
    requires input != []
    ensures LoopState(input, sampleTime, [], [], 0, 0, [], input[0].timestamp + sampleTime)
  {
  }

  /** Pushing input[i] into the open window, when it does not close it. */
  lemma LoopKeep(input: seq<SensorData>, sampleTime: real, output: seq<SensorData>,
                 windows: seq<seq<SensorData>>, start: nat, i: nat, window: seq<SensorData>, timeNext: real)
    requires LoopState(input, sampleTime, output, windows, start, i, window, timeNext) && i < |input|
    requires !(input[i].timestamp >= timeNext || input[i].timestamp == Last(input).timestamp)
    ensures LoopState(input, sampleTime, output, windows, start, i + 1, window + [input[i]], timeNext)
  {
    assert input[start..i + 1] == input[start..i] + [input[i]];
  }

  /** Pushing input[i] into the open window, when it closes it: the window is sampled and a new one opens. */
  lemma LoopFlush(input: seq<SensorData>, sampleTime: real, output: seq<SensorData>,
                  windows: seq<seq<SensorData>>, start: nat, i: nat, window: seq<SensorData>, timeNext: real)
    requires WellFormed(input)
    requires LoopState(input, sampleTime, output, windows, start, i, window, timeNext) && i < |input|
    requires input[i].timestamp >= timeNext || input[i].timestamp == Last(input).timestamp
    ensures WellFormed(window + [input[i]])
    ensures forall s :: s == Sample(window + [input[i]]) ==>
      LoopState(input, sampleTime, output + [s], windows + [window + [input[i]]], i + 1, i + 1, [],
                timeNext + sampleTime)
  {
    var t0, tMax := input[0].timestamp, Last(input).timestamp;
    assert input[start..i + 1] == window + [input[i]];
    FlushStep(input, windows, start, i + 1, t0, sampleTime, tMax);
    forall s | s == Sample(window + [input[i]])
      ensures SampledAll(output + [s], windows + [window + [input[i]]])
    {
      SampledSnoc(output, windows, window + [input[i]], s);
    }
  }

  /** When the loop has pushed every element, its windows are the windowing of the input and output samples them. */
  lemma LoopDone(input: seq<SensorData>, sampleTime: real, output: seq<SensorData>,
                 windows: seq<seq<SensorData>>, start: nat, window: seq<SensorData>, timeNext: real)
    requires LoopState(input, sampleTime, output, windows, start, |input|, window, timeNext)
    ensures IsWindowing(input, sampleTime, windows)
    ensures SampledAll(output, windows)
    ensures 1 <= |output| <= |input|
    ensures Last(output).timestamp == Last(input).timestamp
  {
    var t0, tMax := input[0].timestamp, Last(input).timestamp;
    if start < |input| {
      assert false;
    }
    FlushedAll(input, windows, sampleTime);
  }

  /** Averages a closed window and stamps the average with the window's last timestamp. */
  method SampleWindow(window: seq<SensorData>) returns (sample: SensorData)
    requires WellFormed(window) && window != []
    ensures sample == Sample(window)
  {
    var averaged := AverageMeasurement(window);
    sample := averaged.(timestamp := Last(window).timestamp);
  }

  /**
   * One pass of the down-sampling loop: push input[i] into the window; when
   * it closes the window, emit the window's sample, clear the window and
   * advance TimeNext by one sample time.
   */
  method Push(input: seq<SensorData>, sampleTime: real, output: seq<SensorData>, ghost windows: seq<seq<SensorData>>,
              ghost start: nat, i: nat, window: seq<SensorData>, timeNext: real, timeMax: real)
    returns (output': seq<SensorData>, ghost windows': seq<seq<SensorData>>, ghost start': nat,
             window': seq<SensorData>, timeNext': real)
    requires WellFormed(input)
    requires LoopState(input, sampleTime, output, windows, start, i, window, timeNext) && i < |input|
    requires timeMax == Last(input).timestamp
    ensures LoopState(input, sampleTime, output', windows', start', i + 1, window', timeNext')
    ensures input[i].timestamp >= timeNext || input[i].timestamp == timeMax ==>
      output' == output + [Sample(window + [input[i]])] && window' == [] && timeNext' == timeNext + sampleTime
    ensures !(input[i].timestamp >= timeNext || input[i].timestamp == timeMax) ==>
      output' == output && window' == window + [input[i]] && timeNext' == timeNext
  {
    var sensor := input[i];
    if sensor.timestamp >= timeNext || sensor.timestamp == timeMax {
      LoopFlush(input, sampleTime, output, windows, start, i, window, timeNext);
      var closed := window + [sensor];
      var sample := SampleWindow(closed);
      output', windows', start', window', timeNext' := output + [sample], windows + [closed], i + 1, [], timeNext + sampleTime;
    } else {
      LoopKeep(input, sampleTime, output, windows, start, i, window, timeNext);
      output', windows', start', window', timeNext' := output, windows, start, window + [sensor], timeNext;
    }
  }

  /**
   * The down-sampling loop. Each input element is pushed into the averaging
   * window; an element whose timestamp reaches TimeNext or equals the last
   * timestamp closes the window, which is averaged, stamped with its last
   * timestamp and emitted, and TimeNext advances by one sample time.
   */
  method SampleMeasurementsDown(input: seq<SensorData>, sampleTime: real)
    returns (output: seq<SensorData>, ghost windows: seq<seq<SensorData>>)
    requires WellFormed(input)
    ensures input == [] ==> output == []
    ensures IsWindowing(input, sampleTime, windows)
    ensures |output| == |windows|
    ensures forall j :: 0 <= j < |windows| ==> WellFormed(windows[j]) && output[j] == Sample(windows[j])
    ensures input != [] ==> 1 <= |output| <= |input|
    ensures input != [] ==> Last(output).timestamp == Last(input).timestamp
  {
    output, windows := [], [];
    if input == [] {
      return;
    }
    var timeNext := input[0].timestamp + sampleTime;
    var tMax := Last(input).timestamp;
    var window: seq<SensorData> := [];
    ghost var start := 0;
    LoopStart(input, sampleTime);
    var i := 0;
    while i < |input|
      invariant LoopState(input, sampleTime, output, windows, start, i, window, timeNext)
    {
      output, windows, start, window, timeNext := Push(input, sampleTime, output, windows, start, i, window, timeNext, tMax);
      i := i + 1;
    }
    LoopDone(input, sampleTime, output, windows, start, window, timeNext);
  }

  // ---------------------------------------------------------------------------
  // The closing rule determines the windows
  // ---------------------------------------------------------------------------

  /** Dropping the first window of a windowing numbered from j0 leaves one numbered from j0 + 1. */
  lemma ClosingRuleTail(ws: seq<seq<SensorData>>, t0: real, sampleTime: real, tMax: real, j0: nat)
    requires ws != [] && ClosingRule(ws, t0, sampleTime, tMax, j0)
    ensures ClosingRule(ws[1..], t0, sampleTime, tMax, j0 + 1)
  {
    forall j | 0 <= j < |ws| - 1
      ensures ws[1..][j] == ws[j + 1]
    {
    }
  }

  /** Two windows that both start an input and both obey the rule for the same window index are equal. */
  lemma FirstWindowDetermined(xs: seq<SensorData>, a: seq<SensorData>, b: seq<SensorData>,
                              t0: real, sampleTime: real, tMax: real, j: nat)
    requires a != [] && b != [] && |a| <= |xs| && |b| <= |xs|
    requires a == xs[..|a|] && b == xs[..|b|]
    requires Closes(Last(a).timestamp, t0, sampleTime, tMax, j)
    requires forall i :: 0 <= i < |a| - 1 ==> !Closes(a[i].timestamp, t0, sampleTime, tMax, j)
    requires Closes(Last(b).timestamp, t0, sampleTime, tMax, j)
    requires forall i :: 0 <= i < |b| - 1 ==> !Closes(b[i].timestamp, t0, sampleTime, tMax, j)
    ensures a == b
  {
    if |a| < |b| {
      assert false;
    }
    if |b| < |a| {
      assert false;
    }
  }

  /** Two windowings of the same elements share their first window, and what follows it is again two windowings. */
  lemma FirstWindowShared(
    xs: seq<SensorData>, ws1: seq<seq<SensorData>>, ws2: seq<seq<SensorData>>,
    t0: real, sampleTime: real, tMax: real, j0: nat)
    requires ws1 != [] && ws2 != []
    requires Concat(ws1) == xs && Concat(ws2) == xs
    requires ClosingRule(ws1, t0, sampleTime, tMax, j0)
    requires ClosingRule(ws2, t0, sampleTime, tMax, j0)
    ensures ws1[0] == ws2[0] && |ws1[0]| <= |xs|
    ensures Concat(ws1[1..]) == xs[|ws1[0]|..] == Concat(ws2[1..])
    ensures ClosingRule(ws1[1..], t0, sampleTime, tMax, j0 + 1)
    ensures ClosingRule(ws2[1..], t0, sampleTime, tMax, j0 + 1)
  {
    var a, r1 := ws1[0], ws1[1..];
    var b, r2 := ws2[0], ws2[1..];
    assert ws1 == [a] + r1 && ws2 == [b] + r2;
    ConcatFront(a, r1);
    ConcatFront(b, r2);
    FirstWindowDetermined(xs, a, b, t0, sampleTime, tMax, j0);
    ClosingRuleTail(ws1, t0, sampleTime, tMax, j0);
    ClosingRuleTail(ws2, t0, sampleTime, tMax, j0);
  }

  lemma {:induction false} WindowingUniqueFrom(
    xs: seq<SensorData>, ws1: seq<seq<SensorData>>, ws2: seq<seq<SensorData>>,
    t0: real, sampleTime: real, tMax: real, j0: nat)
    requires Concat(ws1) == xs && Concat(ws2) == xs
    requires ClosingRule(ws1, t0, sampleTime, tMax, j0)
    requires ClosingRule(ws2, t0, sampleTime, tMax, j0)
    ensures ws1 == ws2
    decreases |xs|
  {
    if ws1 == [] || ws2 == [] {
      ConcatLength(ws1);
      ConcatLength(ws2);
    } else {
      FirstWindowShared(xs, ws1, ws2, t0, sampleTime, tMax, j0);
      WindowingUniqueFrom(xs[|ws1[0]|..], ws1[1..], ws2[1..], t0, sampleTime, tMax, j0 + 1);
      assert ws1 == [ws1[0]] + ws1[1..] && ws2 == [ws2[0]] + ws2[1..];
    }
  }

  /** There is only one way to cut an input into windows by the closing rule. */
  lemma WindowingUnique(input: seq<SensorData>, sampleTime: real, ws1: seq<seq<SensorData>>, ws2: seq<seq<SensorData>>)
    requires IsWindowing(input, sampleTime, ws1) && IsWindowing(input, sampleTime, ws2)
    ensures ws1 == ws2
  {
    if input == [] {
      ConcatLength(ws1);
      ConcatLength(ws2);
    } else {
      WindowingUniqueFrom(input, ws1, ws2, input[0].timestamp, sampleTime, Last(input).timestamp, 0);
    }
  }
}
