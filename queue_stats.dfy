/**
 * The stats endpoint: turns each queue adapter's raw metrics sample into a
 * normalised QueueMetrics record (average job time in a chosen timeframe
 * unit, completion rate in jobs per minute) and returns one record per queue.
 * The wall clock is the parameter `now` (epoch milliseconds).
 */
module QueueStats {
  import opened Wrappers
  import opened JsNumbers
  import opened Responses

  /** Optional sample-index bounds handed to every adapter (not a time range). */
  datatype StatsRange = StatsRange(start: Option<int>, end: Option<int>)

  /** How an adapter's stats call settles: with a sample (or none), or rejected. */
  datatype Fetched = Resolved(sample: Option<Metrics>) | Rejected(reason: string)

  /** A queue adapter's `getStats(start, end)`. */
  type Adapter = StatsRange -> Fetched

  /** The query of a stats request. */
  datatype StatsQuery = StatsQuery(start: Option<int>, end: Option<int>, timeframe: string)

  /** What the handler returns: the response body. */
  datatype StatsReply = StatsReply(body: GetMetricsResponse)

  /** Number of seconds in one unit of `timeframe`; any unknown token counts as a minute. */
  function TimeframeInSeconds(timeframe: string): (seconds: real)
    ensures seconds > 0.0
    ensures seconds == 1.0 <==> timeframe == "sec"
    ensures seconds == 3600.0 <==> timeframe == "hour"
    ensures seconds == 86400.0 <==> timeframe == "day"
    ensures seconds == 60.0 <==> timeframe != "sec" && timeframe != "hour" && timeframe != "day"
  {
    if timeframe == "sec" then 1.0
    else if timeframe == "min" then 60.0
    else if timeframe == "hour" then 3600.0
    else if timeframe == "day" then 86400.0
    else 60.0
  }

  /** Reference sum of a sequence, peeling off its last element. */
  function Sum(data: seq<real>): real
  {
    if data == [] then 0.0 else Sum(data[..|data| - 1]) + data[|data| - 1]
  }

  lemma {:induction false} SumCons(x: real, data: seq<real>)
    ensures Sum([x] + data) == x + Sum(data)
  {
    if data != [] {
      var n := |data|;
      assert ([x] + data)[..n] == [x] + data[..n - 1];
      SumCons(x, data[..n - 1]);
    } else {
      assert [x] + data == [x];
      assert [x][..0] == [];
    }
  }

  /**
   * `data.reduce((acc, x) => acc + x, acc)`: a left-to-right running total,
   * which agrees with the reference sum.
   */
  function Reduce(acc: real, data: seq<real>): (total: real)
    ensures total == acc + Sum(data)
    decreases |data|
  {
    if data == [] then acc
    else
      assert data == [data[0]] + data[1..];
      SumCons(data[0], data[1..]);
      Reduce(acc + data[0], data[1..])
  }

  /** Mean of the duration samples in seconds, 0 for an empty sample. */
  function AverageJobTimeInSeconds(data: seq<real>): (mean: real)
    ensures |data| == 0 ==> mean == 0.0
    ensures |data| > 0 ==> mean == Sum(data) / (|data| as real)
  {
    if |data| > 0 then Reduce(0.0, data) / (|data| as real) else 0.0
  }

  /** Mean duration converted into the unit `timeframe`. */
  function AverageJobTime(data: seq<real>, timeframe: string): (r: real)
    ensures |data| == 0 ==> r == 0.0
  {
    AverageJobTimeInSeconds(data) / TimeframeInSeconds(timeframe)
  }

  /**
   * Jobs processed since the checkpoint divided by the minutes elapsed since
   * it. When time has passed the rate is finite and, times the elapsed
   * minutes, gives back the count difference whatever its sign. Nothing
   * guards a zero elapsed time: the rate is then NaN when no job was
   * processed and an infinity with the sign of the difference otherwise.
   */
  function CompletionRate(meta: MetricsMeta, now: int): (rate: Num)
    ensures rate.Finite? <==> now != meta.prevTS
    ensures rate.Finite? ==>
      rate.value * ((now - meta.prevTS) as real / 60000.0) == (meta.count - meta.prevCount) as real
    ensures rate.NaN? <==> now == meta.prevTS && meta.count == meta.prevCount
    ensures rate.Infinity? ==> rate.negative == (meta.count < meta.prevCount)
  {
    var elapsedSeconds := (now - meta.prevTS) as real / 1000.0;
    var processed := (meta.count - meta.prevCount) as real;
    assert elapsedSeconds / 60.0 == (now - meta.prevTS) as real / 60000.0;
    Divide(processed, elapsedSeconds / 60.0)
  }

  /** The record for one queue, given what its adapter resolved with. */
  function NormaliseQueue(queueName: string, sample: Option<Metrics>, timeframe: string, now: int): (r: QueueMetrics)
    ensures r.queueName == queueName
    ensures r.metrics == sample
    ensures sample.None? ==> r.averageJobTime == 0.0 && r.averageCompletionRate == Finite(0.0)
    ensures sample.Some? ==>
      r.averageJobTime == AverageJobTime(sample.value.data, timeframe) &&
      r.averageCompletionRate == CompletionRate(sample.value.meta, now)
  {
    match sample
    case Some(m) =>
      QueueMetrics(queueName, sample, AverageJobTime(m.data, timeframe), CompletionRate(m.meta, now))
    case None =>
      QueueMetrics(queueName, None, 0.0, Finite(0.0))
  }

  /** Calls the adapter of one (name, adapter) pair with the requested sample range. */
  function FetchStats(pair: (string, Adapter), range: StatsRange): Fetched
  {
    pair.1(range)
  }

  /**
   * `Promise.all` over the pairs: one record per pair, in input order, or a
   * rejection as soon as any adapter call rejects.
   */
  function GetStats(pairs: seq<(string, Adapter)>, timeframe: string, range: StatsRange, now: int)
    : (r: Result<seq<QueueMetrics>, string>)
    ensures r.Success? <==> forall i :: 0 <= i < |pairs| ==> FetchStats(pairs[i], range).Resolved?
    ensures r.Failure? ==> exists i :: 0 <= i < |pairs| && FetchStats(pairs[i], range) == Rejected(r.error)
    ensures r.Success? ==> |r.value| == |pairs|
    ensures r.Success? ==> forall i :: 0 <= i < |pairs| ==>
      r.value[i].queueName == pairs[i].0 &&
      r.value[i] == NormaliseQueue(pairs[i].0, FetchStats(pairs[i], range).sample, timeframe, now)
  {
    if pairs == [] then Success([])
    else
      match FetchStats(pairs[0], range)
      case Rejected(reason) => Failure(reason)
      case Resolved(sample) =>
        match GetStats(pairs[1..], timeframe, range, now)
        case Failure(reason) => Failure(reason)
        case Success(rest) => Success([NormaliseQueue(pairs[0].0, sample, timeframe, now)] + rest)
  }

  /** Wraps a settled list of records as the endpoint's reply. */
  function ToReply(stats: Result<seq<QueueMetrics>, string>): Result<StatsReply, string>
  {
    match stats
    case Success(list) => Success(StatsReply(GetMetricsResponse(list)))
    case Failure(reason) => Failure(reason)
  }

  /**
   * The stats endpoint: with no queues it answers an empty list without
   * calling any adapter, otherwise it answers GetStats' list.
   */
  function QueueStatsHandler(queues: seq<(string, Adapter)>, query: StatsQuery, now: int)
    : (r: Result<StatsReply, string>)
    ensures |queues| == 0 ==> r == Success(StatsReply(GetMetricsResponse([])))
    ensures r == ToReply(GetStats(queues, query.timeframe, StatsRange(query.start, query.end), now))
  {
    if |queues| > 0 then ToReply(GetStats(queues, query.timeframe, StatsRange(query.start, query.end), now))
    else Success(StatsReply(GetMetricsResponse([])))
  }

  // Properties of the normalisation

  /** A sum of samples that are all at least `lo` is at least |data| times `lo`. */
  lemma {:induction false} SumAtLeast(data: seq<real>, lo: real)
    requires forall i :: 0 <= i < |data| ==> lo <= data[i]
    ensures (|data| as real) * lo <= Sum(data)
  {
    if data != [] {
      SumAtLeast(data[..|data| - 1], lo);
    }
  }

  /** A sum of samples that are all at most `hi` is at most |data| times `hi`. */
  lemma {:induction false} SumAtMost(data: seq<real>, hi: real)
    requires forall i :: 0 <= i < |data| ==> data[i] <= hi
    ensures Sum(data) <= (|data| as real) * hi
  {
    if data != [] {
      SumAtMost(data[..|data| - 1], hi);
    }
  }

  /**
   * The average job time is a genuine mean: scaled back to seconds it lies
   * between the smallest and largest sample.
   */
  lemma AverageJobTimeWithinSamples(data: seq<real>, timeframe: string, lo: real, hi: real)
    requires |data| > 0
    requires forall i :: 0 <= i < |data| ==> lo <= data[i] <= hi
    ensures lo <= AverageJobTime(data, timeframe) * TimeframeInSeconds(timeframe) <= hi
  {
    SumAtLeast(data, lo);
    SumAtMost(data, hi);
    var n := |data| as real;
    var avg := Sum(data) / n;
    assert avg * n == Sum(data);
    assert lo * n <= avg * n <= hi * n;
    assert AverageJobTime(data, timeframe) * TimeframeInSeconds(timeframe) == avg;
  }

  /** Non-negative durations give a non-negative average job time. */
  lemma AverageJobTimeNonNegative(data: seq<real>, timeframe: string)
    requires forall i :: 0 <= i < |data| ==> 0.0 <= data[i]
    ensures AverageJobTime(data, timeframe) >= 0.0
  {
    if |data| > 0 {
      SumAtLeast(data, 0.0);
    }
  }

  /** Scaled back to seconds and multiplied by the sample count, the average job time is the samples' sum. */
  lemma AverageJobTimeRecoversSum(data: seq<real>, timeframe: string)
    requires |data| > 0
    ensures AverageJobTime(data, timeframe) * TimeframeInSeconds(timeframe) * (|data| as real) == Sum(data)
  {
    CancelUnit(Sum(data), |data| as real, TimeframeInSeconds(timeframe),
               AverageJobTimeInSeconds(data), AverageJobTime(data, timeframe));
  }

  /** Dividing by the unit and multiplying back by unit and count recovers the total. */
  lemma CancelUnit(total: real, n: real, t: real, inSeconds: real, a: real)
    requires n > 0.0 && t > 0.0 && inSeconds == total / n && a == inSeconds / t
    ensures a * t * n == total
  {
    assert a * t == inSeconds;
  }

  /** Changing the timeframe only rescales: the average in seconds is the same for every unit. */
  lemma AverageJobTimeRescales(data: seq<real>, timeframe: string)
    ensures AverageJobTime(data, timeframe) * TimeframeInSeconds(timeframe) == AverageJobTime(data, "sec")
  {
  }

  /** An unrecognised timeframe token behaves exactly like "min". */
  lemma UnknownTimeframeIsMinute(data: seq<real>, timeframe: string)
    requires timeframe !in {"sec", "min", "hour", "day"}
    ensures AverageJobTime(data, timeframe) == AverageJobTime(data, "min")
  {
  }

  /** Samples of 30, 60 and 90 seconds average one minute, or a sixtieth of an hour. */
  lemma AverageJobTimeExamples()
    ensures AverageJobTime([30.0, 60.0, 90.0], "min") == 1.0
    ensures AverageJobTime([30.0, 60.0, 90.0], "hour") == 60.0 / 3600.0
  {
    assert Sum([30.0, 60.0, 90.0]) == 180.0 by {
      assert [30.0, 60.0, 90.0][..2] == [30.0, 60.0];
      assert [30.0, 60.0][..1] == [30.0];
      assert [30.0][..0] == [];
    }
  }

  /** Ten jobs in the last sixty seconds make a rate of ten per minute. */
  lemma CompletionRateExample(now: int)
    ensures CompletionRate(MetricsMeta(110, now - 60000, 100), now) == Finite(10.0)
  {
  }

  /** A counter that went backwards gives a negative rate; nothing clamps it. */
  lemma CompletionRateNegativeDifference(meta: MetricsMeta, now: int)
    requires now > meta.prevTS && meta.count < meta.prevCount
    ensures CompletionRate(meta, now).Finite? && CompletionRate(meta, now).value < 0.0
  {
  }
}
