/**
 * Record shapes exchanged between the stats handler and the dashboard:
 * the queue backend's raw metrics sample, the per-queue normalised record
 * and the two response bodies.
 */
module Responses {
  import opened Wrappers
  import opened JsNumbers

  /**
   * Checkpoint metadata of a raw sample: the cumulative number of processed
   * jobs, and the counter value and epoch-millisecond timestamp at the
   * previous checkpoint.
   */
  datatype MetricsMeta = MetricsMeta(count: int, prevTS: int, prevCount: int)

  /**
   * A queue backend's raw metrics sample: one value per one-minute bucket,
   * starting at `meta.prevTS`, plus the checkpoint metadata and the number of
   * buckets the backend holds in total.
   */
  datatype Metrics = Metrics(meta: MetricsMeta, data: seq<real>, count: int)

  /**
   * The normalised stats of one queue. `metrics` is the raw sample or absent;
   * `averageJobTime` is in the requested timeframe unit; `averageCompletionRate`
   * is in jobs per minute and can be NaN or infinite (see QueueStats.CompletionRate).
   */
  datatype QueueMetrics = QueueMetrics(
    queueName: string,
    metrics: Option<Metrics>,
    averageJobTime: real,
    averageCompletionRate: Num)

  /** Body of the stats endpoint. */
  datatype GetMetricsResponse = GetMetricsResponse(queues: seq<QueueMetrics>)

  /** A queue as listed by the queue-list endpoint; only its name is modelled. */
  datatype AppQueue = AppQueue(name: string)

  /** Body of the queue-list endpoint. */
  datatype GetQueuesResponse = GetQueuesResponse(queues: seq<AppQueue>)
}
