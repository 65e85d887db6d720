/**
 * The data behind one queue's line chart: a label per one-minute bucket of
 * the raw sample and one dataset whose values and titles follow the chosen
 * metric type. Labels are kept as epoch-millisecond timestamps, unformatted.
 */
module QueueMetricsChart {
  import opened Wrappers
  import opened Responses

  /** Which series the chart shows. */
  datatype MetricType = JobPerMinute | JobAvgTime

  /** Width of one sample bucket in milliseconds. */
  const BucketMs := 60000

  /** The plotted series and its legend text (Chart.js calls it the dataset label). */
  datatype Dataset = Dataset(legend: string, data: seq<real>)

  /** What the component renders: a loading placeholder, or a line chart with its data and axis titles. */
  datatype ChartView =
    | LoadingPlaceholder
    | LineChart(labels: seq<int>, dataset: Dataset, xTitle: string, yTitle: string)

  /** One timestamp per bucket, starting at the checkpoint and one minute apart. */
  function Labels(m: Metrics): (labels: seq<int>)
    ensures |labels| == |m.data|
    ensures |labels| > 0 ==> labels[0] == m.meta.prevTS
    ensures forall i :: 0 < i < |labels| ==> labels[i] == labels[i - 1] + BucketMs
  {
    seq(|m.data|, i => m.meta.prevTS + i * BucketMs)
  }

  /** The series: the raw values for jobs per minute, else each value times 1000/60. */
  function DatasetValues(m: Metrics, metricType: MetricType): (values: seq<real>)
    ensures |values| == |m.data|
    ensures metricType == JobPerMinute ==> values == m.data
    ensures metricType == JobAvgTime ==> forall i :: 0 <= i < |values| ==> values[i] * 60.0 == m.data[i] * 1000.0
  {
    if metricType == JobPerMinute then m.data else seq(|m.data|, i requires 0 <= i < |m.data| => m.data[i] * 1000.0 / 60.0)
  }

  /** The legend label of the series. */
  function DatasetLabel(metricType: MetricType): (legend: string)
    ensures metricType == JobPerMinute ==> legend == "Jobs Per Minute"
    ensures metricType == JobAvgTime ==> legend == "Average Job Time"
  {
    if metricType == JobPerMinute then "Jobs Per Minute" else "Average Job Time"
  }

  /** The title of the value axis. */
  function YAxisTitle(metricType: MetricType): (title: string)
    ensures metricType == JobPerMinute ==> title == "Job Count"
    ensures metricType == JobAvgTime ==> title == "Average Time (ms)"
  {
    if metricType == JobPerMinute then "Job Count" else "Average Time (ms)"
  }

  /** What the component renders for a queue's (possibly absent) sample. */
  function Chart(metrics: Option<Metrics>, metricType: MetricType): (view: ChartView)
    ensures view.LoadingPlaceholder? <==> metrics.None?
    ensures view.LineChart? ==>
      |view.labels| == |view.dataset.data| == |metrics.value.data| && view.xTitle == "Timestamp"
    ensures view.LineChart? ==>
      forall i :: 0 <= i < |view.labels| ==> view.labels[i] == metrics.value.meta.prevTS + i * BucketMs
    ensures view.LineChart? && metricType == JobPerMinute ==> view.dataset.data == metrics.value.data
    ensures view.LineChart? && metricType == JobAvgTime ==>
      forall i :: 0 <= i < |view.dataset.data| ==> view.dataset.data[i] * 60.0 == metrics.value.data[i] * 1000.0
    ensures view.LineChart? ==>
      view.dataset.legend == DatasetLabel(metricType) && view.yTitle == YAxisTitle(metricType)
  {
    match metrics
    case None => LoadingPlaceholder
    case Some(m) =>
      LineChart(Labels(m), Dataset(DatasetLabel(metricType), DatasetValues(m, metricType)), "Timestamp", YAxisTitle(metricType))
  }

  /** The i-th label is the checkpoint plus i minutes. */
  lemma LabelAt(m: Metrics, i: int)
    requires 0 <= i < |m.data|
    ensures Labels(m)[i] == m.meta.prevTS + i * BucketMs
  {
  }

  /** The rescaled series keeps the order of the samples and their sign. */
  lemma AverageTimeSeriesMonotone(m: Metrics, i: int, j: int)
    requires 0 <= i < |m.data| && 0 <= j < |m.data|
    ensures m.data[i] <= m.data[j] ==> DatasetValues(m, JobAvgTime)[i] <= DatasetValues(m, JobAvgTime)[j]
    ensures m.data[i] >= 0.0 ==> DatasetValues(m, JobAvgTime)[i] >= 0.0
  {
  }

  /** Legend label and axis title depend on the metric type alone, not on the sample. */
  lemma TitlesDependOnlyOnMetricType(m1: Metrics, m2: Metrics, metricType: MetricType)
    ensures Chart(Some(m1), metricType).dataset.legend == Chart(Some(m2), metricType).dataset.legend
    ensures Chart(Some(m1), metricType).yTitle == Chart(Some(m2), metricType).yTitle
    ensures Chart(Some(m1), metricType).yTitle ==
      (if metricType == JobPerMinute then "Job Count" else "Average Time (ms)")
    ensures Chart(Some(m1), metricType).dataset.legend ==
      (if metricType == JobPerMinute then "Jobs Per Minute" else "Average Job Time")
  {
  }
}
