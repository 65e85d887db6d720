# Queue stats dashboard core, in Dafny

This project models the metrics core of a job-queue monitoring dashboard (bull-board).
It has three parts:

- **The stats endpoint** (`packages/api/src/handlers/queueStats.ts`). It asks every queue adapter for its raw metrics sample. It turns each sample into a `QueueMetrics` record: the mean job duration in a chosen timeframe unit (`sec`, `min`, `hour`, `day`, else minutes), and the completion rate in jobs per minute since the previous checkpoint. It answers one record per queue, in queue order.
- **The dashboard's queue store** (`packages/ui/src/hooks/useQueues.ts`). This is a process-wide store with three fields (`metrics`, `queues`, `loading`) and two setters. Around it sit two fetch handlers, the polling-delay rule, the queue-list request parameters and the confirmation flag each queue action passes.
- **The chart data of one queue** (`packages/ui/src/components/Chart/QueueMetricsChart.tsx`). It gives one timestamp label per one-minute bucket, the plotted series for the chosen metric type, and the legend and axis titles.

Files:

- `wrappers.dfy`: `Option` (for `undefined`/`null`) and `Result` (a settled promise).
- `numbers.dfy`: the JavaScript number outcomes the rate division can produce: finite, NaN or an infinity.
- `responses.dfy`: the record shapes `Metrics`, `QueueMetrics`, `GetMetricsResponse` and `GetQueuesResponse`.
- `queue_stats.dfy`: the normaliser, `getStats` and the handler, with their lemmas.
- `use_queues.dfy`: the store as a class, its transitions as a pure `Apply`/`Replay`, the fetch handlers and the pure request rules.
- `queue_metrics_chart.dfy`: the chart derivation.

Modelling choices:

- Numbers are `real`, and timestamps and counters are `int`. The wall clock `Date.now()` is the parameter `now`.
- A queue adapter is a total function from the optional sample-index range `(start, end)` to a settled call. The call either resolves with a sample or none, or rejects with a reason.
- `Promise.all` becomes a sequential map. The result fails when some adapter call rejects.
- The store's setters are methods of the class `QueuesStore`. Each one is specified by the pure transition `Apply` on a `StoreState` snapshot. The lemmas about whole runs of setter calls are stated over `Replay`.
- Network replies reach the fetch handlers as a `Result` value.

Nothing guards a zero elapsed time in the completion rate. When `now == prevTS`, `(count - prevCount) / (((now - prevTS) / 1000) / 60)` divides by +0. JavaScript then gives NaN for 0/0 and an infinity for any other numerator. So `averageCompletionRate` is a `JsNumbers.Num`, and the contract of `QueueStats.CompletionRate` states exactly what that case yields.

`queues` has a type that admits `null`, but the store is created with `[]` and no setter writes `null`. `UseQueues.QueuesNeverNull` states this.

## Model

| member | source | states |
|---|---|---|
| `QueueStats.TimeframeInSeconds` | packages/api/src/handlers/queueStats.ts:12-25 | `sec` is 1 second, `hour` 3600, `day` 86400; `min` and every unknown token give 60; the result is always positive |
| `QueueStats.Reduce` | packages/api/src/handlers/queueStats.ts:38 | the left-to-right `reduce` running total from any start value equals that value plus the reference sum of the durations |
| `QueueStats.AverageJobTimeInSeconds` | packages/api/src/handlers/queueStats.ts:38-39 | the mean duration in seconds is 0 for an empty sample and otherwise the reference sum divided by the sample count |
| `QueueStats.AverageJobTime` | packages/api/src/handlers/queueStats.ts:39-43 | an empty duration sequence gives an average job time of 0, whatever the timeframe token |
| `QueueStats.AverageJobTimeRecoversSum` | packages/api/src/handlers/queueStats.ts:38-43 | for a non-empty sample, average job time × unit length × sample count equals the sum of the durations (the average is sum / count / unit) |
| `QueueStats.AverageJobTimeWithinSamples` | packages/api/src/handlers/queueStats.ts:38-43 | converted back to seconds, the average job time lies between any lower and upper bound of the durations |
| `QueueStats.AverageJobTimeNonNegative` | packages/api/src/handlers/queueStats.ts:38-43 | non-negative durations give a non-negative average job time in every unit |
| `QueueStats.AverageJobTimeRescales` | packages/api/src/handlers/queueStats.ts:41-43 | the unit only rescales: average × unit length is the same seconds value for every token |
| `QueueStats.UnknownTimeframeIsMinute` | packages/api/src/handlers/queueStats.ts:22-43 | a token outside `sec`/`min`/`hour`/`day` yields exactly the `min` average |
| `QueueStats.AverageJobTimeExamples` | packages/api/src/handlers/queueStats.ts:38-43 | durations 30, 60, 90 average 1 in `min` and 60/3600 in `hour` |
| `JsNumbers.Divide` | packages/api/src/handlers/queueStats.ts:36 | the division is finite exactly when the denominator is non-zero, and then quotient × denominator is the numerator; 0/0 is NaN; x/0 is an infinity with the sign of x |
| `QueueStats.CompletionRate` | packages/api/src/handlers/queueStats.ts:33-36 | the rate is finite exactly when `now != prevTS`, and then rate × elapsed minutes equals `count - prevCount`; with `now == prevTS` it is NaN exactly when `count == prevCount`, and otherwise an infinity that is negative exactly when the counter went down |
| `QueueStats.CompletionRateExample` | packages/api/src/handlers/queueStats.ts:33-36 | count 110, prevCount 100 and a checkpoint 60000 ms ago give a rate of 10 |
| `QueueStats.CompletionRateNegativeDifference` | packages/api/src/handlers/queueStats.ts:35-36 | a counter below its checkpoint value, with time elapsed, gives a finite negative rate; nothing clamps it |
| `QueueStats.NormaliseQueue` | packages/api/src/handlers/queueStats.ts:30-58 | the record carries the queue's name and the raw sample unchanged; an absent sample gives averages 0 and rate 0; a present sample gives the average job time of its durations in the requested unit and the completion rate of its checkpoint metadata at `now` |
| `QueueStats.GetStats` | packages/api/src/handlers/queueStats.ts:27-61 | it succeeds exactly when no adapter call rejects; on failure it carries some rejected call's reason; on success there is one record per pair, in input order, and record i has pair i's name and is pair i's normalised sample |
| `QueueStats.QueueStatsHandler` | packages/api/src/handlers/queueStats.ts:63-77 | with no queues the body is an empty list; in every case the reply is `getStats`' outcome wrapped as the body, so skipping the adapters for no queues changes nothing |
| `UseQueues.QueuesStore.constructor` | packages/ui/src/hooks/useQueues.ts:26-29 | the store starts with metrics null, an empty (not null) queue list and loading true |
| `UseQueues.QueuesStore.UpdateQueues` | packages/ui/src/hooks/useQueues.ts:30 | sets the queue list and clears loading; metrics unchanged |
| `UseQueues.QueuesStore.UpdateMetrics` | packages/ui/src/hooks/useQueues.ts:31 | sets metrics; queue list and loading unchanged |
| `UseQueues.Apply` | packages/ui/src/hooks/useQueues.ts:30-31 | a queue-list update sets the list, clears loading and keeps metrics; a metrics update sets metrics and keeps the list and loading; no update turns loading on |
| `UseQueues.ReplayLoading` | packages/ui/src/hooks/useQueues.ts:29-31 | after any run of setter calls, loading is true exactly when it was true before and no queue-list update happened |
| `UseQueues.LoadingUntilFirstQueueList` | packages/ui/src/hooks/useQueues.ts:26-31 | from the initial store, loading stays true exactly until the first queue list arrives |
| `UseQueues.LoadingNeverReturns` | packages/ui/src/hooks/useQueues.ts:29-31 | once loading is false, no run of setter calls makes it true again |
| `UseQueues.ReplayLastWriteWins` | packages/ui/src/hooks/useQueues.ts:30-31 | after a run of setter calls, metrics and queues each hold the value of their last update (or the earlier value if none), whole and unmerged |
| `UseQueues.QueuesNeverNull` | packages/ui/src/hooks/useQueues.ts:18-31 | although its type admits null, the queue list is never null after any run of setter calls |
| `UseQueues.RefreshQueues` | packages/ui/src/hooks/useQueues.ts:51-65 | a successful queue-list reply is stored through `updateQueues`; a failed one leaves the whole store untouched and is not passed on |
| `UseQueues.GetQueueStats` | packages/ui/src/hooks/useQueues.ts:67-83 | a successful stats reply is stored through `updateMetrics` and returned; a failure leaves the store untouched and is rethrown unchanged |
| `UseQueues.PollingDelay` | packages/ui/src/hooks/useQueues.ts:85-90 | polling is enabled exactly when the interval is positive, and then the delay is positive and is the interval in seconds expressed in milliseconds (delay / 1000 = interval, so 0.5 s gives 500 ms) |
| `UseQueues.GetQueuesParams` | packages/ui/src/hooks/useQueues.ts:54-59 | the active queue is sent exactly when its name is non-empty; its status filter is sent exactly when there is an active queue with a selected status; the page is the URL parameter unless missing or empty, then "1"; the page size passes through |
| `UseQueues.ConfirmationFlag` | packages/ui/src/hooks/useQueues.ts:94-141 | an action asks for confirmation exactly when confirmation is configured and the action is not `addJob` |
| `QueueMetricsChart.Chart` | packages/ui/src/components/Chart/QueueMetricsChart.tsx:14-50 | an absent sample renders the loading placeholder and nothing else does; a chart has as many labels and series values as the sample has buckets; label i is the checkpoint plus i minutes; the series is the raw data for jobs per minute and each value × 1000 / 60 for average time; the legend and y-axis title are those of the metric type, and the x-axis title is "Timestamp" |
| `QueueMetricsChart.Labels` | packages/ui/src/components/Chart/QueueMetricsChart.tsx:20 | one label per bucket; the first is the checkpoint timestamp and each next one is one minute (60000 ms) later |
| `QueueMetricsChart.LabelAt` | packages/ui/src/components/Chart/QueueMetricsChart.tsx:20 | label i is the checkpoint timestamp plus i minutes |
| `QueueMetricsChart.DatasetValues` | packages/ui/src/components/Chart/QueueMetricsChart.tsx:24 | same length as the sample; for jobs per minute exactly the raw values; for average time each value times 60 equals the raw value times 1000 |
| `QueueMetricsChart.AverageTimeSeriesMonotone` | packages/ui/src/components/Chart/QueueMetricsChart.tsx:24 | the average-time series keeps the order and the sign of the raw values |
| `QueueMetricsChart.DatasetLabel` | packages/ui/src/components/Chart/QueueMetricsChart.tsx:23 | the legend reads "Jobs Per Minute" for the jobs-per-minute type and "Average Job Time" for the average-time type |
| `QueueMetricsChart.YAxisTitle` | packages/ui/src/components/Chart/QueueMetricsChart.tsx:43 | the y-axis title reads "Job Count" for the jobs-per-minute type and "Average Time (ms)" for the average-time type |
| `QueueMetricsChart.TitlesDependOnlyOnMetricType` | packages/ui/src/components/Chart/QueueMetricsChart.tsx:23-43 | legend and y-axis title do not depend on the sample: "Jobs Per Minute"/"Job Count" for jobs per minute, "Average Job Time"/"Average Time (ms)" otherwise |

## Left out

- Concurrency: `Promise.all`, `async`/`await` and the interleaving of callbacks. `getStats` is a sequential map, which gives the same output order.
- QueueStats.GetStats: when several adapter calls reject, `Promise.all` rejects with whichever settles first in time. The model picks the first in list order, and its contract promises only "some rejected call's reason".
- Clock: `Date.now()` is read once per queue in the source. The model uses one `now` for the whole batch.
- Floating point: finite values are exact reals, with no rounding and no signed zero. Only the NaN/infinity outcome of the unguarded rate division is modelled.
- The handler's adapter calls are not observable in a model of pure functions. That no adapter is called for an empty queue map is shown only by the handler never reaching `GetStats` on that branch.
- `Number(count)` conversion in the reduce: the durations are already numbers in the model.
- The query's `timeframe` is a plain string. A missing `timeframe` behaves like any other unknown token (minutes) and is not modelled separately.
- Timers: the `useInterval` timers, their re-arming and cancellation, and overlapping polls are event-loop behaviour. Only the delay selection is modelled. Last-write-wins between polls is stated over runs of setter calls.
- React and hook plumbing: `useQuery`, `useApi`, `useConfirm`, `useSettingsStore`, `useTranslation`, `useCallback`, `useActiveQueueName` and `useSelectedStatuses`. Their values are parameters.
- `getConfirmFor` and the confirmation dialog are not part of this model. Only the flag each action passes is modelled, not whether or when the mutation then runs.
- Network calls: the `api.*` mutations are left out. The two fetches arrive as `Result` values, and logging to the console is left out.
- `AppQueue` keeps only its `name`. Its other fields are not read by this core.
- Chart.js: registration, colours, `fill`, and the formatting of labels by `toLocaleString()`. Labels stay integer timestamps.
- The stats page (`packages/ui/src/pages/StatsPage/StatsPage.tsx`) is left out. It is rendering, plus a join of metrics to queues by name.
