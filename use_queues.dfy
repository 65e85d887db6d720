/**
 * The dashboard's queue store and the rules around it: the process-wide store
 * holding the last queue list and metrics, the two fetch handlers that write
 * into it, the polling delay, the queue-list request parameters and the
 * confirmation flag each queue action passes.
 */
module UseQueues {
  import opened Wrappers
  import opened Responses

  // ---------------------------------------------------------------------
  // Store state and its transitions

  /** A snapshot of the store: `None` stands for JavaScript's `null`. */
  datatype StoreState = StoreState(metrics: Option<GetMetricsResponse>, queues: Option<seq<AppQueue>>, loading: bool)

  /** The store as created: no metrics yet, an empty (not null) queue list, loading. */
  const InitialState := StoreState(None, Some([]), true)

  /** One call of a store setter. */
  datatype StoreEvent = QueuesUpdated(queues: seq<AppQueue>) | MetricsUpdated(metrics: GetMetricsResponse)

  /**
   * The effect of one setter call, merged into the snapshot: each setter
   * replaces only its own fields, `updateQueues` also clears `loading`, and
   * no setter sets `loading` again.
   */
  function Apply(s: StoreState, e: StoreEvent): (t: StoreState)
    ensures e.QueuesUpdated? ==> t.queues == Some(e.queues) && !t.loading && t.metrics == s.metrics
    ensures e.MetricsUpdated? ==> t.metrics == Some(e.metrics) && t.queues == s.queues && t.loading == s.loading
    ensures t.loading ==> s.loading
  {
    match e
    case QueuesUpdated(q) => s.(queues := Some(q), loading := false)
    case MetricsUpdated(m) => s.(metrics := Some(m))
  }

  /** The state after a run of setter calls, in the order they happened. */
  function Replay(s: StoreState, events: seq<StoreEvent>): StoreState
    decreases |events|
  {
    if events == [] then s else Replay(Apply(s, events[0]), events[1..])
  }

  /** Whether some event of the run is a queue-list update. */
  predicate HasQueuesUpdate(events: seq<StoreEvent>)
  {
    exists i :: 0 <= i < |events| && events[i].QueuesUpdated?
  }

  /** The metrics of the last metrics update in the run, or `current` if there is none. */
  function LastMetrics(events: seq<StoreEvent>, current: Option<GetMetricsResponse>): Option<GetMetricsResponse>
  {
    if events == [] then current
    else if events[|events| - 1].MetricsUpdated? then Some(events[|events| - 1].metrics)
    else LastMetrics(events[..|events| - 1], current)
  }

  /** The list of the last queue-list update in the run, or `current` if there is none. */
  function LastQueues(events: seq<StoreEvent>, current: Option<seq<AppQueue>>): Option<seq<AppQueue>>
  {
    if events == [] then current
    else if events[|events| - 1].QueuesUpdated? then Some(events[|events| - 1].queues)
    else LastQueues(events[..|events| - 1], current)
  }

  lemma {:induction false} ReplaySnoc(s: StoreState, events: seq<StoreEvent>, e: StoreEvent)
    ensures Replay(s, events + [e]) == Apply(Replay(s, events), e)
    decreases |events|
  {
    if events != [] {
      assert (events + [e])[1..] == events[1..] + [e];
      ReplaySnoc(Apply(s, events[0]), events[1..], e);
    }
  }

  /**
   * `loading` is cleared by the first queue-list update and by nothing else,
   * and no setter ever sets it again.
   */
  lemma {:induction false} ReplayLoading(s: StoreState, events: seq<StoreEvent>)
    ensures Replay(s, events).loading <==> s.loading && !HasQueuesUpdate(events)
    decreases |events|
  {
    if events != [] {
      var n := |events|;
      var init := events[..n - 1];
      assert events == init + [events[n - 1]];
      ReplaySnoc(s, init, events[n - 1]);
      ReplayLoading(s, init);
      if HasQueuesUpdate(init) {
        var i :| 0 <= i < |init| && init[i].QueuesUpdated?;
        assert events[i].QueuesUpdated?;
      }
      if HasQueuesUpdate(events) && !events[n - 1].QueuesUpdated? {
        var i :| 0 <= i < n && events[i].QueuesUpdated?;
        assert init[i].QueuesUpdated?;
      }
    }
  }

  /** From the initial state, the store is loading exactly until a queue list has arrived. */
  lemma LoadingUntilFirstQueueList(events: seq<StoreEvent>)
    ensures Replay(InitialState, events).loading <==> !HasQueuesUpdate(events)
  {
    ReplayLoading(InitialState, events);
  }

  /** Once `loading` is false it stays false. */
  lemma LoadingNeverReturns(s: StoreState, events: seq<StoreEvent>)
    requires !s.loading
    ensures !Replay(s, events).loading
  {
    ReplayLoading(s, events);
  }

  /**
   * Last write wins: after a run of updates each field holds what the last
   * update of that field wrote, whole, with nothing merged from earlier ones.
   */
  lemma {:induction false} ReplayLastWriteWins(s: StoreState, events: seq<StoreEvent>)
    ensures Replay(s, events).metrics == LastMetrics(events, s.metrics)
    ensures Replay(s, events).queues == LastQueues(events, s.queues)
    decreases |events|
  {
    if events != [] {
      var n := |events|;
      var init := events[..n - 1];
      assert events == init + [events[n - 1]];
      ReplaySnoc(s, init, events[n - 1]);
      ReplayLastWriteWins(s, init);
    }
  }

  /** The queue list, empty but present at creation, is never null afterwards. */
  lemma QueuesNeverNull(events: seq<StoreEvent>)
    ensures Replay(InitialState, events).queues.Some?
  {
    ReplayLastWriteWins(InitialState, events);
    LastQueuesPresent(events, InitialState.queues);
  }

  lemma {:induction false} LastQueuesPresent(events: seq<StoreEvent>, current: Option<seq<AppQueue>>)
    requires current.Some?
    ensures LastQueues(events, current).Some?
    decreases |events|
  {
    if events != [] && !events[|events| - 1].QueuesUpdated? {
      LastQueuesPresent(events[..|events| - 1], current);
    }
  }

  /** The store object, whose two setters overwrite its fields in place. */
  class QueuesStore {
    var metrics: Option<GetMetricsResponse>
    var queues: Option<seq<AppQueue>>
    var loading: bool

    /** The current snapshot. */
    function State(): StoreState
      reads this
    {
      StoreState(metrics, queues, loading)
    }

    constructor ()
      ensures State() == InitialState
    {
      metrics := None;
      queues := Some([]);
      loading := true;
    }

    /** `updateQueues(q)`: stores the list and marks the first load done. */
    method UpdateQueues(q: seq<AppQueue>)
      modifies this
      ensures State() == Apply(old(State()), QueuesUpdated(q))
      ensures queues == Some(q) && !loading && metrics == old(metrics)
    {
      queues := Some(q);
      loading := false;
    }

    /** `updateMetrics(m)`: stores the metrics response, nothing else. */
    method UpdateMetrics(m: GetMetricsResponse)
      modifies this
      ensures State() == Apply(old(State()), MetricsUpdated(m))
      ensures metrics == Some(m) && queues == old(queues) && loading == old(loading)
    {
      metrics := Some(m);
    }
  }

  // ---------------------------------------------------------------------
  // The two fetch handlers; the network reply arrives as a settled Result

  /**
   * The queue-list poll: a successful reply goes to `updateQueues`; a failure
   * is logged and swallowed, leaving the store as it was.
   */
  method RefreshQueues(store: QueuesStore, reply: Result<GetQueuesResponse, string>)
    modifies store
    ensures reply.Failure? ==> store.State() == old(store.State())
    ensures reply.Success? ==> store.State() == Apply(old(store.State()), QueuesUpdated(reply.value.queues))
  {
    match reply
    case Success(data) => store.UpdateQueues(data.queues);
    case Failure(_) =>
  }

  /**
   * The stats fetch: a successful reply goes to `updateMetrics` and is handed
   * back to the caller; a failure leaves the store as it was and is rethrown.
   */
  method GetQueueStats(store: QueuesStore, reply: Result<GetMetricsResponse, string>)
    returns (r: Result<GetMetricsResponse, string>)
    modifies store
    ensures r == reply
    ensures reply.Failure? ==> store.State() == old(store.State())
    ensures reply.Success? ==> store.State() == Apply(old(store.State()), MetricsUpdated(reply.value))
  {
    match reply
    case Success(data) =>
      store.UpdateMetrics(data);
      r := Success(data);
    case Failure(error) =>
      r := Failure(error);
  }

  // ---------------------------------------------------------------------
  // Pure rules

  /**
   * Timer delay in milliseconds for a polling interval given in seconds; a
   * non-positive interval disables polling. Queue and metrics polling share it.
   */
  function PollingDelay(pollingInterval: real): (delay: Option<real>)
    ensures delay.Some? <==> pollingInterval > 0.0
    ensures delay.Some? ==> delay.value > 0.0 && delay.value / 1000.0 == pollingInterval
  {
    if pollingInterval > 0.0 then Some(pollingInterval * 1000.0) else None
  }

  /** A job status filter, as the status selector names it. */
  type Status = string

  /** Parameters of the queue-list request. */
  datatype QueuesQuery = QueuesQuery(activeQueue: Option<string>, status: Option<Status>, page: string, jobsPerPage: int)

  /**
   * Builds the queue-list request: the active queue unless its name is empty,
   * that queue's selected status filter if it has one, the `page` URL
   * parameter unless missing or empty (then "1"), and the page size.
   */
  function GetQueuesParams(activeQueueName: string, selectedStatuses: map<string, Status>, pageParam: Option<string>, jobsPerPage: int)
    : (p: QueuesQuery)
    ensures p.activeQueue.Some? <==> activeQueueName != ""
    ensures p.activeQueue.Some? ==> p.activeQueue.value == activeQueueName
    ensures p.status.Some? <==> p.activeQueue.Some? && activeQueueName in selectedStatuses
    ensures p.status.Some? ==> p.status.value == selectedStatuses[activeQueueName]
    ensures p.page != ""
    ensures pageParam.Some? && pageParam.value != "" ==> p.page == pageParam.value
    ensures pageParam.None? || pageParam.value == "" ==> p.page == "1"
    ensures p.jobsPerPage == jobsPerPage
  {
    QueuesQuery(
      if activeQueueName != "" then Some(activeQueueName) else None,
      if activeQueueName != "" && activeQueueName in selectedStatuses then Some(selectedStatuses[activeQueueName]) else None,
      if pageParam.Some? && pageParam.value != "" then pageParam.value else "1",
      jobsPerPage)
  }

  /** The mutating queue actions the hook exposes. */
  datatype QueueAction = RetryAll | PromoteAll | CleanAll | PauseQueue | ResumeQueue | EmptyQueue | AddJob

  /** The confirmation flag an action hands to the confirm-and-update wrapper. */
  function ConfirmationFlag(action: QueueAction, confirmQueueActions: bool): (flag: bool)
    ensures flag <==> confirmQueueActions && !action.AddJob?
  {
    match action
    case RetryAll => confirmQueueActions
    case PromoteAll => confirmQueueActions
    case CleanAll => confirmQueueActions
    case PauseQueue => confirmQueueActions
    case ResumeQueue => confirmQueueActions
    case EmptyQueue => confirmQueueActions
    case AddJob => false
  }
}
