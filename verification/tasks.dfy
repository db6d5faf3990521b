/**
 * The job processor of jobs/tasks.py. One invocation loads the job, marks it
 * running, asks the language model for a summary of the input text and then
 * for a checklist of that summary, persisting each result as soon as it
 * arrives, and marks the job succeeded. A remote-API error fails the job on
 * the spot; any other error asks the task queue for a retry of the whole
 * invocation, at most three times.
 *
 * The language model is an oracle indexed by the number of calls made so
 * far. Every observable effect of an invocation, in order, is an `Event`:
 * a save of one column (with the stored row after it) or a model call
 * (with the user content it was given).
 */
module Tasks {
  import opened Wrappers
  import opened Models

  /** The task's `max_retries`: three retries after the first attempt. */
  const MaxRetries: nat := 3

  /** What one language-model call yields. */
  datatype Outcome =
    | Ok(text: string)   // the first choice's message content
    | RemoteErr          // the client raised an API error
    | TransientErr       // any other exception

  /** The outcome of the n-th model call of a retry chain. */
  type Oracle = nat -> Outcome

  datatype Stage = Summarize | MakeChecklist

  datatype Event =
    | Wrote(col: Column, row: Job)
    | Called(stage: Stage, content: string)

  /**
   * What the task queue does once the retry budget is spent and the error is
   * handed to it: either it raises `MaxRetriesExceededError`, which the task
   * catches, or it re-raises the original error, which escapes the task.
   */
  datatype ExhaustPolicy = RaisesMaxRetriesExceeded | ReraisesCause

  /** How one invocation ends. */
  datatype End =
    | JobMissing      // the lookup raised before any write
    | Returned        // the task returned normally
    | RetryRequested  // a retry was scheduled
    | Raised          // the unexpected error escaped the task

  predicate Writes(e: Event, c: Column) {
    e.Wrote? && e.col == c
  }

  /** The number of model calls among the events. */
  function CallCount(evs: seq<Event>): (n: nat)
    ensures n <= |evs|
  {
    if evs == [] then 0
    else CallCount(evs[..|evs| - 1]) + (if evs[|evs| - 1].Called? then 1 else 0)
  }

  /** The stored row after the events, starting from `start`: the last row saved. */
  function LastRow(start: Job, evs: seq<Event>): Job {
    if evs == [] then start
    else if evs[|evs| - 1].Wrote? then evs[|evs| - 1].row
    else LastRow(start, evs[..|evs| - 1])
  }

  /**
   * Every save in `evs`, starting from the stored row `start`, names a column
   * other than the input text, keeps the primary key, and changes no column
   * it does not name: it stores `Persist(prev, row, col)` over the row `prev`
   * stored before it.
   */
  predicate ProcessorSaves(start: Job, evs: seq<Event>) {
    if evs == [] then true
    else
      var init := evs[..|evs| - 1];
      var e := evs[|evs| - 1];
      && ProcessorSaves(start, init)
      && (e.Wrote? ==>
            var prev := LastRow(start, init);
            e.col != InputTextCol && e.row.id == prev.id && AgreeOutside(prev, e.row, e.col))
  }

  /**
   * The effects of one invocation on its job: the events in order, the row
   * it leaves stored, the number of model calls it made, and how it ended.
   */
  datatype Effects = Effects(events: seq<Event>, row: Job, calls: nat, end: End)

  /** The API-error handler: save FAILED and return. */
  function MarkFailed(current: Job, evs: seq<Event>, calls: nat): Effects {
    var failed := current.(status := Failed);
    Effects(evs + [Wrote(StatusCol, failed)], failed, calls, Returned)
  }

  /**
   * The handler for any other error: `self.retry` schedules a new attempt
   * while the budget lasts; once it is spent the outcome depends on `policy`.
   */
  function OnUnexpectedError(current: Job, evs: seq<Event>, calls: nat,
                             retries: nat, policy: ExhaustPolicy): Effects {
    if retries < MaxRetries then Effects(evs, current, calls, RetryRequested)
    else match policy
      case RaisesMaxRetriesExceeded => MarkFailed(current, evs, calls)
      case ReraisesCause => Effects(evs, current, calls, Raised)
  }

  /** The saves and calls before the summary call's outcome is known. */
  function Opening(loaded: Job): seq<Event> {
    [Wrote(StatusCol, loaded.(status := Running)), Called(Summarize, loaded.inputText)]
  }

  /** The opening, the saved summary and the checklist call. */
  function Middle(loaded: Job, summary: string): seq<Event> {
    Opening(loaded) + [Wrote(SummaryCol, loaded.(status := Running, summary := Some(summary))),
                       Called(MakeChecklist, summary)]
  }

  /**
   * The body of `process_job` after the lookup, given the loaded row and the
   * outcomes of the summary call (`first`) and of the checklist call
   * (`second`, consulted only when the first succeeds).
   */
  function Invoke(loaded: Job, first: Outcome, second: Outcome, retries: nat, policy: ExhaustPolicy): (fx: Effects)
    ensures fx.end != JobMissing
    ensures fx.end == RetryRequested ==> retries < MaxRetries
  {
    var running := loaded.(status := Running);
    match first
    case Ok(summary) =>
      var summarized := running.(summary := Some(summary));
      (match second
       case Ok(checklist) =>
         var listed := summarized.(checklist := Some(checklist));
         var done := listed.(status := Succeeded);
         Effects(Middle(loaded, summary) + [Wrote(ChecklistCol, listed), Wrote(StatusCol, done)], done, 2, Returned)
       case RemoteErr => MarkFailed(summarized, Middle(loaded, summary), 2)
       case TransientErr => OnUnexpectedError(summarized, Middle(loaded, summary), 2, retries, policy))
    case RemoteErr => MarkFailed(running, Opening(loaded), 1)
    case TransientErr => OnUnexpectedError(running, Opening(loaded), 1, retries, policy)
  }

  /** The outcome that stops an invocation: the first call's if it failed, else the second's. */
  function FirstFailure(first: Outcome, second: Outcome): Option<Outcome> {
    if !first.Ok? then Some(first)
    else if !second.Ok? then Some(second)
    else None
  }

  /**
   * The status an invocation leaves behind, as a decision table over the two
   * call outcomes: success, an API failure, an unexpected error with budget
   * left (the job stays running until the retry), or an exhausted budget.
   */
  function SettledStatus(first: Outcome, second: Outcome, retries: nat, policy: ExhaustPolicy): Status {
    match FirstFailure(first, second)
    case None => Succeeded
    case Some(RemoteErr) => Failed
    case Some(_) =>
      if retries < MaxRetries || policy == ReraisesCause then Running else Failed
  }

  /**
   * A retry chain: the attempts, the model calls they made, all their
   * events, the row left stored, and how the last attempt ended.
   */
  datatype Run = Run(row: Job, events: seq<Event>, attempts: nat, calls: nat, end: End)

  /**
   * The invocation made with `retries` retries behind it on the stored row
   * `loaded`, followed by the retried invocations it schedules.
   */
  function Chain(loaded: Job, oracle: Oracle, next: nat, retries: nat, policy: ExhaustPolicy): (r: Run)
    ensures 1 <= r.attempts
    ensures r.attempts == 1 || retries + r.attempts <= MaxRetries + 1
    ensures r.end != RetryRequested && r.end != JobMissing
    decreases MaxRetries - retries, 1
  {
    Reschedule(Invoke(loaded, oracle(next), oracle(next + 1), retries, policy), oracle, next, retries, policy)
  }

  /**
   * What the task queue does after an invocation with effects `fx`: on a
   * retry request it runs the task again. The retry reloads the job and,
   * with no other writer, finds the row the invocation left; it consumes the
   * model outcomes after that invocation's.
   */
  function Reschedule(fx: Effects, oracle: Oracle, next: nat, retries: nat, policy: ExhaustPolicy): (r: Run)
    requires fx.end != JobMissing
    requires fx.end == RetryRequested ==> retries < MaxRetries
    ensures 1 <= r.attempts
    ensures r.attempts == 1 || retries + r.attempts <= MaxRetries + 1
    ensures r.end != RetryRequested && r.end != JobMissing
    decreases MaxRetries - retries, 0
  {
    if fx.end == RetryRequested then
      var rest := Retry(fx.row, oracle, next + fx.calls, retries + 1, policy);
      Run(rest.row, fx.events + rest.events, rest.attempts + 1, fx.calls + rest.calls, rest.end)
    else
      Run(fx.row, fx.events, 1, fx.calls, fx.end)
  }

  /**
   * The retried task: it runs again with one more retry behind it, reloads
   * the job and, with no other writer, finds the row `row` the previous
   * attempt left.
   */
  function Retry(row: Job, oracle: Oracle, next: nat, retries: nat, policy: ExhaustPolicy): (r: Run)
    requires 0 < retries <= MaxRetries
    ensures 1 <= r.attempts <= MaxRetries + 1 - retries
    ensures r.end != RetryRequested && r.end != JobMissing
    decreases MaxRetries - retries, 2
  {
    Chain(row, oracle, next, retries, policy)
  }

  /** What one delivery of `process_job(job_id)` leaves behind. */
  datatype Delivery = Delivery(store: Store, events: seq<Event>, attempts: nat, end: End)

  /**
   * A delivery of `process_job(job_id)` by the task queue: an unknown id
   * raises on the lookup, before anything is written; a known one runs a
   * chain from no retries and no model calls on the stored row, and only
   * that row changes.
   */
  function Process(store: Store, id: JobId, oracle: Oracle, policy: ExhaustPolicy): (d: Delivery)
    ensures d.end == JobMissing <==> id !in store
    ensures id !in store ==> d.store == store && d.events == []
    ensures 1 <= d.attempts <= MaxRetries + 1
    ensures d.end != RetryRequested
    ensures d.store.Keys == store.Keys
    ensures forall k :: k in store && k != id ==> d.store[k] == store[k]
  {
    if id !in store then Delivery(store, [], 1, JobMissing)
    else
      var c := Chain(store[id], oracle, 0, 0, policy);
      Delivery(store[id := c.row], c.events, c.attempts, c.end)
  }
}
