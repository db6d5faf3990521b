/**
 * Properties of a retry chain of the job processor, the invocation the task
 * queue delivers and the retries it schedules, and of one delivery against
 * the store.
 */
module RetryProperties {
  import opened Wrappers
  import opened Models
  import opened Tasks
  import opened TaskProperties

  /** The retried task that an invocation with effects `fx` asks for. */
  function RetriedTask(fx: Effects, oracle: Oracle, next: nat, retries: nat, policy: ExhaustPolicy): Run
    requires retries < MaxRetries
  {
    Retry(fx.row, oracle, next + fx.calls, retries + 1, policy)
  }

  /**
   * After a retry request the chain goes on with the retried task `rest`: the
   * row and end are its, the events and calls are the invocation's followed
   * by its, and it adds one attempt.
   */
  lemma RescheduleRetries(fx: Effects, rest: Run, oracle: Oracle, next: nat, retries: nat, policy: ExhaustPolicy)
    requires fx.end == RetryRequested && retries < MaxRetries
    requires rest == RetriedTask(fx, oracle, next, retries, policy)
    ensures var r := Reschedule(fx, oracle, next, retries, policy);
            && r.row == rest.row && r.events == fx.events + rest.events
            && r.attempts == rest.attempts + 1 && r.calls == fx.calls + rest.calls && r.end == rest.end
  {
  }

  /** The retried task is the chain run again from the row the previous attempt left. */
  lemma RetryIsChain(row: Job, oracle: Oracle, next: nat, retries: nat, policy: ExhaustPolicy)
    requires 0 < retries <= MaxRetries
    ensures Retry(row, oracle, next, retries, policy) == Chain(row, oracle, next, retries, policy)
  {
  }

  /** A chain whose first invocation requests a retry is that invocation followed by the retried task. */
  lemma ChainRetries(loaded: Job, oracle: Oracle, next: nat, retries: nat, policy: ExhaustPolicy)
    ensures var fx := Invoke(loaded, oracle(next), oracle(next + 1), retries, policy);
            fx.end == RetryRequested ==>
              var r := Chain(loaded, oracle, next, retries, policy);
              var rest := RetriedTask(fx, oracle, next, retries, policy);
              && r.row == rest.row && r.events == fx.events + rest.events
              && r.attempts == rest.attempts + 1 && r.calls == fx.calls + rest.calls && r.end == rest.end
  {
    var fx := Invoke(loaded, oracle(next), oracle(next + 1), retries, policy);
    if fx.end == RetryRequested {
      assert Chain(loaded, oracle, next, retries, policy) == Reschedule(fx, oracle, next, retries, policy);
      RescheduleRetries(fx, RetriedTask(fx, oracle, next, retries, policy), oracle, next, retries, policy);
    }
  }

  /** A chain whose first invocation requests no retry is that invocation alone. */
  lemma ChainStops(loaded: Job, oracle: Oracle, next: nat, retries: nat, policy: ExhaustPolicy)
    ensures var fx := Invoke(loaded, oracle(next), oracle(next + 1), retries, policy);
            fx.end != RetryRequested ==>
              var r := Chain(loaded, oracle, next, retries, policy);
              && r.row == fx.row && r.events == fx.events
              && r.attempts == 1 && r.calls == fx.calls && r.end == fx.end
  {
  }

  /**
   * Across all its attempts, a chain saves only status, summary and checklist
   * and changes no other column; the row it leaves is the last row it saved,
   * and its call count is the number of model calls among its events.
   */
  lemma {:induction false} ChainSaves(loaded: Job, oracle: Oracle, next: nat, retries: nat, policy: ExhaustPolicy)
    ensures var r := Chain(loaded, oracle, next, retries, policy);
            && ProcessorSaves(loaded, r.events)
            && r.row == LastRow(loaded, r.events)
            && r.calls == CallCount(r.events)
    decreases MaxRetries - retries, 0
  {
    var fx := Invoke(loaded, oracle(next), oracle(next + 1), retries, policy);
    ChainRetries(loaded, oracle, next, retries, policy);
    ChainStops(loaded, oracle, next, retries, policy);
    InvokeSaves(loaded, oracle(next), oracle(next + 1), retries, policy);
    if fx.end == RetryRequested {
      var rest := RetriedTask(fx, oracle, next, retries, policy);
      RetrySaves(fx.row, oracle, next + fx.calls, retries + 1, policy);
      ProcessorSavesAppend(loaded, fx.events, rest.events);
      LastRowAppend(loaded, fx.events, rest.events);
      CallCountAppend(fx.events, rest.events);
    }
  }

  /** `ChainSaves` for a retried task. */
  lemma {:induction false} RetrySaves(row: Job, oracle: Oracle, next: nat, retries: nat, policy: ExhaustPolicy)
    requires 0 < retries <= MaxRetries
    ensures var r := Retry(row, oracle, next, retries, policy);
            && ProcessorSaves(row, r.events)
            && r.row == LastRow(row, r.events)
            && r.calls == CallCount(r.events)
    decreases MaxRetries - retries, 1
  {
    ChainSaves(row, oracle, next, retries, policy);
  }

  /**
   * No save of a chain, and not the row it leaves, changes the primary key
   * or the input text.
   */
  lemma ChainKeepsInput(loaded: Job, oracle: Oracle, next: nat, retries: nat, policy: ExhaustPolicy)
    ensures var r := Chain(loaded, oracle, next, retries, policy);
            && (forall i :: 0 <= i < |r.events| && r.events[i].Wrote? ==>
                  r.events[i].row.id == loaded.id && r.events[i].row.inputText == loaded.inputText)
            && r.row.id == loaded.id
            && r.row.inputText == loaded.inputText
  {
    var r := Chain(loaded, oracle, next, retries, policy);
    ChainSaves(loaded, oracle, next, retries, policy);
    SavesKeepIdentity(loaded, r.events);
  }

  /**
   * From a row that keeps the lifecycle invariant (a checklist only next to
   * a summary, and both on a succeeded job) every row a chain saves keeps it,
   * and so does the row it leaves.
   */
  lemma ChainKeepsConsistent(loaded: Job, oracle: Oracle, next: nat, retries: nat, policy: ExhaustPolicy)
    requires Consistent(loaded)
    ensures var r := Chain(loaded, oracle, next, retries, policy);
            SavesConsistent(r.events) && Consistent(r.row)
  {
    var r := Chain(loaded, oracle, next, retries, policy);
    ChainSavesConsistent(loaded, oracle, next, retries, policy);
    ChainSaves(loaded, oracle, next, retries, policy);
    LastRowIsSaved(loaded, r.events);
  }

  /** The saves of a chain from a row that keeps the lifecycle invariant keep it. */
  lemma {:induction false} ChainSavesConsistent(loaded: Job, oracle: Oracle, next: nat, retries: nat, policy: ExhaustPolicy)
    requires Consistent(loaded)
    ensures SavesConsistent(Chain(loaded, oracle, next, retries, policy).events)
    decreases MaxRetries - retries, 0
  {
    var fx := Invoke(loaded, oracle(next), oracle(next + 1), retries, policy);
    ChainRetries(loaded, oracle, next, retries, policy);
    ChainStops(loaded, oracle, next, retries, policy);
    InvokeKeepsConsistent(loaded, oracle(next), oracle(next + 1), retries, policy);
    InvokeSaves(loaded, oracle(next), oracle(next + 1), retries, policy);
    if fx.end == RetryRequested {
      var rest := RetriedTask(fx, oracle, next, retries, policy);
      RetrySavesConsistent(fx.row, oracle, next + fx.calls, retries + 1, policy);
      SavesConsistentAppend(fx.events, rest.events);
    }
  }

  /** `ChainSavesConsistent` for a retried task. */
  lemma {:induction false} RetrySavesConsistent(row: Job, oracle: Oracle, next: nat, retries: nat, policy: ExhaustPolicy)
    requires 0 < retries <= MaxRetries && Consistent(row)
    ensures SavesConsistent(Retry(row, oracle, next, retries, policy).events)
    decreases MaxRetries - retries, 1
  {
    ChainSavesConsistent(row, oracle, next, retries, policy);
  }

  /**
   * A chain never saves PENDING, and only its very last event can save a
   * status other than RUNNING: retried attempts save nothing but RUNNING.
   */
  lemma {:induction false} ChainStatusShape(loaded: Job, oracle: Oracle, next: nat, retries: nat, policy: ExhaustPolicy)
    ensures RunningUntilLast(Chain(loaded, oracle, next, retries, policy).events)
    decreases MaxRetries - retries, 0
  {
    var fx := Invoke(loaded, oracle(next), oracle(next + 1), retries, policy);
    ChainRetries(loaded, oracle, next, retries, policy);
    ChainStops(loaded, oracle, next, retries, policy);
    InvokeStatusShape(loaded, oracle(next), oracle(next + 1), retries, policy);
    InvokeSaves(loaded, oracle(next), oracle(next + 1), retries, policy);
    if fx.end == RetryRequested {
      var rest := RetriedTask(fx, oracle, next, retries, policy);
      RetryStatusShape(fx.row, oracle, next + fx.calls, retries + 1, policy);
      RunningUntilLastAppend(fx.events, rest.events);
    }
  }

  /** `ChainStatusShape` for a retried task. */
  lemma {:induction false} RetryStatusShape(row: Job, oracle: Oracle, next: nat, retries: nat, policy: ExhaustPolicy)
    requires 0 < retries <= MaxRetries
    ensures RunningUntilLast(Retry(row, oracle, next, retries, policy).events)
    decreases MaxRetries - retries, 1
  {
    ChainStatusShape(row, oracle, next, retries, policy);
  }

  /**
   * Starting from PENDING or RUNNING, the statuses a chain saves never move
   * back along pending, running, finished.
   */
  lemma ChainStatusMonotone(loaded: Job, oracle: Oracle, next: nat, retries: nat, policy: ExhaustPolicy)
    requires !Terminal(loaded.status)
    ensures var evs := Chain(loaded, oracle, next, retries, policy).events;
            && (forall i :: 0 <= i < |evs| && evs[i].Wrote? ==> Rank(loaded.status) <= Rank(evs[i].row.status))
            && (forall i, j :: 0 <= i < j < |evs| && evs[i].Wrote? && evs[j].Wrote? ==>
                  Rank(evs[i].row.status) <= Rank(evs[j].row.status))
  {
    ChainStatusShape(loaded, oracle, next, retries, policy);
  }

  /**
   * When the exhausted budget surfaces as `MaxRetriesExceededError`, every
   * chain returns normally and leaves its job SUCCEEDED or FAILED.
   */
  lemma {:induction false} ChainSettles(loaded: Job, oracle: Oracle, next: nat, retries: nat)
    ensures var r := Chain(loaded, oracle, next, retries, RaisesMaxRetriesExceeded);
            r.end == Returned && Terminal(r.row.status)
    decreases MaxRetries - retries, 0
  {
    var fx := Invoke(loaded, oracle(next), oracle(next + 1), retries, RaisesMaxRetriesExceeded);
    ChainRetries(loaded, oracle, next, retries, RaisesMaxRetriesExceeded);
    ChainStops(loaded, oracle, next, retries, RaisesMaxRetriesExceeded);
    InvokeSettles(loaded, oracle(next), oracle(next + 1), retries, RaisesMaxRetriesExceeded);
    if fx.end == RetryRequested {
      RetrySettles(fx.row, oracle, next + fx.calls, retries + 1);
    }
  }

  /** `ChainSettles` for a retried task. */
  lemma {:induction false} RetrySettles(row: Job, oracle: Oracle, next: nat, retries: nat)
    requires 0 < retries <= MaxRetries
    ensures var r := Retry(row, oracle, next, retries, RaisesMaxRetriesExceeded);
            r.end == Returned && Terminal(r.row.status)
    decreases MaxRetries - retries, 1
  {
    ChainSettles(row, oracle, next, retries);
  }

  /** The model raises an unexpected (non-API) error on every call. */
  ghost predicate AlwaysTransient(oracle: Oracle) {
    forall n :: oracle(n) == TransientErr
  }

  /**
   * Against a model that always fails unexpectedly, a chain uses up the
   * whole budget, one call per attempt, and leaves the job's summary and
   * checklist as they were: FAILED when the budget surfaces as
   * `MaxRetriesExceededError`, still RUNNING (with the error escaping) when
   * the original error is re-raised.
   */
  lemma {:induction false} ChainAlwaysTransient(loaded: Job, oracle: Oracle, next: nat, retries: nat, policy: ExhaustPolicy)
    requires retries <= MaxRetries && AlwaysTransient(oracle)
    ensures var r := Chain(loaded, oracle, next, retries, policy);
            && r.attempts == MaxRetries + 1 - retries
            && r.calls == r.attempts
            && r.row == loaded.(status := if policy == RaisesMaxRetriesExceeded then Failed else Running)
            && r.end == (if policy == RaisesMaxRetriesExceeded then Returned else Raised)
    decreases MaxRetries - retries, 1
  {
    var fx := Invoke(loaded, oracle(next), oracle(next + 1), retries, policy);
    assert Chain(loaded, oracle, next, retries, policy) == Reschedule(fx, oracle, next, retries, policy);
    assert oracle(next) == TransientErr;
    assert fx == OnUnexpectedError(loaded.(status := Running), Opening(loaded), 1, retries, policy);
    RescheduleAlwaysTransient(loaded, fx, oracle, next, retries, policy);
  }

  /** The step of `ChainAlwaysTransient` after an invocation whose first call failed unexpectedly. */
  lemma {:induction false} RescheduleAlwaysTransient(loaded: Job, fx: Effects, oracle: Oracle, next: nat, retries: nat, policy: ExhaustPolicy)
    requires retries <= MaxRetries && AlwaysTransient(oracle)
    requires fx.calls == 1
    requires fx.row == loaded.(status := if retries < MaxRetries || policy == ReraisesCause then Running else Failed)
    requires fx.end == if retries < MaxRetries then RetryRequested
                       else if policy == RaisesMaxRetriesExceeded then Returned else Raised
    ensures var r := Reschedule(fx, oracle, next, retries, policy);
            && r.attempts == MaxRetries + 1 - retries
            && r.calls == r.attempts
            && r.row == loaded.(status := if policy == RaisesMaxRetriesExceeded then Failed else Running)
            && r.end == (if policy == RaisesMaxRetriesExceeded then Returned else Raised)
    decreases MaxRetries - retries, 0
  {
    if fx.end == RetryRequested {
      RescheduleRetries(fx, RetriedTask(fx, oracle, next, retries, policy), oracle, next, retries, policy);
      RetryAlwaysTransient(fx.row, oracle, next + fx.calls, retries + 1, policy);
    }
  }

  /** `ChainAlwaysTransient` for a retried task. */
  lemma {:induction false} RetryAlwaysTransient(row: Job, oracle: Oracle, next: nat, retries: nat, policy: ExhaustPolicy)
    requires 0 < retries <= MaxRetries && AlwaysTransient(oracle)
    ensures var r := Retry(row, oracle, next, retries, policy);
            && r.attempts == MaxRetries + 1 - retries
            && r.calls == r.attempts
            && r.row == row.(status := if policy == RaisesMaxRetriesExceeded then Failed else Running)
            && r.end == (if policy == RaisesMaxRetriesExceeded then Returned else Raised)
    decreases MaxRetries - retries, 2
  {
    ChainAlwaysTransient(row, oracle, next, retries, policy);
  }
}
