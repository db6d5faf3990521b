/**
 * Properties of one delivery of `process_job(job_id)` against the job store:
 * what it writes, what it leaves, and what a second delivery of the same id
 * does.
 */
module DeliveryProperties {
  import opened Wrappers
  import opened Models
  import opened Tasks
  import opened TaskProperties
  import opened RetryProperties

  /**
   * A delivery for a stored job saves only status, summary and checklist,
   * never changes the key or the input text, and leaves stored the last row
   * it saved; its model calls are the calls among its events.
   */
  lemma ProcessSaves(store: Store, id: JobId, oracle: Oracle, policy: ExhaustPolicy)
    requires id in store
    ensures var d := Process(store, id, oracle, policy);
            && ProcessorSaves(store[id], d.events)
            && d.store[id] == LastRow(store[id], d.events)
            && d.store[id].id == store[id].id
            && d.store[id].inputText == store[id].inputText
  {
    ChainSaves(store[id], oracle, 0, 0, policy);
    ChainKeepsInput(store[id], oracle, 0, 0, policy);
  }

  /**
   * A delivery keeps every stored row under its own key and keeps the
   * lifecycle invariant of every row.
   */
  lemma ProcessKeepsWellFormed(store: Store, id: JobId, oracle: Oracle, policy: ExhaustPolicy)
    requires WellFormed(store)
    ensures WellFormed(Process(store, id, oracle, policy).store)
  {
    if id in store {
      ChainKeepsInput(store[id], oracle, 0, 0, policy);
      ChainKeepsConsistent(store[id], oracle, 0, 0, policy);
    }
  }

  /**
   * When the exhausted budget surfaces as `MaxRetriesExceededError`, a
   * delivery for a stored job returns normally and leaves it SUCCEEDED or
   * FAILED.
   */
  lemma ProcessSettles(store: Store, id: JobId, oracle: Oracle)
    requires id in store
    ensures var d := Process(store, id, oracle, RaisesMaxRetriesExceeded);
            d.end == Returned && Terminal(d.store[id].status)
  {
    ChainSettles(store[id], oracle, 0, 0);
  }

  /**
   * From PENDING or RUNNING, a delivery never saves PENDING and never saves
   * a status that comes before one it saved earlier.
   */
  lemma ProcessStatusMonotone(store: Store, id: JobId, oracle: Oracle, policy: ExhaustPolicy)
    requires id in store && !Terminal(store[id].status)
    ensures var evs := Process(store, id, oracle, policy).events;
            && (forall i :: 0 <= i < |evs| && evs[i].Wrote? ==> evs[i].row.status != Pending)
            && (forall i, j :: 0 <= i < j < |evs| && evs[i].Wrote? && evs[j].Wrote? ==>
                  Rank(evs[i].row.status) <= Rank(evs[j].row.status))
  {
    ChainStatusShape(store[id], oracle, 0, 0, policy);
    ChainStatusMonotone(store[id], oracle, 0, 0, policy);
  }

  /**
   * Against a model that always fails unexpectedly, a delivery makes four
   * attempts of one call each and leaves the summary and checklist as they
   * were; the job ends FAILED when the budget surfaces as
   * `MaxRetriesExceededError` and stays RUNNING when the original error is
   * re-raised.
   */
  lemma ProcessAlwaysTransient(store: Store, id: JobId, oracle: Oracle, policy: ExhaustPolicy)
    requires id in store && AlwaysTransient(oracle)
    ensures var d := Process(store, id, oracle, policy);
            && d.attempts == MaxRetries + 1
            && CallCount(d.events) == MaxRetries + 1
            && d.store[id] == store[id].(status := if policy == RaisesMaxRetriesExceeded then Failed else Running)
            && d.end == (if policy == RaisesMaxRetriesExceeded then Returned else Raised)
  {
    ChainAlwaysTransient(store[id], oracle, 0, 0, policy);
    ChainSaves(store[id], oracle, 0, 0, policy);
  }

  /**
   * Every delivery for a stored job starts by saving RUNNING and calling the
   * model on the input text, whatever status the job has: a redelivered
   * SUCCEEDED or FAILED job leaves its terminal status and is processed
   * again, since the task does not check the status it loads.
   */
  lemma ProcessRestartsFromRunning(store: Store, id: JobId, oracle: Oracle, policy: ExhaustPolicy)
    requires id in store
    ensures var evs := Process(store, id, oracle, policy).events;
            && 2 <= |evs|
            && evs[0] == Wrote(StatusCol, store[id].(status := Running))
            && evs[1] == Called(Summarize, store[id].inputText)
  {
    var loaded := store[id];
    InvokeOpensWithRunning(loaded, oracle(0), oracle(1), 0, policy);
    ChainRetries(loaded, oracle, 0, 0, policy);
    ChainStops(loaded, oracle, 0, 0, policy);
  }
}
