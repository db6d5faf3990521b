/**
 * A job's whole life: submitted through `POST /jobs/`, then processed by
 * the delivery of `process_job` the submission enqueued.
 */
module Lifecycle {
  import opened Wrappers
  import opened Models
  import opened Tasks
  import opened Views
  import opened DeliveryProperties

  /**
   * A job answered with 201 and then processed keeps its submitted text and
   * its key; its saved statuses never go back from where the submission left
   * it (PENDING); the store stays well formed; and when the exhausted budget
   * surfaces as `MaxRetriesExceededError` it ends SUCCEEDED or FAILED.
   */
  lemma SubmitThenProcess(store: Store, data: Payload, freshId: JobId, oracle: Oracle, policy: ExhaustPolicy)
    requires WellFormed(store)
    ensures var s := Create(store, data, freshId, true);
            s.reply.Created? ==>
              var d := Process(s.store, s.reply.eventId, oracle, policy);
              && d.end != JobMissing
              && d.store[freshId].id == freshId
              && d.store[freshId].inputText == data[InputTextKey]
              && (forall i :: 0 <= i < |d.events| && d.events[i].Wrote? ==> d.events[i].row.status != Pending)
              && (forall i, j :: 0 <= i < j < |d.events| && d.events[i].Wrote? && d.events[j].Wrote? ==>
                    Rank(d.events[i].row.status) <= Rank(d.events[j].row.status))
              && WellFormed(d.store)
              && (policy == RaisesMaxRetriesExceeded ==> d.end == Returned && Terminal(d.store[freshId].status))
  {
    var s := Create(store, data, freshId, true);
    if s.reply.Created? {
      CreateKeepsWellFormed(store, data, freshId, true);
      ProcessSaves(s.store, freshId, oracle, policy);
      ProcessStatusMonotone(s.store, freshId, oracle, policy);
      ProcessKeepsWellFormed(s.store, freshId, oracle, policy);
      if policy == RaisesMaxRetriesExceeded {
        ProcessSettles(s.store, freshId, oracle);
      }
    }
  }
}
