/**
 * Concrete runs of the model: the situations the repository's own tests
 * exercise, and a few the retry handling and the missing status guard
 * give rise to.
 */
module Scenarios {
  import opened Wrappers
  import opened Models
  import opened Tasks
  import opened Views
  import opened RetryProperties
  import opened DeliveryProperties

  const Guideline: string := "Some guideline text"
  const NiceSummary: string := "a nice summary"
  const Items: string := "- item1\n- item2"

  /** A model that answers the summary call and then the checklist call. */
  function Answers(summary: string, checklist: string): Oracle {
    n => if n == 0 then Ok(summary) else Ok(checklist)
  }

  /** A model whose client raises an API error on every call. */
  function ApiDown(): Oracle {
    n => RemoteErr
  }

  /**
   * Both calls succeed: the job ends SUCCEEDED with the two answers, after
   * exactly the four saves and two calls of the pipeline, in order.
   */
  lemma SuccessfulProcessJob()
    ensures var store := map[7 := NewJob(7, Guideline)];
            var d := Process(store, 7, Answers(NiceSummary, Items), RaisesMaxRetriesExceeded);
            && d.end == Returned
            && d.attempts == 1
            && d.store == map[7 := Job(7, Guideline, Succeeded, Some(NiceSummary), Some(Items))]
            && d.events == [
                 Wrote(StatusCol, Job(7, Guideline, Running, None, None)),
                 Called(Summarize, Guideline),
                 Wrote(SummaryCol, Job(7, Guideline, Running, Some(NiceSummary), None)),
                 Called(MakeChecklist, NiceSummary),
                 Wrote(ChecklistCol, Job(7, Guideline, Running, Some(NiceSummary), Some(Items))),
                 Wrote(StatusCol, Job(7, Guideline, Succeeded, Some(NiceSummary), Some(Items)))]
  {
  }

  /**
   * The API is down: the first call fails, the job ends FAILED after one
   * attempt and one call, with no summary and no checklist.
   */
  lemma OpenAIErrorMarksFailed()
    ensures var store := map[7 := NewJob(7, Guideline)];
            var d := Process(store, 7, ApiDown(), RaisesMaxRetriesExceeded);
            && d.end == Returned
            && d.attempts == 1
            && d.store[7] == Job(7, Guideline, Failed, None, None)
            && d.events == [
                 Wrote(StatusCol, Job(7, Guideline, Running, None, None)),
                 Called(Summarize, Guideline),
                 Wrote(StatusCol, Job(7, Guideline, Failed, None, None))]
  {
  }

  /**
   * An unexpected error on the first checklist call schedules one retry; the
   * retry reloads the row the failed attempt left (RUNNING, with its summary),
   * calls the model twice more and succeeds. Four calls in all.
   */
  lemma TransientThenSuccess()
    ensures var store := map[7 := NewJob(7, Guideline)];
            var oracle: Oracle := n => if n == 1 then TransientErr else Ok(NiceSummary);
            var d := Process(store, 7, oracle, RaisesMaxRetriesExceeded);
            && d.end == Returned
            && d.attempts == 2
            && CallCount(d.events) == 4
            && d.store[7] == Job(7, Guideline, Succeeded, Some(NiceSummary), Some(NiceSummary))
  {
    var oracle: Oracle := n => if n == 1 then TransientErr else Ok(NiceSummary);
    var loaded := NewJob(7, Guideline);
    var fx := Invoke(loaded, oracle(0), oracle(1), 0, RaisesMaxRetriesExceeded);
    assert oracle(0) == Ok(NiceSummary) && oracle(1) == TransientErr;
    assert fx.end == RetryRequested && fx.calls == 2;
    var again := Invoke(fx.row, oracle(2), oracle(3), 1, RaisesMaxRetriesExceeded);
    assert oracle(2) == Ok(NiceSummary) && oracle(3) == Ok(NiceSummary);
    assert again.end == Returned;
    ChainRetries(loaded, oracle, 0, 0, RaisesMaxRetriesExceeded);
    RetryIsChain(fx.row, oracle, 2, 1, RaisesMaxRetriesExceeded);
    ChainStops(fx.row, oracle, 2, 1, RaisesMaxRetriesExceeded);
    ChainSaves(loaded, oracle, 0, 0, RaisesMaxRetriesExceeded);
  }

  /**
   * When the budget is spent and the original error is re-raised instead of
   * `MaxRetriesExceededError`, the error escapes the fourth attempt and the
   * job is left RUNNING.
   */
  lemma ReraisedCauseLeavesRunning()
    ensures var store := map[7 := NewJob(7, Guideline)];
            var d := Process(store, 7, n => TransientErr, ReraisesCause);
            d.end == End.Raised && d.attempts == 4 && d.store[7].status == Running
  {
    var oracle: Oracle := n => TransientErr;
    assert AlwaysTransient(oracle);
    ProcessAlwaysTransient(map[7 := NewJob(7, Guideline)], 7, oracle, ReraisesCause);
  }

  /**
   * A second delivery for a job that already SUCCEEDED runs it again: it
   * saves RUNNING over the finished row, and with the API down it leaves the
   * job FAILED, keeping the old summary and checklist.
   */
  lemma RedeliveryReentersRunning()
    ensures var done := Job(7, Guideline, Succeeded, Some(NiceSummary), Some(Items));
            var d := Process(map[7 := done], 7, ApiDown(), RaisesMaxRetriesExceeded);
            && d.events[0] == Wrote(StatusCol, done.(status := Running))
            && d.store[7] == done.(status := Failed)
  {
  }

  /**
   * Posting `{"input_text": "Test input"}` answers 201 with the new key as
   * `event_id`, enqueues that key once, and stores the text as PENDING.
   */
  lemma CreateJobEndpoint()
    ensures var s := Create(map[], map[InputTextKey := "Test input"], 1, true);
            && s.reply == Created(1)
            && s.enqueued == [1]
            && s.store[1].inputText == "Test input"
            && s.store[1].status == Pending
  {
  }

  /** An empty body is rejected on `input_text`; nothing is stored or enqueued. */
  lemma MissingInputText()
    ensures var s := Create(map[], map[], 1, true);
            s.reply == Invalid(InputTextKey) && s.store == map[] && s.enqueued == []
  {
  }
}
