/** Properties of one invocation of the job processor. */
module TaskProperties {
  import opened Wrappers
  import opened Models
  import opened Tasks

  lemma {:induction false} CallCountAppend(a: seq<Event>, b: seq<Event>)
    ensures CallCount(a + b) == CallCount(a) + CallCount(b)
    decreases |b|
  {
    if b == [] {
      assert a + b == a;
    } else {
      var init := b[..|b| - 1];
      assert (a + b)[..|a + b| - 1] == a + init;
      CallCountAppend(a, init);
    }
  }

  lemma {:induction false} LastRowAppend(start: Job, a: seq<Event>, b: seq<Event>)
    ensures LastRow(start, a + b) == LastRow(LastRow(start, a), b)
    decreases |b|
  {
    if b == [] {
      assert a + b == a;
    } else {
      var init := b[..|b| - 1];
      assert (a + b)[..|a + b| - 1] == a + init;
      LastRowAppend(start, a, init);
    }
  }

  lemma {:induction false} ProcessorSavesAppend(start: Job, a: seq<Event>, b: seq<Event>)
    ensures ProcessorSaves(start, a + b) <==>
            ProcessorSaves(start, a) && ProcessorSaves(LastRow(start, a), b)
    decreases |b|
  {
    if b == [] {
      assert a + b == a;
    } else {
      var init := b[..|b| - 1];
      assert (a + b)[..|a + b| - 1] == a + init;
      ProcessorSavesAppend(start, a, init);
      LastRowAppend(start, a, init);
    }
  }

  /**
   * A save of a column other than the input text keeps `ProcessorSaves`,
   * becomes the last row, and is no call.
   */
  lemma SaveStep(start: Job, evs: seq<Event>, local: Job, col: Column)
    requires ProcessorSaves(start, evs) && col != InputTextCol
    ensures var row := Persist(LastRow(start, evs), local, col);
            && ProcessorSaves(start, evs + [Wrote(col, row)])
            && LastRow(start, evs + [Wrote(col, row)]) == row
            && CallCount(evs + [Wrote(col, row)]) == CallCount(evs)
  {
    var prev := LastRow(start, evs);
    var row := Persist(prev, local, col);
    var evs' := evs + [Wrote(col, row)];
    assert evs'[..|evs'| - 1] == evs;
    assert AgreeOutside(prev, row, col);
  }

  /** A model call saves nothing and is one more call. */
  lemma CallStep(start: Job, evs: seq<Event>, stage: Stage, content: string)
    requires ProcessorSaves(start, evs)
    ensures ProcessorSaves(start, evs + [Called(stage, content)])
    ensures LastRow(start, evs + [Called(stage, content)]) == LastRow(start, evs)
    ensures CallCount(evs + [Called(stage, content)]) == CallCount(evs) + 1
  {
    var evs' := evs + [Called(stage, content)];
    assert evs'[..|evs'| - 1] == evs;
  }

  lemma OpeningSaves(loaded: Job)
    ensures ProcessorSaves(loaded, Opening(loaded))
    ensures LastRow(loaded, Opening(loaded)) == loaded.(status := Running)
    ensures CallCount(Opening(loaded)) == 1
  {
    var running := loaded.(status := Running);
    SaveStep(loaded, [], running, StatusCol);
    assert [] + [Wrote(StatusCol, running)] == [Wrote(StatusCol, running)];
    CallStep(loaded, [Wrote(StatusCol, running)], Summarize, loaded.inputText);
    assert Opening(loaded) == [Wrote(StatusCol, running)] + [Called(Summarize, loaded.inputText)];
  }

  lemma MiddleSaves(loaded: Job, summary: string)
    ensures ProcessorSaves(loaded, Middle(loaded, summary))
    ensures LastRow(loaded, Middle(loaded, summary)) == loaded.(status := Running, summary := Some(summary))
    ensures CallCount(Middle(loaded, summary)) == 2
  {
    var opening := Opening(loaded);
    var summarized := loaded.(status := Running, summary := Some(summary));
    OpeningSaves(loaded);
    SaveStep(loaded, opening, summarized, SummaryCol);
    CallStep(loaded, opening + [Wrote(SummaryCol, summarized)], MakeChecklist, summary);
    assert Middle(loaded, summary) == opening + [Wrote(SummaryCol, summarized)] + [Called(MakeChecklist, summary)];
  }

  /** Saving FAILED after a prefix keeps `ProcessorSaves` and adds no call. */
  lemma FailStep(loaded: Job, evs: seq<Event>, calls: nat)
    requires ProcessorSaves(loaded, evs)
    ensures var current := LastRow(loaded, evs);
            var fx := MarkFailed(current, evs, calls);
            && ProcessorSaves(loaded, fx.events)
            && CallCount(fx.events) == CallCount(evs)
            && LastRow(loaded, fx.events) == fx.row
  {
    var current := LastRow(loaded, evs);
    SaveStep(loaded, evs, current.(status := Failed), StatusCol);
  }

  /**
   * Every save of an invocation names only status, summary or checklist and
   * changes nothing else, and the row it leaves is the last row it saved.
   * It makes one model call, or two when the first succeeds.
   */
  lemma InvokeSaves(loaded: Job, first: Outcome, second: Outcome, retries: nat, policy: ExhaustPolicy)
    ensures var fx := Invoke(loaded, first, second, retries, policy);
            && ProcessorSaves(loaded, fx.events)
            && fx.row == LastRow(loaded, fx.events)
            && fx.calls == CallCount(fx.events) == if first.Ok? then 2 else 1
  {
    var running := loaded.(status := Running);
    match first {
    case Ok(summary) =>
      var middle := Middle(loaded, summary);
      var summarized := running.(summary := Some(summary));
      MiddleSaves(loaded, summary);
      match second {
      case Ok(checklist) =>
        var listed := summarized.(checklist := Some(checklist));
        SaveStep(loaded, middle, listed, ChecklistCol);
        SaveStep(loaded, middle + [Wrote(ChecklistCol, listed)], listed.(status := Succeeded), StatusCol);
        assert middle + [Wrote(ChecklistCol, listed), Wrote(StatusCol, listed.(status := Succeeded))]
            == middle + [Wrote(ChecklistCol, listed)] + [Wrote(StatusCol, listed.(status := Succeeded))];
      case RemoteErr =>
        FailStep(loaded, middle, 2);
      case TransientErr =>
        FailStep(loaded, middle, 2);
      }
    case RemoteErr =>
      OpeningSaves(loaded);
      FailStep(loaded, Opening(loaded), 1);
    case TransientErr =>
      OpeningSaves(loaded);
      FailStep(loaded, Opening(loaded), 1);
    }
  }

  /**
   * Every invocation first saves RUNNING, and only RUNNING, before any model
   * call; the first call is given the job's input text.
   */
  lemma InvokeOpensWithRunning(loaded: Job, first: Outcome, second: Outcome, retries: nat, policy: ExhaustPolicy)
    ensures var evs := Invoke(loaded, first, second, retries, policy).events;
            && 2 <= |evs|
            && evs[0] == Wrote(StatusCol, loaded.(status := Running))
            && evs[1] == Called(Summarize, loaded.inputText)
  {
  }

  /**
   * The summary call is given the input text. The checklist call is made
   * only after a successful summary call, right after that summary was
   * saved, and is given the saved summary; a checklist is saved only after
   * a summary was.
   */
  lemma InvokeStageOrder(loaded: Job, first: Outcome, second: Outcome, retries: nat, policy: ExhaustPolicy)
    ensures var evs := Invoke(loaded, first, second, retries, policy).events;
            && (forall i :: 0 <= i < |evs| && evs[i].Called? && evs[i].stage == Summarize ==>
                  evs[i].content == loaded.inputText)
            && (forall i :: 0 <= i < |evs| && evs[i].Called? && evs[i].stage == MakeChecklist ==>
                  && first.Ok?
                  && evs[i].content == first.text
                  && 0 < i && Writes(evs[i - 1], SummaryCol)
                  && evs[i - 1].row.summary == Some(evs[i].content))
            && (forall i :: 0 <= i < |evs| && Writes(evs[i], ChecklistCol) ==>
                  exists j :: 0 <= j < i && Writes(evs[j], SummaryCol))
  {
    InvokeSummarizesInput(loaded, first, second, retries, policy);
    InvokeChecklistCallFollowsSummary(loaded, first, second, retries, policy);
    InvokeChecklistAfterSummary(loaded, first, second, retries, policy);
  }

  /** The summary calls of `InvokeStageOrder`: each is given the input text. */
  lemma InvokeSummarizesInput(loaded: Job, first: Outcome, second: Outcome, retries: nat, policy: ExhaustPolicy)
    ensures var evs := Invoke(loaded, first, second, retries, policy).events;
            forall i :: 0 <= i < |evs| && evs[i].Called? && evs[i].stage == Summarize ==>
              evs[i].content == loaded.inputText
  {
    var evs := Invoke(loaded, first, second, retries, policy).events;
    if first.Ok? {
      assert evs[1] == Called(Summarize, loaded.inputText) && evs[3].stage == MakeChecklist;
      assert forall i :: 4 <= i < |evs| ==> evs[i].Wrote?;
    } else {
      assert evs[1] == Called(Summarize, loaded.inputText);
      assert forall i :: 2 <= i < |evs| ==> evs[i].Wrote?;
    }
  }

  /** The checklist calls of `InvokeStageOrder`: each follows the save of the summary it is given. */
  lemma InvokeChecklistCallFollowsSummary(loaded: Job, first: Outcome, second: Outcome, retries: nat, policy: ExhaustPolicy)
    ensures var evs := Invoke(loaded, first, second, retries, policy).events;
            forall i :: 0 <= i < |evs| && evs[i].Called? && evs[i].stage == MakeChecklist ==>
              && first.Ok?
              && evs[i].content == first.text
              && 0 < i && Writes(evs[i - 1], SummaryCol)
              && evs[i - 1].row.summary == Some(evs[i].content)
  {
    var evs := Invoke(loaded, first, second, retries, policy).events;
    if first.Ok? {
      var summarized := loaded.(status := Running, summary := Some(first.text));
      assert evs[1].stage == Summarize;
      assert evs[2] == Wrote(SummaryCol, summarized) && evs[3] == Called(MakeChecklist, first.text);
      assert forall i :: 4 <= i < |evs| ==> evs[i].Wrote?;
    } else {
      assert evs[1].stage == Summarize;
      assert forall i :: 2 <= i < |evs| ==> evs[i].Wrote?;
    }
  }

  /** The saves of `InvokeStageOrder`: a checklist is saved only after a summary was. */
  lemma InvokeChecklistAfterSummary(loaded: Job, first: Outcome, second: Outcome, retries: nat, policy: ExhaustPolicy)
    ensures var evs := Invoke(loaded, first, second, retries, policy).events;
            forall i :: 0 <= i < |evs| && Writes(evs[i], ChecklistCol) ==>
              exists j :: 0 <= j < i && Writes(evs[j], SummaryCol)
  {
    var evs := Invoke(loaded, first, second, retries, policy).events;
    if first.Ok? && second.Ok? {
      assert Writes(evs[2], SummaryCol);
    } else if !first.Ok? {
      assert |evs| <= 3;
    }
  }

  /**
   * The row an invocation leaves has the status of the decision table, the
   * summary of a successful first call and the checklist of a successful
   * second call, and otherwise the summary and checklist it was loaded with.
   * The invocation returns exactly when that status is terminal, and asks
   * for a retry exactly on an unexpected error with budget left.
   */
  lemma InvokeSettles(loaded: Job, first: Outcome, second: Outcome, retries: nat, policy: ExhaustPolicy)
    ensures var fx := Invoke(loaded, first, second, retries, policy);
            && fx.row == loaded.(status := SettledStatus(first, second, retries, policy),
                                 summary := if first.Ok? then Some(first.text) else loaded.summary,
                                 checklist := if first.Ok? && second.Ok? then Some(second.text) else loaded.checklist)
            && (fx.end == Returned <==> Terminal(fx.row.status))
            && (fx.end == RetryRequested <==> FirstFailure(first, second) == Some(TransientErr) && retries < MaxRetries)
  {
  }

  /**
   * No save of an invocation writes PENDING, and only the last save can
   * leave RUNNING, which it does exactly when the invocation returns.
   */
  lemma InvokeStatusShape(loaded: Job, first: Outcome, second: Outcome, retries: nat, policy: ExhaustPolicy)
    ensures var fx := Invoke(loaded, first, second, retries, policy);
            && RunningUntilLast(fx.events)
            && (fx.end != Returned ==> SavesOnlyRunning(fx.events))
            && (fx.end == Returned ==> fx.events[|fx.events| - 1].Wrote? && Terminal(fx.events[|fx.events| - 1].row.status))
  {
  }

  /** SUCCEEDED is saved only on the path where both model calls succeed. */
  lemma InvokeSucceededOnlyOnFallThrough(loaded: Job, first: Outcome, second: Outcome, retries: nat, policy: ExhaustPolicy)
    ensures var evs := Invoke(loaded, first, second, retries, policy).events;
            (exists i :: 0 <= i < |evs| && evs[i].Wrote? && evs[i].row.status == Succeeded) <==> first.Ok? && second.Ok?
  {
    var evs := Invoke(loaded, first, second, retries, policy).events;
    if first.Ok? && second.Ok? {
      assert evs[5].Wrote? && evs[5].row.status == Succeeded;
    }
  }

  /** Every row an invocation saves keeps the lifecycle invariant of the row it loaded. */
  lemma InvokeKeepsConsistent(loaded: Job, first: Outcome, second: Outcome, retries: nat, policy: ExhaustPolicy)
    requires Consistent(loaded)
    ensures var fx := Invoke(loaded, first, second, retries, policy);
            SavesConsistent(fx.events) && Consistent(fx.row)
  {
  }

  /** Saves restricted to the processor's columns never change the key or the input text. */
  lemma {:induction false} SavesKeepIdentity(start: Job, evs: seq<Event>)
    requires ProcessorSaves(start, evs)
    ensures forall i :: 0 <= i < |evs| && evs[i].Wrote? ==>
              evs[i].row.id == start.id && evs[i].row.inputText == start.inputText
    ensures LastRow(start, evs).id == start.id && LastRow(start, evs).inputText == start.inputText
    decreases |evs|
  {
    if evs != [] {
      var init := evs[..|evs| - 1];
      SavesKeepIdentity(start, init);
      var e := evs[|evs| - 1];
      if e.Wrote? {
        var prev := LastRow(start, init);
        assert Value(prev, InputTextCol) == Value(e.row, InputTextCol);
      }
      forall i | 0 <= i < |evs| - 1 && evs[i].Wrote?
        ensures evs[i].row.id == start.id && evs[i].row.inputText == start.inputText
      {
        assert evs[i] == init[i];
      }
    }
  }

  /** The row left after some events is the starting row or one of the saved rows. */
  lemma {:induction false} LastRowIsSaved(start: Job, evs: seq<Event>)
    ensures LastRow(start, evs) == start ||
            exists i :: 0 <= i < |evs| && evs[i].Wrote? && evs[i].row == LastRow(start, evs)
    decreases |evs|
  {
    if evs != [] && !evs[|evs| - 1].Wrote? {
      var init := evs[..|evs| - 1];
      LastRowIsSaved(start, init);
      if LastRow(start, init) != start {
        var i :| 0 <= i < |init| && init[i].Wrote? && init[i].row == LastRow(start, init);
        assert evs[i] == init[i];
      }
    }
  }

  /** Every row saved in `evs` is RUNNING. */
  ghost predicate SavesOnlyRunning(evs: seq<Event>) {
    forall i :: 0 <= i < |evs| && evs[i].Wrote? ==> evs[i].row.status == Running
  }

  /**
   * No row saved in `evs` is PENDING, and only the last event can save a
   * row that is not RUNNING.
   */
  ghost predicate RunningUntilLast(evs: seq<Event>) {
    forall i :: 0 <= i < |evs| && evs[i].Wrote? ==>
      evs[i].row.status != Pending && (evs[i].row.status != Running ==> i == |evs| - 1)
  }

  lemma RunningUntilLastAppend(a: seq<Event>, b: seq<Event>)
    requires SavesOnlyRunning(a) && RunningUntilLast(b)
    ensures RunningUntilLast(a + b)
  {
    forall i | 0 <= i < |a + b| && (a + b)[i].Wrote?
      ensures (a + b)[i].row.status != Pending
      ensures (a + b)[i].row.status != Running ==> i == |a + b| - 1
    {
      if i < |a| {
        assert (a + b)[i] == a[i];
      } else {
        assert (a + b)[i] == b[i - |a|];
      }
    }
  }

  /** Every row saved in `evs` keeps the lifecycle invariant. */
  ghost predicate SavesConsistent(evs: seq<Event>) {
    forall i :: 0 <= i < |evs| && evs[i].Wrote? ==> Consistent(evs[i].row)
  }

  lemma SavesConsistentAppend(a: seq<Event>, b: seq<Event>)
    requires SavesConsistent(a) && SavesConsistent(b)
    ensures SavesConsistent(a + b)
  {
    forall i | 0 <= i < |a + b| && (a + b)[i].Wrote?
      ensures Consistent((a + b)[i].row)
    {
      if i < |a| {
        assert (a + b)[i] == a[i];
      } else {
        assert (a + b)[i] == b[i - |a|];
      }
    }
  }
}
