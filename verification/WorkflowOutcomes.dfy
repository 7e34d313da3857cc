/**
  What every row of a run says, in terms of the step, the policy, the confirmer and the handler alone, without the
  evaluator and the loop of the runner.
 */
module WorkflowOutcomes {
  import opened Common
  import opened Json
  import opened Redaction
  import opened WorkflowModel
  import opened WorkflowRunner
  import opened WorkflowRuns

  predicate SaidYes(w: World, calls: seq<Call>, i: nat, step: Step) {
    w.confirmer.Some? && w.confirmer.value(calls, i, Call(step.uses, step.withArgs)) == Answers(true)
  }

  predicate RowShows(row: StepRow, status: StepStatus, output: Option<Json>, error: Option<string>, finished: bool) {
    row.status == status && row.output == output && row.error == error && row.finished == finished
  }

  predicate Failed(row: StepRow, output: map<string, Json>, error: string, w: World) {
    RowShows(row, StepFailed, Some(Redact(Obj(output), w.sensitive)), Some(if error == "" then "handler_failed" else error), true)
  }

  /** What the row says when the handler was to be called after the given calls. */
  predicate HandlerRow(row: StepRow, step: Step, w: World, calls: seq<Call>) {
    if step.uses !in w.registered then Failed(row, map[], "handler_not_registered", w)
    else
      match w.handler(calls, Call(step.uses, step.withArgs))
      case Raises(e) => Failed(row, map[], e, w)
      case ResultObject(ok, output, error) =>
        if ok then RowShows(row, StepSucceeded, Some(Redact(Obj(output), w.sensitive)), None, true)
        else Failed(row, output, if error.Some? then error.value else "", w)
      case Dictionary(output) => RowShows(row, StepSucceeded, Some(Redact(Obj(output), w.sensitive)), None, true)
      case SomethingElse => Failed(row, map[], "handler_invalid_result", w)
  }

  /** The row of a step that is reached after the given calls. */
  predicate RowIsRight(row: StepRow, step: Step, actions: map<string, Decision>, w: World, i: nat, calls: seq<Call>) {
    && row.stepId == step.id && row.input == Redact(Obj(step.withArgs), w.sensitive)
    && if Forbids(actions, step, w.destructive) then RowShows(row, StepBlocked, None, Some("policy_blocked"), true)
       else if AsksFirst(actions, step) && w.confirmer.None? then RowShows(row, StepWaitingApproval, None, None, false)
       else if AsksFirst(actions, step) && !SaidYes(w, calls, i, step) then RowShows(row, StepCancelled, None, Some("confirmation_rejected"), true)
       else HandlerRow(row, step, w, calls)
  }

  lemma HandlerRowIsRight(step: Step, w: World, calls: seq<Call>)
    ensures HandlerRow(RanRow(step, w, ExecuteHandler(w, calls, CallOf(step))), step, w, calls)
  {
  }

  lemma FirstRowIsRight(steps: seq<Step>, actions: map<string, Decision>, w: World, i: nat, calls: seq<Call>)
    requires i < |steps|
    ensures RowIsRight(ExecuteFrom(steps, actions, w, i, calls).rows[0], steps[i], actions, w, i, calls)
  {
    DecidesExactly(actions, steps[i], w.destructive);
    HandlerRowIsRight(steps[i], w, calls);
  }

  /** Every row is right after the calls that the rows before it account for. */
  ghost predicate RowsAreRight(rows: seq<StepRow>, steps: seq<Step>, i: nat, actions: map<string, Decision>, w: World, calls: seq<Call>)
    requires i + |rows| <= |steps|
  {
    forall k :: 0 <= k < |rows| ==> RowIsRight(rows[k], steps[i + k], actions, w, i + k, calls + RanCalls(rows[..k], steps, i, w))
  }

  lemma RowsOneMore(row: StepRow, rows: seq<StepRow>, steps: seq<Step>, i: nat, actions: map<string, Decision>, w: World, calls: seq<Call>)
    requires i + 1 + |rows| <= |steps| && Ran(row) && RowIsRight(row, steps[i], actions, w, i, calls)
    requires RowsAreRight(rows, steps, i + 1, actions, w, CallsAfter(w, calls, CallOf(steps[i])))
    ensures RowsAreRight([row] + rows, steps, i, actions, w, calls)
  {
    var all := [row] + rows;
    assert all[1..] == rows;
    forall k | 0 <= k < |all|
      ensures RowIsRight(all[k], steps[i + k], actions, w, i + k, calls + RanCalls(all[..k], steps, i, w))
    {
      if k == 0 {
        assert calls + RanCalls(all[..k], steps, i, w) == calls;
      } else {
        RanCallsOneMore(all, steps, i, w, calls, k);
        assert all[k] == rows[k - 1] && steps[i + 1 + (k - 1)] == steps[i + k];
      }
    }
  }

  lemma OneRow(row: StepRow, steps: seq<Step>, i: nat, actions: map<string, Decision>, w: World, calls: seq<Call>)
    requires i < |steps| && RowIsRight(row, steps[i], actions, w, i, calls)
    ensures RowsAreRight([row], steps, i, actions, w, calls)
  {
    assert calls + RanCalls([row][..0], steps, i, w) == calls;
  }

  lemma {:induction false} ExecuteIsRight(steps: seq<Step>, actions: map<string, Decision>, w: World, i: nat, calls: seq<Call>)
    requires i <= |steps|
    ensures
      var rows := RowsFrom(steps, actions, w, i, calls);
      i + |rows| <= |steps| && RowsAreRight(rows, steps, i, actions, w, calls)
    decreases |steps| - i
  {
    if i < |steps| {
      FirstRowIsRight(steps, actions, w, i, calls);
      var row := FirstRow(steps, actions, w, i, calls);
      if Passed(row, steps[i]) {
        var after := CallsAfter(w, calls, CallOf(steps[i]));
        ExecuteIsRight(steps, actions, w, i + 1, after);
        RowsOneMore(row, RowsFrom(steps, actions, w, i + 1, after), steps, i, actions, w, calls);
      } else {
        OneRow(row, steps, i, actions, w, calls);
        assert RowsFrom(steps, actions, w, i, calls) == [row];
      }
    }
  }

  /** Every run: each row is what its step, the policy, the confirmer and the handler make of it after the calls before. */
  lemma EveryRowIsRight(wf: Workflow, w: World, k: nat)
    requires k < |RunOf(wf, w).rows|
    ensures
      var rows := RunOf(wf, w).rows;
      |rows| <= |wf.steps| && RowIsRight(rows[k], wf.steps[k], wf.actions, w, k, RanCalls(rows[..k], wf.steps, 0, w))
  {
    if |wf.steps| <= wf.maxSteps {
      ExecuteIsRight(wf.steps, wf.actions, w, 0, []);
      var rows := RunOf(wf, w).rows;
      assert [] + RanCalls(rows[..k], wf.steps, 0, w) == RanCalls(rows[..k], wf.steps, 0, w);
    }
  }

  /**
    Every run: a step that is reached runs if and only if it is not forbidden and, where something wants a confirmation,
    the confirmer said yes.
   */
  lemma RunsExactlyWhenItMay(wf: Workflow, w: World, k: nat)
    requires k < |RunOf(wf, w).rows|
    ensures
      var rows := RunOf(wf, w).rows;
      |rows| <= |wf.steps| &&
      var step, calls := wf.steps[k], RanCalls(rows[..k], wf.steps, 0, w);
      Ran(rows[k]) <==> !Forbids(wf.actions, step, w.destructive) && (AsksFirst(wf.actions, step) ==> SaidYes(w, calls, k, step))
  {
    EveryRowIsRight(wf, w, k);
  }

  /** A run is finished unless it waits for an approval. */
  lemma RunsFinishUnlessTheyWait(wf: Workflow, w: World)
    ensures FinalRun(RunOf(wf, w).status) <==> RunOf(wf, w).status != RunWaitingApproval
    ensures RunOf(wf, w).status == RunWaitingApproval <==>
      var rows := RunOf(wf, w).rows;
      rows != [] && rows[|rows| - 1].status == StepWaitingApproval
  {
    RunIsWellRecorded(wf, w);
  }
}
