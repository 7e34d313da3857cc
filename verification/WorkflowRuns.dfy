/** What every run of the sequential runner does, and how two policies compare. */
module WorkflowRuns {
  import opened Common
  import opened Json
  import opened WorkflowModel
  import opened WorkflowRunner

  // ----- the recorded rows -----

  /** The runner goes past this row. */
  predicate Passed(row: StepRow, step: Step) {
    row.status == StepSucceeded || (row.status == StepFailed && step.continueOnError)
  }

  function EndOf(row: StepRow, step: Step): RunStatus {
    if Passed(row, step) then RunSucceeded
    else match row.status
      case StepWaitingApproval => RunWaitingApproval
      case StepCancelled => RunCancelled
      case StepBlocked => RunBlocked
      case _ => RunFailed
  }

  /** What a row says about its step, whatever came of it. */
  predicate Matches(row: StepRow, step: Step, w: World) {
    row.stepId == step.id && row.input == InputOf(step, w) && row.finished == FinalStep(row.status)
  }

  /** The rows follow the steps from the `i`-th on, in order, and every row but the last was passed. */
  ghost predicate Follows(rows: seq<StepRow>, steps: seq<Step>, i: nat, w: World) {
    && i + |rows| <= |steps|
    && (forall k :: 0 <= k < |rows| ==> Matches(rows[k], steps[i + k], w))
    && (forall k :: 0 <= k < |rows| - 1 ==> Passed(rows[k], steps[i + k]))
  }

  /** The last row fixes the end, and a last row that was passed belongs to the last step. */
  predicate EndsWith(o: Outcome, steps: seq<Step>, i: nat) {
    && 0 < |o.rows| && i + |o.rows| <= |steps|
    && var last, step := o.rows[|o.rows| - 1], steps[i + |o.rows| - 1];
       && o.status == EndOf(last, step)
       && o.error == (if o.status == RunSucceeded then None else last.error)
       && (Passed(last, step) ==> i + |o.rows| == |steps|)
  }

  predicate Ran(row: StepRow) {
    row.status == StepSucceeded || row.status == StepFailed
  }

  predicate Permitted(actions: map<string, Decision>, step: Step, w: World, i: nat, calls: seq<Call>) {
    || Evaluate(actions, step, w.destructive) == Allow
    || (Evaluate(actions, step, w.destructive) == Confirm && ResolveConfirmation(w, calls, i, CallOf(step)) == Some(true))
  }

  /** The first step from the `i`-th on: it runs exactly when permitted, and the run goes on exactly when it is passed. */
  lemma FirstStep(steps: seq<Step>, actions: map<string, Decision>, w: World, i: nat, calls: seq<Call>)
    requires i < |steps|
    ensures
      var o, step := ExecuteFrom(steps, actions, w, i, calls), steps[i];
      var after := CallsAfter(w, calls, CallOf(step));
      && Matches(o.rows[0], step, w)
      && (Permitted(actions, step, w, i, calls) <==> Ran(o.rows[0]))
      && (Ran(o.rows[0]) ==> o.rows[0] == RanRow(step, w, ExecuteHandler(w, calls, CallOf(step))))
      && if Passed(o.rows[0], step)
         then o == Prefixed([o.rows[0]], ExecuteFrom(steps, actions, w, i + 1, after))
         else o == Outcome([o.rows[0]], EndOf(o.rows[0], step), o.rows[0].error, if Ran(o.rows[0]) then after else calls)
  {
  }

  /** The rows of the steps from the `i`-th on. */
  function RowsFrom(steps: seq<Step>, actions: map<string, Decision>, w: World, i: nat, calls: seq<Call>): seq<StepRow>
    requires i <= |steps|
  {
    ExecuteFrom(steps, actions, w, i, calls).rows
  }

  lemma FirstRow(steps: seq<Step>, actions: map<string, Decision>, w: World, i: nat, calls: seq<Call>) returns (row: StepRow)
    requires i < |steps|
    ensures Ran(row) ==> Permitted(actions, steps[i], w, i, calls)
    ensures Passed(row, steps[i]) ==> Ran(row)
    ensures Matches(row, steps[i], w)
    ensures RowsFrom(steps, actions, w, i, calls) ==
            [row] + if Passed(row, steps[i]) then RowsFrom(steps, actions, w, i + 1, CallsAfter(w, calls, CallOf(steps[i]))) else []
  {
    FirstStep(steps, actions, w, i, calls);
    row := RowsFrom(steps, actions, w, i, calls)[0];
  }

  lemma {:induction false} ExecuteFollows(steps: seq<Step>, actions: map<string, Decision>, w: World, i: nat, calls: seq<Call>)
    requires i <= |steps|
    ensures Follows(RowsFrom(steps, actions, w, i, calls), steps, i, w)
    decreases |steps| - i
  {
    if i < |steps| {
      var row := FirstRow(steps, actions, w, i, calls);
      if Passed(row, steps[i]) {
        var after := CallsAfter(w, calls, CallOf(steps[i]));
        ExecuteFollows(steps, actions, w, i + 1, after);
        FollowsOneMore(row, RowsFrom(steps, actions, w, i + 1, after), steps, i, w);
      } else {
        FollowsOne(row, steps, i, w);
        assert RowsFrom(steps, actions, w, i, calls) == [row];
      }
    }
  }

  lemma FollowsOne(row: StepRow, steps: seq<Step>, i: nat, w: World)
    requires i < |steps| && Matches(row, steps[i], w)
    ensures Follows([row], steps, i, w)
  {
  }

  lemma FollowsOneMore(row: StepRow, rows: seq<StepRow>, steps: seq<Step>, i: nat, w: World)
    requires i < |steps| && Matches(row, steps[i], w) && Passed(row, steps[i]) && Follows(rows, steps, i + 1, w)
    ensures Follows([row] + rows, steps, i, w)
  {
    var all := [row] + rows;
    forall k | 0 <= k < |all| ensures Matches(all[k], steps[i + k], w) && (k < |all| - 1 ==> Passed(all[k], steps[i + k])) {
      if k > 0 {
        assert all[k] == rows[k - 1] && steps[i + k] == steps[i + 1 + (k - 1)];
      }
    }
  }

  lemma EndsOneMore(row: StepRow, rest: Outcome, steps: seq<Step>, i: nat)
    requires EndsWith(rest, steps, i + 1)
    ensures EndsWith(Prefixed([row], rest), steps, i)
  {
    assert ([row] + rest.rows)[|rest.rows|] == rest.rows[|rest.rows| - 1];
  }

  lemma {:induction false} ExecuteEnds(steps: seq<Step>, actions: map<string, Decision>, w: World, i: nat, calls: seq<Call>)
    requires i < |steps|
    ensures EndsWith(ExecuteFrom(steps, actions, w, i, calls), steps, i)
    decreases |steps| - i
  {
    FirstStep(steps, actions, w, i, calls);
    var row := ExecuteFrom(steps, actions, w, i, calls).rows[0];
    if Passed(row, steps[i]) && i + 1 < |steps| {
      var after := CallsAfter(w, calls, CallOf(steps[i]));
      ExecuteEnds(steps, actions, w, i + 1, after);
      EndsOneMore(row, ExecuteFrom(steps, actions, w, i + 1, after), steps, i);
    }
  }

  /**
    Every run: the rows follow the steps in order, a row is left behind only when it succeeded or failed with
    `continue_on_error`, the last row fixes the status and the error, and the run succeeds exactly when every
    step was recorded and passed.
   */
  lemma RunIsWellRecorded(wf: Workflow, w: World)
    ensures
      var o := RunOf(wf, w);
      if |wf.steps| > wf.maxSteps then
        o == Outcome([], RunBlocked, Some("budget_max_steps_exceeded"), [])
      else
        && Follows(o.rows, wf.steps, 0, w)
        && (wf.steps != [] ==> EndsWith(o, wf.steps, 0))
        && (o.status == RunSucceeded <==> AllPassed(o.rows, wf.steps))
  {
    if |wf.steps| <= wf.maxSteps {
      ExecuteFollows(wf.steps, wf.actions, w, 0, []);
      if wf.steps != [] {
        ExecuteEnds(wf.steps, wf.actions, w, 0, []);
        EndIsSuccess(RunOf(wf, w), wf.steps, w);
      }
    }
  }

  predicate AllPassed(rows: seq<StepRow>, steps: seq<Step>) {
    |rows| == |steps| && forall k :: 0 <= k < |rows| ==> Passed(rows[k], steps[k])
  }

  lemma EndIsSuccess(o: Outcome, steps: seq<Step>, w: World)
    requires Follows(o.rows, steps, 0, w) && EndsWith(o, steps, 0)
    ensures o.status == RunSucceeded <==> AllPassed(o.rows, steps)
  {
    var last := |o.rows| - 1;
    assert o.status == RunSucceeded <==> Passed(o.rows[last], steps[last]);
    assert AllPassed(o.rows, steps) ==> Passed(o.rows[last], steps[last]);
  }

  // ----- which handlers are called -----

  /** The calls that the rows of the steps from the `i`-th on account for, in order. */
  function RanCalls(rows: seq<StepRow>, steps: seq<Step>, i: nat, w: World): seq<Call>
    requires i + |rows| <= |steps|
    decreases |rows|
  {
    if rows == [] then []
    else
      (if Ran(rows[0]) && steps[i].uses in w.registered then [CallOf(steps[i])] else []) +
      RanCalls(rows[1..], steps, i + 1, w)
  }

  /** A step runs only if its policy allows it or the confirmer, asked after the earlier calls, said yes. */
  ghost predicate RunsOnlyWhenPermitted(rows: seq<StepRow>, steps: seq<Step>, i: nat, actions: map<string, Decision>, w: World,
                                        calls: seq<Call>)
    requires i + |rows| <= |steps|
  {
    forall k :: 0 <= k < |rows| && Ran(rows[k]) ==>
      Permitted(actions, steps[i + k], w, i + k, calls + RanCalls(rows[..k], steps, i, w))
  }

  lemma RanCallsOneMore(rows: seq<StepRow>, steps: seq<Step>, i: nat, w: World, calls: seq<Call>, k: nat)
    requires i + |rows| <= |steps| && 1 <= k <= |rows| && Ran(rows[0])
    ensures calls + RanCalls(rows[..k], steps, i, w) ==
            CallsAfter(w, calls, CallOf(steps[i])) + RanCalls(rows[1..][..k - 1], steps, i + 1, w)
  {
    assert rows[..k][1..] == rows[1..][..k - 1];
    assert rows[..k][0] == rows[0];
    var rest := RanCalls(rows[1..][..k - 1], steps, i + 1, w);
    assert calls + ([CallOf(steps[i])] + rest) == (calls + [CallOf(steps[i])]) + rest;
    assert calls + ([] + rest) == calls + rest;
  }

  lemma PermittedOneMore(rows: seq<StepRow>, steps: seq<Step>, i: nat, actions: map<string, Decision>, w: World, calls: seq<Call>)
    requires 0 < |rows| && i + |rows| <= |steps| && Ran(rows[0]) && Permitted(actions, steps[i], w, i, calls)
    requires RunsOnlyWhenPermitted(rows[1..], steps, i + 1, actions, w, CallsAfter(w, calls, CallOf(steps[i])))
    ensures RunsOnlyWhenPermitted(rows, steps, i, actions, w, calls)
  {
    forall k | 0 <= k < |rows| && Ran(rows[k])
      ensures Permitted(actions, steps[i + k], w, i + k, calls + RanCalls(rows[..k], steps, i, w))
    {
      if k == 0 {
        assert calls + RanCalls(rows[..k], steps, i, w) == calls;
      } else {
        RanCallsOneMore(rows, steps, i, w, calls, k);
        assert Ran(rows[1..][k - 1]);
        assert steps[i + 1 + (k - 1)] == steps[i + k];
      }
    }
  }

  lemma PermittedPrepended(row: StepRow, rows: seq<StepRow>, steps: seq<Step>, i: nat, actions: map<string, Decision>, w: World,
                           calls: seq<Call>)
    requires i + 1 + |rows| <= |steps| && Ran(row) && Permitted(actions, steps[i], w, i, calls)
    requires RunsOnlyWhenPermitted(rows, steps, i + 1, actions, w, CallsAfter(w, calls, CallOf(steps[i])))
    ensures RunsOnlyWhenPermitted([row] + rows, steps, i, actions, w, calls)
  {
    assert ([row] + rows)[1..] == rows;
    PermittedOneMore([row] + rows, steps, i, actions, w, calls);
  }

  lemma PermittedOne(row: StepRow, steps: seq<Step>, i: nat, actions: map<string, Decision>, w: World, calls: seq<Call>)
    requires i < |steps| && (Ran(row) ==> Permitted(actions, steps[i], w, i, calls))
    ensures RunsOnlyWhenPermitted([row], steps, i, actions, w, calls)
  {
    assert calls + RanCalls([row][..0], steps, i, w) == calls;
  }

  lemma {:induction false} ExecuteIsPermitted(steps: seq<Step>, actions: map<string, Decision>, w: World, i: nat, calls: seq<Call>)
    requires i <= |steps|
    ensures
      var rows := RowsFrom(steps, actions, w, i, calls);
      i + |rows| <= |steps| && RunsOnlyWhenPermitted(rows, steps, i, actions, w, calls)
    decreases |steps| - i
  {
    if i < |steps| {
      var row := FirstRow(steps, actions, w, i, calls);
      if Passed(row, steps[i]) {
        var after := CallsAfter(w, calls, CallOf(steps[i]));
        ExecuteIsPermitted(steps, actions, w, i + 1, after);
        PermittedPrepended(row, RowsFrom(steps, actions, w, i + 1, after), steps, i, actions, w, calls);
      } else {
        PermittedOne(row, steps, i, actions, w, calls);
        assert RowsFrom(steps, actions, w, i, calls) == [row];
      }
    }
  }

  /** The handler calls are those of the rows that ran, after the calls before. */
  ghost predicate CallsItsRows(o: Outcome, steps: seq<Step>, i: nat, w: World, calls: seq<Call>) {
    i + |o.rows| <= |steps| && o.calls == calls + RanCalls(o.rows, steps, i, w)
  }

  lemma CallsOneMore(row: StepRow, rest: Outcome, steps: seq<Step>, i: nat, w: World, calls: seq<Call>)
    requires i < |steps| && Ran(row) && CallsItsRows(rest, steps, i + 1, w, CallsAfter(w, calls, CallOf(steps[i])))
    ensures CallsItsRows(Prefixed([row], rest), steps, i, w, calls)
  {
    var rows := [row] + rest.rows;
    RanCallsOneMore(rows, steps, i, w, calls, |rows|);
    assert rows[..|rows|] == rows && rows[1..][..|rows| - 1] == rest.rows;
  }

  lemma CallsOfOne(row: StepRow, o: Outcome, steps: seq<Step>, i: nat, w: World, calls: seq<Call>)
    requires i < |steps| && o.rows == [row] && o.calls == if Ran(row) then CallsAfter(w, calls, CallOf(steps[i])) else calls
    ensures CallsItsRows(o, steps, i, w, calls)
  {
    assert [row][1..] == [];
  }

  lemma {:induction false} ExecuteCallsWhatItRecords(steps: seq<Step>, actions: map<string, Decision>, w: World, i: nat, calls: seq<Call>)
    requires i <= |steps|
    ensures CallsItsRows(ExecuteFrom(steps, actions, w, i, calls), steps, i, w, calls)
    decreases |steps| - i
  {
    if i < |steps| {
      FirstStep(steps, actions, w, i, calls);
      var o := ExecuteFrom(steps, actions, w, i, calls);
      if Passed(o.rows[0], steps[i]) {
        var after := CallsAfter(w, calls, CallOf(steps[i]));
        ExecuteCallsWhatItRecords(steps, actions, w, i + 1, after);
        CallsOneMore(o.rows[0], ExecuteFrom(steps, actions, w, i + 1, after), steps, i, w, calls);
      } else {
        CallsOfOne(o.rows[0], o, steps, i, w, calls);
      }
    }
  }

  /** The handler calls of a run are exactly those of the rows that ran, and each was permitted. */
  lemma HandlersRunOnlyWhenPermitted(wf: Workflow, w: World)
    ensures
      var o := RunOf(wf, w);
      && |o.rows| <= |wf.steps|
      && o.calls == RanCalls(o.rows, wf.steps, 0, w)
      && RunsOnlyWhenPermitted(o.rows, wf.steps, 0, wf.actions, w, [])
  {
    if |wf.steps| <= wf.maxSteps {
      ExecuteIsPermitted(wf.steps, wf.actions, w, 0, []);
      ExecuteCallsWhatItRecords(wf.steps, wf.actions, w, 0, []);
    }
  }

  // ----- two policies -----

  /** `a` stops no later than `b`, and does the same before its last row. */
  ghost predicate StopsEarlier(a: Outcome, b: Outcome) {
    a.calls <= b.calls && |a.rows| <= |b.rows| && (a.rows != [] ==> a.rows[..|a.rows| - 1] <= b.rows)
  }

  lemma StopsEarlierOneMore(row: StepRow, a: Outcome, b: Outcome)
    requires StopsEarlier(a, b)
    ensures StopsEarlier(Prefixed([row], a), Prefixed([row], b))
  {
    var more := Prefixed([row], a).rows;
    if a.rows != [] {
      assert more[..|more| - 1] == [row] + a.rows[..|a.rows| - 1];
    } else {
      assert more[..|more| - 1] == [];
    }
  }

  lemma {:induction false} StricterStopsEarlier(steps: seq<Step>, strict: map<string, Decision>, loose: map<string, Decision>,
                                                w: World, i: nat, calls: seq<Call>)
    requires i <= |steps| && Stricter(strict, loose)
    ensures StopsEarlier(ExecuteFrom(steps, strict, w, i, calls), ExecuteFrom(steps, loose, w, i, calls))
    decreases |steps| - i
  {
    if i < |steps| {
      EvaluateIsMonotone(strict, loose, steps[i], w.destructive);
      FirstStep(steps, strict, w, i, calls);
      FirstStep(steps, loose, w, i, calls);
      ExecuteCallsWhatItRecords(steps, loose, w, i, calls);
      var row := ExecuteFrom(steps, strict, w, i, calls).rows[0];
      if Passed(row, steps[i]) {
        var after := CallsAfter(w, calls, CallOf(steps[i]));
        StricterStopsEarlier(steps, strict, loose, w, i + 1, after);
        StopsEarlierOneMore(row, ExecuteFrom(steps, strict, w, i + 1, after), ExecuteFrom(steps, loose, w, i + 1, after));
      }
    }
  }

  /**
    Tightening the policy of a workflow only cuts its runs short: the handler calls are a prefix,
    and the rows before the last are the same.
   */
  lemma TighteningOnlyRestricts(wf: Workflow, strict: map<string, Decision>, w: World)
    requires Stricter(strict, wf.actions)
    ensures StopsEarlier(RunOf(wf.(actions := strict), w), RunOf(wf, w))
  {
    if |wf.steps| <= wf.maxSteps {
      StricterStopsEarlier(wf.steps, strict, wf.actions, w, 0, []);
    }
  }
}
