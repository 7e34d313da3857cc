/**
  The sequential runner: src/assistant/workflows/runner.py over the run tables of
  src/assistant/workflows/repository.py. A time stamp is reduced to whether it is set.
 */
module WorkflowRunner {
  import opened Common
  import opened Json
  import opened Redaction
  import opened WorkflowModel

  datatype RunStatus = RunPending | RunRunning | RunWaitingApproval | RunSucceeded | RunFailed | RunCancelled | RunBlocked

  datatype StepStatus =
    | StepPending | StepRunning | StepWaitingApproval | StepSucceeded | StepFailed | StepSkipped | StepCancelled | StepBlocked

  datatype RunRow = RunRow(workflowId: string, status: RunStatus, trigger: Option<Json>, error: Option<string>, finished: bool)

  datatype StepRow = StepRow(
    stepId: string,
    status: StepStatus,
    input: Json,
    output: Option<Json>,
    error: Option<string>,
    finished: bool)

  predicate FinalRun(s: RunStatus) {
    s in {RunSucceeded, RunFailed, RunCancelled, RunBlocked}
  }

  predicate FinalStep(s: StepStatus) {
    s in {StepSucceeded, StepFailed, StepSkipped, StepCancelled, StepBlocked}
  }

  // ----- the run tables -----

  function UpdatedRun(row: RunRow, status: RunStatus, error: Option<string>): RunRow {
    row.(status := status, finished := FinalRun(status), error := error)
  }

  /** `output = COALESCE(?, output)` */
  function UpdatedStep(row: StepRow, status: StepStatus, output: Option<Json>, error: Option<string>): StepRow {
    row.(status := status, output := if output.Some? then output else row.output, error := error, finished := FinalStep(status))
  }

  function NewRun(workflowId: string, trigger: Option<Json>): RunRow {
    RunRow(workflowId, RunPending, trigger, None, false)
  }

  function NewStep(stepId: string, input: Json): StepRow {
    StepRow(stepId, StepPending, input, None, None, false)
  }

  datatype StepRecord = StepRecord(run: nat, row: StepRow)

  /** Rows in insertion order; the index of a row stands for its identifier. */
  class RunTables {
    var runs: seq<RunRow>
    var steps: seq<StepRecord>

    constructor ()
      ensures runs == [] && steps == []
    {
      runs, steps := [], [];
    }

    method CreateRun(row: RunRow) returns (id: nat)
      modifies this`runs
      ensures id == |old(runs)| && runs == old(runs) + [row]
    {
      id := |runs|;
      runs := runs + [row];
    }

    /** False stands for the error on an unknown run. */
    method UpdateRunStatus(id: nat, status: RunStatus, error: Option<string>) returns (found: bool)
      modifies this`runs
      ensures found <==> id < |old(runs)|
      ensures runs == if found then old(runs)[id := UpdatedRun(old(runs)[id], status, error)] else old(runs)
    {
      found := id < |runs|;
      if !found {
        return;
      }
      var finished := status in {RunSucceeded, RunFailed, RunCancelled, RunBlocked};
      runs := runs[id := runs[id].(status := status, finished := finished, error := error)];
    }

    method CreateRunStep(run: nat, row: StepRow) returns (id: nat)
      modifies this`steps
      ensures id == |old(steps)| && steps == old(steps) + [StepRecord(run, row)]
    {
      id := |steps|;
      steps := steps + [StepRecord(run, row)];
    }

    /** False stands for the error on an unknown step. */
    method UpdateRunStepStatus(id: nat, status: StepStatus, output: Option<Json>, error: Option<string>) returns (found: bool)
      modifies this`steps
      ensures found <==> id < |old(steps)|
      ensures steps ==
        if found then old(steps)[id := StepRecord(old(steps)[id].run, UpdatedStep(old(steps)[id].row, status, output, error))]
        else old(steps)
    {
      found := id < |steps|;
      if !found {
        return;
      }
      var row := steps[id].row;
      var kept := if output.Some? then output else row.output;
      var finished := status in {StepSucceeded, StepFailed, StepSkipped, StepCancelled, StepBlocked};
      steps := steps[id := steps[id].(row := row.(status := status, output := kept, error := error, finished := finished))];
    }
  }

  // ----- handlers and the confirmer -----

  datatype Call = Call(handler: string, arguments: map<string, Json>)

  function CallOf(step: Step): Call {
    Call(step.uses, step.withArgs)
  }

  /** What a handler returns or raises: a result object, a plain dictionary, or something else. */
  datatype Returned =
    | Raises(exception: string)
    | ResultObject(ok: bool, output: map<string, Json>, error: Option<string>)
    | Dictionary(output: map<string, Json>)
    | SomethingElse

  datatype Answer = Answers(yes: bool) | AnswerRaises

  /**
    The world outside the runner. A handler may depend on the calls made so far, which tell its calls apart, and the
    confirmer also on the index of the step it is asked about, so any behaviour in one run is covered; in two runs they
    behave alike after the same calls and at the same step.
   */
  datatype World = World(
    registered: set<string>,
    handler: (seq<Call>, Call) -> Returned,
    confirmer: Option<(seq<Call>, nat, Call) -> Answer>,
    destructive: string -> bool,
    sensitive: KeyTest)

  datatype HandlerResult = HandlerResult(ok: bool, output: map<string, Json>, error: Option<string>)

  function ResultOf(r: Returned): HandlerResult {
    match r
    case Raises(e) => HandlerResult(false, map[], Some(e))
    case ResultObject(ok, output, error) => HandlerResult(ok, output, error)
    case Dictionary(output) => HandlerResult(true, output, None)
    case SomethingElse => HandlerResult(false, map[], Some("handler_invalid_result"))
  }

  /** `_execute_handler`: an unregistered handler is not called. */
  function ExecuteHandler(w: World, calls: seq<Call>, call: Call): HandlerResult {
    if call.handler !in w.registered then HandlerResult(false, map[], Some("handler_not_registered"))
    else ResultOf(w.handler(calls, call))
  }

  function CallsAfter(w: World, calls: seq<Call>, call: Call): seq<Call> {
    if call.handler in w.registered then calls + [call] else calls
  }

  /** `_resolve_confirmation`. */
  function ResolveConfirmation(w: World, calls: seq<Call>, i: nat, call: Call): Option<bool> {
    if w.confirmer.None? then None
    else match w.confirmer.value(calls, i, call)
      case Answers(yes) => Some(yes)
      case AnswerRaises => Some(false)
  }

  /** `result.error or "handler_failed"` */
  function FailureText(r: HandlerResult): string {
    if r.error.Some? && r.error.value != "" then r.error.value else "handler_failed"
  }

  // ----- the specification of a run -----

  datatype Outcome = Outcome(rows: seq<StepRow>, status: RunStatus, error: Option<string>, calls: seq<Call>)

  function InputOf(step: Step, w: World): Json {
    Redact(Obj(step.withArgs), w.sensitive)
  }

  function StoppedRow(step: Step, w: World, status: StepStatus, error: Option<string>): StepRow {
    StepRow(step.id, status, InputOf(step, w), None, error, FinalStep(status))
  }

  function RanRow(step: Step, w: World, r: HandlerResult): StepRow {
    StepRow(step.id, if r.ok then StepSucceeded else StepFailed, InputOf(step, w),
            Some(Redact(Obj(r.output), w.sensitive)), if r.ok then None else Some(FailureText(r)), true)
  }

  /** The steps from the `i`-th on, after the given handler calls. */
  function ExecuteFrom(steps: seq<Step>, actions: map<string, Decision>, w: World, i: nat, calls: seq<Call>): (o: Outcome)
    requires i <= |steps|
    ensures i < |steps| ==> o.rows != []
    decreases |steps| - i
  {
    if i == |steps| then Outcome([], RunSucceeded, None, calls)
    else
      var step, call := steps[i], CallOf(steps[i]);
      var decision := Evaluate(actions, step, w.destructive);
      if decision == Blocked then
        Outcome([StoppedRow(step, w, StepBlocked, Some("policy_blocked"))], RunBlocked, Some("policy_blocked"), calls)
      else if decision == Confirm && ResolveConfirmation(w, calls, i, call) == None then
        Outcome([StoppedRow(step, w, StepWaitingApproval, None)], RunWaitingApproval, None, calls)
      else if decision == Confirm && ResolveConfirmation(w, calls, i, call) == Some(false) then
        Outcome([StoppedRow(step, w, StepCancelled, Some("confirmation_rejected"))], RunCancelled, Some("confirmation_rejected"), calls)
      else
        var result := ExecuteHandler(w, calls, call);
        var after := CallsAfter(w, calls, call);
        if result.ok || step.continueOnError then
          var rest := ExecuteFrom(steps, actions, w, i + 1, after);
          rest.(rows := [RanRow(step, w, result)] + rest.rows)
        else
          Outcome([RanRow(step, w, result)], RunFailed, Some(FailureText(result)), after)
  }

  function RunOf(wf: Workflow, w: World): Outcome {
    if |wf.steps| > wf.maxSteps then Outcome([], RunBlocked, Some("budget_max_steps_exceeded"), [])
    else ExecuteFrom(wf.steps, wf.actions, w, 0, [])
  }

  function StoredTrigger(trigger: Option<Json>, w: World): Option<Json> {
    if trigger.Some? then Some(Redact(trigger.value, w.sensitive)) else None
  }

  function Prefixed(rows: seq<StepRow>, o: Outcome): Outcome {
    o.(rows := rows + o.rows)
  }

  lemma PrefixedLast(rows: seq<StepRow>, row: StepRow, status: RunStatus, error: Option<string>, calls: seq<Call>)
    ensures Prefixed(rows, Outcome([row], status, error, calls)) == Outcome(rows + [row], status, error, calls)
  {
  }

  lemma PrefixedOneMore(rows: seq<StepRow>, row: StepRow, o: Outcome)
    ensures Prefixed(rows, Prefixed([row], o)) == Prefixed(rows + [row], o)
  {
    assert rows + ([row] + o.rows) == (rows + [row]) + o.rows;
  }

  lemma RecordedOneMore(before: seq<StepRecord>, run: nat, rows: seq<StepRow>, row: StepRow)
    ensures before + Recorded(run, rows + [row]) == before + Recorded(run, rows) + [StepRecord(run, row)]
  {
    assert Recorded(run, rows + [row]) == Recorded(run, rows) + [StepRecord(run, row)];
  }

  lemma NothingMore(rows: seq<StepRow>, calls: seq<Call>)
    ensures Prefixed(rows, Outcome([], RunSucceeded, None, calls)) == Outcome(rows, RunSucceeded, None, calls)
  {
  }

  function Recorded(run: nat, rows: seq<StepRow>): seq<StepRecord> {
    seq(|rows|, i requires 0 <= i < |rows| => StepRecord(run, rows[i]))
  }

  class SequentialWorkflowRunner {
    const tables: RunTables
    const world: World

    constructor (tables: RunTables, world: World)
      ensures this.tables == tables && this.world == world
    {
      this.tables, this.world := tables, world;
    }

    /** `run`: one pass over the steps, leaving as soon as the run is decided. */
    method Run(workflowId: string, wf: Workflow, trigger: Option<Json>) returns (run: nat, calls: seq<Call>)
      modifies tables
      ensures
        var o := RunOf(wf, world);
        && run == |old(tables.runs)|
        && tables.runs == old(tables.runs) + [RunRow(workflowId, o.status, StoredTrigger(trigger, world), o.error, FinalRun(o.status))]
        && tables.steps == old(tables.steps) + Recorded(run, o.rows)
        && calls == o.calls
    {
      run := tables.CreateRun(NewRun(workflowId, StoredTrigger(trigger, world)));
      var _ := tables.UpdateRunStatus(run, RunRunning, None);
      ghost var first := RunRow(workflowId, RunRunning, StoredTrigger(trigger, world), None, false);
      assert tables.runs == old(tables.runs) + [first];
      if |wf.steps| > wf.maxSteps {
        calls := [];
        End(run, RunBlocked, Some("budget_max_steps_exceeded"), old(tables.runs), first);
        return;
      }
      var status, error;
      status, error, calls := RunSteps(run, wf);
      End(run, status, error, old(tables.runs), first);
    }

    /** The last update of the run. */
    method End(run: nat, status: RunStatus, error: Option<string>, ghost before: seq<RunRow>, ghost row: RunRow)
      requires run == |before| && tables.runs == before + [row]
      modifies tables`runs
      ensures tables.runs == before + [UpdatedRun(row, status, error)]
    {
      var _ := tables.UpdateRunStatus(run, status, error);
    }

    /** The loop in `run`, which is left as soon as the run is decided. */
    method RunSteps(run: nat, wf: Workflow) returns (status: RunStatus, error: Option<string>, calls: seq<Call>)
      modifies tables`steps
      ensures
        var o := ExecuteFrom(wf.steps, wf.actions, world, 0, []);
        && tables.steps == old(tables.steps) + Recorded(run, o.rows)
        && status == o.status && error == o.error && calls == o.calls
    {
      calls := [];
      ghost var rows: seq<StepRow> := [];
      ghost var whole := ExecuteFrom(wf.steps, wf.actions, world, 0, []);
      for i := 0 to |wf.steps|
        invariant tables.steps == old(tables.steps) + Recorded(run, rows)
        invariant whole == Prefixed(rows, ExecuteFrom(wf.steps, wf.actions, world, i, calls))
      {
        ghost var row := ExecuteFrom(wf.steps, wf.actions, world, i, calls).rows[0];
        var stop, after := RunStep(run, wf, i, calls);
        calls := after;
        RecordedOneMore(old(tables.steps), run, rows, row);
        if stop.Some? {
          PrefixedLast(rows, row, stop.value.0, stop.value.1, calls);
          return stop.value.0, stop.value.1, calls;
        }
        PrefixedOneMore(rows, row, ExecuteFrom(wf.steps, wf.actions, world, i + 1, calls));
        rows := rows + [row];
      }
      NothingMore(rows, calls);
      status, error := RunSucceeded, None;
    }

    /** The body of the loop in `run`: one recorded step, and how the run ends if it ends here. */
    method RunStep(run: nat, wf: Workflow, i: nat, calls: seq<Call>)
      returns (stop: Option<(RunStatus, Option<string>)>, after: seq<Call>)
      requires i < |wf.steps|
      modifies tables`steps
      ensures
        var o := ExecuteFrom(wf.steps, wf.actions, world, i, calls);
        && tables.steps == old(tables.steps) + [StepRecord(run, o.rows[0])]
        && match stop
           case Some(end) => o == Outcome([o.rows[0]], end.0, end.1, after)
           case None => o == Prefixed([o.rows[0]], ExecuteFrom(wf.steps, wf.actions, world, i + 1, after))
    {
      var step := wf.steps[i];
      var call := CallOf(step);
      after := calls;
      var id := tables.CreateRunStep(run, NewStep(step.id, InputOf(step, world)));
      var decision := Evaluate(wf.actions, step, world.destructive);
      if decision == Blocked {
        var _ := tables.UpdateRunStepStatus(id, StepBlocked, None, Some("policy_blocked"));
        return Some((RunBlocked, Some("policy_blocked"))), after;
      }
      if decision == Confirm {
        var confirmed := ResolveConfirmation(world, calls, i, call);
        if confirmed == None {
          var _ := tables.UpdateRunStepStatus(id, StepWaitingApproval, None, None);
          return Some((RunWaitingApproval, None)), after;
        }
        if !confirmed.value {
          var _ := tables.UpdateRunStepStatus(id, StepCancelled, None, Some("confirmation_rejected"));
          return Some((RunCancelled, Some("confirmation_rejected"))), after;
        }
      }
      var _ := tables.UpdateRunStepStatus(id, StepRunning, None, None);
      var result := ExecuteHandler(world, calls, call);
      after := CallsAfter(world, calls, call);
      var output := Some(Redact(Obj(result.output), world.sensitive));
      if result.ok {
        var _ := tables.UpdateRunStepStatus(id, StepSucceeded, output, None);
        return None, after;
      }
      var error := FailureText(result);
      var _ := tables.UpdateRunStepStatus(id, StepFailed, output, Some(error));
      stop := if step.continueOnError then None else Some((RunFailed, Some(error)));
    }
  }
}
