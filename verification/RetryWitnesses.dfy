/** Runs of overlapping calls that execute a refused workflow, one for each way in which this can happen. */
module RetryWitnesses {
  import opened Common
  import opened IsoTime
  import opened Json
  import opened CapabilityTable
  import opened RetryRuns
  import opened RetryOverlaps

  /** One record, the thread 0, and the calls made so far. */
  predicate Is(s: State, id: string, status: Status, retry: RetryStatus, pc: Pc, calls: seq<string>) {
    && id in s.rows && s.rows[id].status == status && s.rows[id].retryStatus == retry
    && PcOf(s, 0) == pc && s.calls == calls
  }

  lemma Creates(id: string, record: Record)
    requires record.status == WaitingToolApproval && record.retryStatus == RetryPending
    ensures Is(Step(INITIAL, Create(id, record), 1), id, WaitingToolApproval, RetryPending, Idle, [])
  {
    assert PendingApprovals(INITIAL.rows, record.sessionId) == {};
  }

  lemma Moves(s: State, id: string, m: GraphMove, retry: RetryStatus, pc: Pc, calls: seq<string>, now: Instant)
    requires Is(s, id, From(m), retry, pc, calls)
    ensures Is(Step(s, Move(id, m, None, now), 1), id, To(m), retry, pc, calls)
  {
  }

  lemma Enters(s: State, id: string, status: Status, now: Instant)
    requires Is(s, id, status, RetryPending, Idle, [])
    ensures Is(Step(s, Enter(0, id), 1), id, status, RetryPending, Loaded(id, status), [])
  {
  }

  lemma Claims(s: State, id: string, status: Status, memo: Status, now: Instant)
    requires Is(s, id, status, RetryPending, Loaded(id, memo), [])
    ensures Is(Step(s, Claim(0, now), 1), id, status, RetryExecuting, Claimed(id, memo), [])
  {
  }

  function Works(result: Json, now: Instant): seq<Action> {
    [Execute(0, true, true, result), Complete(0, now), Finish(0, now)]
  }

  lemma Executes(s: State, id: string, status: Status, memo: Status, result: Json, now: Instant)
    requires Is(s, id, status, RetryExecuting, Claimed(id, memo), [])
    ensures
      var n := Step(Step(s, Execute(0, true, true, result), 1), Complete(0, now), 1);
      Is(n, id, status, RetryExecuted, Completed(id, memo, true, result), [id])
  {
    assert [] + [id] == [id];
  }

  lemma Finishes(s: State, id: string, status: Status, memo: Status, result: Json, now: Instant)
    requires Is(s, id, status, RetryExecuted, Completed(id, memo, true, result), [id])
    ensures Is(Step(s, Finish(0, now), 1), id, if status == memo then ActionExecuted else status, RetryExecuted, Idle, [id])
  {
  }

  // ----- putting runs together -----

  lemma RunTwo(s: State, a: Action, b: Action)
    ensures Run(s, [a, b], 1) == Step(Step(s, a, 1), b, 1)
  {
    assert [a, b] == [a] + [b];
    RunConcat(s, [a], [b], 1);
    RunOne(s, a, 1);
    RunOne(Step(s, a, 1), b, 1);
  }

  lemma RunThree(s: State, a: Action, b: Action, c: Action)
    ensures Run(s, [a, b, c], 1) == Step(Step(Step(s, a, 1), b, 1), c, 1)
  {
    assert [a, b, c] == [a, b] + [c];
    RunConcat(s, [a, b], [c], 1);
    RunTwo(s, a, b);
    RunOne(Step(Step(s, a, 1), b, 1), c, 1);
  }

  // ----- refused, then entered -----

  function Expires(id: string, record: Record, now: Instant): seq<Action> {
    [Create(id, record), Move(id, ExpireTool, None, now)]
  }

  function EntersLate(id: string, now: Instant, result: Json): seq<Action> {
    [Enter(0, id), Claim(0, now)] + [Execute(0, true, true, result), Complete(0, now)]
  }

  /** A cleanup, and then a thread that had been asked to execute before it. */
  function LateExecution(id: string, record: Record, now: Instant, result: Json): seq<Action> {
    Expires(id, record, now) + EntersLate(id, now, result) + [Finish(0, now)]
  }

  lemma ExpiresTo(id: string, record: Record, now: Instant)
    requires record.status == WaitingToolApproval && record.retryStatus == RetryPending
    ensures Is(Run(INITIAL, Expires(id, record, now), 1), id, WorkflowExpired, RetryPending, Idle, [])
  {
    var a := Expires(id, record, now);
    RunTwo(INITIAL, a[0], a[1]);
    Creates(id, record);
    Moves(Step(INITIAL, a[0], 1), id, ExpireTool, RetryPending, Idle, [], now);
  }

  lemma EntersLateTo(s: State, id: string, now: Instant, result: Json)
    requires Is(s, id, WorkflowExpired, RetryPending, Idle, [])
    ensures Is(Run(s, EntersLate(id, now, result), 1), id, WorkflowExpired, RetryExecuted, Completed(id, WorkflowExpired, true, result), [id])
  {
    var a, b := [Enter(0, id), Claim(0, now)], [Execute(0, true, true, result), Complete(0, now)];
    RunConcat(s, a, b, 1);
    RunTwo(s, a[0], a[1]);
    Enters(s, id, WorkflowExpired, now);
    Claims(Step(s, a[0], 1), id, WorkflowExpired, WorkflowExpired, now);
    var c := Run(s, a, 1);
    RunTwo(c, b[0], b[1]);
    Executes(c, id, WorkflowExpired, WorkflowExpired, result, now);
  }

  /** An expired record is executed and leaves its terminal status: the status graph is not kept. */
  lemma ExpiredRecordCanBeExecuted(id: string, record: Record, now: Instant, result: Json)
    requires record.status == WaitingToolApproval && record.retryStatus == RetryPending
    ensures
      var run := LateExecution(id, record, now, result);
      && RefusedAt(run, 2, id, 1) && !KeepsTheGraph(run, 1)
      && Is(Run(INITIAL, run, 1), id, ActionExecuted, RetryExecuted, Idle, [id])
  {
    var run := LateExecution(id, record, now, result);
    LateExecutionWorks(id, record, now, result);
    StateNext(run, 6, 1);
    assert run[..7] == run;
    Finishes(StateAt(run, 6, 1), id, WorkflowExpired, WorkflowExpired, result, now);
    assert !KeepsTheGraphAt(run, 6, id, 1);
  }

  lemma LateExecutionWorks(id: string, record: Record, now: Instant, result: Json)
    requires record.status == WaitingToolApproval && record.retryStatus == RetryPending
    ensures
      var run := LateExecution(id, record, now, result);
      && |run| == 7 && run[6] == Finish(0, now) && RefusedAt(run, 2, id, 1)
      && Is(StateAt(run, 6, 1), id, WorkflowExpired, RetryExecuted, Completed(id, WorkflowExpired, true, result), [id])
  {
    var head, middle := Expires(id, record, now), EntersLate(id, now, result);
    var run := LateExecution(id, record, now, result);
    ExpiresTo(id, record, now);
    RunConcat(INITIAL, head, middle, 1);
    EntersLateTo(Run(INITIAL, head, 1), id, now, result);
    assert run[..2] == head && run[..6] == head + middle;
  }

  // ----- the way to the question -----

  function Reloads(id: string, record: Record, now: Instant): seq<Action> {
    [Create(id, record), Move(id, EnableTool, None, now), Move(id, Reload, None, now)]
  }

  lemma ReloadsTo(id: string, record: Record, now: Instant)
    requires record.status == WaitingToolApproval && record.retryStatus == RetryPending
    ensures Is(Run(INITIAL, Reloads(id, record, now), 1), id, RuntimeReloaded, RetryPending, Idle, [])
  {
    var a := Reloads(id, record, now);
    RunThree(INITIAL, a[0], a[1], a[2]);
    Creates(id, record);
    var s1 := Step(INITIAL, a[0], 1);
    Moves(s1, id, EnableTool, RetryPending, Idle, [], now);
    Moves(Step(s1, a[1], 1), id, Reload, RetryPending, Idle, [], now);
  }

  // ----- refused between entry and claim -----

  function ExpiryAfterEntry(id: string, record: Record, now: Instant, result: Json): seq<Action> {
    Reloads(id, record, now) +
    ([Move(id, AskRetry, None, now), Enter(0, id), Move(id, ExpireRetry, None, now)] +
     [Claim(0, now), Execute(0, true, true, result), Complete(0, now)]) + [Finish(0, now)]
  }

  lemma ExpiresAfterEntry(s: State, id: string, now: Instant)
    requires Is(s, id, RuntimeReloaded, RetryPending, Idle, [])
    ensures
      Is(Run(s, [Move(id, AskRetry, None, now), Enter(0, id), Move(id, ExpireRetry, None, now)], 1),
         id, WorkflowExpired, RetryPending, Loaded(id, WaitingRetryConfirmation), [])
  {
    RunThree(s, Move(id, AskRetry, None, now), Enter(0, id), Move(id, ExpireRetry, None, now));
    Moves(s, id, AskRetry, RetryPending, Idle, [], now);
    var s1 := Step(s, Move(id, AskRetry, None, now), 1);
    Enters(s1, id, WaitingRetryConfirmation, now);
    Moves(Step(s1, Enter(0, id), 1), id, ExpireRetry, RetryPending, Loaded(id, WaitingRetryConfirmation), [], now);
  }

  lemma ClaimsAndWorks(s: State, id: string, now: Instant, result: Json)
    requires Is(s, id, WorkflowExpired, RetryPending, Loaded(id, WaitingRetryConfirmation), [])
    ensures
      Is(Run(s, [Claim(0, now), Execute(0, true, true, result), Complete(0, now)], 1),
         id, WorkflowExpired, RetryExecuted, Completed(id, WaitingRetryConfirmation, true, result), [id])
  {
    RunThree(s, Claim(0, now), Execute(0, true, true, result), Complete(0, now));
    Claims(s, id, WorkflowExpired, WaitingRetryConfirmation, now);
    Executes(Step(s, Claim(0, now), 1), id, WorkflowExpired, WaitingRetryConfirmation, result, now);
  }

  /** The state before the last step, in which the final transition is lost. */
  lemma ExpiredAfterEntryWorks(id: string, record: Record, now: Instant, result: Json)
    requires record.status == WaitingToolApproval && record.retryStatus == RetryPending
    ensures
      var run := ExpiryAfterEntry(id, record, now, result);
      && |run| == 10 && run[9] == Finish(0, now)
      && Is(StateAt(run, 9, 1), id, WorkflowExpired, RetryExecuted, Completed(id, WaitingRetryConfirmation, true, result), [id])
  {
    var head, end := Reloads(id, record, now), [Claim(0, now), Execute(0, true, true, result), Complete(0, now)];
    var middle := [Move(id, AskRetry, None, now), Enter(0, id), Move(id, ExpireRetry, None, now)];
    RunConcat(INITIAL, head, middle + end, 1);
    ReloadsTo(id, record, now);
    RunConcat(Run(INITIAL, head, 1), middle, end, 1);
    ExpiresAfterEntry(Run(INITIAL, head, 1), id, now);
    ClaimsAndWorks(Run(Run(INITIAL, head, 1), middle, 1), id, now, result);
    assert ExpiryAfterEntry(id, record, now, result)[..9] == head + (middle + end);
  }

  /** A cleanup between the read and the claim: the status graph is kept, and yet an expired record was executed. */
  lemma ExpiredAfterEntryIsExecuted(id: string, record: Record, now: Instant, result: Json)
    requires record.status == WaitingToolApproval && record.retryStatus == RetryPending
    ensures
      var run := ExpiryAfterEntry(id, record, now, result);
      KeepsTheGraph(run, 1) && Is(Run(INITIAL, run, 1), id, WorkflowExpired, RetryExecuted, Idle, [id])
  {
    var run := ExpiryAfterEntry(id, record, now, result);
    ExpiredAfterEntryWorks(id, record, now, result);
    StateNext(run, 9, 1);
    assert run[..10] == run;
    Finishes(StateAt(run, 9, 1), id, WorkflowExpired, WaitingRetryConfirmation, result, now);
    assert forall k: nat :: k < 9 ==> !run[k].Finish?;
    GraphIsKeptExactly(run, 1);
  }

  // ----- refused after a lost final transition -----

  function RejectionAfterLoss(id: string, record: Record, now: Instant, result: Json): seq<Action> {
    Reloads(id, record, now) +
    ([Enter(0, id), Claim(0, now), Move(id, AskRetry, None, now)] + (Works(result, now) + [Move(id, RejectRetry, None, now)]))
  }

  /** Another step asks for the confirmation while the action runs, so that the final transition is lost; the user then rejects what was executed. */
  lemma RejectedAfterLossWasExecuted(id: string, record: Record, now: Instant, result: Json)
    requires record.status == WaitingToolApproval && record.retryStatus == RetryPending
    ensures Is(Run(INITIAL, RejectionAfterLoss(id, record, now, result), 1), id, RetryRejected, RetryExecuted, Idle, [id])
  {
    var middle, end := [Enter(0, id), Claim(0, now), Move(id, AskRetry, None, now)], Works(result, now);
    var last := Move(id, RejectRetry, None, now);
    RunConcat(INITIAL, Reloads(id, record, now), middle + (end + [last]), 1);
    ReloadsTo(id, record, now);
    var s3 := Run(INITIAL, Reloads(id, record, now), 1);
    RunConcat(s3, middle, end + [last], 1);
    RunThree(s3, middle[0], middle[1], middle[2]);
    Enters(s3, id, RuntimeReloaded, now);
    Claims(Step(s3, middle[0], 1), id, RuntimeReloaded, RuntimeReloaded, now);
    var s5 := Step(Step(s3, middle[0], 1), middle[1], 1);
    Moves(s5, id, AskRetry, RetryExecuting, Claimed(id, RuntimeReloaded), [], now);
    LosesAndIsRejected(Run(s3, middle, 1), id, now, result);
  }

  lemma LosesAndIsRejected(s: State, id: string, now: Instant, result: Json)
    requires Is(s, id, WaitingRetryConfirmation, RetryExecuting, Claimed(id, RuntimeReloaded), [])
    ensures Is(Run(s, Works(result, now) + [Move(id, RejectRetry, None, now)], 1), id, RetryRejected, RetryExecuted, Idle, [id])
  {
    var end, last := Works(result, now), Move(id, RejectRetry, None, now);
    RunConcat(s, end, [last], 1);
    RunThree(s, end[0], end[1], end[2]);
    Executes(s, id, WaitingRetryConfirmation, RuntimeReloaded, result, now);
    Finishes(Step(Step(s, end[0], 1), end[1], 1), id, WaitingRetryConfirmation, RuntimeReloaded, result, now);
    var f := Run(s, end, 1);
    RunOne(f, last, 1);
    Moves(f, id, RejectRetry, RetryExecuted, Idle, [id], now);
  }
}
