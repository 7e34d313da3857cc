/**
  The retry automaton under every interleaving of threads, replays and crashes: each step is one locked call of
  the capability repository, or the work of `_execute_original_action` between two such calls. Any graph step
  may come at any time, also for a record that has moved on.
 */
module RetryRuns {
  import opened Common
  import opened IsoTime
  import opened Json
  import opened CapabilityTable

  /** Where a thread is in `_execute_original_action`; `memo` is the status it read on entry. */
  datatype Pc =
    | Idle
    | Loaded(id: string, memo: Status)
    | Claimed(id: string, memo: Status)
    | Ran(id: string, memo: Status, ok: bool, result: Json)
    | Completed(id: string, memo: Status, ok: bool, result: Json)
    | Crashed(id: string)

  /** The status changes of the other graph nodes and of the cleanup. */
  datatype GraphMove = RejectTool | CancelTool | EnableTool | Reload | AskRetry | RejectRetry | CancelRetry | ExpireTool | ExpireRetry

  function From(m: GraphMove): Status {
    match m
    case RejectTool | CancelTool | EnableTool | ExpireTool => WaitingToolApproval
    case Reload => ToolEnabled
    case AskRetry => RuntimeReloaded
    case RejectRetry | CancelRetry | ExpireRetry => WaitingRetryConfirmation
  }

  function To(m: GraphMove): Status {
    match m
    case RejectTool => ToolRejected
    case CancelTool => ToolApprovalCancelled
    case EnableTool => ToolEnabled
    case Reload => RuntimeReloaded
    case AskRetry => WaitingRetryConfirmation
    case RejectRetry => RetryRejected
    case CancelRetry => RetryCancelled
    case ExpireTool | ExpireRetry => WorkflowExpired
  }

  function ExecutionStatus(ok: bool): Status {
    if ok then ActionExecuted else ActionFailed
  }

  /** `calls` records the workflows for which `execute_action` was called, in order. */
  datatype State = State(rows: Rows, threads: map<nat, Pc>, calls: seq<string>)

  datatype Action =
    | Create(id: string, record: Record)
    | Move(id: string, move: GraphMove, noted: Option<Json>, now: Instant)
    | Enter(t: nat, id: string)
    | Claim(t: nat, now: Instant)
    | Execute(t: nat, available: bool, ok: bool, result: Json)
    | Complete(t: nat, now: Instant)
    | Finish(t: nat, now: Instant)
    | Crash(t: nat)

  const INITIAL := State(map[], map[], [])

  function PcOf(s: State, t: nat): Pc {
    if t in s.threads then s.threads[t] else Idle
  }

  function At(s: State, t: nat, pc: Pc): State {
    s.(threads := s.threads[t := pc])
  }

  function WithRows(s: State, rows: Option<Rows>): State {
    if rows.Some? then s.(rows := rows.value) else s
  }

  /** An action that is not possible in a state changes nothing. */
  function Step(s: State, a: Action, maxPending: int): State {
    match a
    case Create(id, record) => StepCreate(s, id, record, maxPending)
    case Move(id, move, noted, now) => StepMove(s, id, move, noted, now)
    case Enter(t, id) =>
      if PcOf(s, t) == Idle && id in s.rows then At(s, t, Loaded(id, s.rows[id].status)) else s
    case Claim(t, now) => StepClaim(s, t, now)
    case Execute(t, available, ok, result) => StepExecute(s, t, available, ok, result)
    case Complete(t, now) => StepComplete(s, t, now)
    case Finish(t, now) => StepFinish(s, t, now)
    case Crash(t) =>
      var pc := PcOf(s, t);
      if pc.Claimed? || pc.Ran? then At(s, t, Crashed(pc.id))
      else if pc.Loaded? || pc.Completed? then At(s, t, Idle)
      else s
  }

  function StepCreate(s: State, id: string, record: Record, maxPending: int): State {
    if record.status == WaitingToolApproval && record.retryStatus == RetryPending && CreateRow(s.rows, id, record, maxPending).Ok?
    then s.(rows := s.rows[id := record])
    else s
  }

  function StepMove(s: State, id: string, move: GraphMove, noted: Option<Json>, now: Instant): State {
    WithRows(s, TransitionRow(s.rows, id, From(move), To(move), if noted.Some? then WithResult(noted.value) else NO_UPDATES, now))
  }

  function StepClaim(s: State, t: nat, now: Instant): State {
    if !PcOf(s, t).Loaded? then s
    else
      var pc := PcOf(s, t);
      match ClaimRow(s.rows, pc.id, now)
      case Some(rows) => At(s.(rows := rows), t, Claimed(pc.id, pc.memo))
      case None => At(s, t, Idle)
  }

  /** Without its arguments nothing is called, and the retry fails. */
  function StepExecute(s: State, t: nat, available: bool, ok: bool, result: Json): State {
    if !PcOf(s, t).Claimed? then s
    else
      var pc := PcOf(s, t);
      if available then At(s.(calls := s.calls + [pc.id]), t, Ran(pc.id, pc.memo, ok, result))
      else At(s, t, Ran(pc.id, pc.memo, false, result))
  }

  function StepComplete(s: State, t: nat, now: Instant): State {
    if !PcOf(s, t).Ran? then s
    else
      var pc := PcOf(s, t);
      At(WithRows(s, CompleteRow(s.rows, pc.id, pc.ok, pc.result, now)), t, Completed(pc.id, pc.memo, pc.ok, pc.result))
  }

  function StepFinish(s: State, t: nat, now: Instant): State {
    if !PcOf(s, t).Completed? then s
    else
      var pc := PcOf(s, t);
      At(WithRows(s, TransitionRow(s.rows, pc.id, pc.memo, ExecutionStatus(pc.ok), WithResult(pc.result), now)), t, Idle)
  }

  function Run(s: State, actions: seq<Action>, maxPending: int): State
    decreases |actions|
  {
    if actions == [] then s else Run(Step(s, actions[0], maxPending), actions[1..], maxPending)
  }

  // ----- what one step does to the rows -----

  /** The retry status `later` can follow `earlier`: pending, then executing, then executed or failed for good. */
  predicate CanFollow(earlier: RetryStatus, later: RetryStatus) {
    earlier == later || earlier == RetryPending || (earlier == RetryExecuting && later != RetryPending)
  }

  predicate RowMoves(a: Record, b: Record) {
    SameRequest(a, b) && CanFollow(a.retryStatus, b.retryStatus) && (b.status == WaitingToolApproval ==> a.status == WaitingToolApproval)
  }

  /** No row is deleted, no request is rewritten, no retry status goes back, and no row waits for approval again. */
  ghost predicate RowsMove(before: Rows, after: Rows) {
    forall id :: id in before ==> id in after && RowMoves(before[id], after[id])
  }

  lemma OneRowMoves(rows: Rows, id: string, record: Record)
    requires id in rows ==> RowMoves(rows[id], record)
    ensures RowsMove(rows, rows[id := record])
  {
  }

  lemma StepMovesRows(s: State, a: Action, maxPending: int)
    ensures RowsMove(s.rows, Step(s, a, maxPending).rows)
    ensures !a.Create? ==> Step(s, a, maxPending).rows.Keys == s.rows.Keys
  {
    var n := Step(s, a, maxPending);
    match a
    case Create(id, record) =>
      if n != s {
        OneRowMoves(s.rows, id, record);
      }
    case Move(id, move, _, _) =>
      if id in s.rows && s.rows[id].status == From(move) {
        OneRowMoves(s.rows, id, n.rows[id]);
      }
    case Claim(t, _) => ThreadMovesRow(s, a, t, maxPending);
    case Complete(t, _) => ThreadMovesRow(s, a, t, maxPending);
    case Finish(t, _) => ThreadMovesRow(s, a, t, maxPending);
    case _ =>
  }

  lemma ThreadMovesRow(s: State, a: Action, t: nat, maxPending: int)
    requires (a.Claim? || a.Complete? || a.Finish?) && a.t == t
    ensures RowsMove(s.rows, Step(s, a, maxPending).rows)
    ensures Step(s, a, maxPending).rows.Keys == s.rows.Keys
  {
    var rows := Step(s, a, maxPending).rows;
    if rows != s.rows {
      OneRowMoves(s.rows, PcOf(s, t).id, rows[PcOf(s, t).id]);
    }
  }

  // ----- the invariant -----

  predicate Owns(pc: Pc, id: string) {
    (pc.Claimed? || pc.Ran? || pc.Crashed?) && pc.id == id
  }

  /** An executing row has exactly one owner, and nobody owns any other row. */
  ghost predicate OwnersAreRight(s: State) {
    && (forall t, id :: Owns(PcOf(s, t), id) ==> id in s.rows && s.rows[id].retryStatus == RetryExecuting)
    && (forall t, u, id :: Owns(PcOf(s, t), id) && Owns(PcOf(s, u), id) ==> t == u)
    && (forall id :: id in s.rows && s.rows[id].retryStatus == RetryExecuting ==> exists t :: Owns(PcOf(s, t), id))
    && (forall t :: PcOf(s, t).Completed? ==>
          PcOf(s, t).id in s.rows && s.rows[PcOf(s, t).id].retryStatus == Outcome(PcOf(s, t).ok))
  }

  predicate CalledFor(s: State, id: string) {
    id in s.calls
  }

  ghost predicate CallsAreRight(s: State) {
    && (forall i, j :: 0 <= i < j < |s.calls| ==> s.calls[i] != s.calls[j])
    && (forall id :: CalledFor(s, id) ==> id in s.rows && s.rows[id].retryStatus != RetryPending)
    && (forall t :: PcOf(s, t).Claimed? ==> !CalledFor(s, PcOf(s, t).id))
    && (forall t :: PcOf(s, t).Ran? && PcOf(s, t).ok ==> CalledFor(s, PcOf(s, t).id))
    && (forall id :: id in s.rows && s.rows[id].retryStatus == RetryExecuted ==> CalledFor(s, id))
  }

  predicate FinalIsRight(record: Record) {
    && (record.status == ActionExecuted ==> record.retryStatus == RetryExecuted)
    && (record.status == ActionFailed ==> record.retryStatus == RetryFailed)
  }

  ghost predicate RowsAreFinal(rows: Rows) {
    forall id :: id in rows ==> FinalIsRight(rows[id])
  }

  ghost predicate FinalsAreRight(s: State) {
    RowsAreFinal(s.rows)
  }

  ghost predicate Inv(s: State, maxPending: int) {
    OwnersAreRight(s) && CallsAreRight(s) && FinalsAreRight(s) && WithinCapacity(s.rows, maxPending)
  }

  // ----- who owns what -----

  /** A thread that moves between points where it owns the same rows. */
  lemma ThreadKeepsOwners(s: State, t: nat, pc: Pc)
    requires OwnersAreRight(s)
    requires forall id :: Owns(PcOf(s, t), id) <==> Owns(pc, id)
    requires !pc.Completed?
    ensures OwnersAreRight(At(s, t, pc))
  {
    var n := At(s, t, pc);
    assert forall u :: PcOf(n, u) == if u == t then pc else PcOf(s, u);
    forall id | id in n.rows && n.rows[id].retryStatus == RetryExecuting ensures exists u :: Owns(PcOf(n, u), id) {
      var u :| Owns(PcOf(s, u), id);
      assert Owns(PcOf(n, u), id);
    }
  }

  /** A change of a row that leaves its retry status alone, or a new row. */
  lemma RowKeepsOwners(s: State, id: string, record: Record)
    requires OwnersAreRight(s)
    requires record.retryStatus == if id in s.rows then s.rows[id].retryStatus else RetryPending
    ensures OwnersAreRight(s.(rows := s.rows[id := record]))
  {
    var n := s.(rows := s.rows[id := record]);
    assert forall t :: PcOf(n, t) == PcOf(s, t);
    forall other | other in n.rows && n.rows[other].retryStatus == RetryExecuting ensures exists t :: Owns(PcOf(n, t), other) {
      var t :| Owns(PcOf(s, t), other);
      assert Owns(PcOf(n, t), other);
    }
  }

  lemma ClaimKeepsOwners(s: State, t: nat, now: Instant)
    requires OwnersAreRight(s)
    ensures OwnersAreRight(StepClaim(s, t, now))
  {
    var pc := PcOf(s, t);
    if pc.Loaded? {
      if pc.id in s.rows && s.rows[pc.id].retryStatus == RetryPending {
        var n := StepClaim(s, t, now);
        assert forall u :: PcOf(n, u) == if u == t then Claimed(pc.id, pc.memo) else PcOf(s, u);
        assert forall u :: !Owns(PcOf(s, u), pc.id);
        forall id | id in n.rows && n.rows[id].retryStatus == RetryExecuting ensures exists u :: Owns(PcOf(n, u), id) {
          if id == pc.id {
            assert Owns(PcOf(n, t), id);
          } else {
            var u :| Owns(PcOf(s, u), id);
            assert Owns(PcOf(n, u), id);
          }
        }
      } else {
        ThreadKeepsOwners(s, t, Idle);
      }
    }
  }

  /** The owner's `complete_retry` always succeeds. */
  lemma OwnerCompletes(s: State, t: nat, now: Instant)
    requires OwnersAreRight(s) && PcOf(s, t).Ran?
    ensures
      var pc := PcOf(s, t);
      && pc.id in s.rows && s.rows[pc.id].retryStatus == RetryExecuting
      && CompleteRow(s.rows, pc.id, pc.ok, pc.result, now).Some?
      && forall u :: u != t ==> !Owns(PcOf(s, u), pc.id)
  {
    assert Owns(PcOf(s, t), PcOf(s, t).id);
  }

  lemma CompleteKeepsOwners(s: State, t: nat, now: Instant)
    requires OwnersAreRight(s)
    ensures OwnersAreRight(StepComplete(s, t, now))
  {
    var pc := PcOf(s, t);
    if pc.Ran? {
      OwnerCompletes(s, t, now);
      var n := StepComplete(s, t, now);
      assert forall u :: PcOf(n, u) == if u == t then Completed(pc.id, pc.memo, pc.ok, pc.result) else PcOf(s, u);
      forall id | id in n.rows && n.rows[id].retryStatus == RetryExecuting ensures exists u :: Owns(PcOf(n, u), id) {
        var u :| Owns(PcOf(s, u), id);
        assert Owns(PcOf(n, u), id);
      }
    }
  }

  lemma FinishKeepsOwners(s: State, t: nat, now: Instant)
    requires OwnersAreRight(s)
    ensures OwnersAreRight(StepFinish(s, t, now))
  {
    var pc := PcOf(s, t);
    if pc.Completed? {
      ThreadKeepsOwners(s, t, Idle);
      var idle := At(s, t, Idle);
      if pc.id in s.rows && s.rows[pc.id].status == pc.memo {
        RowKeepsOwners(idle, pc.id, Updated(s.rows[pc.id], ExecutionStatus(pc.ok), WithResult(pc.result), now));
      }
    }
  }

  lemma StepKeepsOwners(s: State, a: Action, maxPending: int)
    requires OwnersAreRight(s)
    ensures OwnersAreRight(Step(s, a, maxPending))
  {
    match a
    case Create(id, record) =>
      if Step(s, a, maxPending) != s {
        RowKeepsOwners(s, id, record);
      }
    case Move(id, move, noted, now) =>
      if id in s.rows && s.rows[id].status == From(move) {
        RowKeepsOwners(s, id, Step(s, a, maxPending).rows[id]);
      }
    case Enter(t, id) =>
      if PcOf(s, t) == Idle && id in s.rows {
        ThreadKeepsOwners(s, t, Loaded(id, s.rows[id].status));
      }
    case Claim(t, now) => ClaimKeepsOwners(s, t, now);
    case Execute(t, available, ok, result) =>
      if PcOf(s, t).Claimed? {
        ExecuteKeepsOwners(s, t, available, ok, result);
      }
    case Complete(t, now) => CompleteKeepsOwners(s, t, now);
    case Finish(t, now) => FinishKeepsOwners(s, t, now);
    case Crash(t) =>
      var pc := PcOf(s, t);
      if pc.Claimed? || pc.Ran? {
        ThreadKeepsOwners(s, t, Crashed(pc.id));
      } else if pc.Loaded? || pc.Completed? {
        ThreadKeepsOwners(s, t, Idle);
      }
  }

  lemma ExecuteKeepsOwners(s: State, t: nat, available: bool, ok: bool, result: Json)
    requires OwnersAreRight(s) && PcOf(s, t).Claimed?
    ensures OwnersAreRight(StepExecute(s, t, available, ok, result))
  {
    var n := StepExecute(s, t, available, ok, result);
    ThreadKeepsOwners(s, t, PcOf(n, t));
    var m := At(s, t, PcOf(n, t));
    assert forall u :: PcOf(n, u) == PcOf(m, u);
    assert n.rows == m.rows;
  }

  // ----- what was called -----

  /** A step that calls nothing, and makes no thread claim, run or execute more than before. */
  lemma QuietStepKeepsCalls(s: State, n: State)
    requires CallsAreRight(s) && n.calls == s.calls
    requires forall id :: id in s.rows ==> id in n.rows
    requires forall id :: id in s.rows && s.rows[id].retryStatus != RetryPending ==> n.rows[id].retryStatus != RetryPending
    requires forall id :: id in n.rows && n.rows[id].retryStatus == RetryExecuted ==> CalledFor(s, id)
    requires forall t :: PcOf(n, t).Claimed? || PcOf(n, t).Ran? ==> PcOf(n, t) == PcOf(s, t)
    ensures CallsAreRight(n)
  {
    assert forall id :: CalledFor(n, id) == CalledFor(s, id);
  }

  lemma ClaimKeepsCalls(s: State, t: nat, now: Instant)
    requires CallsAreRight(s)
    ensures CallsAreRight(StepClaim(s, t, now))
  {
    var pc := PcOf(s, t);
    if pc.Loaded? {
      var n := StepClaim(s, t, now);
      assert forall id :: CalledFor(n, id) == CalledFor(s, id);
      assert forall u :: u != t ==> PcOf(n, u) == PcOf(s, u);
      if pc.id in s.rows && s.rows[pc.id].retryStatus == RetryPending {
        assert !CalledFor(s, pc.id);
      }
    }
  }

  lemma ExecuteKeepsCalls(s: State, t: nat, available: bool, ok: bool, result: Json)
    requires CallsAreRight(s) && OwnersAreRight(s)
    ensures CallsAreRight(StepExecute(s, t, available, ok, result))
  {
    var pc := PcOf(s, t);
    if pc.Claimed? {
      var n := StepExecute(s, t, available, ok, result);
      assert Owns(pc, pc.id);
      assert forall u :: u != t ==> PcOf(n, u) == PcOf(s, u);
      assert forall id :: CalledFor(n, id) <==> CalledFor(s, id) || (available && id == pc.id);
      assert forall u :: u != t && PcOf(s, u).Claimed? ==> Owns(PcOf(s, u), PcOf(s, u).id);
      if available {
        assert forall i :: 0 <= i < |s.calls| ==> CalledFor(s, s.calls[i]);
        assert forall i :: 0 <= i < |n.calls| ==> n.calls[i] == if i < |s.calls| then s.calls[i] else pc.id;
      }
    }
  }

  lemma CompleteKeepsCalls(s: State, t: nat, now: Instant)
    requires CallsAreRight(s) && OwnersAreRight(s)
    ensures CallsAreRight(StepComplete(s, t, now))
  {
    if PcOf(s, t).Ran? {
      OwnerCompletes(s, t, now);
      var n := StepComplete(s, t, now);
      assert forall u :: u != t ==> PcOf(n, u) == PcOf(s, u);
      QuietStepKeepsCalls(s, n);
    }
  }

  /** A change of a row that leaves its retry status alone, or a new row. */
  lemma RowKeepsCalls(s: State, id: string, record: Record)
    requires CallsAreRight(s)
    requires record.retryStatus == if id in s.rows then s.rows[id].retryStatus else RetryPending
    ensures CallsAreRight(s.(rows := s.rows[id := record]))
  {
    var n := s.(rows := s.rows[id := record]);
    assert forall t :: PcOf(n, t) == PcOf(s, t);
    QuietStepKeepsCalls(s, n);
  }

  lemma ThreadKeepsCalls(s: State, t: nat, pc: Pc)
    requires CallsAreRight(s) && !pc.Claimed? && !pc.Ran?
    ensures CallsAreRight(At(s, t, pc))
  {
    QuietStepKeepsCalls(s, At(s, t, pc));
  }

  lemma FinishKeepsCalls(s: State, t: nat, now: Instant)
    requires CallsAreRight(s)
    ensures CallsAreRight(StepFinish(s, t, now))
  {
    var pc := PcOf(s, t);
    if pc.Completed? {
      ThreadKeepsCalls(s, t, Idle);
      if pc.id in s.rows && s.rows[pc.id].status == pc.memo {
        RowKeepsCalls(At(s, t, Idle), pc.id, Updated(s.rows[pc.id], ExecutionStatus(pc.ok), WithResult(pc.result), now));
      }
    }
  }

  lemma StepKeepsCalls(s: State, a: Action, maxPending: int)
    requires CallsAreRight(s) && OwnersAreRight(s)
    ensures CallsAreRight(Step(s, a, maxPending))
  {
    match a
    case Create(id, record) =>
      if StepCreate(s, id, record, maxPending) != s {
        RowKeepsCalls(s, id, record);
      }
    case Move(id, move, noted, now) =>
      if id in s.rows && s.rows[id].status == From(move) {
        RowKeepsCalls(s, id, StepMove(s, id, move, noted, now).rows[id]);
      }
    case Enter(t, id) =>
      if PcOf(s, t) == Idle && id in s.rows {
        ThreadKeepsCalls(s, t, Loaded(id, s.rows[id].status));
      }
    case Claim(t, now) => ClaimKeepsCalls(s, t, now);
    case Execute(t, available, ok, result) => ExecuteKeepsCalls(s, t, available, ok, result);
    case Complete(t, now) => CompleteKeepsCalls(s, t, now);
    case Finish(t, now) => FinishKeepsCalls(s, t, now);
    case Crash(t) =>
      ThreadKeepsCalls(s, t, Idle);
      ThreadKeepsCalls(s, t, Crashed(if PcOf(s, t) == Idle then "" else PcOf(s, t).id));
  }

  // ----- statuses and capacity -----

  lemma RowKeepsFinals(rows: Rows, id: string, record: Record)
    requires RowsAreFinal(rows) && FinalIsRight(record)
    ensures RowsAreFinal(rows[id := record])
  {
  }

  lemma MoveKeepsFinals(s: State, id: string, move: GraphMove, noted: Option<Json>, now: Instant)
    requires FinalsAreRight(s)
    ensures FinalsAreRight(StepMove(s, id, move, noted, now))
  {
    if id in s.rows && s.rows[id].status == From(move) {
      RowKeepsFinals(s.rows, id, StepMove(s, id, move, noted, now).rows[id]);
    }
  }

  lemma CompleteKeepsFinals(s: State, t: nat, now: Instant)
    requires FinalsAreRight(s) && OwnersAreRight(s)
    ensures FinalsAreRight(StepComplete(s, t, now))
  {
    if PcOf(s, t).Ran? {
      OwnerCompletes(s, t, now);
      var id := PcOf(s, t).id;
      RowKeepsFinals(s.rows, id, StepComplete(s, t, now).rows[id]);
    }
  }

  lemma FinishKeepsFinals(s: State, t: nat, now: Instant)
    requires FinalsAreRight(s) && OwnersAreRight(s)
    ensures FinalsAreRight(StepFinish(s, t, now))
  {
    var pc := PcOf(s, t);
    if pc.Completed? && pc.id in s.rows && s.rows[pc.id].status == pc.memo {
      RowKeepsFinals(s.rows, pc.id, StepFinish(s, t, now).rows[pc.id]);
    }
  }

  lemma StepKeepsFinals(s: State, a: Action, maxPending: int)
    requires FinalsAreRight(s) && OwnersAreRight(s)
    ensures FinalsAreRight(Step(s, a, maxPending))
  {
    match a
    case Create(id, record) =>
      if StepCreate(s, id, record, maxPending) != s {
        RowKeepsFinals(s.rows, id, record);
      }
    case Move(id, move, noted, now) => MoveKeepsFinals(s, id, move, noted, now);
    case Claim(t, now) =>
      if StepClaim(s, t, now).rows != s.rows {
        RowKeepsFinals(s.rows, PcOf(s, t).id, StepClaim(s, t, now).rows[PcOf(s, t).id]);
      }
    case Complete(t, now) => CompleteKeepsFinals(s, t, now);
    case Finish(t, now) => FinishKeepsFinals(s, t, now);
    case _ =>
  }

  /** No step but a creation makes a row wait for approval. */
  lemma StepKeepsCapacity(s: State, a: Action, maxPending: int)
    requires WithinCapacity(s.rows, maxPending)
    ensures WithinCapacity(Step(s, a, maxPending).rows, maxPending)
  {
    var n := Step(s, a, maxPending);
    if n.rows != s.rows {
      if a.Create? {
        CreateKeepsCapacity(s.rows, a.id, a.record, maxPending);
      } else {
        StepMovesRows(s, a, maxPending);
        FewerApprovals(s.rows, n.rows, maxPending);
      }
    }
  }

  // ----- over every run -----

  lemma InitialInvariant(maxPending: int)
    ensures Inv(INITIAL, maxPending)
  {
    assert forall session :: PendingApprovals(INITIAL.rows, session) == {};
  }

  /**
    Every reachable state: an executing row has exactly one owner, `execute_action` was called at most once for a
    workflow and only after its claim, the final statuses agree with the retry status, and no session has more
    pending approvals than allowed.
   */
  lemma {:induction false} RunKeepsInvariant(s: State, actions: seq<Action>, maxPending: int)
    requires Inv(s, maxPending)
    ensures Inv(Run(s, actions, maxPending), maxPending)
    decreases |actions|
  {
    if actions != [] {
      StepKeepsOwners(s, actions[0], maxPending);
      StepKeepsCalls(s, actions[0], maxPending);
      StepKeepsFinals(s, actions[0], maxPending);
      StepKeepsCapacity(s, actions[0], maxPending);
      RunKeepsInvariant(Step(s, actions[0], maxPending), actions[1..], maxPending);
    }
  }

  /** At most one call per workflow, and exactly one when the record says executed. */
  lemma CalledAtMostOnce(actions: seq<Action>, maxPending: int)
    ensures
      var s := Run(INITIAL, actions, maxPending);
      && (forall i, j :: 0 <= i < j < |s.calls| ==> s.calls[i] != s.calls[j])
      && (forall id :: id in s.rows && s.rows[id].status == ActionExecuted ==> s.rows[id].retryStatus == RetryExecuted)
      && (forall id :: id in s.rows && s.rows[id].retryStatus == RetryExecuted ==> id in s.calls)
      && (forall id :: id in s.rows && s.rows[id].status == ActionFailed ==> s.rows[id].retryStatus == RetryFailed)
  {
    InitialInvariant(maxPending);
    RunKeepsInvariant(INITIAL, actions, maxPending);
    var s := Run(INITIAL, actions, maxPending);
    assert forall id :: CalledFor(s, id) <==> id in s.calls;
  }

  lemma SessionsStayWithinCapacity(actions: seq<Action>, maxPending: int, session: string)
    ensures |PendingApprovals(Run(INITIAL, actions, maxPending).rows, session)| <= if maxPending < 0 then 0 else maxPending
  {
    InitialInvariant(maxPending);
    RunKeepsInvariant(INITIAL, actions, maxPending);
  }

  /** Records are never deleted, their request never changes, and the retry status only goes forward. */
  lemma {:induction false} RetryOnlyGoesForward(s: State, actions: seq<Action>, maxPending: int, id: string)
    requires id in s.rows
    ensures
      var rows := Run(s, actions, maxPending).rows;
      id in rows && CanFollow(s.rows[id].retryStatus, rows[id].retryStatus) && SameRequest(s.rows[id], rows[id])
    decreases |actions|
  {
    if actions != [] {
      var n := Step(s, actions[0], maxPending);
      StepMovesRows(s, actions[0], maxPending);
      RetryOnlyGoesForward(n, actions[1..], maxPending, id);
    }
  }
}
