/**
  The records of capability workflows and their leases: src/assistant/capabilities/workflow_repository.py.
  Time stamps are stored as the text `isoformat()` prints, and compared as text in queries.
 */
module CapabilityTable {
  import opened Common
  import opened IsoTime
  import opened Json
  import opened ToolLeases

  datatype Status =
    | WaitingToolApproval | ToolRejected | ToolApprovalCancelled | ToolEnabled | RuntimeReloaded
    | WaitingRetryConfirmation | RetryRejected | RetryCancelled | ActionExecuted | ActionFailed | WorkflowExpired

  datatype RetryStatus = RetryPending | RetryExecuting | RetryExecuted | RetryFailed

  datatype Record = Record(
    proposalId: string,
    sessionId: string,
    runId: string,
    capability: string,
    toolName: string,
    toolVersion: string,
    definitionHash: string,
    originalAction: map<string, Json>,
    draftPath: Option<string>,
    status: Status,
    retryStatus: RetryStatus,
    createdAt: Instant,
    updatedAt: Instant,
    expiresAt: Instant,
    result: Option<Json>)

  type Rows = map<string, Record>

  /** `_pending_statuses` */
  predicate IsPending(s: Status) {
    s == WaitingToolApproval || s == WaitingRetryConfirmation
  }

  /** What a record says about its request; no update may change it. */
  predicate SameRequest(a: Record, b: Record) {
    a.proposalId == b.proposalId && a.sessionId == b.sessionId && a.runId == b.runId && a.capability == b.capability &&
    a.toolName == b.toolName && a.toolVersion == b.toolVersion && a.definitionHash == b.definitionHash &&
    a.originalAction == b.originalAction && a.createdAt == b.createdAt
  }

  // ----- capacity and creation -----

  function PendingApprovals(rows: Rows, session: string): set<string> {
    set id | id in rows && rows[id].sessionId == session && rows[id].status == WaitingToolApproval
  }

  predicate HasCapacity(rows: Rows, session: string, maxPending: int) {
    |PendingApprovals(rows, session)| < maxPending
  }

  datatype CreateError = PendingWorkflowLimit | IntegrityError

  function CreateRow(rows: Rows, id: string, record: Record, maxPending: int): Result<Rows, CreateError> {
    if record.status == WaitingToolApproval && !HasCapacity(rows, record.sessionId, maxPending) then Err(PendingWorkflowLimit)
    else if id in rows || exists other :: other in rows && rows[other].proposalId == record.proposalId then Err(IntegrityError)
    else Ok(rows[id := record])
  }

  /** No session has more pending approvals than allowed; with a limit below zero, none at all. */
  ghost predicate WithinCapacity(rows: Rows, maxPending: int) {
    forall session :: |PendingApprovals(rows, session)| <= if maxPending < 0 then 0 else maxPending
  }

  lemma FewerApprovals(before: Rows, after: Rows, maxPending: int)
    requires WithinCapacity(before, maxPending)
    requires forall session :: PendingApprovals(after, session) <= PendingApprovals(before, session)
    ensures WithinCapacity(after, maxPending)
  {
    forall session ensures |PendingApprovals(after, session)| <= if maxPending < 0 then 0 else maxPending {
      SubsetSize(PendingApprovals(after, session), PendingApprovals(before, session));
    }
  }

  lemma {:induction false} SubsetSize<T>(a: set<T>, b: set<T>)
    requires a <= b
    ensures |a| <= |b|
  {
    if a != {} {
      var x :| x in a;
      SubsetSize(a - {x}, b - {x});
    }
  }

  lemma ApprovalsAfterInsert(rows: Rows, id: string, record: Record, session: string)
    requires id !in rows
    ensures PendingApprovals(rows[id := record], session) == PendingApprovals(rows, session) +
            if record.status == WaitingToolApproval && record.sessionId == session then {id} else {}
  {
  }

  lemma CreateKeepsCapacity(rows: Rows, id: string, record: Record, maxPending: int)
    requires WithinCapacity(rows, maxPending) && CreateRow(rows, id, record, maxPending).Ok?
    ensures WithinCapacity(rows[id := record], maxPending)
  {
    var after := rows[id := record];
    forall session ensures |PendingApprovals(after, session)| <= if maxPending < 0 then 0 else maxPending {
      ApprovalsAfterInsert(rows, id, record, session);
    }
  }

  // ----- conditional updates -----

  /** The optional keyword arguments of `transition`. */
  datatype Updates = Updates(
    draftPath: Option<Option<string>>,
    retryStatus: Option<RetryStatus>,
    result: Option<Option<Json>>,
    expiresAt: Option<Instant>)

  const NO_UPDATES := Updates(None, None, None, None)

  function WithResult(result: Json): Updates {
    NO_UPDATES.(result := Some(Some(result)))
  }

  function Given<T>(update: Option<T>, kept: T): T {
    if update.Some? then update.value else kept
  }

  function Updated(record: Record, target: Status, u: Updates, now: Instant): Record {
    record.(status := target, updatedAt := now,
            draftPath := Given(u.draftPath, record.draftPath),
            retryStatus := Given(u.retryStatus, record.retryStatus),
            result := Given(u.result, record.result),
            expiresAt := Given(u.expiresAt, record.expiresAt))
  }

  /** `transition`: `None` when no row has the expected status. */
  function TransitionRow(rows: Rows, id: string, expected: Status, target: Status, u: Updates, now: Instant): Option<Rows> {
    if id in rows && rows[id].status == expected then Some(rows[id := Updated(rows[id], target, u, now)]) else None
  }

  /** `claim_retry` */
  function ClaimRow(rows: Rows, id: string, now: Instant): Option<Rows> {
    if id in rows && rows[id].retryStatus == RetryPending
    then Some(rows[id := rows[id].(retryStatus := RetryExecuting, updatedAt := now)])
    else None
  }

  /** `complete_retry` with one of its two permitted statuses. */
  function CompleteRow(rows: Rows, id: string, ok: bool, result: Json, now: Instant): Option<Rows> {
    if id in rows && rows[id].retryStatus == RetryExecuting
    then Some(rows[id := rows[id].(retryStatus := Outcome(ok), result := Some(result), updatedAt := now)])
    else None
  }

  function Outcome(ok: bool): RetryStatus {
    if ok then RetryExecuted else RetryFailed
  }

  // ----- queries -----

  predicate Equivalent(record: Record, session: string, name: string, version: string, hash: string) {
    record.sessionId == session && record.toolName == name && record.toolVersion == version &&
    record.definitionHash == hash && IsPending(record.status)
  }

  /** What `find_equivalent_pending` may return: a latest-created pending row of this identity. */
  ghost predicate IsLatestEquivalent(rows: Rows, session: string, name: string, version: string, hash: string, id: string) {
    && id in rows && Equivalent(rows[id], session, name, version, hash)
    && forall other :: other in rows && Equivalent(rows[other], session, name, version, hash) ==>
         NotAfter(rows[other].createdAt, rows[id].createdAt)
  }

  predicate IsExpired(record: Record, now: Instant) {
    IsPending(record.status) && NotAfter(record.expiresAt, now)
  }

  /** What `list_expired` may return: exactly the expired pending rows, by expiry. */
  ghost predicate IsExpiredList(rows: Rows, now: Instant, ids: seq<string>) {
    && (forall id :: id in ids <==> id in rows && IsExpired(rows[id], now))
    && (forall i, j :: 0 <= i < j < |ids| ==>
          ids[i] != ids[j] && NotAfter(rows[ids[i]].expiresAt, rows[ids[j]].expiresAt))
  }

  lemma NotAfterIsAnOrder()
    ensures forall a: Instant, b: Instant :: NotAfter(a, b) || NotAfter(b, a)
    ensures forall a: Instant, b: Instant, c: Instant :: NotAfter(a, b) && NotAfter(b, c) ==> NotAfter(a, c)
  {
  }

  /** The comparison of two time stamps that a query makes, on their texts. */
  method ComparesAtMost(a: Instant, b: Instant) returns (atMost: bool)
    ensures atMost == NotAfter(a, b)
  {
    IsoOrder(a, b);
    atMost := TextLeq(Iso(a), Iso(b));
  }

  class CapabilityWorkflowRepository {
    var rows: Rows
    var leases: Leases
    const maxPending: int

    constructor (maxPending: int)
      ensures rows == map[] && leases == map[] && this.maxPending == maxPending
    {
      rows, leases := map[], map[];
      this.maxPending := maxPending;
    }

    method Create(id: string, record: Record) returns (r: Result<(), CreateError>)
      modifies this`rows
      ensures
        match CreateRow(old(rows), id, record, maxPending)
        case Ok(after) => r == Ok(()) && rows == after
        case Err(e) => r == Err(e) && rows == old(rows)
    {
      if record.status == WaitingToolApproval {
        var free := EnsurePendingCapacity(record.sessionId);
        if !free {
          return Err(PendingWorkflowLimit);
        }
      }
      if id in rows || exists other :: other in rows && rows[other].proposalId == record.proposalId {
        return Err(IntegrityError);
      }
      rows := rows[id := record];
      r := Ok(());
    }

    /** `ensure_pending_capacity`; false stands for the raised limit. */
    method EnsurePendingCapacity(session: string) returns (free: bool)
      ensures free == HasCapacity(rows, session, maxPending)
    {
      var count := |set id | id in rows && rows[id].sessionId == session && rows[id].status == WaitingToolApproval|;
      free := count < maxPending;
    }

    method Transition(id: string, expected: Status, target: Status, u: Updates, now: Instant) returns (record: Option<Record>)
      modifies this`rows
      ensures
        match TransitionRow(old(rows), id, expected, target, u, now)
        case Some(after) => rows == after && record == Some(after[id])
        case None => rows == old(rows) && record == None
    {
      if id in rows && rows[id].status == expected {
        rows := rows[id := Updated(rows[id], target, u, now)];
        return Some(rows[id]);
      }
      record := None;
    }

    method ClaimRetry(id: string, now: Instant) returns (claimed: bool)
      modifies this`rows
      ensures
        match ClaimRow(old(rows), id, now)
        case Some(after) => claimed && rows == after
        case None => !claimed && rows == old(rows)
    {
      claimed := id in rows && rows[id].retryStatus == RetryPending;
      if claimed {
        rows := rows[id := rows[id].(retryStatus := RetryExecuting, updatedAt := now)];
      }
    }

    /** `complete_retry`; `None` stands for the raised error on any other status. */
    method CompleteRetry(id: string, status: RetryStatus, result: Json, now: Instant) returns (completed: Option<bool>)
      modifies this`rows
      ensures status != RetryExecuted && status != RetryFailed ==> completed == None && rows == old(rows)
      ensures status == RetryExecuted || status == RetryFailed ==>
        match CompleteRow(old(rows), id, status == RetryExecuted, result, now)
        case Some(after) => completed == Some(true) && rows == after
        case None => completed == Some(false) && rows == old(rows)
    {
      if status != RetryExecuted && status != RetryFailed {
        return None;
      }
      if id in rows && rows[id].retryStatus == RetryExecuting {
        rows := rows[id := rows[id].(retryStatus := status, result := Some(result), updatedAt := now)];
        return Some(true);
      }
      completed := Some(false);
    }

    /** `find_equivalent_pending`: the table is scanned once and the texts are compared. */
    method FindEquivalentPending(session: string, name: string, version: string, hash: string) returns (found: Option<string>)
      ensures found.Some? ==> IsLatestEquivalent(rows, session, name, version, hash, found.value)
      ensures found.None? ==> forall id :: id in rows ==> !Equivalent(rows[id], session, name, version, hash)
    {
      found := None;
      var rest := rows.Keys;
      while rest != {}
        invariant rest <= rows.Keys
        invariant found.Some? ==> found.value in rows && Equivalent(rows[found.value], session, name, version, hash)
        invariant forall id :: id in rows && id !in rest && Equivalent(rows[id], session, name, version, hash) ==>
          found.Some? && NotAfter(rows[id].createdAt, rows[found.value].createdAt)
        decreases rest
      {
        var id :| id in rest;
        if Equivalent(rows[id], session, name, version, hash) {
          var later := ComparesAtMost(if found.Some? then rows[found.value].createdAt else rows[id].createdAt, rows[id].createdAt);
          NotAfterIsAnOrder();
          if later {
            found := Some(id);
          }
        }
        rest := rest - {id};
      }
    }

    /** `list_expired`: the rows selected by text, least expiry text first. */
    method ListExpired(now: Instant) returns (ids: seq<string>)
      ensures IsExpiredList(rows, now, ids)
    {
      var rest := SelectExpired(now);
      ids := [];
      while rest != {}
        invariant forall id :: id in rest || id in ids <==> id in rows && IsExpired(rows[id], now)
        invariant forall id :: id in rest ==> id !in ids
        invariant forall i, id :: 0 <= i < |ids| && id in rest ==> NotAfter(rows[ids[i]].expiresAt, rows[id].expiresAt)
        invariant forall i, j :: 0 <= i < j < |ids| ==>
          ids[i] != ids[j] && NotAfter(rows[ids[i]].expiresAt, rows[ids[j]].expiresAt)
        decreases rest
      {
        var id := FirstToExpire(rest);
        ids := ids + [id];
        rest := rest - {id};
      }
    }

    /** The WHERE clause. */
    method SelectExpired(now: Instant) returns (selected: set<string>)
      ensures forall id :: id in selected <==> id in rows && IsExpired(rows[id], now)
    {
      selected := {};
      var rest := rows.Keys;
      while rest != {}
        invariant rest <= rows.Keys
        invariant forall id :: id in selected <==> id in rows && id !in rest && IsExpired(rows[id], now)
        decreases rest
      {
        var id :| id in rest;
        var due := ComparesAtMost(rows[id].expiresAt, now);
        if due && IsPending(rows[id].status) {
          selected := selected + {id};
        }
        rest := rest - {id};
      }
    }

    /** The ORDER BY clause. */
    method FirstToExpire(candidates: set<string>) returns (id: string)
      requires candidates != {} && candidates <= rows.Keys
      ensures id in candidates
      ensures forall other :: other in candidates ==> NotAfter(rows[id].expiresAt, rows[other].expiresAt)
    {
      id :| id in candidates;
      var rest := candidates - {id};
      NotAfterIsAnOrder();
      while rest != {}
        invariant id in candidates && rest <= candidates
        invariant forall other :: other in candidates && other !in rest ==> NotAfter(rows[id].expiresAt, rows[other].expiresAt)
        decreases rest
      {
        var other :| other in rest;
        var first := ComparesAtMost(rows[id].expiresAt, rows[other].expiresAt);
        if !first {
          id := other;
        }
        rest := rest - {other};
      }
    }

    method AcquireToolLease(tool: string, owner: string, now: Instant, expiresAt: Instant) returns (acquired: bool)
      modifies this`leases
      ensures (leases, acquired) == AcquireIn(old(leases), tool, owner, now, expiresAt)
    {
      if tool in leases {
        var current := leases[tool];
        if current.owner != owner && Before(now, current.expiresAt) {
          return false;
        }
      }
      leases := leases[tool := Lease(owner, expiresAt)];
      acquired := true;
    }

    method ReleaseToolLease(tool: string, owner: string) returns (released: bool)
      modifies this`leases
      ensures (leases, released) == ReleaseIn(old(leases), tool, owner)
    {
      released := tool in leases && leases[tool].owner == owner;
      if released {
        leases := leases - {tool};
      }
    }
  }
}
