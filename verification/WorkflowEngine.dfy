/**
  The life cycle of workflows: src/assistant/workflows/engine.py over the workflow table of
  src/assistant/workflows/repository.py and the transition table of models.py.
 */
module WorkflowEngine {
  import opened Common
  import opened Json
  import opened IsoTime
  import opened WorkflowModel
  import opened WorkflowRunner
  import opened WorkflowValidator

  /** `WORKFLOW_TRANSITIONS` */
  function Next(s: WorkflowStatus): set<WorkflowStatus> {
    match s
    case Draft => {Validated, Rejected, Archived}
    case Validated => {Approved, Rejected, Archived}
    case Approved => {Enabled, Rejected, Archived}
    case Enabled => {Disabled, Archived}
    case Disabled => {Enabled, Archived}
    case Rejected => {Archived}
    case Archived => {}
  }

  datatype EngineError = KeyError | AmbiguousId | InvalidTransition | ValidationFailed | NotRunnable | DuplicateId

  type Rows = map<string, Workflow>

  // ----- identifiers and their prefixes -----

  /** `given` stands for the row `full`: its identifier, or a prefix of eight characters or more of no other. */
  ghost predicate Denotes(rows: Rows, given: string, full: string) {
    full in rows &&
    (full == given ||
     (given !in rows && 8 <= |given| && given <= full && forall other :: other in rows && given <= other ==> other == full))
  }

  ghost function Resolve(rows: Rows, given: string): Result<string, EngineError> {
    if full :| Denotes(rows, given, full) then Ok(full)
    else if given !in rows && 8 <= |given| && exists full :: full in rows && given <= full then Err(AmbiguousId)
    else Err(KeyError)
  }

  // ----- one operation on the rows -----

  function UpdatedWorkflow(wf: Workflow, status: WorkflowStatus, now: Instant): Workflow {
    wf.(status := status,
        approvedAt := if status == Approved then Some(now) else wf.approvedAt,
        enabledAt := if status == Enabled then Some(now) else wf.enabledAt)
  }

  function CreateIn(rows: Rows, id: string, wf: Workflow): (Rows, Result<Workflow, EngineError>) {
    if id in rows then (rows, Err(DuplicateId)) else (rows[id := wf], Ok(wf))
  }

  function UpdateIn(rows: Rows, id: string, status: WorkflowStatus, now: Instant): (Rows, Result<Workflow, EngineError>) {
    if id !in rows then (rows, Err(KeyError))
    else if status !in Next(rows[id].status) then (rows, Err(InvalidTransition))
    else (rows[id := UpdatedWorkflow(rows[id], status, now)], Ok(UpdatedWorkflow(rows[id], status, now)))
  }

  function GenerateIn(rows: Rows, id: string, planned: Workflow): (Rows, Result<Workflow, EngineError>) {
    CreateIn(rows, id, planned.(status := Draft))
  }

  ghost function ValidateIn(rows: Rows, given: string, now: Instant, destructive: string -> bool): (Rows, Result<Workflow, EngineError>) {
    match Resolve(rows, given)
    case Err(e) => (rows, Err(e))
    case Ok(id) =>
      if !WellFormed(rows[id], destructive) then (rows, Err(ValidationFailed))
      else UpdateIn(rows, id, Validated, now)
  }

  ghost function TransitionIn(rows: Rows, given: string, status: WorkflowStatus, now: Instant): (Rows, Result<Workflow, EngineError>) {
    match Resolve(rows, given)
    case Err(e) => (rows, Err(e))
    case Ok(id) => UpdateIn(rows, id, status, now)
  }

  // ----- the engine -----

  /** The workflow table; each method is one transaction under the lock of the repository. */
  class WorkflowTable {
    var rows: Rows

    constructor ()
      ensures rows == map[]
    {
      rows := map[];
    }

    method CreateWorkflow(id: string, wf: Workflow) returns (r: Result<Workflow, EngineError>)
      modifies this
      ensures (rows, r) == CreateIn(old(rows), id, wf)
    {
      if id in rows {
        return Err(DuplicateId);
      }
      rows := rows[id := wf];
      r := Ok(wf);
    }

    method UpdateWorkflowStatus(id: string, status: WorkflowStatus, now: Instant) returns (r: Result<Workflow, EngineError>)
      modifies this
      ensures (rows, r) == UpdateIn(old(rows), id, status, now)
    {
      if id !in rows {
        return Err(KeyError);
      }
      if status !in Next(rows[id].status) {
        return Err(InvalidTransition);
      }
      var approvedAt := if status == Approved then Some(now) else rows[id].approvedAt;
      var enabledAt := if status == Enabled then Some(now) else rows[id].enabledAt;
      rows := rows[id := rows[id].(status := status, approvedAt := approvedAt, enabledAt := enabledAt)];
      r := Ok(rows[id]);
    }
  }

  class Engine {
    const table: WorkflowTable
    const validator: Validator
    const runner: SequentialWorkflowRunner

    constructor (table: WorkflowTable, validator: Validator, runner: SequentialWorkflowRunner)
      ensures this.table == table && this.validator == validator && this.runner == runner
    {
      this.table, this.validator, this.runner := table, validator, runner;
    }

    /** `generate`: whatever the planner says, the workflow starts as a draft. */
    method Generate(id: string, planned: Workflow) returns (r: Result<Workflow, EngineError>)
      modifies table
      ensures (table.rows, r) == GenerateIn(old(table.rows), id, planned)
    {
      var wf := if planned.status != Draft then planned.(status := Draft) else planned;
      r := table.CreateWorkflow(id, wf);
    }

    /** `get`: an exact identifier, or the only row with this prefix. */
    method Get(given: string) returns (r: Result<string, EngineError>)
      ensures r == Resolve(table.rows, given)
      ensures r.Ok? ==> r.value in table.rows
    {
      var rows := table.rows;
      if given in rows {
        assert Denotes(rows, given, given);
        return Ok(given);
      }
      if |given| < 8 {
        return Err(KeyError);
      }
      var matches := set full | full in rows && given <= full;
      assert (exists full :: Denotes(rows, given, full)) ==> |matches| == 1 by {
        if full :| Denotes(rows, given, full) {
          assert matches == {full};
        }
      }
      if |matches| == 1 {
        var full :| full in matches;
        OnlyElement(matches, full);
        assert forall other :: other in rows && given <= other ==> other in matches;
        assert Denotes(rows, given, full);
        return Ok(full);
      }
      if |matches| > 1 {
        return Err(AmbiguousId);
      }
      assert matches == {};
      assert forall full :: full in rows && given <= full ==> full in matches;
      r := Err(KeyError);
    }

    method Validate(given: string, now: Instant) returns (r: Result<Workflow, EngineError>)
      modifies table
      ensures (table.rows, r) == ValidateIn(old(table.rows), given, now, validator.destructive)
    {
      var found := Get(given);
      if found.Err? {
        return Err(found.error);
      }
      var report := validator.Validate(table.rows[found.value]);
      if report.findings != [] {
        return Err(ValidationFailed);
      }
      r := table.UpdateWorkflowStatus(found.value, Validated, now);
    }

    /** `_transition`, as called by `approve`, `reject`, `enable`, `disable` and `archive`. */
    method Transition(given: string, order: Order, now: Instant) returns (r: Result<Workflow, EngineError>)
      modifies table
      ensures (table.rows, r) == TransitionIn(old(table.rows), given, Target(order), now)
    {
      var found := Get(given);
      if found.Err? {
        return Err(found.error);
      }
      r := table.UpdateWorkflowStatus(found.value, Target(order), now);
    }

    /** `run`: nothing is recorded or called unless the workflow is enabled. */
    method Run(given: string, trigger: Option<Json>) returns (r: Result<nat, EngineError>, calls: seq<Call>)
      modifies runner.tables
      ensures
        match Resolve(table.rows, given)
        case Err(e) => r == Err(e) && calls == [] && unchanged(runner.tables)
        case Ok(id) =>
          if table.rows[id].status != Enabled then r == Err(NotRunnable) && calls == [] && unchanged(runner.tables)
          else
            var o := RunOf(table.rows[id], runner.world);
            && r == Ok(|old(runner.tables.runs)|)
            && calls == o.calls
            && runner.tables.steps == old(runner.tables.steps) + Recorded(r.value, o.rows)
            && runner.tables.runs == old(runner.tables.runs) +
                 [RunRow(id, o.status, StoredTrigger(trigger, runner.world), o.error, FinalRun(o.status))]
    {
      var found := Get(given);
      if found.Err? {
        return Err(found.error), [];
      }
      var wf := table.rows[found.value];
      if wf.status != Enabled {
        return Err(NotRunnable), [];
      }
      var run;
      run, calls := runner.Run(found.value, wf, trigger);
      r := Ok(run);
    }
  }

  lemma OnlyElement<T>(s: set<T>, x: T)
    requires |s| == 1 && x in s
    ensures s == {x}
  {
    assert |s - {x}| == 0;
  }

  // ----- which orders are carried out -----

  /** A status change is carried out exactly along the life cycle, and changes nothing but the status and its time. */
  lemma StatusChangesExactly(rows: Rows, id: string, status: WorkflowStatus, now: Instant)
    ensures
      var (after, r) := UpdateIn(rows, id, status, now);
      && (r.Ok? <==>
            id in rows &&
            var s := rows[id].status;
            match status
            case Draft => false
            case Validated => s == Draft
            case Approved => s == Validated
            case Enabled => s == Approved || s == Disabled
            case Disabled => s == Enabled
            case Rejected => s == Draft || s == Validated || s == Approved
            case Archived => s != Archived)
      && (r.Err? ==> after == rows && r.error == if id in rows then InvalidTransition else KeyError)
      && (r.Ok? ==>
            && after == rows[id := r.value] && r.value.status == status
            && r.value.approvedAt == (if status == Approved then Some(now) else rows[id].approvedAt)
            && r.value.enabledAt == (if status == Enabled then Some(now) else rows[id].enabledAt)
            && r.value.(status := rows[id].status, approvedAt := rows[id].approvedAt, enabledAt := rows[id].enabledAt) == rows[id])
  {
  }

  /** Which row a text stands for: the one it names, or the only one it is a prefix of, if it has eight characters or more. */
  lemma ResolvesExactly(rows: Rows, given: string)
    ensures given in rows ==> Resolve(rows, given) == Ok(given)
    ensures given !in rows && |given| < 8 ==> Resolve(rows, given) == Err(KeyError)
    ensures given !in rows && 8 <= |given| ==>
      match Resolve(rows, given)
      case Ok(full) => forall other :: other in rows && given <= other <==> other == full
      case Err(e) =>
        if e == KeyError then forall other :: other in rows ==> !(given <= other)
        else e == AmbiguousId && exists a, b :: a in rows && b in rows && a != b && given <= a && given <= b
  {
    if given in rows {
      assert Denotes(rows, given, given);
    } else if 8 <= |given| && Resolve(rows, given).Err? && exists full :: full in rows && given <= full {
      var a :| a in rows && given <= a;
      assert !Denotes(rows, given, a);
    }
  }

  // ----- runs of the engine -----

  datatype Order = Approve | Reject | Enable | Disable | Archive

  function Target(o: Order): WorkflowStatus {
    match o
    case Approve => Approved
    case Reject => Rejected
    case Enable => Enabled
    case Disable => Disabled
    case Archive => Archived
  }

  datatype Action =
    | Generate(id: string, planned: Workflow)
    | Validate(given: string, at: Instant)
    | Transition(given: string, order: Order, at: Instant)

  datatype Move = Move(to: WorkflowStatus, at: Instant)

  /** The rows, and for the statement of the theorems the draft of each and its status changes so far. */
  datatype Registry = Registry(rows: Rows, drafts: Rows, moves: map<string, seq<Move>>)

  const EMPTY := Registry(map[], map[], map[])

  ghost function Moved(r: Registry, given: string, status: WorkflowStatus, at: Instant, after: (Rows, Result<Workflow, EngineError>)): Registry {
    if after.1.Err? || Resolve(r.rows, given).Err? then r
    else
      var id := Resolve(r.rows, given).value;
      Registry(after.0, r.drafts, r.moves[id := (if id in r.moves then r.moves[id] else []) + [Move(status, at)]])
  }

  ghost function Step(r: Registry, a: Action, destructive: string -> bool): Registry {
    match a
    case Generate(id, planned) =>
      if id in r.rows then r
      else
        var after := GenerateIn(r.rows, id, planned).0;
        Registry(after, r.drafts[id := after[id]], r.moves[id := []])
    case Validate(given, at) => Moved(r, given, Validated, at, ValidateIn(r.rows, given, at, destructive))
    case Transition(given, order, at) => Moved(r, given, Target(order), at, TransitionIn(r.rows, given, Target(order), at))
  }

  ghost function RunActions(r: Registry, actions: seq<Action>, destructive: string -> bool): Registry
    decreases |actions|
  {
    if actions == [] then r else RunActions(Step(r, actions[0], destructive), actions[1..], destructive)
  }

  /** The status after the first `n` moves. */
  function StatusAfter(moves: seq<Move>, n: nat): WorkflowStatus
    requires n <= |moves|
  {
    if n == 0 then Draft else moves[n - 1].to
  }

  predicate Legal(moves: seq<Move>) {
    forall k {:trigger StatusAfter(moves, k)} :: 0 <= k < |moves| ==> moves[k].to in Next(StatusAfter(moves, k))
  }

  function LastTime(moves: seq<Move>, to: WorkflowStatus, otherwise: Option<Instant>): Option<Instant> {
    if moves == [] then otherwise
    else if moves[|moves| - 1].to == to then Some(moves[|moves| - 1].at)
    else LastTime(moves[..|moves| - 1], to, otherwise)
  }

  /** What a row must be, given its draft and its moves. */
  function Replayed(draft: Workflow, moves: seq<Move>): Workflow {
    draft.(status := StatusAfter(moves, |moves|),
           approvedAt := LastTime(moves, Approved, draft.approvedAt),
           enabledAt := LastTime(moves, Enabled, draft.enabledAt))
  }

  ghost predicate SoundRow(r: Registry, id: string, destructive: string -> bool)
    requires id in r.rows
  {
    && id in r.drafts && id in r.moves
    && r.drafts[id].status == Draft
    && Legal(r.moves[id])
    && r.rows[id] == Replayed(r.drafts[id], r.moves[id])
    && (r.moves[id] != [] && r.moves[id][0].to == Validated ==> WellFormed(r.drafts[id], destructive))
  }

  ghost predicate Sound(r: Registry, destructive: string -> bool) {
    forall id :: id in r.rows ==> SoundRow(r, id, destructive)
  }

  lemma MovedIsSound(r: Registry, id: string, status: WorkflowStatus, at: Instant, destructive: string -> bool)
    requires id in r.rows && SoundRow(r, id, destructive) && status in Next(r.rows[id].status)
    requires status == Validated ==> WellFormed(r.rows[id], destructive)
    ensures
      var moves := r.moves[id] + [Move(status, at)];
      && Legal(moves)
      && UpdatedWorkflow(r.rows[id], status, at) == Replayed(r.drafts[id], moves)
      && (moves[0].to == Validated ==> WellFormed(r.drafts[id], destructive))
  {
    var moves := r.moves[id] + [Move(status, at)];
    assert moves[..|moves| - 1] == r.moves[id];
    forall k | 0 <= k < |moves| ensures moves[k].to in Next(StatusAfter(moves, k)) {
      if k < |r.moves[id]| {
        assert StatusAfter(moves, k) == StatusAfter(r.moves[id], k) && moves[k] == r.moves[id][k];
      }
    }
  }

  lemma StatusStepIsSound(r: Registry, given: string, status: WorkflowStatus, at: Instant, after: (Rows, Result<Workflow, EngineError>),
                          destructive: string -> bool)
    requires Sound(r, destructive)
    requires after.1.Ok? ==>
      && Resolve(r.rows, given).Ok?
      && after == UpdateIn(r.rows, Resolve(r.rows, given).value, status, at)
      && (status == Validated ==> WellFormed(r.rows[Resolve(r.rows, given).value], destructive))
    ensures Sound(Moved(r, given, status, at, after), destructive)
  {
    if after.1.Ok? {
      var id := Resolve(r.rows, given).value;
      MovedIsSound(r, id, status, at, destructive);
      var next := Moved(r, given, status, at, after);
      assert SoundRow(next, id, destructive);
      assert forall other :: other in next.rows && other != id ==> SoundRow(r, other, destructive);
    }
  }

  lemma StepIsSound(r: Registry, a: Action, destructive: string -> bool)
    requires Sound(r, destructive)
    ensures Sound(Step(r, a, destructive), destructive)
  {
    match a
    case Generate(id, planned) =>
      var next := Step(r, a, destructive);
      assert forall other :: other in next.rows && other != id ==> SoundRow(r, other, destructive);
    case Validate(given, at) =>
      StatusStepIsSound(r, given, Validated, at, ValidateIn(r.rows, given, at, destructive), destructive);
    case Transition(given, order, at) =>
      StatusStepIsSound(r, given, Target(order), at, TransitionIn(r.rows, given, Target(order), at), destructive);
  }

  lemma {:induction false} RunIsSound(r: Registry, actions: seq<Action>, destructive: string -> bool)
    requires Sound(r, destructive)
    ensures Sound(RunActions(r, actions, destructive), destructive)
    decreases |actions|
  {
    if actions != [] {
      StepIsSound(r, actions[0], destructive);
      RunIsSound(Step(r, actions[0], destructive), actions[1..], destructive);
    }
  }

  // ----- what the moves of a workflow look like -----

  /** A status is rejected or archived for good as far as running is concerned. */
  predicate Lost(s: WorkflowStatus) {
    s == Rejected || s == Archived
  }

  /** The only order in which a workflow that is not lost can move. */
  function Expected(k: nat): WorkflowStatus {
    if k == 0 then Validated else if k == 1 then Approved else if k % 2 == 0 then Enabled else Disabled
  }

  lemma NextIsExpected(k: nat, s: WorkflowStatus)
    requires s in Next(if k == 0 then Draft else Expected(k - 1)) && !Lost(s)
    ensures s == Expected(k)
  {
  }

  lemma NextOfKept(s: WorkflowStatus, t: WorkflowStatus)
    requires t in Next(s) && !Lost(t)
    ensures !Lost(s)
  {
  }

  /**
    A workflow that is not lost was never lost: it was validated, approved and enabled in this order, and from
    then on was disabled and enabled in turn.
   */
  lemma {:induction false} KeptHistory(moves: seq<Move>, n: nat)
    requires Legal(moves) && n <= |moves| && !Lost(StatusAfter(moves, n))
    ensures forall k :: 0 <= k < n ==> moves[k].to == Expected(k)
  {
    if n > 0 {
      var to := moves[n - 1].to;
      assert to in Next(StatusAfter(moves, n - 1));
      NextOfKept(StatusAfter(moves, n - 1), to);
      KeptHistory(moves, n - 1);
      NextIsExpected(n - 1, to);
    }
  }

  lemma {:induction false} LastApproval(moves: seq<Move>, n: nat, otherwise: Option<Instant>)
    requires 2 <= n <= |moves| && forall k :: 0 <= k < n ==> moves[k].to == Expected(k)
    ensures LastTime(moves[..n], Approved, otherwise) == Some(moves[1].at)
  {
    var last := moves[..n][n - 1];
    if n > 2 {
      LastApproval(moves, n - 1, otherwise);
      assert moves[..n][..n - 1] == moves[..n - 1];
    }
  }

  /** What the record of an enabled workflow says about its moves. */
  ghost predicate EnabledProperly(draft: Workflow, wf: Workflow, moves: seq<Move>) {
    && 3 <= |moves| && moves[0].to == Validated && moves[1].to == Approved && moves[|moves| - 1].to == Enabled
    && (forall k :: 0 <= k < |moves| ==> !Lost(moves[k].to))
    && (forall k :: 2 <= k < |moves| ==> moves[k].to != Approved)
    && wf == draft.(status := Enabled, approvedAt := Some(moves[1].at), enabledAt := Some(moves[|moves| - 1].at))
  }

  lemma EnabledRow(draft: Workflow, moves: seq<Move>)
    requires Legal(moves) && StatusAfter(moves, |moves|) == Enabled
    ensures EnabledProperly(draft, Replayed(draft, moves), moves)
  {
    KeptHistory(moves, |moves|);
    assert |moves| > 0 && moves[|moves| - 1].to == Expected(|moves| - 1);
    LastApproval(moves, |moves|, draft.approvedAt);
    assert moves[..|moves|] == moves;
  }

  /**
    In every reachable state an enabled workflow was validated, then approved, then enabled, and never rejected
    or archived; `approved_at` is the time of its only approval and `enabled_at` that of its latest enabling;
    and the rest of it is still its draft, which was well formed.
   */
  lemma EnabledMeansValidatedThenApproved(actions: seq<Action>, destructive: string -> bool, id: string)
    requires id in RunActions(EMPTY, actions, destructive).rows
    requires RunActions(EMPTY, actions, destructive).rows[id].status == Enabled
    ensures
      var r := RunActions(EMPTY, actions, destructive);
      && id in r.drafts && id in r.moves
      && EnabledProperly(r.drafts[id], r.rows[id], r.moves[id])
      && WellFormed(r.drafts[id], destructive)
  {
    var r := RunActions(EMPTY, actions, destructive);
    RunIsSound(EMPTY, actions, destructive);
    assert SoundRow(r, id, destructive);
    EnabledRow(r.drafts[id], r.moves[id]);
  }

  /** From generation to the handlers: whatever the engine runs, runs as validated. */
  lemma EngineRunsAsValidated(actions: seq<Action>, w: World, given: string)
    requires
      var r := RunActions(EMPTY, actions, w.destructive);
      Resolve(r.rows, given).Ok? && r.rows[Resolve(r.rows, given).value].status == Enabled
    ensures
      var r := RunActions(EMPTY, actions, w.destructive);
      RunsAsValidated(r.rows[Resolve(r.rows, given).value], w)
  {
    var r := RunActions(EMPTY, actions, w.destructive);
    var id := Resolve(r.rows, given).value;
    EnabledMeansValidatedThenApproved(actions, w.destructive, id);
    ValidatedRun(r.drafts[id], r.rows[id], w);
  }
}
