/**
  The capability workflow: the nodes and edges of src/assistant/capabilities/adaptive_capability_graph.py as functions
  of one workflow and what all workflows share. A node that interrupts leaves the program counter at its resume point.
 */
module CapabilityGraph {
  import opened Common
  import opened IsoTime
  import opened Json
  import opened Redaction
  import opened RetryArguments
  import opened CapabilityTable
  import opened CapabilityProtocol
  import opened ToolStore
  import L = ToolLeases
  import P = ToolProvisioning

  // ----- proposals -----

  datatype Permissions = Permissions(writes: seq<string>, network: bool, executables: seq<string>)

  datatype Definition = Definition(key: ToolKey, permissions: Permissions, draftHash: string)

  /** `proposed` is the status test of `can_create`; `hash` is the definition hash or the empty text. */
  datatype Proposal = Proposal(
    proposalId: string,
    proposed: bool,
    capability: string,
    action: Action,
    definition: Option<Definition>,
    hash: string)

  datatype Config = Config(maxPending: int, rules: TextRules, draftsRoot: string)

  /** What the surroundings answer during one public call; `None` and `false` stand for raised errors. */
  datatype Answers = Answers(
    now: Instant,
    expiresAt: Instant,
    leaseUntil: Instant,
    written: P.Written,
    manifest: Option<ToolKey>,
    setup: P.Setup,
    reloads: bool,
    dryRun: Option<map<string, Json>>,
    policy: Option<string>,
    result: map<string, Json>)

  // ----- running once -----

  const EFFECT_MARKERS := ["shell", "environment", "env.", "system", "delete", "destroy", "remove", "write", "move"]
  const SECRET_KEYS := ["password", "secret", "token", "api_key", "credential"]

  predicate ReadOnly(p: Permissions) {
    p.writes == [] && !p.network && p.executables == []
  }

  predicate Effectful(action: Action, rules: TextRules) {
    ContainsAny(CapabilityText(action, rules), EFFECT_MARKERS)
  }

  /** `_can_offer_run_once` */
  predicate CanOfferRunOnce(p: Permissions, action: Action, rules: TextRules) {
    !Effectful(action, rules) && ReadOnly(p)
  }

  function DashesToUnderscores(s: string): string {
    seq(|s|, i requires 0 <= i < |s| => if s[i] == '-' then '_' else s[i])
  }

  /** `_contains_secret` */
  predicate ContainsSecret(v: Json, fold: CaseFold) {
    match v
    case Obj(fields) =>
      exists k :: k in fields && (ContainsAny(DashesToUnderscores(Fold(k, fold)), SECRET_KEYS) || ContainsSecret(fields[k], fold))
    case Arr(items) => exists i :: 0 <= i < |items| && ContainsSecret(items[i], fold)
    case _ => false
  }

  predicate ReadOnlyDryRun(d: map<string, Json>) {
    && "can_execute" in d && Truthy(d["can_execute"])
    && !("requires_confirmation" in d && Truthy(d["requires_confirmation"]))
    && "risk" in d && d["risk"] == Str("low")
  }

  /** Why a chosen single run is turned into a question after all. */
  datatype Downgrade =
    | FilesystemWrite | NetworkEnabled | SubprocessEnabled | PolicyIs(policy: string)
    | EffectfulCapability | SecretArguments | RetryIs(status: RetryStatus) | DryRunNotReadOnly

  /** `RunOnceEligibilityEvaluator.evaluate`; `None` means eligible. */
  function Evaluate(p: Permissions, action: Action, policy: string, retry: RetryStatus, dryRun: map<string, Json>, rules: TextRules):
    Option<Downgrade>
  {
    if p.writes != [] then Some(FilesystemWrite)
    else if p.network then Some(NetworkEnabled)
    else if p.executables != [] then Some(SubprocessEnabled)
    else if policy != "allow" then Some(PolicyIs(policy))
    else if Effectful(action, rules) then Some(EffectfulCapability)
    else if "arguments" in action && ContainsSecret(action["arguments"], rules.fold) then Some(SecretArguments)
    else if retry != RetryPending then Some(RetryIs(retry))
    else if !ReadOnlyDryRun(dryRun) then Some(DryRunNotReadOnly)
    else None
  }

  /** The verdict with what it was based on. */
  function Judgement(p: Permissions, action: Action, policy: string, retry: RetryStatus, dryRun: map<string, Json>, rules: TextRules):
    (e: Event)
    ensures e.Judged?
  {
    Judged(Evaluate(p, action, policy, retry, dryRun, rules).None?, policy, dryRun, retry)
  }

  /** Whatever may run once was offered to run once. */
  lemma EligibleWasOffered(p: Permissions, action: Action, policy: string, retry: RetryStatus, dryRun: map<string, Json>, rules: TextRules)
    requires Evaluate(p, action, policy, retry, dryRun, rules) == None
    ensures CanOfferRunOnce(p, action, rules)
  {
  }

  // ----- one workflow -----

  /** Where the graph of a workflow is resumed; `Stuck` when a node raised. */
  datatype Pc = AwaitTool | AwaitRetry | Stuck | Done

  /** A record with its checkpointed graph state, its ephemeral arguments, and its story so far. */
  datatype Workflow = Workflow(
    record: Record,
    definition: Definition,
    action: Action,
    pc: Pc,
    ephemeral: Option<map<string, Json>>,
    story: seq<Event>)

  datatype Shared = Shared(leases: L.Leases, tools: Tools, drafts: P.Drafts, installed: set<ToolKey>)

  function Told(f: Workflow, e: Event): Workflow {
    f.(story := f.story + [e])
  }

  /** The repository's `transition` of this record, told if it happens. */
  function Change(f: Workflow, from: Status, to: Status, u: Updates, now: Instant, tool: Option<ToolState>): Workflow {
    if f.record.status == from
    then f.(record := Updated(f.record, to, u, now), story := f.story + [Moved(from, to, tool)])
    else f
  }

  // ----- the nodes -----

  const UNAVAILABLE_MESSAGE := "Os argumentos sensiveis nao estao mais disponiveis. Informe-os novamente para executar."

  function Unavailable(): map<string, Json> {
    map["ok" := Bool(false), "message" := Str(UNAVAILABLE_MESSAGE), "error_code" := Str("sensitive_arguments_unavailable")]
  }

  predicate IsOk(result: map<string, Json>) {
    "ok" in result && Truthy(result["ok"])
  }

  /** The end of `_execute_original_action`: the call, `complete_retry` and the final transition. */
  function Finish(f: Workflow, retry: Option<Json>, ok: bool, shown: Json, now: Instant): Workflow {
    var ran := if retry.Some? then Told(f, Called(retry.value)) else f;
    var completed := ran.(record := ran.record.(retryStatus := Outcome(ok), result := Some(shown), updatedAt := now));
    Change(completed, f.record.status, if ok then ActionExecuted else ActionFailed, WithResult(shown), now, None)
  }

  function Prepared(f: Workflow): Option<Json> {
    PrepareRetry(f.definition.key.name, f.action, f.ephemeral)
  }

  /** After a successful claim: nothing is called when an argument was redacted. */
  function RunClaimed(f: Workflow, retry: Option<Json>, x: Answers, rules: TextRules): Workflow {
    var result := if retry.Some? then x.result else Unavailable();
    Finish(f, retry, IsOk(result), Redact(Obj(result), rules.sensitive), x.now)
  }

  /** `execute_action`: only the claim of a pending retry lets it go on. */
  function ExecuteNode(f: Workflow, x: Answers, rules: TextRules): Workflow {
    if f.record.retryStatus != RetryPending then f.(pc := Done)
    else
      var claimed := f.(record := f.record.(retryStatus := RetryExecuting, updatedAt := x.now));
      RunClaimed(claimed, Prepared(f), x, rules).(ephemeral := None, pc := Done)
  }

  /** `wait_retry` up to its interrupt. */
  function AskRetryNode(f: Workflow, x: Answers, dryRun: map<string, Json>): Workflow {
    Change(f, RuntimeReloaded, WaitingRetryConfirmation, WithResult(Obj(map["dry_run" := Obj(dryRun)])), x.now, None).(pc := AwaitRetry)
  }

  /** `reload_runtime` and the route after it. */
  function ReloadNode(f: Workflow, d: ToolDecision, x: Answers, rules: TextRules): Workflow {
    if !x.reloads then f.(pc := Stuck)
    else
      var ready := Change(f, ToolEnabled, RuntimeReloaded, NO_UPDATES, x.now, None);
      if x.dryRun.None? then ready.(pc := Stuck)
      else if d != ApproveAndRunOnce then AskRetryNode(ready, x, x.dryRun.value)
      else if x.policy.None? then ready.(pc := Stuck)
      else JudgeNode(ready, x, x.policy.value, x.dryRun.value, rules)
  }

  function JudgeNode(f: Workflow, x: Answers, policy: string, dryRun: map<string, Json>, rules: TextRules): Workflow {
    var judgement := Judgement(f.definition.permissions, f.action, policy, f.record.retryStatus, dryRun, rules);
    var judged := Told(f, judgement);
    if judgement.eligible then ExecuteNode(judged, x, rules) else AskRetryNode(judged, x, dryRun)
  }

  /** After `approve_install_enable` has returned (`enabled`) or raised, with the tool in the state `tool`. */
  function AfterEnablement(f: Workflow, enabled: bool, tool: Option<ToolState>, d: ToolDecision, x: Answers, rules: TextRules): Workflow {
    if enabled then ReloadNode(Change(f, WaitingToolApproval, ToolEnabled, NO_UPDATES, x.now, tool), d, x, rules)
    else f.(pc := Stuck)
  }

  /** `enable_tool` under its lease, which is released also when enabling raises, and what follows. */
  function EnableNode(id: string, f: Workflow, s: Shared, d: ToolDecision, x: Answers, rules: TextRules): (Workflow, Shared) {
    var tool := KeyText(f.definition.key);
    var (held, granted) := L.AcquireIn(s.leases, tool, id, x.now, x.leaseUntil);
    if !granted then (f.(pc := Stuck), s)
    else
      var (tools, installed, r) := P.ApproveIn(s.tools, s.installed, f.definition.key, x.manifest, x.setup);
      (AfterEnablement(f, r.Ok?, StateOf(tools, f.definition.key), d, x, rules),
       s.(leases := L.ReleaseIn(held, tool, id).0, tools := tools, installed := installed))
  }

  /** From the interrupt of `wait_tool_approval` on. */
  function ToolDecisionNodes(id: string, f: Workflow, s: Shared, d: ToolDecision, x: Answers, rules: TextRules): (Workflow, Shared) {
    var decided := Told(f, ToolDecided(d, CanOfferRunOnce(f.definition.permissions, f.action, rules)));
    match d
    case RejectTool => (Change(decided, WaitingToolApproval, ToolRejected, NO_UPDATES, x.now, None).(pc := Done), s)
    case CancelTool => (Change(decided, WaitingToolApproval, ToolApprovalCancelled, NO_UPDATES, x.now, None).(pc := Done), s)
    case _ => EnableNode(id, decided, s, d, x, rules)
  }

  /** From the interrupt of `wait_retry` on; the node runs again from its top, and its transition fails. */
  function RetryDecisionNodes(f: Workflow, r: RetryDecision, x: Answers, rules: TextRules): Workflow {
    var again := Change(f, RuntimeReloaded, WaitingRetryConfirmation, NO_UPDATES, x.now, None);
    var decided := Told(again, RetryDecided(r));
    match r
    case ConfirmRetry => ExecuteNode(decided, x, rules)
    case RefuseRetry => Change(decided, WaitingRetryConfirmation, RetryRejected, NO_UPDATES, x.now, None).(pc := Done)
    case CancelRetry => Change(decided, WaitingRetryConfirmation, RetryCancelled, NO_UPDATES, x.now, None).(pc := Done)
  }

  /** One record of `cleanup_expired`: the draft of an undecided tool is removed. */
  function ExpireNodes(f: Workflow, s: Shared, now: Instant): (Workflow, Shared) {
    var key := f.definition.key;
    var (tools, drafts, _) :=
      if f.record.status == WaitingToolApproval && f.record.draftPath.Some?
      then P.RemoveIn(s.tools, s.drafts, key, Some(key))
      else (s.tools, s.drafts, Ok(false));
    (Change(f, f.record.status, WorkflowExpired, NO_UPDATES, now, None), s.(tools := tools, drafts := drafts))
  }

  // ----- the public calls -----

  datatype World = World(flows: map<string, Workflow>, shared: Shared)

  function Records(flows: map<string, Workflow>): Rows {
    map id | id in flows :: flows[id].record
  }

  function DraftPath(root: string, key: ToolKey): string {
    root + "/" + key.name + "/" + key.version
  }

  function NewRecord(session: string, run: string, p: Proposal, d: Definition, x: Answers, cfg: Config): Record {
    Record(p.proposalId, session, run, p.capability, d.key.name, d.key.version, p.hash,
           RedactFields(SanitizeAction(p.action, cfg.rules), cfg.rules.sensitive),
           Some(DraftPath(cfg.draftsRoot, d.key)), WaitingToolApproval, RetryPending, x.now, x.now, x.expiresAt, None)
  }

  function NewWorkflow(session: string, run: string, p: Proposal, d: Definition, x: Answers, cfg: Config): Workflow {
    Workflow(NewRecord(session, run, p, d, x, cfg), d, SanitizeAction(p.action, cfg.rules), AwaitTool,
             if RequiresEphemeralArguments(p.action, cfg.rules) then Some(ActionArguments(p.action)) else None,
             [Proposed(p.action)])
  }

  predicate HasEquivalent(flows: map<string, Workflow>, session: string, d: Definition, hash: string) {
    exists id :: id in flows && Equivalent(flows[id].record, session, d.key.name, d.key.version, hash)
  }

  predicate MayStart(w: World, session: string, p: Proposal, cfg: Config) {
    && p.proposed && p.definition.Some?
    && !HasEquivalent(w.flows, session, p.definition.value, p.hash)
    && HasCapacity(Records(w.flows), session, cfg.maxPending)
  }

  /** `_create_draft`: the draft is made even when the record is refused. */
  function CreateDraftIn(w: World, id: string, f: Workflow, x: Answers, maxPending: int): World {
    var (tools, drafts, r) := P.GenerateIn(w.shared.tools, w.shared.drafts, f.definition.key, f.definition.draftHash, x.written);
    var drafted := w.(shared := w.shared.(tools := tools, drafts := drafts));
    if r.Err? || CreateRow(Records(w.flows), id, f.record, maxPending).Err? then drafted
    else drafted.(flows := w.flows[id := f])
  }

  /** `start_from_proposal` with the new identifier `id`. */
  function StartIn(w: World, id: string, session: string, run: string, p: Proposal, x: Answers, cfg: Config): World {
    if !MayStart(w, session, p, cfg) then w
    else CreateDraftIn(w, id, NewWorkflow(session, run, p, p.definition.value, x, cfg), x, cfg.maxPending)
  }

  function Put(w: World, id: string, after: (Workflow, Shared)): World {
    World(w.flows[id := after.0], after.1)
  }

  /** `decide_tool` on a workflow that is at its interrupt; on any other record it only reports. */
  function DecideToolIn(w: World, id: string, d: ToolDecision, x: Answers, cfg: Config): World {
    if id in w.flows && w.flows[id].record.status == WaitingToolApproval && w.flows[id].pc == AwaitTool
    then Put(w, id, ToolDecisionNodes(id, w.flows[id], w.shared, d, x, cfg.rules))
    else w
  }

  /** `decide_retry` */
  function DecideRetryIn(w: World, id: string, r: RetryDecision, x: Answers, cfg: Config): World {
    if id in w.flows && w.flows[id].record.status == WaitingRetryConfirmation && w.flows[id].pc == AwaitRetry
    then Put(w, id, (RetryDecisionNodes(w.flows[id], r, x, cfg.rules), w.shared))
    else w
  }

  /** `cancel` */
  function CancelIn(w: World, id: string, x: Answers, cfg: Config): World {
    if id !in w.flows then w
    else if w.flows[id].record.status == WaitingToolApproval then DecideToolIn(w, id, CancelTool, x, cfg)
    else if w.flows[id].record.status == WaitingRetryConfirmation then DecideRetryIn(w, id, CancelRetry, x, cfg)
    else w
  }

  function ExpireIn(w: World, id: string, now: Instant): World {
    if id in w.flows && IsPending(w.flows[id].record.status) then Put(w, id, ExpireNodes(w.flows[id], w.shared, now)) else w
  }

  /** The loop of `cleanup_expired` over the listed records. */
  function ExpireAll(w: World, ids: seq<string>, now: Instant): World
    decreases |ids|
  {
    if ids == [] then w else ExpireAll(ExpireIn(w, ids[0], now), ids[1..], now)
  }

  /** A new process: what was only in memory is gone. */
  function Forgotten(flows: map<string, Workflow>): map<string, Workflow> {
    map id | id in flows :: flows[id].(ephemeral := None)
  }

  datatype Request =
    | Start(id: string, session: string, run: string, proposal: Proposal, x: Answers)
    | DecideTool(id: string, tool: ToolDecision, x: Answers)
    | DecideRetry(id: string, retry: RetryDecision, x: Answers)
    | Cancel(id: string, x: Answers)
    | CleanupExpired(now: Instant, ids: seq<string>)
    | Restart
    | Outside(tools: Tools, drafts: P.Drafts, installed: set<ToolKey>)

  const INITIAL := World(map[], Shared(map[], map[], map[], {}))

  /** `Outside` is anything else that changes tools and their directories between two calls. */
  ghost function Step(w: World, q: Request, cfg: Config): World {
    match q
    case Start(id, session, run, proposal, x) => StartIn(w, id, session, run, proposal, x, cfg)
    case DecideTool(id, d, x) => DecideToolIn(w, id, d, x, cfg)
    case DecideRetry(id, r, x) => DecideRetryIn(w, id, r, x, cfg)
    case Cancel(id, x) => CancelIn(w, id, x, cfg)
    case CleanupExpired(now, ids) => if IsExpiredList(Records(w.flows), now, ids) then ExpireAll(w, ids, now) else w
    case Restart => w.(flows := Forgotten(w.flows))
    case Outside(tools, drafts, installed) => w.(shared := w.shared.(tools := tools, drafts := drafts, installed := installed))
  }

  ghost function Run(w: World, requests: seq<Request>, cfg: Config): World
    decreases |requests|
  {
    if requests == [] then w else Run(Step(w, requests[0], cfg), requests[1..], cfg)
  }
}
