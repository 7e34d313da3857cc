/**
  Every run of non-overlapping public calls, restarts and outside changes of the tools: consent before every
  execution, faithful arguments, the status graph, unique pending identities and bounded pending work.
 */
module CapabilityRuns {
  import opened Common
  import opened IsoTime
  import opened Json
  import opened Redaction
  import opened RetryArguments
  import opened CapabilityTable
  import opened CapabilityProtocol
  import opened CapabilityGraph
  import opened SingleRuns
  import T = ToolStore
  import L = ToolLeases
  import P = ToolProvisioning

  // ----- what a node may change -----

  predicate SameIdentity(a: Record, b: Record) {
    a.sessionId == b.sessionId && a.toolName == b.toolName && a.toolVersion == b.toolVersion && a.definitionHash == b.definitionHash
  }

  /** The story goes on, the request stays, the ephemeral arguments are at most forgotten, and no approval is awaited again. */
  predicate Extends(f: Workflow, g: Workflow) {
    && g.definition == f.definition && g.action == f.action
    && (g.ephemeral == f.ephemeral || g.ephemeral == None)
    && f.story <= g.story
    && SameRequest(f.record, g.record)
    && (g.record.status == WaitingToolApproval ==> f.record.status == WaitingToolApproval)
  }

  lemma ChangeExtends(f: Workflow, from: Status, to: Status, u: Updates, now: Instant, tool: Option<T.ToolState>)
    requires to != WaitingToolApproval
    ensures Extends(f, Change(f, from, to, u, now, tool))
  {
  }

  lemma FinishExtends(f: Workflow, retry: Option<Json>, ok: bool, shown: Json, now: Instant)
    ensures Extends(f, Finish(f, retry, ok, shown, now))
  {
    var ran := if retry.Some? then Told(f, Called(retry.value)) else f;
    var completed := ran.(record := ran.record.(retryStatus := Outcome(ok), result := Some(shown), updatedAt := now));
    ChangeExtends(completed, f.record.status, if ok then ActionExecuted else ActionFailed, WithResult(shown), now, None);
  }

  lemma ExecuteExtends(f: Workflow, x: Answers, rules: TextRules)
    ensures Extends(f, ExecuteNode(f, x, rules))
  {
    var claimed := f.(record := f.record.(retryStatus := RetryExecuting, updatedAt := x.now));
    var result := if Prepared(f).Some? then x.result else Unavailable();
    FinishExtends(claimed, Prepared(f), IsOk(result), Redact(Obj(result), rules.sensitive), x.now);
  }

  lemma AskRetryExtends(f: Workflow, x: Answers, dryRun: map<string, Json>)
    ensures Extends(f, AskRetryNode(f, x, dryRun))
  {
    ChangeExtends(f, RuntimeReloaded, WaitingRetryConfirmation, WithResult(Obj(map["dry_run" := Obj(dryRun)])), x.now, None);
  }

  lemma JudgeExtends(f: Workflow, x: Answers, policy: string, dryRun: map<string, Json>, rules: TextRules)
    ensures Extends(f, JudgeNode(f, x, policy, dryRun, rules))
  {
    var judged := Told(f, Judgement(f.definition.permissions, f.action, policy, f.record.retryStatus, dryRun, rules));
    ExecuteExtends(judged, x, rules);
    AskRetryExtends(judged, x, dryRun);
  }

  lemma ReloadExtends(f: Workflow, d: ToolDecision, x: Answers, rules: TextRules)
    ensures Extends(f, ReloadNode(f, d, x, rules))
  {
    ChangeExtends(f, ToolEnabled, RuntimeReloaded, NO_UPDATES, x.now, None);
    var ready := Change(f, ToolEnabled, RuntimeReloaded, NO_UPDATES, x.now, None);
    if x.dryRun.Some? {
      AskRetryExtends(ready, x, x.dryRun.value);
      if x.policy.Some? {
        JudgeExtends(ready, x, x.policy.value, x.dryRun.value, rules);
      }
    }
  }

  lemma EnableExtends(id: string, f: Workflow, s: Shared, d: ToolDecision, x: Answers, rules: TextRules)
    ensures Extends(f, EnableNode(id, f, s, d, x, rules).0)
  {
    var tool := T.StateOf(P.ApproveIn(s.tools, s.installed, f.definition.key, x.manifest, x.setup).0, f.definition.key);
    ChangeExtends(f, WaitingToolApproval, ToolEnabled, NO_UPDATES, x.now, tool);
    ReloadExtends(Change(f, WaitingToolApproval, ToolEnabled, NO_UPDATES, x.now, tool), d, x, rules);
  }

  lemma ToolDecisionExtends(id: string, f: Workflow, s: Shared, d: ToolDecision, x: Answers, rules: TextRules)
    ensures Extends(f, ToolDecisionNodes(id, f, s, d, x, rules).0)
  {
    var decided := Told(f, ToolDecided(d, CanOfferRunOnce(f.definition.permissions, f.action, rules)));
    match d
    case RejectTool => ChangeExtends(decided, WaitingToolApproval, ToolRejected, NO_UPDATES, x.now, None);
    case CancelTool => ChangeExtends(decided, WaitingToolApproval, ToolApprovalCancelled, NO_UPDATES, x.now, None);
    case _ => EnableExtends(id, decided, s, d, x, rules);
  }

  lemma RetryDecisionExtends(f: Workflow, r: RetryDecision, x: Answers, rules: TextRules)
    ensures Extends(f, RetryDecisionNodes(f, r, x, rules))
  {
    ChangeExtends(f, RuntimeReloaded, WaitingRetryConfirmation, NO_UPDATES, x.now, None);
    var decided := Told(Change(f, RuntimeReloaded, WaitingRetryConfirmation, NO_UPDATES, x.now, None), RetryDecided(r));
    match r
    case ConfirmRetry => ExecuteExtends(decided, x, rules);
    case RefuseRetry => ChangeExtends(decided, WaitingRetryConfirmation, RetryRejected, NO_UPDATES, x.now, None);
    case CancelRetry => ChangeExtends(decided, WaitingRetryConfirmation, RetryCancelled, NO_UPDATES, x.now, None);
  }

  lemma ExpiryExtends(f: Workflow, s: Shared, now: Instant)
    ensures Extends(f, ExpireNodes(f, s, now).0)
  {
    ChangeExtends(f, f.record.status, WorkflowExpired, NO_UPDATES, now, None);
  }

  // ----- the story of one workflow -----

  /** Calls and judgements, about which more is promised. */
  predicate Weighty(e: Event) {
    e.Called? || e.Judged?
  }

  /** The story is permitted, ends at the status of the record, and all its calls and judgements are `good`. */
  ghost predicate Core(f: Workflow, good: Event -> bool) {
    && Permitted(f.story)
    && StatusOf(f.story) == f.record.status
    && (forall k :: 0 <= k < |f.story| && Weighty(f.story[k]) ==> good(f.story[k]))
  }

  function RetryStatusAt(s: Status): RetryStatus {
    if s == ActionExecuted then RetryExecuted else if s == ActionFailed then RetryFailed else RetryPending
  }

  /** Where a story can be between two public calls. */
  predicate RestsAt(g: Stage, status: Status, pc: Pc) {
    && (status == WaitingToolApproval ==> g.Deciding? || g == Asking)
    && (status == WaitingToolApproval && pc == AwaitTool ==> g == Asking)
    && (status == WaitingRetryConfirmation ==> g == Waiting)
    && !g.Executing?
  }

  ghost predicate Resting(f: Workflow, good: Event -> bool) {
    && Core(f, good) && RestsAt(StageOf(f.story), f.record.status, f.pc)
    && f.record.retryStatus == RetryStatusAt(f.record.status)
    && (f.record.retryStatus != RetryPending ==> f.ephemeral == None)
  }

  lemma StatusOneMore(h: seq<Event>, e: Event)
    ensures StatusOf(h + [e]) == if e.Moved? then e.to else StatusOf(h)
  {
    assert (h + [e])[..|h|] == h;
  }

  lemma ToldKeepsCore(f: Workflow, e: Event, good: Event -> bool)
    requires Core(f, good) && !e.Moved? && Next(StageOf(f.story), e) != Bad
    requires Weighty(e) ==> good(e)
    ensures Core(Told(f, e), good) && StageOf(Told(f, e).story) == Next(StageOf(f.story), e)
  {
    StageOneMore(f.story, e);
    StatusOneMore(f.story, e);
  }

  lemma ChangeKeepsCore(f: Workflow, g: Stage, to: Status, u: Updates, now: Instant, tool: Option<T.ToolState>, good: Event -> bool)
    requires Core(f, good) && g == Next(StageOf(f.story), Moved(f.record.status, to, tool)) && g != Bad
    ensures
      var after := Change(f, f.record.status, to, u, now, tool);
      Core(after, good) && after.record == Updated(f.record, to, u, now) && StageOf(after.story) == g
  {
    var e := Moved(f.record.status, to, tool);
    StageOneMore(f.story, e);
    StatusOneMore(f.story, e);
  }

  /** A stage from which an action may be executed: an eligible single run, or a confirmed retry. */
  predicate ClearedAt(g: Stage) {
    g == Judging(true) || g == Answered(ConfirmRetry)
  }

  /** The final status, after a call or for want of arguments. */
  lemma ResultIsResting(f: Workflow, ok: bool, shown: Json, now: Instant, good: Event -> bool)
    requires Core(f, good) && f.record.retryStatus == Outcome(ok)
    requires StageOf(f.story) == Executing(f.record.status) || (ClearedAt(StageOf(f.story)) && !ok)
    ensures Resting(Change(f, f.record.status, if ok then ActionExecuted else ActionFailed, WithResult(shown), now, None).(ephemeral := None), good)
  {
    StageHasItsStatus(f.story);
    var to := if ok then ActionExecuted else ActionFailed;
    ChangeKeepsCore(f, Ended(to), to, WithResult(shown), now, None, good);
  }

  /** The story of an execution: a call or none, and then the final status. */
  lemma FinishIsResting(f: Workflow, retry: Option<Json>, ok: bool, shown: Json, now: Instant, good: Event -> bool)
    requires Core(f, good) && ClearedAt(StageOf(f.story))
    requires if retry.Some? then good(Called(retry.value)) else !ok
    ensures Resting(Finish(f, retry, ok, shown, now).(ephemeral := None), good)
  {
    StageHasItsStatus(f.story);
    var ran := if retry.Some? then Told(f, Called(retry.value)) else f;
    if retry.Some? {
      ToldKeepsCore(f, Called(retry.value), good);
    }
    var completed := ran.(record := ran.record.(retryStatus := Outcome(ok), result := Some(shown), updatedAt := now));
    ResultIsResting(completed, ok, shown, now, good);
  }

  lemma UnavailableIsNotOk()
    ensures !IsOk(Unavailable())
  {
    assert Unavailable()["ok"] == Bool(false);
  }

  lemma ExecuteIsResting(f: Workflow, x: Answers, rules: TextRules, good: Event -> bool)
    requires Core(f, good) && ClearedAt(StageOf(f.story)) && f.record.retryStatus == RetryPending
    requires Prepared(f).Some? ==> good(Called(Prepared(f).value))
    ensures Resting(ExecuteNode(f, x, rules), good)
  {
    UnavailableIsNotOk();
    var claimed := f.(record := f.record.(retryStatus := RetryExecuting, updatedAt := x.now));
    var retry := Prepared(f);
    var result := if retry.Some? then x.result else Unavailable();
    FinishIsResting(claimed, retry, IsOk(result), Redact(Obj(result), rules.sensitive), x.now, good);
  }

  // ----- the other nodes -----

  /** Whatever may be called or judged in this call is `good`. */
  ghost predicate Fits(f: Workflow, x: Answers, rules: TextRules, good: Event -> bool) {
    && (Prepared(f).Some? ==> good(Called(Prepared(f).value)))
    && (x.policy.Some? && x.dryRun.Some? ==>
          good(Judgement(f.definition.permissions, f.action, x.policy.value, RetryPending, x.dryRun.value, rules)))
  }

  lemma AskRetryIsResting(f: Workflow, x: Answers, dryRun: map<string, Json>, good: Event -> bool)
    requires Core(f, good) && f.record.retryStatus == RetryPending
    requires StageOf(f.story) == Judging(false) || (StageOf(f.story).Ready? && StageOf(f.story).decision != ApproveAndRunOnce)
    ensures Resting(AskRetryNode(f, x, dryRun), good)
  {
    StageHasItsStatus(f.story);
    ChangeKeepsCore(f, Waiting, WaitingRetryConfirmation, WithResult(Obj(map["dry_run" := Obj(dryRun)])), x.now, None, good);
  }

  lemma JudgeIsResting(f: Workflow, x: Answers, policy: string, dryRun: map<string, Json>, rules: TextRules, good: Event -> bool)
    requires Core(f, good) && f.record.retryStatus == RetryPending
    requires StageOf(f.story) == Ready(ApproveAndRunOnce, CanOfferRunOnce(f.definition.permissions, f.action, rules))
    requires Prepared(f).Some? ==> good(Called(Prepared(f).value))
    requires good(Judgement(f.definition.permissions, f.action, policy, RetryPending, dryRun, rules))
    ensures Resting(JudgeNode(f, x, policy, dryRun, rules), good)
  {
    var verdict := Evaluate(f.definition.permissions, f.action, policy, f.record.retryStatus, dryRun, rules);
    if verdict.None? {
      EligibleWasOffered(f.definition.permissions, f.action, policy, f.record.retryStatus, dryRun, rules);
    }
    var judgement := Judgement(f.definition.permissions, f.action, policy, f.record.retryStatus, dryRun, rules);
    ToldKeepsCore(f, judgement, good);
    var judged := Told(f, judgement);
    if verdict.None? {
      ExecuteIsResting(judged, x, rules, good);
    } else {
      AskRetryIsResting(judged, x, dryRun, good);
    }
  }

  lemma StuckIsResting(f: Workflow, good: Event -> bool)
    requires Core(f, good) && f.record.retryStatus == RetryPending
    requires StageOf(f.story).On? || StageOf(f.story).Ready? || StageOf(f.story).Deciding?
    ensures Resting(f.(pc := Stuck), good)
  {
    StageHasItsStatus(f.story);
  }

  lemma ReloadIsResting(f: Workflow, d: ToolDecision, x: Answers, rules: TextRules, good: Event -> bool)
    requires Core(f, good) && f.record.retryStatus == RetryPending
    requires StageOf(f.story) == On(d, CanOfferRunOnce(f.definition.permissions, f.action, rules))
    requires Fits(f, x, rules, good)
    ensures Resting(ReloadNode(f, d, x, rules), good)
  {
    if !x.reloads {
      StuckIsResting(f, good);
    } else {
      StageHasItsStatus(f.story);
      var offered := CanOfferRunOnce(f.definition.permissions, f.action, rules);
      ChangeKeepsCore(f, Ready(d, offered), RuntimeReloaded, NO_UPDATES, x.now, None, good);
      var ready := Change(f, ToolEnabled, RuntimeReloaded, NO_UPDATES, x.now, None);
      if x.dryRun.None? || (d == ApproveAndRunOnce && x.policy.None?) {
        StuckIsResting(ready, good);
      } else if d != ApproveAndRunOnce {
        AskRetryIsResting(ready, x, x.dryRun.value, good);
      } else {
        JudgeIsResting(ready, x, x.policy.value, x.dryRun.value, rules, good);
      }
    }
  }

  /** The tool is enabled: the graph goes on with the same arguments and the same offer. */
  lemma EnabledGoesOn(f: Workflow, tool: T.ToolState, d: ToolDecision, offered: bool, now: Instant, good: Event -> bool)
    requires Core(f, good) && f.record.status == WaitingToolApproval && Approves(d)
    requires StageOf(f.story) == Deciding(d, offered) && tool == T.Enabled
    ensures
      var g := Change(f, WaitingToolApproval, ToolEnabled, NO_UPDATES, now, Some(tool));
      && Core(g, good) && StageOf(g.story) == On(d, offered) && g.record.retryStatus == f.record.retryStatus
      && g.definition == f.definition && g.action == f.action && g.ephemeral == f.ephemeral
  {
    ChangeKeepsCore(f, On(d, offered), ToolEnabled, NO_UPDATES, now, Some(tool), good);
  }

  lemma AfterEnablementIsResting(f: Workflow, enabled: bool, tool: Option<T.ToolState>, d: ToolDecision, x: Answers, rules: TextRules,
                                 good: Event -> bool)
    requires Core(f, good) && f.record.retryStatus == RetryPending && f.record.status == WaitingToolApproval && Approves(d)
    requires StageOf(f.story) == Deciding(d, CanOfferRunOnce(f.definition.permissions, f.action, rules))
    requires Fits(f, x, rules, good)
    requires enabled ==> tool == Some(T.Enabled)
    ensures Resting(AfterEnablement(f, enabled, tool, d, x, rules), good)
  {
    if !enabled {
      StuckIsResting(f, good);
    } else {
      var offered := CanOfferRunOnce(f.definition.permissions, f.action, rules);
      EnabledGoesOn(f, tool.value, d, offered, x.now, good);
      ReloadIsResting(Change(f, WaitingToolApproval, ToolEnabled, NO_UPDATES, x.now, tool), d, x, rules, good);
    }
  }

  lemma EnableIsResting(id: string, f: Workflow, s: Shared, d: ToolDecision, x: Answers, rules: TextRules, good: Event -> bool)
    requires Core(f, good) && f.record.retryStatus == RetryPending && f.record.status == WaitingToolApproval && Approves(d)
    requires StageOf(f.story) == Deciding(d, CanOfferRunOnce(f.definition.permissions, f.action, rules))
    requires Fits(f, x, rules, good)
    ensures Resting(EnableNode(id, f, s, d, x, rules).0, good)
  {
    StuckIsResting(f, good);
    var (tools, installed, r) := P.ApproveIn(s.tools, s.installed, f.definition.key, x.manifest, x.setup);
    if r.Ok? {
      P.EnablementEnables(s.tools, s.installed, f.definition.key, x.manifest, x.setup);
    }
    AfterEnablementIsResting(f, r.Ok?, T.StateOf(tools, f.definition.key), d, x, rules, good);
  }

  /** A refusal, a cancellation or an expiry ends the story. */
  lemma EndIsResting(f: Workflow, to: Status, now: Instant, pc: Pc, good: Event -> bool)
    requires Core(f, good) && f.record.retryStatus == RetryPending && Refused(to)
    requires Next(StageOf(f.story), Moved(f.record.status, to, None)) == Ended(to)
    ensures Resting(Change(f, f.record.status, to, NO_UPDATES, now, None).(pc := pc), good)
  {
    ChangeKeepsCore(f, Ended(to), to, NO_UPDATES, now, None, good);
  }

  lemma ToolDecisionIsResting(id: string, f: Workflow, s: Shared, d: ToolDecision, x: Answers, rules: TextRules, good: Event -> bool)
    requires Resting(f, good) && f.record.status == WaitingToolApproval && f.pc == AwaitTool
    requires Fits(f, x, rules, good)
    ensures Resting(ToolDecisionNodes(id, f, s, d, x, rules).0, good)
  {
    var e := ToolDecided(d, CanOfferRunOnce(f.definition.permissions, f.action, rules));
    ToldKeepsCore(f, e, good);
    var decided := Told(f, e);
    match d
    case RejectTool => RejectionIsResting(decided, d, x.now, good);
    case CancelTool => RejectionIsResting(decided, d, x.now, good);
    case _ => EnableIsResting(id, decided, s, d, x, rules, good);
  }

  lemma RejectionIsResting(f: Workflow, d: ToolDecision, now: Instant, good: Event -> bool)
    requires Core(f, good) && f.record.retryStatus == RetryPending && f.record.status == WaitingToolApproval
    requires (d == RejectTool || d == CancelTool) && StageOf(f.story).Deciding? && StageOf(f.story).decision == d
    ensures
      var to := if d == RejectTool then ToolRejected else ToolApprovalCancelled;
      Resting(Change(f, WaitingToolApproval, to, NO_UPDATES, now, None).(pc := Done), good)
  {
    EndIsResting(f, if d == RejectTool then ToolRejected else ToolApprovalCancelled, now, Done, good);
  }

  lemma RetryDecisionIsResting(f: Workflow, r: RetryDecision, x: Answers, rules: TextRules, good: Event -> bool)
    requires Resting(f, good) && f.record.status == WaitingRetryConfirmation
    requires Fits(f, x, rules, good)
    ensures Resting(RetryDecisionNodes(f, r, x, rules), good)
  {
    ToldKeepsCore(f, RetryDecided(r), good);
    var decided := Told(f, RetryDecided(r));
    AlreadyMoved(f, x.now);
    if r == ConfirmRetry {
      ExecuteIsResting(decided, x, rules, good);
    } else {
      RefusalIsResting(decided, r, x.now, good);
    }
  }

  lemma AlreadyMoved(f: Workflow, now: Instant)
    requires f.record.status == WaitingRetryConfirmation
    ensures Change(f, RuntimeReloaded, WaitingRetryConfirmation, NO_UPDATES, now, None) == f
  {
  }

  lemma RefusalIsResting(f: Workflow, r: RetryDecision, now: Instant, good: Event -> bool)
    requires Core(f, good) && f.record.retryStatus == RetryPending && f.record.status == WaitingRetryConfirmation
    requires r != ConfirmRetry && StageOf(f.story) == Answered(r)
    ensures Resting(Change(f, WaitingRetryConfirmation, AnswerStatus(r), NO_UPDATES, now, None).(pc := Done), good)
  {
    EndIsResting(f, AnswerStatus(r), now, Done, good);
  }

  lemma ExpiryIsResting(f: Workflow, s: Shared, now: Instant, good: Event -> bool)
    requires Resting(f, good) && IsPending(f.record.status)
    ensures Resting(ExpireNodes(f, s, now).0, good)
  {
    EndIsResting(f, WorkflowExpired, now, f.pc, good);
  }

  // ----- the arguments -----

  /** The retry carries what the proposed action prescribes for this tool, and that action could be retried. */
  predicate Faithful(retry: Json, tool: string, proposed: Action, rules: TextRules) {
    && retry == RetryAction(tool, RetryArgumentsOf(tool, proposed))
    && (CanRetry(tool, proposed, true, rules) || CanRetry(tool, proposed, false, rules))
  }

  /** A call is faithful to the proposed action, and a judgement says whether a single run of its stored form is safe. */
  ghost predicate Proper(e: Event, d: Definition, proposed: Action, rules: TextRules) {
    && (e.Called? ==> Faithful(e.retry, d.key.name, proposed, rules))
    && (e.Judged? ==>
          (e.eligible <==> SafeToRunOnce(d.permissions, SanitizeAction(proposed, rules), e.policy, e.retryStatus, e.dryRun, rules)))
  }

  ghost function ProperFor(d: Definition, proposed: Action, rules: TextRules): Event -> bool {
    e => Proper(e, d, proposed, rules)
  }

  lemma JudgementIsProper(d: Definition, proposed: Action, policy: string, retry: RetryStatus, dryRun: map<string, Json>, rules: TextRules)
    ensures Proper(Judgement(d.permissions, SanitizeAction(proposed, rules), policy, retry, dryRun, rules), d, proposed, rules)
  {
    EligibleExactly(d.permissions, SanitizeAction(proposed, rules), policy, retry, dryRun, rules);
  }

  predicate Begun(f: Workflow) {
    f.story != [] && f.story[0].Proposed?
  }

  /** The graph state of a workflow is the stored form of what was proposed. */
  ghost predicate KeepsProposal(f: Workflow, rules: TextRules)
    requires Begun(f)
  {
    && f.action == SanitizeAction(f.story[0].action, rules)
    && (f.ephemeral.Some? ==> f.ephemeral.value == ActionArguments(f.story[0].action))
    && P.ValidToolName(f.definition.key.name)
  }

  ghost predicate Sound(f: Workflow, rules: TextRules) {
    Begun(f) && KeepsProposal(f, rules) && Resting(f, ProperFor(f.definition, f.story[0].action, rules))
  }

  lemma ExtensionKeepsProposal(f: Workflow, g: Workflow, rules: TextRules)
    requires Begun(f) && KeepsProposal(f, rules) && Extends(f, g)
    ensures Begun(g) && g.story[0] == f.story[0] && KeepsProposal(g, rules)
  {
  }

  lemma ValidNameIsNotTheMarker(name: string)
    requires P.ValidToolName(name)
    ensures name != REDACTED
  {
    P.ValidNameStartsLower(name);
    assert REDACTED[0] == '[';
  }

  lemma PreparedRetryIsFaithful(tool: string, proposed: Action, ephemeral: Option<map<string, Json>>, rules: TextRules)
    requires tool != REDACTED && (ephemeral.Some? ==> ephemeral.value == ActionArguments(proposed))
    ensures
      var retry := PrepareRetry(tool, SanitizeAction(proposed, rules), ephemeral);
      retry.Some? ==> Faithful(retry.value, tool, proposed, rules)
  {
    RetryIsFaithful(tool, proposed, ephemeral, rules);
  }

  /** What is prepared is faithful, whether the arguments were remembered or read from the store, and what is judged is right. */
  lemma PreparedFits(f: Workflow, x: Answers, rules: TextRules)
    requires Begun(f) && KeepsProposal(f, rules)
    ensures Fits(f, x, rules, ProperFor(f.definition, f.story[0].action, rules))
  {
    var proposed := f.story[0].action;
    ValidNameIsNotTheMarker(f.definition.key.name);
    PreparedRetryIsFaithful(f.definition.key.name, proposed, f.ephemeral, rules);
    if x.policy.Some? && x.dryRun.Some? {
      JudgementIsProper(f.definition, proposed, x.policy.value, RetryPending, x.dryRun.value, rules);
    }
  }

  // ----- all workflows -----

  ghost predicate AllSound(flows: map<string, Workflow>, rules: TextRules) {
    forall id :: id in flows ==> Sound(flows[id], rules)
  }

  /** No two pending records share session, tool, version and definition hash. */
  ghost predicate NoTwins(flows: map<string, Workflow>) {
    forall a, b :: a in flows && b in flows && a != b && IsPending(flows[a].record.status) && IsPending(flows[b].record.status) ==>
      !SameIdentity(flows[a].record, flows[b].record)
  }

  ghost predicate Inv(w: World, cfg: Config) {
    && AllSound(w.flows, cfg.rules)
    && NoTwins(w.flows)
    && WithinCapacity(Records(w.flows), cfg.maxPending)
    && w.shared.leases == map[]
  }

  lemma PutKeepsTwinsApart(flows: map<string, Workflow>, id: string, g: Workflow)
    requires NoTwins(flows) && id in flows && IsPending(flows[id].record.status) && Extends(flows[id], g)
    ensures NoTwins(flows[id := g])
  {
  }

  lemma PutKeepsCapacity(flows: map<string, Workflow>, id: string, g: Workflow, maxPending: int)
    requires WithinCapacity(Records(flows), maxPending) && id in flows && Extends(flows[id], g)
    ensures WithinCapacity(Records(flows[id := g]), maxPending)
  {
    FewerApprovals(Records(flows), Records(flows[id := g]), maxPending);
  }

  /** A node acts on one pending workflow. */
  lemma PutKeepsInvariant(w: World, id: string, after: (Workflow, Shared), cfg: Config)
    requires Inv(w, cfg) && id in w.flows && IsPending(w.flows[id].record.status)
    requires Extends(w.flows[id], after.0) && Sound(after.0, cfg.rules) && after.1.leases == map[]
    ensures Inv(Put(w, id, after), cfg)
  {
    PutKeepsTwinsApart(w.flows, id, after.0);
    PutKeepsCapacity(w.flows, id, after.0, cfg.maxPending);
  }

  lemma EnableLeavesNoLease(id: string, f: Workflow, s: Shared, d: ToolDecision, x: Answers, rules: TextRules)
    requires s.leases == map[]
    ensures EnableNode(id, f, s, d, x, rules).1.leases == map[]
  {
    var tool := T.KeyText(f.definition.key);
    var held := L.AcquireIn(s.leases, tool, id, x.now, x.leaseUntil).0;
    assert held == map[tool := L.Lease(id, x.leaseUntil)];
    assert held - {tool} == map[];
  }

  lemma ToolDecisionLeavesNoLease(id: string, f: Workflow, s: Shared, d: ToolDecision, x: Answers, rules: TextRules)
    requires s.leases == map[]
    ensures ToolDecisionNodes(id, f, s, d, x, rules).1.leases == map[]
  {
    var decided := Told(f, ToolDecided(d, CanOfferRunOnce(f.definition.permissions, f.action, rules)));
    EnableLeavesNoLease(id, decided, s, d, x, rules);
  }

  lemma ToolDecisionIsSound(id: string, f: Workflow, s: Shared, d: ToolDecision, x: Answers, rules: TextRules)
    requires Sound(f, rules) && f.record.status == WaitingToolApproval && f.pc == AwaitTool
    ensures Sound(ToolDecisionNodes(id, f, s, d, x, rules).0, rules)
  {
    PreparedFits(f, x, rules);
    ToolDecisionIsResting(id, f, s, d, x, rules, ProperFor(f.definition, f.story[0].action, rules));
    ToolDecisionExtends(id, f, s, d, x, rules);
    ExtensionKeepsProposal(f, ToolDecisionNodes(id, f, s, d, x, rules).0, rules);
  }

  lemma RetryDecisionIsSound(f: Workflow, r: RetryDecision, x: Answers, rules: TextRules)
    requires Sound(f, rules) && f.record.status == WaitingRetryConfirmation
    ensures Sound(RetryDecisionNodes(f, r, x, rules), rules)
  {
    PreparedFits(f, x, rules);
    RetryDecisionIsResting(f, r, x, rules, ProperFor(f.definition, f.story[0].action, rules));
    RetryDecisionExtends(f, r, x, rules);
    ExtensionKeepsProposal(f, RetryDecisionNodes(f, r, x, rules), rules);
  }

  lemma ExpiryIsSound(f: Workflow, s: Shared, now: Instant, rules: TextRules)
    requires Sound(f, rules) && IsPending(f.record.status)
    ensures Sound(ExpireNodes(f, s, now).0, rules)
  {
    ExpiryIsResting(f, s, now, ProperFor(f.definition, f.story[0].action, rules));
    ExpiryExtends(f, s, now);
    ExtensionKeepsProposal(f, ExpireNodes(f, s, now).0, rules);
  }

  lemma DecideToolKeepsInvariant(w: World, id: string, d: ToolDecision, x: Answers, cfg: Config)
    requires Inv(w, cfg)
    ensures Inv(DecideToolIn(w, id, d, x, cfg), cfg)
  {
    if id in w.flows && w.flows[id].record.status == WaitingToolApproval && w.flows[id].pc == AwaitTool {
      var f := w.flows[id];
      ToolDecisionIsSound(id, f, w.shared, d, x, cfg.rules);
      ToolDecisionExtends(id, f, w.shared, d, x, cfg.rules);
      ToolDecisionLeavesNoLease(id, f, w.shared, d, x, cfg.rules);
      PutKeepsInvariant(w, id, ToolDecisionNodes(id, f, w.shared, d, x, cfg.rules), cfg);
    }
  }

  lemma DecideRetryKeepsInvariant(w: World, id: string, r: RetryDecision, x: Answers, cfg: Config)
    requires Inv(w, cfg)
    ensures Inv(DecideRetryIn(w, id, r, x, cfg), cfg)
  {
    if id in w.flows && w.flows[id].record.status == WaitingRetryConfirmation && w.flows[id].pc == AwaitRetry {
      RetryDecisionIsSound(w.flows[id], r, x, cfg.rules);
      RetryDecisionExtends(w.flows[id], r, x, cfg.rules);
      PutKeepsInvariant(w, id, (RetryDecisionNodes(w.flows[id], r, x, cfg.rules), w.shared), cfg);
    }
  }

  lemma ExpireKeepsInvariant(w: World, id: string, now: Instant, cfg: Config)
    requires Inv(w, cfg)
    ensures Inv(ExpireIn(w, id, now), cfg)
  {
    if id in w.flows && IsPending(w.flows[id].record.status) {
      ExpiryIsSound(w.flows[id], w.shared, now, cfg.rules);
      ExpiryExtends(w.flows[id], w.shared, now);
      PutKeepsInvariant(w, id, ExpireNodes(w.flows[id], w.shared, now), cfg);
    }
  }

  lemma {:induction false} ExpireAllKeepsInvariant(w: World, ids: seq<string>, now: Instant, cfg: Config)
    requires Inv(w, cfg)
    ensures Inv(ExpireAll(w, ids, now), cfg)
    decreases |ids|
  {
    if ids != [] {
      ExpireKeepsInvariant(w, ids[0], now, cfg);
      ExpireAllKeepsInvariant(ExpireIn(w, ids[0], now), ids[1..], now, cfg);
    }
  }

  lemma FirstStage(h: seq<Event>)
    requires |h| == 1 && h[0].Proposed?
    ensures StageOf(h) == Asking && StatusOf(h) == WaitingToolApproval
  {
    assert h[..0] == [];
  }

  lemma NewWorkflowIsSound(session: string, run: string, p: Proposal, d: Definition, x: Answers, cfg: Config)
    requires P.ValidToolName(d.key.name)
    ensures Sound(NewWorkflow(session, run, p, d, x, cfg), cfg.rules)
  {
    FirstStage([Proposed(p.action)]);
  }

  ghost predicate TwinFree(flows: map<string, Workflow>, r: Record) {
    forall a :: a in flows && IsPending(flows[a].record.status) ==> !SameIdentity(flows[a].record, r)
  }

  lemma InsertKeepsTwinsApart(flows: map<string, Workflow>, id: string, f: Workflow)
    requires NoTwins(flows) && TwinFree(flows, f.record)
    ensures NoTwins(flows[id := f])
  {
  }

  lemma InsertKeepsCapacity(flows: map<string, Workflow>, id: string, f: Workflow, maxPending: int)
    requires WithinCapacity(Records(flows), maxPending) && CreateRow(Records(flows), id, f.record, maxPending).Ok?
    ensures WithinCapacity(Records(flows[id := f]), maxPending)
  {
    CreateKeepsCapacity(Records(flows), id, f.record, maxPending);
    assert Records(flows[id := f]) == Records(flows)[id := f.record];
  }

  lemma InsertKeepsSound(flows: map<string, Workflow>, id: string, f: Workflow, rules: TextRules)
    requires AllSound(flows, rules) && Sound(f, rules)
    ensures AllSound(flows[id := f], rules)
  {
  }

  lemma NoEquivalentMeansTwinFree(flows: map<string, Workflow>, session: string, d: Definition, hash: string, r: Record)
    requires !HasEquivalent(flows, session, d, hash)
    requires r.sessionId == session && r.toolName == d.key.name && r.toolVersion == d.key.version && r.definitionHash == hash
    ensures TwinFree(flows, r)
  {
    assert forall a :: a in flows ==> !Equivalent(flows[a].record, session, d.key.name, d.key.version, hash);
  }

  lemma InsertKeepsInvariant(w: World, id: string, f: Workflow, cfg: Config)
    requires Inv(w, cfg) && Sound(f, cfg.rules) && TwinFree(w.flows, f.record)
    requires CreateRow(Records(w.flows), id, f.record, cfg.maxPending).Ok?
    ensures Inv(w.(flows := w.flows[id := f]), cfg)
  {
    InsertKeepsTwinsApart(w.flows, id, f);
    InsertKeepsCapacity(w.flows, id, f, cfg.maxPending);
    InsertKeepsSound(w.flows, id, f, cfg.rules);
  }

  lemma DraftKeepsInvariant(w: World, id: string, f: Workflow, x: Answers, cfg: Config)
    requires Inv(w, cfg) && TwinFree(w.flows, f.record) && (P.ValidToolName(f.definition.key.name) ==> Sound(f, cfg.rules))
    ensures Inv(CreateDraftIn(w, id, f, x, cfg.maxPending), cfg)
  {
    var n := CreateDraftIn(w, id, f, x, cfg.maxPending);
    if n.flows != w.flows {
      InsertKeepsInvariant(w.(shared := n.shared), id, f, cfg);
    }
  }

  lemma StartKeepsInvariant(w: World, id: string, session: string, run: string, p: Proposal, x: Answers, cfg: Config)
    requires Inv(w, cfg)
    ensures Inv(StartIn(w, id, session, run, p, x, cfg), cfg)
  {
    if MayStart(w, session, p, cfg) {
      var d := p.definition.value;
      var f := NewWorkflow(session, run, p, d, x, cfg);
      if P.ValidToolName(d.key.name) {
        NewWorkflowIsSound(session, run, p, d, x, cfg);
      }
      NoEquivalentMeansTwinFree(w.flows, session, d, p.hash, f.record);
      DraftKeepsInvariant(w, id, f, x, cfg);
    }
  }

  lemma ForgettingIsSound(f: Workflow, rules: TextRules)
    requires Sound(f, rules)
    ensures Sound(f.(ephemeral := None), rules)
  {
    ExtensionKeepsProposal(f, f.(ephemeral := None), rules);
  }

  lemma RestartKeepsTwinsApart(flows: map<string, Workflow>)
    requires NoTwins(flows)
    ensures NoTwins(Forgotten(flows)) && Records(Forgotten(flows)) == Records(flows)
  {
  }

  lemma RestartKeepsInvariant(w: World, cfg: Config)
    requires Inv(w, cfg)
    ensures Inv(w.(flows := Forgotten(w.flows)), cfg)
  {
    forall id | id in w.flows {
      ForgettingIsSound(w.flows[id], cfg.rules);
    }
    RestartKeepsTwinsApart(w.flows);
  }

  lemma CancelKeepsInvariant(w: World, id: string, x: Answers, cfg: Config)
    requires Inv(w, cfg)
    ensures Inv(CancelIn(w, id, x, cfg), cfg)
  {
    DecideToolKeepsInvariant(w, id, CancelTool, x, cfg);
    DecideRetryKeepsInvariant(w, id, CancelRetry, x, cfg);
  }

  lemma OutsideKeepsInvariant(w: World, tools: T.Tools, drafts: P.Drafts, installed: set<T.ToolKey>, cfg: Config)
    requires Inv(w, cfg)
    ensures Inv(w.(shared := w.shared.(tools := tools, drafts := drafts, installed := installed)), cfg)
  {
  }

  lemma CleanupKeepsInvariant(w: World, now: Instant, ids: seq<string>, cfg: Config)
    requires Inv(w, cfg)
    ensures Inv(Step(w, CleanupExpired(now, ids), cfg), cfg)
  {
    CleanupIsAllOrNothing(w, now, ids, cfg);
    ExpireAllKeepsInvariant(w, ids, now, cfg);
  }

  lemma CleanupIsAllOrNothing(w: World, now: Instant, ids: seq<string>, cfg: Config)
    ensures var n := Step(w, CleanupExpired(now, ids), cfg); n == w || n == ExpireAll(w, ids, now)
  {
  }

  lemma DecisionKeepsInvariant(w: World, q: Request, cfg: Config)
    requires Inv(w, cfg) && (q.DecideTool? || q.DecideRetry? || q.Cancel?)
    ensures Inv(Step(w, q, cfg), cfg)
  {
    match q
    case DecideTool(id, d, x) => DecideToolKeepsInvariant(w, id, d, x, cfg);
    case DecideRetry(id, r, x) => DecideRetryKeepsInvariant(w, id, r, x, cfg);
    case Cancel(id, x) => CancelKeepsInvariant(w, id, x, cfg);
  }

  lemma StepKeepsInvariant(w: World, q: Request, cfg: Config)
    requires Inv(w, cfg)
    ensures Inv(Step(w, q, cfg), cfg)
  {
    match q
    case Start(id, session, run, proposal, x) => StartKeepsInvariant(w, id, session, run, proposal, x, cfg);
    case CleanupExpired(now, ids) => CleanupKeepsInvariant(w, now, ids, cfg);
    case Restart => RestartKeepsInvariant(w, cfg);
    case Outside(tools, drafts, installed) => OutsideKeepsInvariant(w, tools, drafts, installed, cfg);
    case _ => DecisionKeepsInvariant(w, q, cfg);
  }

  lemma {:induction false} RunKeepsInvariant(w: World, requests: seq<Request>, cfg: Config)
    requires Inv(w, cfg)
    ensures Inv(Run(w, requests, cfg), cfg)
    decreases |requests|
  {
    if requests != [] {
      StepKeepsInvariant(w, requests[0], cfg);
      RunKeepsInvariant(Step(w, requests[0], cfg), requests[1..], cfg);
    }
  }

  lemma Reachable(requests: seq<Request>, cfg: Config)
    ensures Inv(Run(INITIAL, requests, cfg), cfg)
  {
    assert forall session :: PendingApprovals(Records(INITIAL.flows), session) == {};
    RunKeepsInvariant(INITIAL, requests, cfg);
  }

  // ----- the main results -----

  predicate OnlyCall(h: seq<Event>, k: nat) {
    forall i :: 0 <= i < |h| && h[i].Called? ==> i == k
  }

  lemma OneCallOnly(h: seq<Event>, k: nat)
    requires Permitted(h) && k < |h| && h[k].Called?
    ensures OnlyCall(h, k)
  {
    forall i | 0 <= i < |h| && h[i].Called? ensures i == k {
      if i < k {
        CalledAtMostOnce(h, i, k);
      } else if k < i {
        CalledAtMostOnce(h, k, i);
      }
    }
  }

  /**
    In every run: whatever was executed for a workflow was consented to before, was called once, and carried exactly
    the arguments that the proposed action prescribes, although these were redacted and stored in between.
   */
  lemma ExecutionsAreConsentedAndFaithful(requests: seq<Request>, cfg: Config, id: string, k: nat)
    requires
      var flows := Run(INITIAL, requests, cfg).flows;
      id in flows && k < |flows[id].story| && flows[id].story[k].Called?
    ensures
      var f := Run(INITIAL, requests, cfg).flows[id];
      && ConsentedBefore(f.story, k)
      && OnlyCall(f.story, k)
      && f.story[0].Proposed?
      && Faithful(f.story[k].retry, f.definition.key.name, f.story[0].action, cfg.rules)
  {
    Reachable(requests, cfg);
    var f := Run(INITIAL, requests, cfg).flows[id];
    assert Sound(f, cfg.rules);
    CallsAreConsented(f.story, k);
    OneCallOnly(f.story, k);
  }

  /** In every run the arguments that were only remembered are forgotten once they have been used. */
  lemma UsedArgumentsAreForgotten(requests: seq<Request>, cfg: Config, id: string)
    requires id in Run(INITIAL, requests, cfg).flows
    ensures var f := Run(INITIAL, requests, cfg).flows[id]; f.record.retryStatus != RetryPending || CalledIn(f.story) ==> f.ephemeral == None
  {
    Reachable(requests, cfg);
    var f := Run(INITIAL, requests, cfg).flows[id];
    assert Sound(f, cfg.rules);
    RestingTellsTheStory(f, ProperFor(f.definition, f.story[0].action, cfg.rules));
  }

  /** What the status of a record says about its story. */
  predicate TellsTheStory(r: Record, h: seq<Event>) {
    && Permitted(h)
    && r.status == StatusOf(h)
    && r.retryStatus == RetryStatusAt(r.status)
    && (Refused(r.status) || !Terminal(r.status) ==> !CalledIn(h))
    && (r.status == ActionExecuted ==> CalledIn(h))
  }

  lemma RestingTellsTheStory(f: Workflow, good: Event -> bool)
    requires Resting(f, good)
    ensures TellsTheStory(f.record, f.story)
  {
    StageHasItsStatus(f.story);
    CallsOnlyWhileExecuting(f.story);
  }

  /**
    In every run: the status of a record is where its story ends, a record that is pending, refused, cancelled or
    expired was never executed, and the final statuses and the retry status say what became of the call.
   */
  lemma StatusTellsTheStory(requests: seq<Request>, cfg: Config, id: string)
    requires id in Run(INITIAL, requests, cfg).flows
    ensures var f := Run(INITIAL, requests, cfg).flows[id]; TellsTheStory(f.record, f.story)
  {
    Reachable(requests, cfg);
    var f := Run(INITIAL, requests, cfg).flows[id];
    assert Sound(f, cfg.rules);
    RestingTellsTheStory(f, ProperFor(f.definition, f.story[0].action, cfg.rules));
  }

  /**
    In every run: each status change of a record starts where the last one ended, follows an edge of the fixed graph
    and goes strictly down; and a record is only moved to enabled while the store holds its tool as enabled.
   */
  lemma EveryMoveFollowsTheGraph(requests: seq<Request>, cfg: Config, id: string, k: nat)
    requires
      var flows := Run(INITIAL, requests, cfg).flows;
      id in flows && k < |flows[id].story| && flows[id].story[k].Moved?
    ensures
      var h := Run(INITIAL, requests, cfg).flows[id].story;
      && h[k].from == StatusOf(h[..k]) && h[k].to == StatusOf(h[..k + 1])
      && Edge(h[k].from, h[k].to) && Rank(h[k].to) < Rank(h[k].from)
      && (h[k].to == ToolEnabled ==> h[k].tool == Some(T.Enabled))
  {
    StatusTellsTheStory(requests, cfg, id);
    MovesFollowTheGraph(Run(INITIAL, requests, cfg).flows[id].story, k);
  }

  /** In every run: no two pending records of one identity, and no session over its limit. */
  lemma PendingIsBoundedAndUnique(requests: seq<Request>, cfg: Config)
    ensures
      var flows := Run(INITIAL, requests, cfg).flows;
      NoTwins(flows) && WithinCapacity(Records(flows), cfg.maxPending)
  {
    Reachable(requests, cfg);
  }

  // ----- what a cleanup does -----

  lemma {:induction false} ExpireAllExpires(w: World, ids: seq<string>, now: Instant, id: string)
    requires id in w.flows
    ensures
      var f, after := w.flows[id], ExpireAll(w, ids, now).flows;
      && id in after
      && after[id].record ==
           if id in ids && IsPending(f.record.status) then Updated(f.record, WorkflowExpired, NO_UPDATES, now) else f.record
    decreases |ids|
  {
    if ids != [] {
      ExpireAllExpires(ExpireIn(w, ids[0], now), ids[1..], now, id);
      assert id in ids <==> id == ids[0] || id in ids[1..];
    }
  }

  /** A cleanup expires exactly the expired pending records, leaves every other record as it was, and leaves none expired. */
  lemma CleanupExpiresExactly(w: World, ids: seq<string>, now: Instant, id: string)
    requires IsExpiredList(Records(w.flows), now, ids) && id in w.flows
    ensures
      var r, after := w.flows[id].record, ExpireAll(w, ids, now).flows;
      && id in after
      && after[id].record ==
           (if (r.status == WaitingToolApproval || r.status == WaitingRetryConfirmation) && r.expiresAt.Micros() <= now.Micros()
            then r.(status := WorkflowExpired, updatedAt := now) else r)
      && !IsExpired(after[id].record, now)
  {
    ExpireAllExpires(w, ids, now, id);
    assert Records(w.flows)[id] == w.flows[id].record;
  }

  /** And it changes no tool but from validated to rejected: an approved, installed or enabled tool stays. */
  lemma {:induction false} CleanupKeepsLiveTools(w: World, ids: seq<string>, now: Instant, key: T.ToolKey)
    ensures
      var before, after := T.StateOf(w.shared.tools, key), T.StateOf(ExpireAll(w, ids, now).shared.tools, key);
      after == before || (before == Some(T.Validated) && after == Some(T.Rejected))
    decreases |ids|
  {
    if ids != [] {
      var n := ExpireIn(w, ids[0], now);
      CleanupKeepsLiveTools(n, ids[1..], now, key);
      if ids[0] in w.flows {
        var own := w.flows[ids[0]].definition.key;
        P.ExpiryTouchesOnlyDrafts(w.shared.tools, w.shared.drafts, own, Some(own), key);
      }
    }
  }

  // ----- stories only go on -----

  lemma {:induction false} ExpireAllExtends(w: World, ids: seq<string>, now: Instant, id: string)
    requires id in w.flows
    ensures id in ExpireAll(w, ids, now).flows && Extends(w.flows[id], ExpireAll(w, ids, now).flows[id])
    decreases |ids|
  {
    if ids != [] {
      var n := ExpireIn(w, ids[0], now);
      if ids[0] == id {
        ExpiryExtends(w.flows[id], w.shared, now);
      }
      ExpireAllExtends(n, ids[1..], now, id);
    }
  }

  lemma PutExtends(w: World, at: string, after: (Workflow, Shared), id: string)
    requires id in w.flows && at in w.flows && Extends(w.flows[at], after.0)
    ensures id in Put(w, at, after).flows && Extends(w.flows[id], Put(w, at, after).flows[id])
  {
  }

  lemma DecideToolExtends(w: World, at: string, d: ToolDecision, x: Answers, cfg: Config, id: string)
    requires id in w.flows
    ensures var n := DecideToolIn(w, at, d, x, cfg).flows; id in n && Extends(w.flows[id], n[id])
  {
    if at in w.flows {
      ToolDecisionExtends(at, w.flows[at], w.shared, d, x, cfg.rules);
      PutExtends(w, at, ToolDecisionNodes(at, w.flows[at], w.shared, d, x, cfg.rules), id);
    }
  }

  lemma DecideRetryExtends(w: World, at: string, r: RetryDecision, x: Answers, cfg: Config, id: string)
    requires id in w.flows
    ensures var n := DecideRetryIn(w, at, r, x, cfg).flows; id in n && Extends(w.flows[id], n[id])
  {
    if at in w.flows {
      RetryDecisionExtends(w.flows[at], r, x, cfg.rules);
      PutExtends(w, at, (RetryDecisionNodes(w.flows[at], r, x, cfg.rules), w.shared), id);
    }
  }

  lemma StartExtends(w: World, at: string, session: string, run: string, p: Proposal, x: Answers, cfg: Config, id: string)
    requires id in w.flows
    ensures var n := StartIn(w, at, session, run, p, x, cfg).flows; id in n && n[id] == w.flows[id]
  {
  }

  lemma StepExtends(w: World, q: Request, cfg: Config, id: string)
    requires id in w.flows
    ensures id in Step(w, q, cfg).flows && Extends(w.flows[id], Step(w, q, cfg).flows[id])
  {
    match q
    case Start(at, session, run, p, x) => StartExtends(w, at, session, run, p, x, cfg, id);
    case DecideTool(at, d, x) => DecideToolExtends(w, at, d, x, cfg, id);
    case DecideRetry(at, r, x) => DecideRetryExtends(w, at, r, x, cfg, id);
    case Cancel(at, x) =>
      DecideToolExtends(w, at, CancelTool, x, cfg, id);
      DecideRetryExtends(w, at, CancelRetry, x, cfg, id);
    case CleanupExpired(now, ids) => ExpireAllExtends(w, ids, now, id);
    case Restart =>
    case Outside(_, _, _) =>
  }

  /** Over every run a workflow is never lost, its request is never rewritten, and its story only goes on. */
  lemma {:induction false} RunExtends(w: World, requests: seq<Request>, cfg: Config, id: string)
    requires id in w.flows
    ensures id in Run(w, requests, cfg).flows && Extends(w.flows[id], Run(w, requests, cfg).flows[id])
    decreases |requests|
  {
    if requests != [] {
      StepExtends(w, requests[0], cfg, id);
      RunExtends(Step(w, requests[0], cfg), requests[1..], cfg, id);
    }
  }

  lemma {:induction false} RunConcat(w: World, a: seq<Request>, b: seq<Request>, cfg: Config)
    ensures Run(w, a + b, cfg) == Run(Run(w, a, cfg), b, cfg)
    decreases |a|
  {
    if a == [] {
      assert a + b == b;
    } else {
      assert (a + b)[1..] == a[1..] + b;
      RunConcat(Step(w, a[0], cfg), a[1..], b, cfg);
    }
  }

  /** Terminal statuses are absorbing: whatever comes later, the story has ended and the status stays. */
  lemma TerminalForever(before: seq<Request>, later: seq<Request>, cfg: Config, id: string)
    requires
      var flows := Run(INITIAL, before, cfg).flows;
      id in flows && Terminal(flows[id].record.status)
    ensures
      var earlier, now := Run(INITIAL, before, cfg).flows, Run(INITIAL, before + later, cfg).flows;
      id in now && now[id].story == earlier[id].story && now[id].record.status == earlier[id].record.status
  {
    RunConcat(INITIAL, before, later, cfg);
    RunExtends(Run(INITIAL, before, cfg), later, cfg, id);
    StatusTellsTheStory(before, cfg, id);
    StatusTellsTheStory(before + later, cfg, id);
    var h, g := Run(INITIAL, before, cfg).flows[id].story, Run(INITIAL, before + later, cfg).flows[id].story;
    assert g[..|h|] == h;
    NothingFollowsTheEnd(g, |h|);
    assert g == h;
  }
}
