/**
  What the public calls of the capability graph lead to, in every reachable world, said without its nodes: which call is
  made and with what, where the record ends, and what is stored. The safety of these runs is in `CapabilityRuns`.
 */
module CapabilityOutcomes {
  import opened Common
  import opened IsoTime
  import opened Json
  import opened Redaction
  import opened RetryArguments
  import opened CapabilityTable
  import opened CapabilityProtocol
  import opened CapabilityGraph
  import opened SingleRuns
  import opened CapabilityRuns
  import T = ToolStore
  import L = ToolLeases
  import P = ToolProvisioning

  // ----- what can become of a workflow -----

  /**
    Executed from the status `at`: the action is called if and only if nothing that it needs is hidden, with what the
    proposed action prescribes, and the record ends executed if and only if it was called and reported success.
   */
  ghost predicate Executes(f: Workflow, g: Workflow, told: seq<Event>, at: Status, x: Answers, rules: TextRules)
    requires Begun(f)
  {
    var tool, proposed := f.definition.key.name, f.story[0].action;
    var runs := CanRetry(tool, proposed, f.ephemeral.Some?, rules);
    ExecutesCall(f, g, told, at, if runs then Some(RetryAction(tool, RetryArgumentsOf(tool, proposed))) else None, x, rules.sensitive)
  }

  ghost predicate ExecutesCall(f: Workflow, g: Workflow, told: seq<Event>, at: Status, call: Option<Json>, x: Answers, sensitive: KeyTest) {
    var ok := call.Some? && "ok" in x.result && Truthy(x.result["ok"]);
    var end := if ok then ActionExecuted else ActionFailed;
    && g.story == f.story + told + (if call.Some? then [Called(call.value)] else []) + [Moved(at, end, None)]
    && g.record.status == end && g.record.retryStatus == (if ok then RetryExecuted else RetryFailed)
    && g.record.result == Some(Redact(Obj(if call.Some? then x.result else Unavailable()), sensitive))
    && g.ephemeral == None && g.pc == Done
  }

  /** Asked for the confirmation of the retry, with the dry run to look at. */
  predicate Asks(f: Workflow, g: Workflow, told: seq<Event>, dryRun: map<string, Json>) {
    && g.story == f.story + told + [Moved(RuntimeReloaded, WaitingRetryConfirmation, None)]
    && g.record.status == WaitingRetryConfirmation && g.record.retryStatus == RetryPending
    && g.record.result == Some(Obj(map["dry_run" := Obj(dryRun)]))
    && g.ephemeral == f.ephemeral && g.pc == AwaitRetry
  }

  /** Left at a status without anything executed. */
  predicate Rests(f: Workflow, g: Workflow, told: seq<Event>, status: Status, pc: Pc) {
    && g.story == f.story + told
    && g.record.status == status && g.record.retryStatus == RetryPending && g.record.result == f.record.result
    && g.ephemeral == f.ephemeral && g.pc == pc
  }

  /** What a call for want of arguments is answered with. */
  lemma UnavailableSays()
    ensures
      var r := Unavailable();
      && "ok" in r && r["ok"] == Bool(false)
      && "error_code" in r && r["error_code"] == Str("sensitive_arguments_unavailable")
  {
  }

  // ----- the nodes -----

  lemma ExecuteLeads(f: Workflow, x: Answers, rules: TextRules, call: Option<Json>)
    requires f.record.retryStatus == RetryPending && Prepared(f) == call
    ensures ExecutesCall(f, ExecuteNode(f, x, rules), [], f.record.status, call, x, rules.sensitive)
  {
    UnavailableIsNotOk();
    assert f.story + [] == f.story;
  }

  lemma AskLeads(f: Workflow, x: Answers, dryRun: map<string, Json>)
    requires f.record.status == RuntimeReloaded && f.record.retryStatus == RetryPending
    ensures Asks(f, AskRetryNode(f, x, dryRun), [], dryRun)
  {
    assert f.story + [] == f.story;
  }

  /** The node was entered after more of the story. */
  lemma ToldBeforeExecution(f: Workflow, h: Workflow, g: Workflow, told: seq<Event>, at: Status, call: Option<Json>, x: Answers, sensitive: KeyTest)
    requires h.story == f.story + told && ExecutesCall(h, g, [], at, call, x, sensitive)
    ensures ExecutesCall(f, g, told, at, call, x, sensitive)
  {
    assert f.story + told + [] == f.story + told;
  }

  lemma ToldBeforeQuestion(f: Workflow, h: Workflow, g: Workflow, told: seq<Event>, dryRun: map<string, Json>)
    requires h.story == f.story + told && h.ephemeral == f.ephemeral && Asks(h, g, [], dryRun)
    ensures Asks(f, g, told, dryRun)
  {
    assert f.story + told + [] == f.story + told;
  }

  /** What is prepared, said of the proposed action. */
  lemma PreparesExactly(f: Workflow, rules: TextRules)
    requires Begun(f) && KeepsProposal(f, rules)
    ensures
      var tool, proposed := f.definition.key.name, f.story[0].action;
      Prepared(f) == if CanRetry(tool, proposed, f.ephemeral.Some?, rules) then Some(RetryAction(tool, RetryArgumentsOf(tool, proposed)))
                     else None
  {
    ValidNameIsNotTheMarker(f.definition.key.name);
    RetryIsFaithful(f.definition.key.name, f.story[0].action, f.ephemeral, rules);
  }

  /** `h` is `f` with more of the story told and another status. */
  predicate GoesOn(f: Workflow, h: Workflow, told: seq<Event>, status: Status) {
    && h.story == f.story + told && h.record.status == status
    && h.record.retryStatus == f.record.retryStatus && h.record.result == f.record.result
    && h.definition == f.definition && h.action == f.action && h.ephemeral == f.ephemeral
  }

  lemma Tells(f: Workflow, h: Workflow, told: seq<Event>, status: Status, e: Event)
    requires GoesOn(f, h, told, status)
    ensures GoesOn(f, Told(h, e), told + [e], status)
  {
    assert (f.story + told) + [e] == f.story + (told + [e]);
  }

  lemma Moves(f: Workflow, h: Workflow, told: seq<Event>, status: Status, to: Status, now: Instant, tool: Option<T.ToolState>)
    requires GoesOn(f, h, told, status)
    ensures GoesOn(f, Change(h, status, to, NO_UPDATES, now, tool), told + [Moved(status, to, tool)], to)
  {
    assert (f.story + told) + [Moved(status, to, tool)] == f.story + (told + [Moved(status, to, tool)]);
  }

  lemma ExecutesAfter(f: Workflow, h: Workflow, told: seq<Event>, at: Status, x: Answers, rules: TextRules)
    requires Begun(f) && KeepsProposal(f, rules) && GoesOn(f, h, told, at) && f.record.retryStatus == RetryPending
    ensures Executes(f, ExecuteNode(h, x, rules), told, at, x, rules)
  {
    PreparesExactly(f, rules);
    ExecuteLeads(h, x, rules, Prepared(f));
    ToldBeforeExecution(f, h, ExecuteNode(h, x, rules), told, at, Prepared(f), x, rules.sensitive);
  }

  lemma AsksAfter(f: Workflow, h: Workflow, told: seq<Event>, x: Answers, dryRun: map<string, Json>)
    requires GoesOn(f, h, told, RuntimeReloaded) && f.record.retryStatus == RetryPending
    ensures Asks(f, AskRetryNode(h, x, dryRun), told, dryRun)
  {
    AskLeads(h, x, dryRun);
    ToldBeforeQuestion(f, h, AskRetryNode(h, x, dryRun), told, dryRun);
  }

  // ----- the decision about the retry -----

  /** A workflow that waits for its confirmation, or for its approval. */
  predicate WaitsAt(flows: map<string, Workflow>, id: string, status: Status, pc: Pc) {
    id in flows && flows[id].record.status == status && flows[id].pc == pc
  }

  lemma WaitingIsSound(requests: seq<Request>, cfg: Config, id: string)
    requires id in Run(INITIAL, requests, cfg).flows && IsPending(Run(INITIAL, requests, cfg).flows[id].record.status)
    ensures
      var f := Run(INITIAL, requests, cfg).flows[id];
      && Begun(f) && KeepsProposal(f, cfg.rules) && f.record.retryStatus == RetryPending && !CalledIn(f.story)
  {
    Reachable(requests, cfg);
    var f := Run(INITIAL, requests, cfg).flows[id];
    assert Sound(f, cfg.rules);
    StatusTellsTheStory(requests, cfg, id);
  }

  lemma ConfirmationLeads(f: Workflow, x: Answers, rules: TextRules)
    requires Begun(f) && KeepsProposal(f, rules) && f.record.retryStatus == RetryPending && f.record.status == WaitingRetryConfirmation
    ensures Executes(f, RetryDecisionNodes(f, ConfirmRetry, x, rules), [RetryDecided(ConfirmRetry)], WaitingRetryConfirmation, x, rules)
  {
    var h, told := Told(f, RetryDecided(ConfirmRetry)), [RetryDecided(ConfirmRetry)];
    ConfirmationExecutes(f, x, rules);
    assert GoesOn(f, h, told, WaitingRetryConfirmation);
    ExecutesAfter(f, h, told, WaitingRetryConfirmation, x, rules);
  }

  lemma ConfirmationExecutes(f: Workflow, x: Answers, rules: TextRules)
    requires f.record.status == WaitingRetryConfirmation
    ensures RetryDecisionNodes(f, ConfirmRetry, x, rules) == ExecuteNode(Told(f, RetryDecided(ConfirmRetry)), x, rules)
  {
    AlreadyMoved(f, x.now);
  }

  /**
    In every reachable world: a confirmed retry is executed. The action is called if and only if nothing that it needs
    is hidden, and the record ends executed if and only if it was called and reported success.
   */
  lemma ConfirmedRetryIsExecuted(requests: seq<Request>, cfg: Config, id: string, x: Answers)
    requires WaitsAt(Run(INITIAL, requests, cfg).flows, id, WaitingRetryConfirmation, AwaitRetry)
    ensures
      var w := Run(INITIAL, requests, cfg);
      var f, after := w.flows[id], DecideRetryIn(w, id, ConfirmRetry, x, cfg).flows;
      && id in after && Begun(f)
      && Executes(f, after[id], [RetryDecided(ConfirmRetry)], WaitingRetryConfirmation, x, cfg.rules)
      && (CalledIn(after[id].story) <==> CanRetry(f.definition.key.name, f.story[0].action, f.ephemeral.Some?, cfg.rules))
  {
    WaitingIsSound(requests, cfg, id);
    var f := Run(INITIAL, requests, cfg).flows[id];
    ConfirmationLeads(f, x, cfg.rules);
    ConfirmationCalls(f, x, cfg.rules);
    assert DecideRetryIn(Run(INITIAL, requests, cfg), id, ConfirmRetry, x, cfg).flows[id] == RetryDecisionNodes(f, ConfirmRetry, x, cfg.rules);
  }

  lemma ConfirmationCalls(f: Workflow, x: Answers, rules: TextRules)
    requires Begun(f) && KeepsProposal(f, rules) && f.record.retryStatus == RetryPending && f.record.status == WaitingRetryConfirmation
    requires !CalledIn(f.story)
    ensures CalledIn(RetryDecisionNodes(f, ConfirmRetry, x, rules).story) <==>
      CanRetry(f.definition.key.name, f.story[0].action, f.ephemeral.Some?, rules)
  {
    ConfirmationLeads(f, x, rules);
    ExecutedAfterYes(f, RetryDecisionNodes(f, ConfirmRetry, x, rules), x, rules);
  }

  lemma ExecutedAfterYes(f: Workflow, g: Workflow, x: Answers, rules: TextRules)
    requires Begun(f) && !CalledIn(f.story) && Executes(f, g, [RetryDecided(ConfirmRetry)], WaitingRetryConfirmation, x, rules)
    ensures CalledIn(g.story) <==> CanRetry(f.definition.key.name, f.story[0].action, f.ephemeral.Some?, rules)
  {
    CalledExactly(f, g, [RetryDecided(ConfirmRetry)], WaitingRetryConfirmation, x, rules);
  }

  predicate NoCalls(told: seq<Event>) {
    forall k :: 0 <= k < |told| ==> !told[k].Called?
  }

  lemma CallComesLast(h: seq<Event>, told: seq<Event>, call: Option<Json>, last: Event)
    requires NoCalls(h) && NoCalls(told) && !last.Called?
    ensures CalledIn(h + told + (if call.Some? then [Called(call.value)] else []) + [last]) <==> call.Some?
  {
    var g := h + told + (if call.Some? then [Called(call.value)] else []) + [last];
    var n := |h| + |told|;
    assert forall k :: 0 <= k < |h| ==> g[k] == h[k];
    assert forall k :: |h| <= k < n ==> g[k] == told[k - |h|];
    assert call.Some? ==> g[n].Called?;
  }

  lemma CalledExactly(f: Workflow, g: Workflow, told: seq<Event>, at: Status, x: Answers, rules: TextRules)
    requires Begun(f) && !CalledIn(f.story) && NoCalls(told) && Executes(f, g, told, at, x, rules)
    ensures CalledIn(g.story) <==> CanRetry(f.definition.key.name, f.story[0].action, f.ephemeral.Some?, rules)
  {
    var tool, proposed := f.definition.key.name, f.story[0].action;
    var call := if CanRetry(tool, proposed, f.ephemeral.Some?, rules) then Some(RetryAction(tool, RetryArgumentsOf(tool, proposed))) else None;
    CallComesLast(f.story, told, call, g.story[|g.story| - 1]);
  }

  lemma RefusalLeads(f: Workflow, r: RetryDecision, x: Answers, rules: TextRules)
    requires f.record.retryStatus == RetryPending && f.record.status == WaitingRetryConfirmation && r != ConfirmRetry
    ensures
      var end := if r == RefuseRetry then RetryRejected else RetryCancelled;
      Rests(f, RetryDecisionNodes(f, r, x, rules), [RetryDecided(r), Moved(WaitingRetryConfirmation, end, None)], end, Done)
  {
    AlreadyMoved(f, x.now);
    var end := if r == RefuseRetry then RetryRejected else RetryCancelled;
    assert GoesOn(f, Told(f, RetryDecided(r)), [RetryDecided(r)], WaitingRetryConfirmation);
    Moves(f, Told(f, RetryDecided(r)), [RetryDecided(r)], WaitingRetryConfirmation, end, x.now, None);
    assert [RetryDecided(r)] + [Moved(WaitingRetryConfirmation, end, None)] == [RetryDecided(r), Moved(WaitingRetryConfirmation, end, None)];
  }

  /** In every reachable world: an answer other than yes ends the workflow at the status it names, and nothing is called. */
  lemma RefusedRetryEnds(requests: seq<Request>, cfg: Config, id: string, r: RetryDecision, x: Answers)
    requires WaitsAt(Run(INITIAL, requests, cfg).flows, id, WaitingRetryConfirmation, AwaitRetry) && r != ConfirmRetry
    ensures
      var w := Run(INITIAL, requests, cfg);
      var f, after := w.flows[id], DecideRetryIn(w, id, r, x, cfg).flows;
      var end := if r == RefuseRetry then RetryRejected else RetryCancelled;
      id in after && Rests(f, after[id], [RetryDecided(r), Moved(WaitingRetryConfirmation, end, None)], end, Done)
  {
    WaitingIsSound(requests, cfg, id);
    RefusalLeads(Run(INITIAL, requests, cfg).flows[id], r, x, cfg.rules);
  }

  // ----- the decision about the tool -----

  /** Whether the tool of the workflow can be enabled now. */
  predicate CanEnable(s: Shared, key: T.ToolKey, x: Answers) {
    || (T.StateOf(s.tools, key) == Some(T.Enabled) && key in s.installed)
    || (T.StateOf(s.tools, key) == Some(T.Validated) && x.manifest == Some(key) && key !in s.installed && x.setup == P.Works)
  }

  /** What is told up to the point where the tool is enabled, and where the runtime is reloaded. */
  function EnabledStory(asked: Event): seq<Event> {
    [asked] + [Moved(WaitingToolApproval, ToolEnabled, Some(T.Enabled))]
  }

  function ReloadedStory(asked: Event): seq<Event> {
    EnabledStory(asked) + [Moved(ToolEnabled, RuntimeReloaded, None)]
  }

  /** The way of an approved tool: stuck where something is missing, else a safe single run or the question. */
  ghost predicate LeadsAs(f: Workflow, g: Workflow, enables: bool, asked: Event, safe: bool, x: Answers, rules: TextRules)
    requires Begun(f) && asked.ToolDecided?
  {
    if !enables then Rests(f, g, [asked], WaitingToolApproval, Stuck)
    else if !x.reloads then Rests(f, g, EnabledStory(asked), ToolEnabled, Stuck)
    else if x.dryRun.None? || (asked.decision == ApproveAndRunOnce && x.policy.None?) then
      Rests(f, g, ReloadedStory(asked), RuntimeReloaded, Stuck)
    else if asked.decision != ApproveAndRunOnce then Asks(f, g, ReloadedStory(asked), x.dryRun.value)
    else
      var told := ReloadedStory(asked) + [Judged(safe, x.policy.value, x.dryRun.value, RetryPending)];
      if safe then Executes(f, g, told, RuntimeReloaded, x, rules) else Asks(f, g, told, x.dryRun.value)
  }

  /** A single run of the stored action is safe under what this call is answered. */
  ghost predicate SafeNow(f: Workflow, x: Answers, rules: TextRules) {
    x.policy.Some? && x.dryRun.Some? &&
    SafeToRunOnce(f.definition.permissions, f.action, x.policy.value, RetryPending, x.dryRun.value, rules)
  }

  /** The decision as it is told: the single run is offered for tools that only read and do not act on the system. */
  function Asked(f: Workflow, d: ToolDecision, rules: TextRules): (e: Event)
    ensures e.ToolDecided? && e.decision == d
  {
    ToolDecided(d, OnlyReads(f.definition.permissions) && !ActsOnTheSystem(f.action, rules))
  }

  ghost predicate Leads(f: Workflow, g: Workflow, enables: bool, d: ToolDecision, x: Answers, rules: TextRules)
    requires Begun(f)
  {
    LeadsAs(f, g, enables, Asked(f, d, rules), SafeNow(f, x, rules), x, rules)
  }

  lemma JudgeLeads(f: Workflow, h: Workflow, told: seq<Event>, x: Answers, policy: string, dryRun: map<string, Json>, safe: bool, rules: TextRules)
    requires Begun(f) && KeepsProposal(f, rules) && GoesOn(f, h, told, RuntimeReloaded) && f.record.retryStatus == RetryPending
    requires Judgement(f.definition.permissions, f.action, policy, RetryPending, dryRun, rules) == Judged(safe, policy, dryRun, RetryPending)
    ensures
      var g := JudgeNode(h, x, policy, dryRun, rules);
      var more := told + [Judged(safe, policy, dryRun, RetryPending)];
      if safe then Executes(f, g, more, RuntimeReloaded, x, rules) else Asks(f, g, more, dryRun)
  {
    var e := Judgement(f.definition.permissions, f.action, policy, RetryPending, dryRun, rules);
    Tells(f, h, told, RuntimeReloaded, e);
    if e.eligible {
      ExecutesAfter(f, Told(h, e), told + [e], RuntimeReloaded, x, rules);
    } else {
      AsksAfter(f, Told(h, e), told + [e], x, dryRun);
    }
  }

  /** What the evaluator will say in this call, if it is asked. */
  ghost predicate Judges(f: Workflow, x: Answers, safe: bool, rules: TextRules) {
    x.policy.Some? && x.dryRun.Some? ==>
      Judgement(f.definition.permissions, f.action, x.policy.value, RetryPending, x.dryRun.value, rules) ==
      Judged(safe, x.policy.value, x.dryRun.value, RetryPending)
  }

  lemma JudgesSafety(f: Workflow, x: Answers, rules: TextRules)
    ensures Judges(f, x, SafeNow(f, x, rules), rules)
  {
    if x.policy.Some? && x.dryRun.Some? {
      EligibleExactly(f.definition.permissions, f.action, x.policy.value, RetryPending, x.dryRun.value, rules);
    }
  }

  lemma ReloadLeads(f: Workflow, h: Workflow, asked: Event, safe: bool, x: Answers, rules: TextRules)
    requires Begun(f) && KeepsProposal(f, rules) && GoesOn(f, h, EnabledStory(asked), ToolEnabled) && f.record.retryStatus == RetryPending
    requires asked.ToolDecided? && Judges(f, x, safe, rules)
    ensures LeadsAs(f, ReloadNode(h, asked.decision, x, rules), true, asked, safe, x, rules)
  {
    if x.reloads {
      Moves(f, h, EnabledStory(asked), ToolEnabled, RuntimeReloaded, x.now, None);
      var ready := Change(h, ToolEnabled, RuntimeReloaded, NO_UPDATES, x.now, None);
      if x.dryRun.Some? && asked.decision != ApproveAndRunOnce {
        AsksAfter(f, ready, ReloadedStory(asked), x, x.dryRun.value);
      } else if x.dryRun.Some? && x.policy.Some? {
        JudgeLeads(f, ready, ReloadedStory(asked), x, x.policy.value, x.dryRun.value, safe, rules);
      }
    }
  }

  lemma AfterEnablementLeads(f: Workflow, h: Workflow, asked: Event, safe: bool, enables: bool, tool: Option<T.ToolState>, x: Answers,
                             rules: TextRules)
    requires Begun(f) && KeepsProposal(f, rules) && f.record.retryStatus == RetryPending
    requires asked.ToolDecided? && GoesOn(f, h, [asked], WaitingToolApproval) && Judges(f, x, safe, rules)
    requires enables ==> tool == Some(T.Enabled)
    ensures LeadsAs(f, AfterEnablement(h, enables, tool, asked.decision, x, rules), enables, asked, safe, x, rules)
  {
    if enables {
      Moves(f, h, [asked], WaitingToolApproval, ToolEnabled, x.now, tool);
      ReloadLeads(f, Change(h, WaitingToolApproval, ToolEnabled, NO_UPDATES, x.now, tool), asked, safe, x, rules);
    }
  }

  lemma EnableLeads(id: string, f: Workflow, s: Shared, d: ToolDecision, x: Answers, rules: TextRules)
    requires Begun(f) && KeepsProposal(f, rules) && f.record.retryStatus == RetryPending && f.record.status == WaitingToolApproval
    requires s.leases == map[] && Approves(d)
    ensures
      var (g, t) := ToolDecisionNodes(id, f, s, d, x, rules);
      && Leads(f, g, CanEnable(s, f.definition.key, x), d, x, rules)
      && (CanEnable(s, f.definition.key, x) ==> T.StateOf(t.tools, f.definition.key) == Some(T.Enabled) && f.definition.key in t.installed)
  {
    var key, asked := f.definition.key, Asked(f, d, rules);
    assert GoesOn(f, Told(f, asked), [asked], WaitingToolApproval);
    EnablesExactly(s, key, x);
    ApprovalEnables(id, f, s, d, x, rules);
    JudgesSafety(f, x, rules);
    var (tools, installed, r) := P.ApproveIn(s.tools, s.installed, key, x.manifest, x.setup);
    AfterEnablementLeads(f, Told(f, asked), asked, SafeNow(f, x, rules), CanEnable(s, key, x), T.StateOf(tools, key), x, rules);
  }

  lemma EnablesExactly(s: Shared, key: T.ToolKey, x: Answers)
    ensures
      var (tools, installed, r) := P.ApproveIn(s.tools, s.installed, key, x.manifest, x.setup);
      && (r.Ok? <==> CanEnable(s, key, x))
      && (r.Ok? ==> T.StateOf(tools, key) == Some(T.Enabled) && key in installed)
  {
    P.EnablementSucceedsExactly(s.tools, s.installed, key, x.manifest, x.setup);
  }

  lemma ApprovalEnables(id: string, f: Workflow, s: Shared, d: ToolDecision, x: Answers, rules: TextRules)
    requires s.leases == map[] && Approves(d)
    ensures
      var h := Told(f, Asked(f, d, rules));
      var (tools, installed, r) := P.ApproveIn(s.tools, s.installed, f.definition.key, x.manifest, x.setup);
      var (g, t) := ToolDecisionNodes(id, f, s, d, x, rules);
      && g == AfterEnablement(h, r.Ok?, T.StateOf(tools, f.definition.key), d, x, rules)
      && t.tools == tools && t.installed == installed
  {
    OfferedExactly(f.definition.permissions, f.action, rules);
  }

  lemma NoLeases(requests: seq<Request>, cfg: Config)
    ensures Run(INITIAL, requests, cfg).shared.leases == map[]
  {
    Reachable(requests, cfg);
  }

  /**
    In every reachable world: an approval enables the tool if and only if this is possible, and then asks for the
    confirmation of the retry, unless the single run was chosen and is safe, which is executed at once.
   */
  lemma ApprovalLeads(requests: seq<Request>, cfg: Config, id: string, d: ToolDecision, x: Answers)
    requires WaitsAt(Run(INITIAL, requests, cfg).flows, id, WaitingToolApproval, AwaitTool) && Approves(d)
    ensures
      var w := Run(INITIAL, requests, cfg);
      var f, after := w.flows[id], DecideToolIn(w, id, d, x, cfg);
      var key := f.definition.key;
      && id in after.flows && Begun(f)
      && Leads(f, after.flows[id], CanEnable(w.shared, key, x), d, x, cfg.rules)
      && (CanEnable(w.shared, key, x) ==> T.StateOf(after.shared.tools, key) == Some(T.Enabled) && key in after.shared.installed)
  {
    var w := Run(INITIAL, requests, cfg);
    WaitingIsSound(requests, cfg, id);
    NoLeases(requests, cfg);
    EnableLeads(id, w.flows[id], w.shared, d, x, cfg.rules);
  }

  /** What must hold for an approved single run to be executed at once. */
  ghost predicate RunsAtOnce(w: World, f: Workflow, x: Answers, rules: TextRules)
    requires Begun(f)
  {
    && CanEnable(w.shared, f.definition.key, x) && x.reloads && SafeNow(f, x, rules)
    && CanRetry(f.definition.key.name, f.story[0].action, f.ephemeral.Some?, rules)
  }

  lemma QuestionCallsNothing(f: Workflow, g: Workflow, told: seq<Event>)
    requires NoCalls(f.story) && NoCalls(told) && g.story == f.story + told
    ensures !CalledIn(g.story)
  {
    assert forall k :: 0 <= k < |g.story| ==> g.story[k] == if k < |f.story| then f.story[k] else told[k - |f.story|];
  }

  lemma LeadsToACall(f: Workflow, g: Workflow, enables: bool, asked: Event, safe: bool, x: Answers, rules: TextRules)
    requires Begun(f) && !CalledIn(f.story) && asked.ToolDecided? && asked.decision == ApproveAndRunOnce
    requires (safe ==> x.policy.Some? && x.dryRun.Some?) && LeadsAs(f, g, enables, asked, safe, x, rules)
    ensures CalledIn(g.story) <==>
      enables && x.reloads && safe && CanRetry(f.definition.key.name, f.story[0].action, f.ephemeral.Some?, rules)
  {
    if !enables {
      QuestionCallsNothing(f, g, [asked]);
    } else if !x.reloads {
      QuestionCallsNothing(f, g, EnabledStory(asked));
    } else if x.dryRun.None? || x.policy.None? {
      QuestionCallsNothing(f, g, ReloadedStory(asked));
    } else {
      var told := ReloadedStory(asked) + [Judged(safe, x.policy.value, x.dryRun.value, RetryPending)];
      if safe {
        CalledExactly(f, g, told, RuntimeReloaded, x, rules);
      } else {
        AskingCallsNothing(f, g, told, x.dryRun.value);
      }
    }
  }

  lemma AskingCallsNothing(f: Workflow, g: Workflow, told: seq<Event>, dryRun: map<string, Json>)
    requires NoCalls(f.story) && NoCalls(told) && Asks(f, g, told, dryRun)
    ensures !CalledIn(g.story)
  {
    CallComesLast(f.story, told, None, Moved(RuntimeReloaded, WaitingRetryConfirmation, None));
    assert f.story + told + [] == f.story + told;
  }

  /**
    In every reachable world: an approved single run is executed in the same call if and only if the tool can be enabled,
    the runtime reloads, the run is safe by the rules, and nothing that it needs is hidden.
   */
  lemma SingleRunIsExecutedExactly(requests: seq<Request>, cfg: Config, id: string, x: Answers)
    requires WaitsAt(Run(INITIAL, requests, cfg).flows, id, WaitingToolApproval, AwaitTool)
    ensures
      var w := Run(INITIAL, requests, cfg);
      var f, after := w.flows[id], DecideToolIn(w, id, ApproveAndRunOnce, x, cfg).flows;
      id in after && Begun(f) && (CalledIn(after[id].story) <==> RunsAtOnce(w, f, x, cfg.rules))
  {
    var w := Run(INITIAL, requests, cfg);
    WaitingIsSound(requests, cfg, id);
    ApprovalLeads(requests, cfg, id, ApproveAndRunOnce, x);
    var f := w.flows[id];
    LeadsToACall(f, DecideToolIn(w, id, ApproveAndRunOnce, x, cfg).flows[id], CanEnable(w.shared, f.definition.key, x),
                 Asked(f, ApproveAndRunOnce, cfg.rules), SafeNow(f, x, cfg.rules), x, cfg.rules);
  }

  lemma ToolRefusalLeads(id: string, f: Workflow, s: Shared, d: ToolDecision, x: Answers, rules: TextRules)
    requires f.record.retryStatus == RetryPending && f.record.status == WaitingToolApproval && !Approves(d)
    ensures
      var (g, t) := ToolDecisionNodes(id, f, s, d, x, rules);
      var asked := Asked(f, d, rules);
      var end := if d == RejectTool then ToolRejected else ToolApprovalCancelled;
      t == s && Rests(f, g, [asked, Moved(WaitingToolApproval, end, None)], end, Done)
  {
    OfferedExactly(f.definition.permissions, f.action, rules);
    var asked := Asked(f, d, rules);
    var end := if d == RejectTool then ToolRejected else ToolApprovalCancelled;
    assert GoesOn(f, Told(f, asked), [asked], WaitingToolApproval);
    Moves(f, Told(f, asked), [asked], WaitingToolApproval, end, x.now, None);
    assert [asked] + [Moved(WaitingToolApproval, end, None)] == [asked, Moved(WaitingToolApproval, end, None)];
  }

  /** In every reachable world: a refusal of the tool ends the workflow, and nothing is enabled or called. */
  lemma RefusedToolEnds(requests: seq<Request>, cfg: Config, id: string, d: ToolDecision, x: Answers)
    requires WaitsAt(Run(INITIAL, requests, cfg).flows, id, WaitingToolApproval, AwaitTool) && !Approves(d)
    ensures
      var w := Run(INITIAL, requests, cfg);
      var f, after := w.flows[id], DecideToolIn(w, id, d, x, cfg);
      var asked := Asked(f, d, cfg.rules);
      var end := if d == RejectTool then ToolRejected else ToolApprovalCancelled;
      && id in after.flows && after.shared == w.shared
      && Rests(f, after.flows[id], [asked, Moved(WaitingToolApproval, end, None)], end, Done)
  {
    var w := Run(INITIAL, requests, cfg);
    WaitingIsSound(requests, cfg, id);
    ToolRefusalLeads(id, w.flows[id], w.shared, d, x, cfg.rules);
  }

  /** In every reachable world: `cancel` ends a workflow that waits for an answer, as its refusal does, and leaves all others alone. */
  lemma CancelEnds(requests: seq<Request>, cfg: Config, id: string, x: Answers)
    requires id in Run(INITIAL, requests, cfg).flows
    ensures
      var w := Run(INITIAL, requests, cfg);
      var f, after := w.flows[id], CancelIn(w, id, x, cfg);
      && id in after.flows && after.shared == w.shared
      && (WaitsAt(w.flows, id, WaitingToolApproval, AwaitTool) ==>
            after.flows[id].record.status == ToolApprovalCancelled && after.flows[id].pc == Done)
      && (WaitsAt(w.flows, id, WaitingRetryConfirmation, AwaitRetry) ==>
            after.flows[id].record.status == RetryCancelled && after.flows[id].pc == Done)
      && (!IsPending(f.record.status) ==> after == w)
  {
    var w := Run(INITIAL, requests, cfg);
    if WaitsAt(w.flows, id, WaitingToolApproval, AwaitTool) {
      RefusedToolEnds(requests, cfg, id, CancelTool, x);
    } else if WaitsAt(w.flows, id, WaitingRetryConfirmation, AwaitRetry) {
      RefusedRetryEnds(requests, cfg, id, CancelRetry, x);
    }
  }

  // ----- judgements in every run -----

  lemma JudgementIsExact(f: Workflow, rules: TextRules, k: nat)
    requires Sound(f, rules) && k < |f.story| && f.story[k].Judged?
    ensures
      var e := f.story[k];
      e.eligible <==> SafeToRunOnce(f.definition.permissions, f.action, e.policy, e.retryStatus, e.dryRun, rules)
  {
    assert Weighty(f.story[k]) && ProperFor(f.definition, f.story[0].action, rules)(f.story[k]);
  }

  /** In every run: a judgement lets the single run go ahead if and only if it is safe by the rules. */
  lemma JudgementsAreExact(requests: seq<Request>, cfg: Config, id: string, k: nat)
    requires
      var flows := Run(INITIAL, requests, cfg).flows;
      id in flows && k < |flows[id].story| && flows[id].story[k].Judged?
    ensures
      var f := Run(INITIAL, requests, cfg).flows[id];
      var e := f.story[k];
      e.eligible <==> SafeToRunOnce(f.definition.permissions, f.action, e.policy, e.retryStatus, e.dryRun, cfg.rules)
  {
    Reachable(requests, cfg);
    JudgementIsExact(Run(INITIAL, requests, cfg).flows[id], cfg.rules, k);
  }

  /** In every run: what was executed without a confirmed retry follows a judgement of a run that was safe. */
  lemma UnconfirmedCallsAreSafe(requests: seq<Request>, cfg: Config, id: string, k: nat) returns (j: nat)
    requires
      var flows := Run(INITIAL, requests, cfg).flows;
      id in flows && k < |flows[id].story| && flows[id].story[k].Called? && RetryDecided(ConfirmRetry) !in flows[id].story[..k]
    ensures
      var f := Run(INITIAL, requests, cfg).flows[id];
      j < k && f.story[j].Judged? &&
      var e := f.story[j];
      SafeToRunOnce(f.definition.permissions, f.action, e.policy, e.retryStatus, e.dryRun, cfg.rules)
  {
    ExecutionsAreConsentedAndFaithful(requests, cfg, id, k);
    j := JudgementBefore(Run(INITIAL, requests, cfg).flows[id].story, k);
    JudgementsAreExact(requests, cfg, id, j);
  }
}
