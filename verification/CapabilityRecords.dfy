/**
  When a capability workflow begins, what its record then holds, that no stored action or result shows a sensitive value,
  that proposals are recorded once, and that nothing is enabled under the lease of another workflow.
 */
module CapabilityRecords {
  import opened Common
  import opened IsoTime
  import opened Json
  import opened Redaction
  import opened RetryArguments
  import opened CapabilityTable
  import opened CapabilityProtocol
  import opened CapabilityGraph
  import opened SingleRuns
  import opened CapabilityRuns
  import opened CapabilityOutcomes
  import T = ToolStore
  import L = ToolLeases
  import P = ToolProvisioning

  // ----- when a workflow begins -----

  /** A draft is made, or an equal one that is still validated is used again. */
  predicate DraftIsThere(s: Shared, d: Definition) {
    P.ValidToolName(d.key.name) &&
    (d.key in s.drafts ==> s.drafts[d.key].definitionHash == Some(d.draftHash) && T.StateOf(s.tools, d.key) == Some(T.Validated))
  }

  ghost predicate MayBegin(w: World, session: string, p: Proposal, maxPending: int) {
    && p.proposed && p.definition.Some? && DraftIsThere(w.shared, p.definition.value)
    && (forall a :: a in w.flows ==>
          var r, d := w.flows[a].record, p.definition.value;
          && r.proposalId != p.proposalId
          && !((r.status == WaitingToolApproval || r.status == WaitingRetryConfirmation) && r.sessionId == session &&
               r.toolName == d.key.name && r.toolVersion == d.key.version && r.definitionHash == p.hash))
    && |set a | a in w.flows && w.flows[a].record.sessionId == session && w.flows[a].record.status == WaitingToolApproval| < maxPending
  }

  /** The arguments are kept in memory for actions on the environment or the system configuration. */
  predicate KeepsArguments(action: Action, rules: TextRules) {
    var c := Fold(if "capability" in action then rules.render(action["capability"]) else "", rules.fold);
    Contains(c, "environment") || Contains(c, "env.") || Contains(c, "system_config")
  }

  predicate Begins(f: Workflow, session: string, run: string, p: Proposal, d: Definition, x: Answers, rules: TextRules) {
    && f.definition == d && f.pc == AwaitTool && f.story == [Proposed(p.action)]
    && f.record.status == WaitingToolApproval && f.record.retryStatus == RetryPending && f.record.result == None
    && f.record.proposalId == p.proposalId && f.record.sessionId == session && f.record.runId == run
    && f.record.toolName == d.key.name && f.record.toolVersion == d.key.version && f.record.definitionHash == p.hash
    && f.record.createdAt == x.now && f.record.updatedAt == x.now && f.record.expiresAt == x.expiresAt && f.record.draftPath.Some?
    && f.ephemeral == if KeepsArguments(p.action, rules) then Some(ActionArguments(p.action)) else None
  }

  lemma KeepsArgumentsExactly(action: Action, rules: TextRules)
    ensures KeepsArguments(action, rules) <==> RequiresEphemeralArguments(action, rules)
  {
    var m := EPHEMERAL_MARKERS;
    assert m[0] == "environment" && m[1] == "env." && m[2] == "system_config" && |m| == 3;
  }

  lemma PendingOf(flows: map<string, Workflow>, session: string)
    ensures PendingApprovals(Records(flows), session) ==
            set a | a in flows && flows[a].record.sessionId == session && flows[a].record.status == WaitingToolApproval
  {
  }

  lemma MayStartExactly(w: World, id: string, session: string, p: Proposal, r: Record, cfg: Config)
    requires p.definition.Some? && id !in w.flows
    requires r.proposalId == p.proposalId && r.sessionId == session && r.status == WaitingToolApproval
    ensures MayBegin(w, session, p, cfg.maxPending) <==>
      && MayStart(w, session, p, cfg) && DraftIsThere(w.shared, p.definition.value)
      && CreateRow(Records(w.flows), id, r, cfg.maxPending).Ok?
  {
    PendingOf(w.flows, session);
    assert forall a :: a in w.flows ==> Records(w.flows)[a] == w.flows[a].record;
  }

  lemma NewWorkflowBegins(session: string, run: string, p: Proposal, d: Definition, x: Answers, cfg: Config)
    ensures Begins(NewWorkflow(session, run, p, d, x, cfg), session, run, p, d, x, cfg.rules)
  {
    KeepsArgumentsExactly(p.action, cfg.rules);
  }

  /** A workflow begins if and only if it may, with everything its proposal says; all others stay as they were. */
  lemma StartsExactly(w: World, id: string, session: string, run: string, p: Proposal, x: Answers, cfg: Config)
    requires id !in w.flows
    ensures
      var after := StartIn(w, id, session, run, p, x, cfg).flows;
      && (id in after <==> MayBegin(w, session, p, cfg.maxPending))
      && (id in after ==> p.definition.Some? && Begins(after[id], session, run, p, p.definition.value, x, cfg.rules))
      && (forall other :: other in w.flows ==> other in after && after[other] == w.flows[other])
  {
    if p.definition.Some? {
      var d := p.definition.value;
      var f := NewWorkflow(session, run, p, d, x, cfg);
      NewWorkflowBegins(session, run, p, d, x, cfg);
      MayStartExactly(w, id, session, p, f.record, cfg);
      P.GenerationSucceedsExactly(w.shared.tools, w.shared.drafts, d.key, d.draftHash, x.written);
    }
  }

  /** A draft is made before the record is inserted, even if that is then refused; without the early checks nothing is made. */
  lemma StartMakesTheDraft(w: World, id: string, session: string, run: string, p: Proposal, x: Answers, cfg: Config)
    ensures StartIn(w, id, session, run, p, x, cfg).shared ==
      if MayStart(w, session, p, cfg)
      then var d := p.definition.value;
           var (tools, drafts, _) := P.GenerateIn(w.shared.tools, w.shared.drafts, d.key, d.draftHash, x.written);
           w.shared.(tools := tools, drafts := drafts)
      else w.shared
  {
  }

  // ----- what is stored of the action -----

  /** The record holds the redacted form of the checkpointed action. */
  predicate StoresRedacted(f: Workflow, sensitive: KeyTest) {
    f.record.originalAction == RedactFields(f.action, sensitive)
  }

  ghost predicate AllStoreRedacted(flows: map<string, Workflow>, sensitive: KeyTest) {
    forall id :: id in flows ==> StoresRedacted(flows[id], sensitive)
  }

  lemma OnlyStartAdds(w: World, q: Request, cfg: Config, id: string)
    requires id in Step(w, q, cfg).flows && id !in w.flows
    ensures q.Start? && q.id == id && MayStart(w, q.session, q.proposal, cfg)
    ensures CreateRow(Records(w.flows), id, Step(w, q, cfg).flows[id].record, cfg.maxPending).Ok?
    ensures Step(w, q, cfg).flows[id] == NewWorkflow(q.session, q.run, q.proposal, q.proposal.definition.value, q.x, cfg)
  {
    if q.CleanupExpired? {
      ExpireAllKeepsKeys(w, q.ids, q.now);
    }
  }

  lemma {:induction false} ExpireAllKeepsKeys(w: World, ids: seq<string>, now: Instant)
    ensures ExpireAll(w, ids, now).flows.Keys == w.flows.Keys
    decreases |ids|
  {
    if ids != [] {
      ExpireAllKeepsKeys(ExpireIn(w, ids[0], now), ids[1..], now);
    }
  }

  lemma StepStoresRedacted(w: World, q: Request, cfg: Config)
    requires AllStoreRedacted(w.flows, cfg.rules.sensitive)
    ensures AllStoreRedacted(Step(w, q, cfg).flows, cfg.rules.sensitive)
  {
    var after := Step(w, q, cfg).flows;
    forall id | id in after ensures StoresRedacted(after[id], cfg.rules.sensitive) {
      if id in w.flows {
        StepExtends(w, q, cfg, id);
      } else {
        OnlyStartAdds(w, q, cfg, id);
      }
    }
  }

  lemma {:induction false} RunStoresRedacted(w: World, requests: seq<Request>, cfg: Config)
    requires AllStoreRedacted(w.flows, cfg.rules.sensitive)
    ensures AllStoreRedacted(Run(w, requests, cfg).flows, cfg.rules.sensitive)
    decreases |requests|
  {
    if requests != [] {
      StepStoresRedacted(w, requests[0], cfg);
      RunStoresRedacted(Step(w, requests[0], cfg), requests[1..], cfg);
    }
  }

  /** A capability that is run by a shell or acts on the environment or the system. */
  predicate Masked(proposed: Action, rules: TextRules) {
    "capability" in proposed && proposed["capability"].Str? &&
    var c := Fold(proposed["capability"].text, rules.fold);
    Contains(c, "shell") || Contains(c, "environment") || Contains(c, "env.") || Contains(c, "system")
  }

  predicate MasksCommand(stored: Action) {
    "arguments" in stored && stored["arguments"].Obj? ==>
      forall k :: k in stored["arguments"].fields && (k == "command" || k == "content" || k == "value") ==> stored["arguments"].fields[k] == MARKER
  }

  lemma MaskedMeansMasks(proposed: Action, rules: TextRules)
    requires Masked(proposed, rules)
    ensures MasksArguments(proposed, rules)
  {
    var redacted := RedactFields(proposed, rules.sensitive);
    assert redacted["capability"] == proposed["capability"];
    assert rules.render(Str(proposed["capability"].text)) == proposed["capability"].text;
    var m := MASKING_MARKERS;
    assert m[0] == "shell" && m[1] == "environment" && m[2] == "env." && m[3] == "system" && |m| == 4;
  }

  /** And no others, as long as the capability is a text. */
  lemma OnlyMaskedAreMasked(proposed: Action, rules: TextRules)
    requires "capability" in proposed && proposed["capability"].Str? && MasksArguments(proposed, rules)
    ensures Masked(proposed, rules)
  {
    var redacted := RedactFields(proposed, rules.sensitive);
    assert redacted["capability"] == proposed["capability"];
    assert rules.render(Str(proposed["capability"].text)) == proposed["capability"].text;
    var m := MASKING_MARKERS;
    assert m[0] == "shell" && m[1] == "environment" && m[2] == "env." && m[3] == "system" && |m| == 4;
  }

  lemma SanitizedMasksCommand(proposed: Action, rules: TextRules)
    requires MasksArguments(proposed, rules)
    ensures MasksCommand(SanitizeAction(proposed, rules))
  {
  }

  lemma RedactedMasksCommand(action: Action, sensitive: KeyTest)
    requires MasksCommand(action)
    ensures MasksCommand(RedactFields(action, sensitive))
  {
    var stored := RedactFields(action, sensitive);
    if "arguments" in stored && stored["arguments"].Obj? {
      assert stored["arguments"] == Redact(action["arguments"], sensitive);
    }
  }

  /**
    In every run: neither the record nor the checkpoint shows a value below a sensitive key, and for capabilities that are
    run by a shell or act on the environment or the system they show no command, content or value either.
   */
  lemma StoredActionsHide(requests: seq<Request>, cfg: Config, id: string)
    requires id in Run(INITIAL, requests, cfg).flows
    ensures
      var f := Run(INITIAL, requests, cfg).flows[id];
      && Hides(Obj(f.record.originalAction), cfg.rules.sensitive) && Hides(Obj(f.action), cfg.rules.sensitive)
      && f.story != [] && f.story[0].Proposed?
      && (Masked(f.story[0].action, cfg.rules) ==> MasksCommand(f.record.originalAction) && MasksCommand(f.action))
  {
    Reachable(requests, cfg);
    RunStoresRedacted(INITIAL, requests, cfg);
    var f := Run(INITIAL, requests, cfg).flows[id];
    assert Sound(f, cfg.rules);
    StoredHides(f, cfg.rules);
  }

  lemma StoredHides(f: Workflow, rules: TextRules)
    requires Begun(f) && KeepsProposal(f, rules) && StoresRedacted(f, rules.sensitive)
    ensures Hides(Obj(f.record.originalAction), rules.sensitive) && Hides(Obj(f.action), rules.sensitive)
    ensures Masked(f.story[0].action, rules) ==> MasksCommand(f.record.originalAction) && MasksCommand(f.action)
  {
    var proposed := f.story[0].action;
    RedactedHides(Obj(f.action), rules.sensitive);
    SanitizedHides(proposed, rules);
    if Masked(proposed, rules) {
      MaskedMeansMasks(proposed, rules);
      SanitizedMasksCommand(proposed, rules);
      RedactedMasksCommand(f.action, rules.sensitive);
    }
  }

  lemma MaskHides(fields: map<string, Json>, sensitive: KeyTest)
    requires Hides(Obj(fields), sensitive)
    ensures Hides(Obj(Mask(fields)), sensitive)
  {
    var masked := Mask(fields);
    forall k | k in masked ensures Hides(masked[k], sensitive) && (sensitive(k) ==> masked[k] == MARKER) {
      FieldHides(fields, k, sensitive);
      MarkerHides(sensitive);
    }
    FieldsHide(masked, sensitive);
  }

  /** Masking replaces values by the marker, so that what was hidden stays hidden. */
  lemma MaskedHides(v: map<string, Json>, fields: map<string, Json>, sensitive: KeyTest)
    requires Hides(Obj(v), sensitive) && "arguments" in v && v["arguments"] == Obj(fields)
    ensures Hides(Obj(v["arguments" := Obj(Mask(fields))]), sensitive)
  {
    var masked := v["arguments" := Obj(Mask(fields))];
    assert "arguments" in PROTOCOL_KEYS;
    FieldHides(v, "arguments", sensitive);
    MaskHides(fields, sensitive);
    forall k | k in masked ensures Hides(masked[k], sensitive) && (sensitive(k) ==> masked[k] == MARKER) {
      FieldHides(v, k, sensitive);
    }
    FieldsHide(masked, sensitive);
  }

  lemma SanitizedHides(proposed: Action, rules: TextRules)
    ensures Hides(Obj(SanitizeAction(proposed, rules)), rules.sensitive)
  {
    var redacted := RedactFields(proposed, rules.sensitive);
    RedactedHides(Obj(proposed), rules.sensitive);
    assert Hides(Obj(redacted), rules.sensitive);
    if MasksArguments(proposed, rules) && "arguments" in redacted && redacted["arguments"].Obj? {
      MaskedHides(redacted, redacted["arguments"].fields, rules.sensitive);
    }
  }

  // ----- what is stored of the result -----

  /** What the question about the retry shows. */
  predicate IsDryRun(v: Json) {
    v.Obj? && v.fields.Keys == {"dry_run"} && v.fields["dry_run"].Obj?
  }

  /** Before the execution there is the dry run at most; afterwards there is a result that `hides`. */
  predicate Shows(r: Record, hides: Json -> bool) {
    if r.retryStatus == RetryPending then r.result.Some? ==> IsDryRun(r.result.value)
    else r.result.Some? && hides(r.result.value)
  }

  /** What redaction gives hides. */
  ghost predicate RedactedIs(hides: Json -> bool, sensitive: KeyTest) {
    forall v: Json :: hides(Redact(v, sensitive))
  }

  lemma ExecutesShows(f: Workflow, g: Workflow, told: seq<Event>, at: Status, x: Answers, rules: TextRules, hides: Json -> bool)
    requires Begun(f) && Executes(f, g, told, at, x, rules) && RedactedIs(hides, rules.sensitive)
    ensures Shows(g.record, hides)
  {
  }

  lemma LeadsShows(f: Workflow, g: Workflow, enables: bool, asked: Event, safe: bool, x: Answers, rules: TextRules, hides: Json -> bool)
    requires Begun(f) && f.record.retryStatus == RetryPending && Shows(f.record, hides) && RedactedIs(hides, rules.sensitive)
    requires asked.ToolDecided? && LeadsAs(f, g, enables, asked, safe, x, rules)
    ensures Shows(g.record, hides)
  {
    if enables && x.reloads && x.dryRun.Some? && x.policy.Some? && asked.decision == ApproveAndRunOnce && safe {
      ExecutesShows(f, g, ReloadedStory(asked) + [Judged(safe, x.policy.value, x.dryRun.value, RetryPending)], RuntimeReloaded, x, rules, hides);
    }
  }

  lemma DecidedToolShows(requests: seq<Request>, cfg: Config, id: string, d: ToolDecision, x: Answers, hides: Json -> bool)
    requires WaitsAt(Run(INITIAL, requests, cfg).flows, id, WaitingToolApproval, AwaitTool) && RedactedIs(hides, cfg.rules.sensitive)
    requires Shows(Run(INITIAL, requests, cfg).flows[id].record, hides)
    ensures
      var after := DecideToolIn(Run(INITIAL, requests, cfg), id, d, x, cfg).flows;
      id in after && Shows(after[id].record, hides)
  {
    var w := Run(INITIAL, requests, cfg);
    WaitingIsSound(requests, cfg, id);
    if Approves(d) {
      ApprovalLeads(requests, cfg, id, d, x);
      var f := w.flows[id];
      LeadsShows(f, DecideToolIn(w, id, d, x, cfg).flows[id], CanEnable(w.shared, f.definition.key, x), Asked(f, d, cfg.rules),
                 SafeNow(f, x, cfg.rules), x, cfg.rules, hides);
    } else {
      RefusedToolEnds(requests, cfg, id, d, x);
    }
  }

  lemma DecidedRetryShows(requests: seq<Request>, cfg: Config, id: string, r: RetryDecision, x: Answers, hides: Json -> bool)
    requires WaitsAt(Run(INITIAL, requests, cfg).flows, id, WaitingRetryConfirmation, AwaitRetry) && RedactedIs(hides, cfg.rules.sensitive)
    requires Shows(Run(INITIAL, requests, cfg).flows[id].record, hides)
    ensures
      var after := DecideRetryIn(Run(INITIAL, requests, cfg), id, r, x, cfg).flows;
      id in after && Shows(after[id].record, hides)
  {
    var w := Run(INITIAL, requests, cfg);
    WaitingIsSound(requests, cfg, id);
    if r == ConfirmRetry {
      ConfirmedRetryIsExecuted(requests, cfg, id, x);
      ExecutesShows(w.flows[id], DecideRetryIn(w, id, r, x, cfg).flows[id], [RetryDecided(r)], WaitingRetryConfirmation, x, cfg.rules, hides);
    } else {
      RefusedRetryEnds(requests, cfg, id, r, x);
    }
  }

  lemma OnlyTheDecidedChanges(w: World, at: string, d: ToolDecision, r: RetryDecision, x: Answers, cfg: Config, id: string)
    requires id in w.flows
    ensures
      var tool, retry := DecideToolIn(w, at, d, x, cfg).flows, DecideRetryIn(w, at, r, x, cfg).flows;
      && id in tool && (tool[id] == w.flows[id] || (at == id && WaitsAt(w.flows, id, WaitingToolApproval, AwaitTool)))
      && id in retry && (retry[id] == w.flows[id] || (at == id && WaitsAt(w.flows, id, WaitingRetryConfirmation, AwaitRetry)))
  {
  }

  lemma DecisionShows(requests: seq<Request>, cfg: Config, id: string, at: string, d: ToolDecision, r: RetryDecision, x: Answers,
                      hides: Json -> bool)
    requires id in Run(INITIAL, requests, cfg).flows && Shows(Run(INITIAL, requests, cfg).flows[id].record, hides)
    requires RedactedIs(hides, cfg.rules.sensitive)
    ensures
      var w := Run(INITIAL, requests, cfg);
      var tool, retry := DecideToolIn(w, at, d, x, cfg).flows, DecideRetryIn(w, at, r, x, cfg).flows;
      && id in tool && Shows(tool[id].record, hides)
      && id in retry && Shows(retry[id].record, hides)
  {
    var w := Run(INITIAL, requests, cfg);
    OnlyTheDecidedChanges(w, at, d, r, x, cfg, id);
    if at == id && WaitsAt(w.flows, id, WaitingToolApproval, AwaitTool) {
      DecidedToolShows(requests, cfg, id, d, x, hides);
    }
    if at == id && WaitsAt(w.flows, id, WaitingRetryConfirmation, AwaitRetry) {
      DecidedRetryShows(requests, cfg, id, r, x, hides);
    }
  }

  lemma OtherStepShows(w: World, q: Request, cfg: Config, id: string, hides: Json -> bool)
    requires id in w.flows && Shows(w.flows[id].record, hides) && !q.DecideTool? && !q.DecideRetry? && !q.Cancel?
    ensures var after := Step(w, q, cfg).flows; id in after && Shows(after[id].record, hides)
  {
    match q
    case Start(at, session, run, p, x) => StartExtends(w, at, session, run, p, x, cfg, id);
    case CleanupExpired(now, ids) => ExpireAllExpires(w, ids, now, id);
    case Restart =>
    case Outside(_, _, _) =>
  }

  lemma StepShows(requests: seq<Request>, q: Request, cfg: Config, id: string, hides: Json -> bool)
    requires id in Run(INITIAL, requests, cfg).flows && Shows(Run(INITIAL, requests, cfg).flows[id].record, hides)
    requires RedactedIs(hides, cfg.rules.sensitive)
    ensures
      var after := Step(Run(INITIAL, requests, cfg), q, cfg).flows;
      id in after && Shows(after[id].record, hides)
  {
    match q
    case DecideTool(at, d, x) => DecisionShows(requests, cfg, id, at, d, CancelRetry, x, hides);
    case DecideRetry(at, r, x) => DecisionShows(requests, cfg, id, at, CancelTool, r, x, hides);
    case Cancel(at, x) => DecisionShows(requests, cfg, id, at, CancelTool, CancelRetry, x, hides);
    case _ => OtherStepShows(Run(INITIAL, requests, cfg), q, cfg, id, hides);
  }

  lemma LastStep(requests: seq<Request>, cfg: Config)
    requires requests != []
    ensures
      var n := |requests| - 1;
      Run(INITIAL, requests, cfg) == Step(Run(INITIAL, requests[..n], cfg), requests[n], cfg)
  {
    var n := |requests| - 1;
    var w := Run(INITIAL, requests[..n], cfg);
    assert requests == requests[..n] + [requests[n]] && [requests[n]][1..] == [];
    RunConcat(INITIAL, requests[..n], [requests[n]], cfg);
    assert Run(Step(w, requests[n], cfg), [], cfg) == Step(w, requests[n], cfg);
  }

  lemma {:induction false} ResultsShow(requests: seq<Request>, cfg: Config, id: string, hides: Json -> bool)
    requires id in Run(INITIAL, requests, cfg).flows && RedactedIs(hides, cfg.rules.sensitive)
    ensures Shows(Run(INITIAL, requests, cfg).flows[id].record, hides)
    decreases |requests|
  {
    if requests != [] {
      var init, q := requests[..|requests| - 1], requests[|requests| - 1];
      LastStep(requests, cfg);
      if id in Run(INITIAL, init, cfg).flows {
        ResultsShow(init, cfg, id, hides);
        StepShows(init, q, cfg, id, hides);
      } else {
        OnlyStartAdds(Run(INITIAL, init, cfg), q, cfg, id);
      }
    }
  }

  ghost function Hider(sensitive: KeyTest): Json -> bool {
    v => Hides(v, sensitive)
  }

  lemma HiderHides(sensitive: KeyTest)
    ensures RedactedIs(Hider(sensitive), sensitive)
  {
    forall v: Json ensures Hider(sensitive)(Redact(v, sensitive)) {
      RedactedHides(v, sensitive);
    }
  }

  lemma DryRunHides(v: Json, sensitive: KeyTest)
    requires IsDryRun(v) && !sensitive("dry_run") && Hides(v.fields["dry_run"], sensitive)
    ensures Hides(v, sensitive)
  {
    FieldsHide(v.fields, sensitive);
  }

  lemma DryRunIsHidden(v: Json, sensitive: KeyTest)
    requires IsDryRun(v) && Hides(v, sensitive)
    ensures !sensitive("dry_run") && Hides(v.fields["dry_run"], sensitive)
  {
    FieldHides(v.fields, "dry_run", sensitive);
  }

  lemma DryRunHidesExactly(v: Json, sensitive: KeyTest)
    requires IsDryRun(v)
    ensures Hides(v, sensitive) <==> !sensitive("dry_run") && Hides(v.fields["dry_run"], sensitive)
  {
    if Hides(v, sensitive) {
      DryRunIsHidden(v, sensitive);
    } else if !sensitive("dry_run") && Hides(v.fields["dry_run"], sensitive) {
      DryRunHides(v, sensitive);
    }
  }

  /**
    In every run: a stored result shows no value below a sensitive key if and only if it is that of an execution, or the
    dry run that was built shows none: the dry run is stored as it is.
   */
  lemma StoredResultsHideExactly(requests: seq<Request>, cfg: Config, id: string)
    requires
      var flows := Run(INITIAL, requests, cfg).flows;
      id in flows && flows[id].record.result.Some?
    ensures
      var r, sensitive := Run(INITIAL, requests, cfg).flows[id].record, cfg.rules.sensitive;
      && (r.retryStatus == RetryPending ==> IsDryRun(r.result.value))
      && (Hides(r.result.value, sensitive) <==>
            r.retryStatus != RetryPending || (!sensitive("dry_run") && Hides(r.result.value.fields["dry_run"], sensitive)))
  {
    HiderHides(cfg.rules.sensitive);
    ResultsShow(requests, cfg, id, Hider(cfg.rules.sensitive));
    var r := Run(INITIAL, requests, cfg).flows[id].record;
    if r.retryStatus == RetryPending {
      DryRunHidesExactly(r.result.value, cfg.rules.sensitive);
    }
  }

  // ----- one workflow for a proposal -----

  ghost predicate DistinctProposals(flows: map<string, Workflow>) {
    forall a, b :: a in flows && b in flows && a != b ==> flows[a].record.proposalId != flows[b].record.proposalId
  }

  lemma NewProposal(w: World, id: string, r: Record, maxPending: int, other: string)
    requires CreateRow(Records(w.flows), id, r, maxPending).Ok? && other in w.flows
    ensures w.flows[other].record.proposalId != r.proposalId
  {
    assert Records(w.flows)[other] == w.flows[other].record;
  }

  lemma StepKeepsProposals(w: World, q: Request, cfg: Config)
    requires DistinctProposals(w.flows)
    ensures DistinctProposals(Step(w, q, cfg).flows)
  {
    var after := Step(w, q, cfg).flows;
    forall a, b | a in after && b in after && a != b ensures after[a].record.proposalId != after[b].record.proposalId {
      ProposalsDiffer(w, q, cfg, a, b);
    }
  }

  lemma ProposalsDiffer(w: World, q: Request, cfg: Config, a: string, b: string)
    requires DistinctProposals(w.flows) && a != b && a in Step(w, q, cfg).flows && b in Step(w, q, cfg).flows
    ensures Step(w, q, cfg).flows[a].record.proposalId != Step(w, q, cfg).flows[b].record.proposalId
  {
    var after := Step(w, q, cfg).flows;
    if a in w.flows {
      StepExtends(w, q, cfg, a);
    } else {
      OnlyStartAdds(w, q, cfg, a);
    }
    if b in w.flows {
      StepExtends(w, q, cfg, b);
    } else {
      OnlyStartAdds(w, q, cfg, b);
    }
    if a in w.flows && b !in w.flows {
      NewProposal(w, b, after[b].record, cfg.maxPending, a);
    } else if a !in w.flows {
      NewProposal(w, a, after[a].record, cfg.maxPending, b);
    }
  }

  lemma {:induction false} RunKeepsProposals(w: World, requests: seq<Request>, cfg: Config)
    requires DistinctProposals(w.flows)
    ensures DistinctProposals(Run(w, requests, cfg).flows)
    decreases |requests|
  {
    if requests != [] {
      StepKeepsProposals(w, requests[0], cfg);
      RunKeepsProposals(Step(w, requests[0], cfg), requests[1..], cfg);
    }
  }

  /** In every run no two workflows were started from one proposal. */
  lemma ProposalsAreStartedOnce(requests: seq<Request>, cfg: Config)
    ensures DistinctProposals(Run(INITIAL, requests, cfg).flows)
  {
    RunKeepsProposals(INITIAL, requests, cfg);
  }

  // ----- leases -----

  /** Nothing is enabled while another workflow holds an unexpired lease of the tool; the graph is left where it is. */
  lemma LeaseIsRespected(w: World, id: string, d: ToolDecision, x: Answers, cfg: Config)
    requires WaitsAt(w.flows, id, WaitingToolApproval, AwaitTool) && Approves(d)
    requires
      var tool := T.KeyText(w.flows[id].definition.key);
      tool in w.shared.leases && w.shared.leases[tool].owner != id && x.now.Micros() < w.shared.leases[tool].expiresAt.Micros()
    ensures
      var f, after := w.flows[id], DecideToolIn(w, id, d, x, cfg);
      && id in after.flows && after.shared == w.shared
      && after.flows[id].record == f.record && after.flows[id].pc == Stuck && |after.flows[id].story| == |f.story| + 1
  {
  }

  /** Otherwise the lease is free again after the call, whether or not the tool could be enabled, and all others are as before. */
  lemma LeaseIsFreed(w: World, id: string, d: ToolDecision, x: Answers, cfg: Config)
    requires WaitsAt(w.flows, id, WaitingToolApproval, AwaitTool) && Approves(d)
    requires
      var tool := T.KeyText(w.flows[id].definition.key);
      tool in w.shared.leases ==> w.shared.leases[tool].owner == id || w.shared.leases[tool].expiresAt.Micros() <= x.now.Micros()
    ensures DecideToolIn(w, id, d, x, cfg).shared.leases == w.shared.leases - {T.KeyText(w.flows[id].definition.key)}
  {
    var tool := T.KeyText(w.flows[id].definition.key);
    var held := L.AcquireIn(w.shared.leases, tool, id, x.now, x.leaseUntil).0;
    assert held == w.shared.leases[tool := L.Lease(id, x.leaseUntil)];
    assert held - {tool} == w.shared.leases - {tool};
  }

  // ----- the drafts of expired workflows -----

  predicate DraftGone(s: Shared, key: T.ToolKey) {
    key !in s.drafts && T.StateOf(s.tools, key) == Some(T.Rejected)
  }

  lemma {:induction false} GoneStaysGone(w: World, ids: seq<string>, now: Instant, key: T.ToolKey)
    requires DraftGone(w.shared, key)
    ensures DraftGone(ExpireAll(w, ids, now).shared, key)
    decreases |ids|
  {
    if ids != [] {
      GoneStaysGone(ExpireIn(w, ids[0], now), ids[1..], now, key);
    }
  }

  /** A cleanup rejects the tool of every undecided workflow whose draft is validated or rejected, and removes the draft. */
  lemma {:induction false} CleanupRemovesDrafts(w: World, ids: seq<string>, now: Instant, id: string)
    requires id in ids && id in w.flows && w.flows[id].record.status == WaitingToolApproval && w.flows[id].record.draftPath.Some?
    requires T.StateOf(w.shared.tools, w.flows[id].definition.key) in {Some(T.Validated), Some(T.Rejected)}
    ensures DraftGone(ExpireAll(w, ids, now).shared, w.flows[id].definition.key)
    decreases |ids|
  {
    var n := ExpireIn(w, ids[0], now);
    if ids[0] == id {
      GoneStaysGone(n, ids[1..], now, w.flows[id].definition.key);
    } else {
      CleanupRemovesDrafts(n, ids[1..], now, id);
    }
  }
}
