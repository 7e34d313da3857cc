/**
  `AdaptiveCapabilityGraph` itself: its methods update the repository, the tool store, the checkpoints and the
  ephemeral arguments step by step, and do to the world exactly what the graph model says.
 */
module AdaptiveGraph {
  import opened Common
  import opened IsoTime
  import opened Json
  import opened Redaction
  import opened RetryArguments
  import opened CapabilityTable
  import opened CapabilityProtocol
  import opened CapabilityGraph
  import T = ToolStore
  import L = ToolLeases
  import P = ToolProvisioning

  /** The checkpointed state of one graph. */
  datatype GraphState = GraphState(definition: Definition, action: Action, pc: Pc)

  function Remembered(ephemeral: map<string, map<string, Json>>, id: string): Option<map<string, Json>> {
    if id in ephemeral then Some(ephemeral[id]) else None
  }

  function FlowOf(record: Record, state: GraphState, ephemeral: Option<map<string, Json>>, story: seq<Event>): Workflow {
    Workflow(record, state.definition, state.action, state.pc, ephemeral, story)
  }

  ghost function FlowsOf(rows: Rows, states: map<string, GraphState>, ephemeral: map<string, map<string, Json>>,
                         stories: map<string, seq<Event>>): map<string, Workflow>
    requires rows.Keys <= states.Keys && rows.Keys <= stories.Keys
  {
    map id | id in rows :: FlowOf(rows[id], states[id], Remembered(ephemeral, id), stories[id])
  }

  lemma RecordsOfFlows(rows: Rows, states: map<string, GraphState>, ephemeral: map<string, map<string, Json>>, stories: map<string, seq<Event>>)
    requires rows.Keys <= states.Keys && rows.Keys <= stories.Keys
    ensures Records(FlowsOf(rows, states, ephemeral, stories)) == rows
  {
  }

  lemma InsertedFlows(rows: Rows, id: string, record: Record, states: map<string, GraphState>, state: GraphState,
                      ephemeral: map<string, map<string, Json>>, stories: map<string, seq<Event>>, story: seq<Event>)
    requires rows.Keys <= states.Keys && rows.Keys <= stories.Keys
    ensures FlowsOf(rows[id := record], states[id := state], ephemeral, stories[id := story]) ==
            FlowsOf(rows, states, ephemeral, stories)[id := FlowOf(record, state, Remembered(ephemeral, id), story)]
  {
  }

  class AdaptiveCapabilityGraph {
    const cfg: Config
    const repository: CapabilityWorkflowRepository
    const service: P.CapabilityProvisioningService
    var ephemeral: map<string, map<string, Json>>
    var states: map<string, GraphState>
    ghost var stories: map<string, seq<Event>>

    constructor (cfg: Config, repository: CapabilityWorkflowRepository, service: P.CapabilityProvisioningService)
      requires service.Valid() && repository.maxPending == cfg.maxPending && repository.rows == map[]
      ensures Valid() && this.repository == repository && this.service == service && this.cfg == cfg
      ensures Now().flows == map[] && ephemeral == map[]
    {
      this.cfg, this.repository, this.service := cfg, repository, service;
      ephemeral, states, stories := map[], map[], map[];
    }

    ghost predicate Valid()
      reads this, repository
    {
      && service.Valid() && repository.maxPending == cfg.maxPending
      && repository.rows.Keys <= states.Keys && repository.rows.Keys <= stories.Keys
    }

    /** The world as the graph model sees it. */
    ghost function Now(): World
      requires Valid()
      reads this, repository, service.store, service.generator, service.installer
    {
      World(FlowsOf(repository.rows, states, ephemeral, stories),
            Shared(repository.leases, service.store.records, service.generator.drafts, service.installer.installed))
    }

    ghost function FlowAt(id: string): Workflow
      requires Valid() && id in repository.rows
      reads this, repository
    {
      FlowOf(repository.rows[id], states[id], Remembered(ephemeral, id), stories[id])
    }

    /** Every workflow but this one is as it was in `w`. */
    ghost predicate Others(w: World, id: string)
      requires Valid()
      reads this, repository
    {
      && repository.rows.Keys == w.flows.Keys
      && forall other :: other in repository.rows && other != id ==> FlowAt(other) == w.flows[other]
    }

    /** The world is `w`, but for the workflow `id`, which is `f`, and what is shared, which is `s`. */
    ghost predicate Is(w: World, id: string, f: Workflow, s: Shared)
      reads this, repository, service.store, service.generator, service.installer
    {
      && Valid() && id in repository.rows && Others(w, id)
      && repository.rows[id] == f.record && states[id] == GraphState(f.definition, f.action, f.pc)
      && Remembered(ephemeral, id) == f.ephemeral && stories[id] == f.story
      && repository.leases == s.leases && service.store.records == s.tools
      && service.generator.drafts == s.drafts && service.installer.installed == s.installed
    }

    lemma IsNow(id: string)
      requires Valid() && id in repository.rows
      ensures id in Now().flows && Is(Now(), id, Now().flows[id], Now().shared)
    {
    }

    lemma NowIs(w: World, id: string, f: Workflow, s: Shared)
      requires Is(w, id, f, s)
      ensures Now() == Put(w, id, (f, s))
    {
      assert forall other :: other in repository.rows ==> Now().flows[other] == FlowAt(other);
    }

    // ----- small steps -----

    method MoveRecord(id: string, from: Status, to: Status, u: Updates, now: Instant, ghost w: World, ghost f: Workflow, ghost s: Shared)
      returns (moved: bool)
      requires Is(w, id, f, s)
      modifies repository`rows
      ensures moved <==> f.record.status == from
      ensures Is(w, id, if moved then f.(record := Updated(f.record, to, u, now)) else f, s)
    {
      var record := repository.Transition(id, from, to, u, now);
      moved := record.Some?;
    }

    ghost method Tell(id: string, e: Event, w: World, f: Workflow, s: Shared)
      requires Is(w, id, f, s)
      modifies this`stories
      ensures Is(w, id, Told(f, e), s)
    {
      stories := stories[id := stories[id] + [e]];
    }

    /** The repository's `transition`, told when it happens. */
    method Transition(id: string, from: Status, to: Status, u: Updates, now: Instant, ghost tool: Option<T.ToolState>,
                      ghost w: World, ghost f: Workflow, ghost s: Shared)
      requires Is(w, id, f, s)
      modifies repository`rows, this`stories
      ensures Is(w, id, Change(f, from, to, u, now, tool), s)
    {
      var moved := MoveRecord(id, from, to, u, now, w, f, s);
      if moved {
        Tell(id, Moved(from, to, tool), w, f.(record := Updated(f.record, to, u, now)), s);
      }
    }

    method Resume(id: string, pc: Pc, ghost w: World, ghost f: Workflow, ghost s: Shared)
      requires Is(w, id, f, s)
      modifies this`states
      ensures Is(w, id, f.(pc := pc), s)
    {
      states := states[id := states[id].(pc := pc)];
    }

    method Claim(id: string, now: Instant, ghost w: World, ghost f: Workflow, ghost s: Shared) returns (claimed: bool)
      requires Is(w, id, f, s)
      modifies repository`rows
      ensures claimed <==> f.record.retryStatus == RetryPending
      ensures Is(w, id, if claimed then f.(record := f.record.(retryStatus := RetryExecuting, updatedAt := now)) else f, s)
    {
      claimed := repository.ClaimRetry(id, now);
    }

    method Complete(id: string, ok: bool, shown: Json, now: Instant, ghost w: World, ghost f: Workflow, ghost s: Shared)
      requires Is(w, id, f, s) && f.record.retryStatus == RetryExecuting
      modifies repository`rows
      ensures Is(w, id, f.(record := f.record.(retryStatus := Outcome(ok), result := Some(shown), updatedAt := now)), s)
    {
      var status := Outcome(ok);
      var _ := repository.CompleteRetry(id, status, shown, now);
    }

    method Forget(id: string, ghost w: World, ghost f: Workflow, ghost s: Shared)
      requires Is(w, id, f, s)
      modifies this`ephemeral
      ensures Is(w, id, f.(ephemeral := None), s)
    {
      ephemeral := ephemeral - {id};
    }

    // ----- the nodes -----

    /** `_execute_original_action` */
    method ExecuteOriginalAction(id: string, x: Answers, ghost w: World, ghost f: Workflow, ghost s: Shared)
      requires Is(w, id, f, s)
      modifies this, repository`rows
      ensures Is(w, id, ExecuteNode(f, x, cfg.rules), s)
    {
      var current := repository.rows[id].status;
      var claimed := Claim(id, x.now, w, f, s);
      if !claimed {
        Resume(id, Done, w, f, s);
        return;
      }
      ghost var g := f.(record := f.record.(retryStatus := RetryExecuting, updatedAt := x.now));
      var retry := PrepareRetry(states[id].definition.key.name, states[id].action, Remembered(ephemeral, id));
      assert retry == Prepared(f);
      var result := Unavailable();
      if retry.Some? {
        result := x.result;
        Tell(id, Called(retry.value), w, g, s);
        g := Told(g, Called(retry.value));
      }
      FinishAction(id, current, IsOk(result), Redact(Obj(result), cfg.rules.sensitive), x.now, w, g, s);
    }

    method FinishAction(id: string, at: Status, ok: bool, shown: Json, now: Instant, ghost w: World, ghost f: Workflow, ghost s: Shared)
      requires Is(w, id, f, s) && f.record.retryStatus == RetryExecuting && f.record.status == at
      modifies this, repository`rows
      ensures Is(w, id, Finish(f, None, ok, shown, now).(ephemeral := None, pc := Done), s)
    {
      Complete(id, ok, shown, now, w, f, s);
      ghost var g := f.(record := f.record.(retryStatus := Outcome(ok), result := Some(shown), updatedAt := now));
      var to := if ok then ActionExecuted else ActionFailed;
      Transition(id, at, to, WithResult(shown), now, None, w, g, s);
      g := Change(g, at, to, WithResult(shown), now, None);
      Forget(id, w, g, s);
      Resume(id, Done, w, g.(ephemeral := None), s);
    }

    /** `_wait_retry` up to its interrupt. */
    method WaitRetry(id: string, x: Answers, dryRun: map<string, Json>, ghost w: World, ghost f: Workflow, ghost s: Shared)
      requires Is(w, id, f, s)
      modifies this, repository`rows
      ensures Is(w, id, AskRetryNode(f, x, dryRun), s)
    {
      var noted := WithResult(Obj(map["dry_run" := Obj(dryRun)]));
      Transition(id, RuntimeReloaded, WaitingRetryConfirmation, noted, x.now, None, w, f, s);
      Resume(id, AwaitRetry, w, Change(f, RuntimeReloaded, WaitingRetryConfirmation, noted, x.now, None), s);
    }

    /** `_route_after_reload` for a chosen single run, and where it leads. */
    method Judge(id: string, x: Answers, policy: string, dryRun: map<string, Json>, ghost w: World, ghost f: Workflow, ghost s: Shared)
      requires Is(w, id, f, s)
      modifies this, repository`rows
      ensures Is(w, id, JudgeNode(f, x, policy, dryRun, cfg.rules), s)
    {
      var retry := repository.rows[id].retryStatus;
      var verdict := Evaluate(states[id].definition.permissions, states[id].action, policy, retry, dryRun, cfg.rules);
      ghost var judged := Told(f, Judged(verdict.None?, policy, dryRun, retry));
      Tell(id, Judged(verdict.None?, policy, dryRun, retry), w, f, s);
      if verdict.None? {
        ExecuteOriginalAction(id, x, w, judged, s);
      } else {
        WaitRetry(id, x, dryRun, w, judged, s);
      }
    }

    /** `_reload_runtime` */
    method ReloadRuntime(id: string, d: ToolDecision, x: Answers, ghost w: World, ghost f: Workflow, ghost s: Shared)
      requires Is(w, id, f, s)
      modifies this, repository`rows
      ensures Is(w, id, ReloadNode(f, d, x, cfg.rules), s)
    {
      if !x.reloads {
        Resume(id, Stuck, w, f, s);
        return;
      }
      Transition(id, ToolEnabled, RuntimeReloaded, NO_UPDATES, x.now, None, w, f, s);
      ghost var g := Change(f, ToolEnabled, RuntimeReloaded, NO_UPDATES, x.now, None);
      if x.dryRun.None? {
        Resume(id, Stuck, w, g, s);
      } else if d != ApproveAndRunOnce {
        WaitRetry(id, x, x.dryRun.value, w, g, s);
      } else if x.policy.None? {
        Resume(id, Stuck, w, g, s);
      } else {
        Judge(id, x, x.policy.value, x.dryRun.value, w, g, s);
      }
    }

    /** What follows `approve_install_enable`. */
    method FinishEnablement(id: string, enabled: bool, tool: Option<T.ToolState>, d: ToolDecision, x: Answers,
                            ghost w: World, ghost f: Workflow, ghost s: Shared)
      requires Is(w, id, f, s)
      modifies this, repository`rows
      ensures Is(w, id, AfterEnablement(f, enabled, tool, d, x, cfg.rules), s)
    {
      if !enabled {
        Resume(id, Stuck, w, f, s);
        return;
      }
      Transition(id, WaitingToolApproval, ToolEnabled, NO_UPDATES, x.now, tool, w, f, s);
      ReloadRuntime(id, d, x, w, Change(f, WaitingToolApproval, ToolEnabled, NO_UPDATES, x.now, tool), s);
    }

    /** `_enable_tool` */
    method EnableTool(id: string, d: ToolDecision, x: Answers, ghost w: World, ghost f: Workflow, ghost s: Shared)
      requires Is(w, id, f, s)
      modifies this, repository, service.store, service.installer
      ensures var (g, t) := EnableNode(id, f, s, d, x, cfg.rules); Is(w, id, g, t)
    {
      var key := states[id].definition.key;
      var granted := repository.AcquireToolLease(T.KeyText(key), id, x.now, x.leaseUntil);
      if !granted {
        Resume(id, Stuck, w, f, s);
        return;
      }
      ghost var t := s.(leases := repository.leases);
      var enabled := Enable(id, key, x, w, f, t);
      ghost var (tools, installed, r) := P.ApproveIn(s.tools, s.installed, key, x.manifest, x.setup);
      t := t.(leases := L.ReleaseIn(t.leases, T.KeyText(key), id).0, tools := tools, installed := installed);
      FinishEnablement(id, enabled, T.StateOf(service.store.records, key), d, x, w, f, t);
    }

    /** `approve_install_enable`, and the release of the lease in every case; false when it raised. */
    method Enable(id: string, key: T.ToolKey, x: Answers, ghost w: World, ghost f: Workflow, ghost s: Shared) returns (enabled: bool)
      requires Is(w, id, f, s)
      modifies repository`leases, service.store, service.installer
      ensures
        var (tools, installed, r) := P.ApproveIn(s.tools, s.installed, key, x.manifest, x.setup);
        && enabled == r.Ok?
        && Is(w, id, f, s.(leases := L.ReleaseIn(s.leases, T.KeyText(key), id).0, tools := tools, installed := installed))
    {
      var outcome := service.ApproveInstallEnable(key, x.manifest, x.setup);
      var _ := repository.ReleaseToolLease(T.KeyText(key), id);
      enabled := outcome.Ok?;
    }

    // ----- the public calls -----

    /** The checks of `start_from_proposal`; false stands for its early replies. */
    method ChecksStart(session: string, p: Proposal) returns (may: bool)
      requires Valid()
      ensures may <==> CapabilityGraph.MayStart(Now(), session, p, cfg)
    {
      RecordsOfFlows(repository.rows, states, ephemeral, stories);
      if !p.proposed || p.definition.None? {
        return false;
      }
      var d := p.definition.value;
      var equivalent := repository.FindEquivalentPending(session, d.key.name, d.key.version, p.hash);
      assert equivalent.Some? <==> HasEquivalent(Now().flows, session, d, p.hash) by {
        assert forall id :: id in repository.rows ==> Now().flows[id].record == repository.rows[id];
      }
      if equivalent.Some? {
        return false;
      }
      may := repository.EnsurePendingCapacity(session);
    }

    method Remember(id: string, action: Action)
      requires Valid() && id !in repository.rows && id !in ephemeral
      modifies this`ephemeral
      ensures Valid() && Now() == old(Now())
      ensures Remembered(ephemeral, id) == if RequiresEphemeralArguments(action, cfg.rules) then Some(ActionArguments(action)) else None
    {
      if RequiresEphemeralArguments(action, cfg.rules) {
        ephemeral := ephemeral[id := ActionArguments(action)];
      }
    }

    /** `_create_draft`, and the checkpoint at the first interrupt. */
    method CreateDraft(id: string, record: Record, state: GraphState, x: Answers, ghost f: Workflow) returns (created: bool)
      requires Valid() && id !in repository.rows
      requires f == FlowOf(record, state, Remembered(ephemeral, id), f.story)
      modifies this, repository`rows, service.store, service.generator
      ensures Valid()
      ensures Now() == CreateDraftIn(old(Now()), id, f, x, cfg.maxPending)
      ensures created <==> id in Now().flows
    {
      RecordsOfFlows(repository.rows, states, ephemeral, stories);
      var draft := service.generator.Generate(state.definition.key, state.definition.draftHash, x.written);
      if draft.Err? {
        return false;
      }
      var inserted := repository.Create(id, record);
      if inserted.Err? {
        return false;
      }
      states := states[id := state];
      stories := stories[id := f.story];
      InsertedFlows(old(repository.rows), id, record, old(states), state, ephemeral, old(stories), f.story);
      created := true;
    }

    /** `start_from_proposal`; `id` is the new identifier. False stands for a reply without a new workflow, or a raised error. */
    method StartFromProposal(id: string, session: string, run: string, p: Proposal, x: Answers) returns (started: bool)
      requires Valid() && id !in repository.rows && id !in ephemeral
      modifies this, repository`rows, service.store, service.generator
      ensures Valid()
      ensures Now() == StartIn(old(Now()), id, session, run, p, x, cfg)
      ensures started <==> id in Now().flows
    {
      var may := ChecksStart(session, p);
      if !may {
        return false;
      }
      var d := p.definition.value;
      Remember(id, p.action);
      ghost var f := NewWorkflow(session, run, p, d, x, cfg);
      var record := NewRecord(session, run, p, d, x, cfg);
      started := CreateDraft(id, record, GraphState(d, SanitizeAction(p.action, cfg.rules), AwaitTool), x, f);
    }

    /** `_tool_rejected`, `_tool_cancelled`, `_retry_rejected` and `_retry_cancelled`. */
    method End(id: string, from: Status, to: Status, now: Instant, ghost w: World, ghost f: Workflow, ghost s: Shared)
      requires Is(w, id, f, s)
      modifies this, repository`rows
      ensures Is(w, id, Change(f, from, to, NO_UPDATES, now, None).(pc := Done), s)
    {
      Transition(id, from, to, NO_UPDATES, now, None, w, f, s);
      Resume(id, Done, w, Change(f, from, to, NO_UPDATES, now, None), s);
    }

    /** From the interrupt of `_wait_tool_approval` on. */
    method ResumeToolDecision(id: string, d: ToolDecision, x: Answers, ghost w: World, ghost f: Workflow, ghost s: Shared)
      requires Is(w, id, f, s)
      modifies this, repository, service.store, service.installer
      ensures var (g, t) := ToolDecisionNodes(id, f, s, d, x, cfg.rules); Is(w, id, g, t)
    {
      var offered := CanOfferRunOnce(states[id].definition.permissions, states[id].action, cfg.rules);
      Tell(id, ToolDecided(d, offered), w, f, s);
      ghost var g := Told(f, ToolDecided(d, offered));
      if d == RejectTool {
        End(id, WaitingToolApproval, ToolRejected, x.now, w, g, s);
      } else if d == CancelTool {
        End(id, WaitingToolApproval, ToolApprovalCancelled, x.now, w, g, s);
      } else {
        EnableTool(id, d, x, w, g, s);
      }
    }

    /** From the interrupt of `_wait_retry` on; the node runs again from its top. */
    method ResumeRetryDecision(id: string, r: RetryDecision, x: Answers, ghost w: World, ghost f: Workflow, ghost s: Shared)
      requires Is(w, id, f, s)
      modifies this, repository`rows
      ensures Is(w, id, RetryDecisionNodes(f, r, x, cfg.rules), s)
    {
      Transition(id, RuntimeReloaded, WaitingRetryConfirmation, NO_UPDATES, x.now, None, w, f, s);
      ghost var again := Change(f, RuntimeReloaded, WaitingRetryConfirmation, NO_UPDATES, x.now, None);
      Tell(id, RetryDecided(r), w, again, s);
      ghost var g := Told(again, RetryDecided(r));
      if r == ConfirmRetry {
        ExecuteOriginalAction(id, x, w, g, s);
      } else {
        End(id, WaitingRetryConfirmation, if r == RefuseRetry then RetryRejected else RetryCancelled, x.now, w, g, s);
      }
    }

    /** `decide_tool`; `None` stands for the error on an unknown workflow. A graph whose node raised is not resumed. */
    method DecideTool(id: string, d: ToolDecision, x: Answers) returns (status: Option<Status>)
      requires Valid()
      modifies this, repository, service.store, service.installer
      ensures Valid()
      ensures Now() == DecideToolIn(old(Now()), id, d, x, cfg)
      ensures status == if id in Now().flows then Some(Now().flows[id].record.status) else None
    {
      if id !in repository.rows {
        return None;
      }
      if repository.rows[id].status == WaitingToolApproval && states[id].pc == AwaitTool {
        ghost var w := Now();
        IsNow(id);
        ResumeToolDecision(id, d, x, w, w.flows[id], w.shared);
        ghost var after := ToolDecisionNodes(id, w.flows[id], w.shared, d, x, cfg.rules);
        NowIs(w, id, after.0, after.1);
      }
      status := Some(repository.rows[id].status);
    }

    /** `decide_retry` */
    method DecideRetry(id: string, r: RetryDecision, x: Answers) returns (status: Option<Status>)
      requires Valid()
      modifies this, repository`rows
      ensures Valid()
      ensures Now() == DecideRetryIn(old(Now()), id, r, x, cfg)
      ensures status == if id in Now().flows then Some(Now().flows[id].record.status) else None
    {
      if id !in repository.rows {
        return None;
      }
      if repository.rows[id].status == WaitingRetryConfirmation && states[id].pc == AwaitRetry {
        ghost var w := Now();
        IsNow(id);
        ResumeRetryDecision(id, r, x, w, w.flows[id], w.shared);
        NowIs(w, id, RetryDecisionNodes(w.flows[id], r, x, cfg.rules), w.shared);
      }
      status := Some(repository.rows[id].status);
    }

    /** `cancel` */
    method Cancel(id: string, x: Answers) returns (status: Option<Status>)
      requires Valid()
      modifies this, repository, service.store, service.installer
      ensures Valid()
      ensures Now() == CancelIn(old(Now()), id, x, cfg)
      ensures status == if id in Now().flows then Some(Now().flows[id].record.status) else None
    {
      if id !in repository.rows {
        return None;
      }
      if repository.rows[id].status == WaitingToolApproval {
        status := DecideTool(id, CancelTool, x);
      } else if repository.rows[id].status == WaitingRetryConfirmation {
        status := DecideRetry(id, CancelRetry, x);
      } else {
        status := Some(repository.rows[id].status);
      }
    }

    /** One turn of the loop in `cleanup_expired`. */
    method ExpireOne(id: string, now: Instant) returns (expired: bool)
      requires Valid()
      modifies this`stories, repository`rows, service.store, service.generator
      ensures Valid()
      ensures Now() == ExpireIn(old(Now()), id, now)
    {
      expired := id in repository.rows && IsPending(repository.rows[id].status);
      if expired {
        ghost var w := Now();
        IsNow(id);
        var status := repository.rows[id].status;
        if status == WaitingToolApproval && repository.rows[id].draftPath.Some? {
          var key := states[id].definition.key;
          var _ := service.ExpireDraft(key, Some(key));
        }
        ghost var s := w.shared.(tools := service.store.records, drafts := service.generator.drafts);
        Transition(id, status, WorkflowExpired, NO_UPDATES, now, None, w, w.flows[id], s);
        NowIs(w, id, Change(w.flows[id], status, WorkflowExpired, NO_UPDATES, now, None), s);
      }
    }

    /** `cleanup_expired`: exactly the expired pending records, by expiry. */
    method CleanupExpired(now: Instant) returns (ids: seq<string>)
      requires Valid()
      modifies this`stories, repository`rows, service.store, service.generator
      ensures Valid()
      ensures IsExpiredList(Records(old(Now()).flows), now, ids)
      ensures Now() == ExpireAll(old(Now()), ids, now)
    {
      RecordsOfFlows(repository.rows, states, ephemeral, stories);
      ids := repository.ListExpired(now);
      for i := 0 to |ids|
        invariant Valid()
        invariant ExpireAll(Now(), ids[i..], now) == ExpireAll(old(Now()), ids, now)
      {
        assert ids[i..][1..] == ids[i + 1..];
        var _ := ExpireOne(ids[i], now);
      }
      assert ids[|ids|..] == [];
    }
  }
}
