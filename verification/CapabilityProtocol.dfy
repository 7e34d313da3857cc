/**
  What may happen to one capability workflow, in order: the decisions of the user, the evaluations, the calls of
  `execute_action` and the status changes, as the edges of the graph in
  src/assistant/capabilities/adaptive_capability_graph.py allow them. The theorems are about every permitted story.
 */
module CapabilityProtocol {
  import opened Common
  import opened Json
  import opened CapabilityTable
  import opened ToolStore

  datatype ToolDecision = ApproveEnableOnly | ApproveAndRunOnce | RejectTool | CancelTool

  datatype RetryDecision = ConfirmRetry | RefuseRetry | CancelRetry

  predicate Approves(d: ToolDecision) {
    d == ApproveEnableOnly || d == ApproveAndRunOnce
  }

  datatype Event =
    | Proposed(action: map<string, Json>)
    | ToolDecided(decision: ToolDecision, offered: bool)
    | Judged(eligible: bool, policy: string, dryRun: map<string, Json>, retryStatus: RetryStatus)
    | RetryDecided(answer: RetryDecision)
    | Called(retry: Json)
    | Moved(from: Status, to: Status, tool: Option<ToolState>)

  // ----- the status graph -----

  predicate Edge(a: Status, b: Status) {
    match a
    case WaitingToolApproval => b in {ToolRejected, ToolApprovalCancelled, ToolEnabled, WorkflowExpired}
    case ToolEnabled => b == RuntimeReloaded
    case RuntimeReloaded => b in {WaitingRetryConfirmation, ActionExecuted, ActionFailed}
    case WaitingRetryConfirmation => b in {RetryRejected, RetryCancelled, ActionExecuted, ActionFailed, WorkflowExpired}
    case _ => false
  }

  /** How far a record still is from its end. */
  function Rank(s: Status): nat {
    match s
    case WaitingToolApproval => 4
    case ToolEnabled => 3
    case RuntimeReloaded => 2
    case WaitingRetryConfirmation => 1
    case _ => 0
  }

  predicate Terminal(s: Status) {
    Rank(s) == 0
  }

  /** The user, or the clock, refused: nothing must have been executed. */
  predicate Refused(s: Status) {
    s in {ToolRejected, ToolApprovalCancelled, RetryRejected, RetryCancelled, WorkflowExpired}
  }

  lemma EdgesGoDown(a: Status, b: Status)
    requires Edge(a, b)
    ensures Rank(b) < Rank(a)
  {
  }

  // ----- permitted stories -----

  datatype Stage =
    | Fresh
    | Asking
    | Deciding(decision: ToolDecision, offered: bool)
    | On(decision: ToolDecision, offered: bool)
    | Ready(decision: ToolDecision, offered: bool)
    | Judging(eligible: bool)
    | Waiting
    | Answered(answer: RetryDecision)
    | Executing(at: Status)
    | Ended(status: Status)
    | Bad

  function Next(g: Stage, e: Event): Stage {
    match g
    case Fresh => if e.Proposed? then Asking else Bad
    case Asking =>
      if e.ToolDecided? then Deciding(e.decision, e.offered)
      else if e.Moved? && e.from == WaitingToolApproval && e.to == WorkflowExpired then Ended(e.to)
      else Bad
    case Deciding(decision, offered) =>
      if !e.Moved? || e.from != WaitingToolApproval then Bad
      else if e.to == WorkflowExpired then Ended(e.to)
      else if decision == RejectTool then if e.to == ToolRejected then Ended(e.to) else Bad
      else if decision == CancelTool then if e.to == ToolApprovalCancelled then Ended(e.to) else Bad
      else if e.to == ToolEnabled && e.tool == Some(Enabled) then On(decision, offered)
      else Bad
    case On(decision, offered) =>
      if e.Moved? && e.from == ToolEnabled && e.to == RuntimeReloaded then Ready(decision, offered) else Bad
    case Ready(decision, offered) =>
      if decision == ApproveAndRunOnce then
        if e.Judged? && (e.eligible ==> offered) then Judging(e.eligible) else Bad
      else if e.Moved? && e.from == RuntimeReloaded && e.to == WaitingRetryConfirmation then Waiting
      else Bad
    case Judging(eligible) =>
      if !eligible then
        if e.Moved? && e.from == RuntimeReloaded && e.to == WaitingRetryConfirmation then Waiting else Bad
      else if e.Called? then Executing(RuntimeReloaded)
      else if e.Moved? && e.from == RuntimeReloaded && e.to == ActionFailed then Ended(e.to)
      else Bad
    case Waiting =>
      if e.RetryDecided? then Answered(e.answer)
      else if e.Moved? && e.from == WaitingRetryConfirmation && e.to == WorkflowExpired then Ended(e.to)
      else Bad
    case Answered(answer) =>
      if answer == ConfirmRetry && e.Called? then Executing(WaitingRetryConfirmation)
      else if e.Moved? && e.from == WaitingRetryConfirmation && e.to == AnswerStatus(answer) then Ended(e.to)
      else Bad
    case Executing(at) =>
      if e.Moved? && e.from == at && (e.to == ActionExecuted || e.to == ActionFailed) then Ended(e.to) else Bad
    case Ended(_) => Bad
    case Bad => Bad
  }

  /** The status an answer leads to without a call. */
  function AnswerStatus(answer: RetryDecision): Status {
    match answer
    case ConfirmRetry => ActionFailed
    case RefuseRetry => RetryRejected
    case CancelRetry => RetryCancelled
  }

  function StageOf(h: seq<Event>): Stage {
    if h == [] then Fresh else Next(StageOf(h[..|h| - 1]), h[|h| - 1])
  }

  predicate Permitted(h: seq<Event>) {
    StageOf(h) != Bad
  }

  lemma StageOneMore(h: seq<Event>, e: Event)
    ensures StageOf(h + [e]) == Next(StageOf(h), e)
  {
    assert (h + [e])[..|h|] == h;
  }

  lemma {:induction false} PrefixIsPermitted(h: seq<Event>, n: nat)
    requires Permitted(h) && n <= |h|
    ensures Permitted(h[..n])
    decreases |h| - n
  {
    if n < |h| {
      PrefixIsPermitted(h, n + 1);
      assert h[..n + 1][..n] == h[..n];
    } else {
      assert h[..n] == h;
    }
  }

  /** The stage before and after the `k`-th event. */
  lemma StageAt(h: seq<Event>, k: nat)
    requires Permitted(h) && k < |h|
    ensures StageOf(h[..k + 1]) == Next(StageOf(h[..k]), h[k])
    ensures Permitted(h[..k]) && Permitted(h[..k + 1])
  {
    PrefixIsPermitted(h, k);
    PrefixIsPermitted(h, k + 1);
    assert h[..k + 1][..k] == h[..k];
  }

  // ----- consent -----

  /** The user approved the tool at `i`. */
  predicate ApprovedAt(h: seq<Event>, i: nat) {
    i < |h| && h[i].ToolDecided? && Approves(h[i].decision)
  }

  /**
    Before the `k`-th event the user approved the tool, and then either confirmed the retry, or had chosen to run once,
    which was among the options offered, and the evaluation said that this may be done.
   */
  ghost predicate ConsentedBefore(h: seq<Event>, k: nat) {
    exists i, j :: 0 <= i < j < k <= |h| && ApprovedAt(h, i) &&
      (h[j] == RetryDecided(ConfirmRetry) ||
       (h[j].Judged? && h[j].eligible && h[i] == ToolDecided(ApproveAndRunOnce, true)))
  }

  predicate PastApproval(g: Stage) {
    g.On? || g.Ready? || g.Judging? || g.Waiting? || g.Answered? || (g.Deciding? && Approves(g.decision))
  }

  /** Past the approval there is the approval, with the decision that the stage remembers. */
  lemma {:induction false} ApprovalOf(h: seq<Event>) returns (i: nat)
    requires PastApproval(StageOf(h))
    ensures ApprovedAt(h, i)
    ensures
      var g := StageOf(h);
      && (g.Deciding? || g.On? || g.Ready? ==> h[i] == ToolDecided(g.decision, g.offered))
      && (g.Judging? ==> i < |h| - 1 && h[i].decision == ApproveAndRunOnce && (g.eligible ==> h[i].offered))
      && (g.Waiting? || g.Answered? ==> i < |h| - 1)
  {
    var n := |h| - 1;
    if StageOf(h).Deciding? {
      i := n;
    } else {
      i := ApprovalOf(h[..n]);
    }
  }

  /** Every call was consented to. */
  lemma CallsAreConsented(h: seq<Event>, k: nat)
    requires Permitted(h) && k < |h| && h[k].Called?
    ensures ConsentedBefore(h, k)
  {
    StageAt(h, k);
    var before := h[..k];
    var i := ApprovalOf(before);
    assert StageOf(before) == Next(StageOf(before[..k - 1]), before[k - 1]);
    assert before[k - 1] == h[k - 1];
    assert ApprovedAt(h, i);
  }

  /** Consent without a confirmed retry comes from a judgement. */
  lemma JudgementBefore(h: seq<Event>, k: nat) returns (j: nat)
    requires ConsentedBefore(h, k) && k <= |h| && RetryDecided(ConfirmRetry) !in h[..k]
    ensures j < k && h[j].Judged? && h[j].eligible
  {
    var i, m :| 0 <= i < m < k && ApprovedAt(h, i) &&
      (h[m] == RetryDecided(ConfirmRetry) || (h[m].Judged? && h[m].eligible && h[i] == ToolDecided(ApproveAndRunOnce, true)));
    assert h[m] == h[..k][m];
    j := m;
  }

  // ----- at most one call, and none after a refusal -----

  predicate CalledIn(h: seq<Event>) {
    exists k :: 0 <= k < |h| && h[k].Called?
  }

  predicate MayHaveCalled(g: Stage) {
    g.Executing? || (g.Ended? && (g.status == ActionExecuted || g.status == ActionFailed))
  }

  lemma {:induction false} CallsOnlyWhileExecuting(h: seq<Event>)
    requires Permitted(h)
    ensures !MayHaveCalled(StageOf(h)) ==> !CalledIn(h)
    ensures StageOf(h) == Ended(ActionExecuted) ==> CalledIn(h)
  {
    if h != [] {
      var n := |h| - 1;
      StageAt(h, n);
      assert h[..n + 1] == h;
      CallsOnlyWhileExecuting(h[..n]);
      assert forall k :: 0 <= k < n ==> h[k] == h[..n][k];
      if StageOf(h[..n]).Executing? {
        assert h[..n] == h[..n - 1] + [h[n - 1]];
        assert StageOf(h[..n]) == Next(StageOf(h[..n][..n - 1]), h[..n][n - 1]);
        assert h[n - 1].Called?;
      }
    }
  }

  lemma CalledAtMostOnce(h: seq<Event>, i: nat, k: nat)
    requires Permitted(h) && i < k < |h| && h[i].Called?
    ensures !h[k].Called?
  {
    StageAt(h, k);
    CallsOnlyWhileExecuting(h[..k]);
    assert h[..k][i] == h[i];
  }

  lemma RefusedMeansNoCall(h: seq<Event>, s: Status)
    requires StageOf(h) == Ended(s) && Refused(s)
    ensures !CalledIn(h)
  {
    CallsOnlyWhileExecuting(h);
  }

  // ----- the path of statuses -----

  function StatusOf(h: seq<Event>): Status {
    if h == [] then WaitingToolApproval
    else if h[|h| - 1].Moved? then h[|h| - 1].to
    else StatusOf(h[..|h| - 1])
  }

  /** The status that a stage implies. */
  function StageStatus(g: Stage): Status {
    match g
    case Fresh | Asking | Deciding(_, _) | Bad => WaitingToolApproval
    case On(_, _) => ToolEnabled
    case Ready(_, _) | Judging(_) => RuntimeReloaded
    case Waiting | Answered(_) => WaitingRetryConfirmation
    case Executing(at) => at
    case Ended(status) => status
  }

  lemma {:induction false} StageHasItsStatus(h: seq<Event>)
    requires Permitted(h)
    ensures StageStatus(StageOf(h)) == StatusOf(h)
    ensures StageOf(h).Executing? ==> StageOf(h).at == RuntimeReloaded || StageOf(h).at == WaitingRetryConfirmation
    ensures StageOf(h).Ended? ==> Terminal(StageOf(h).status)
  {
    if h != [] {
      StageAt(h, |h| - 1);
      assert h[..|h|] == h;
      StageHasItsStatus(h[..|h| - 1]);
    }
  }

  /**
    Every status change starts where the last one ended, follows an edge of the graph and goes strictly down, so that
    no status is ever left for a second time and a terminal one never; and a tool is counted as enabled only while
    the store holds it as enabled.
   */
  lemma MovesFollowTheGraph(h: seq<Event>, k: nat)
    requires Permitted(h) && k < |h| && h[k].Moved?
    ensures h[k].from == StatusOf(h[..k]) && h[k].to == StatusOf(h[..k + 1])
    ensures Edge(h[k].from, h[k].to) && Rank(h[k].to) < Rank(h[k].from)
    ensures h[k].to == ToolEnabled ==> h[k].tool == Some(Enabled)
  {
    StageAt(h, k);
    StageHasItsStatus(h[..k]);
    StageHasItsStatus(h[..k + 1]);
    assert h[..k + 1][..k] == h[..k];
    EdgesGoDown(h[k].from, h[k].to);
  }

  lemma NothingFollowsTheEnd(h: seq<Event>, k: nat)
    requires Permitted(h) && k <= |h| && Terminal(StatusOf(h[..k]))
    ensures k == |h|
  {
    PrefixIsPermitted(h, k);
    StageHasItsStatus(h[..k]);
    if k < |h| {
      StageAt(h, k);
    }
  }
}
