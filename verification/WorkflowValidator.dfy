/**
  The validator for parsed workflows: src/assistant/workflows/validator.py. A finding is its code and
  path; the message, which the two determine, is dropped.
 */
module WorkflowValidator {
  import opened Common
  import opened Json
  import opened Whitespace
  import opened WorkflowModel
  import opened WorkflowRunner
  import opened WorkflowRuns

  datatype Finding =
    | NameRequired
    | StepsEmpty
    | StepIdDuplicate(step: nat)
    | HandlerUnknown(step: nat)
    | MoveUnconfirmedByStep(step: nat)
    | MoveUnconfirmedByPolicy
    | ShellCommandDestructive(step: nat)
    | GeneratedMustBeDraft
    | BudgetTooSmall

  datatype Report = Report(findings: seq<Finding>, workflow: Option<Workflow>)

  const KNOWN_HANDLERS := {
    "noop", "notification.send", "files.inspect", "files.suggest_destination",
    "workflow.ask_confirmation", "files.move", "files.write", "shell.run"
  }

  predicate PolicyConfirmsMove(actions: map<string, Decision>) {
    FILES_MOVE in actions && actions[FILES_MOVE] == Confirm
  }

  // ----- what a finding says -----

  predicate IdTakenBefore(steps: seq<Step>, k: nat)
    requires k < |steps|
  {
    steps[k].id != "" && exists j :: 0 <= j < k && steps[j].id == steps[k].id
  }

  /** The fault that a finding reports. */
  predicate Violates(wf: Workflow, f: Finding, destructive: string -> bool) {
    match f
    case NameRequired => Strip(wf.name) == ""
    case StepsEmpty => wf.steps == []
    case StepIdDuplicate(k) => k < |wf.steps| && IdTakenBefore(wf.steps, k)
    case HandlerUnknown(k) => k < |wf.steps| && wf.steps[k].uses !in KNOWN_HANDLERS
    case MoveUnconfirmedByStep(k) => k < |wf.steps| && wf.steps[k].uses == FILES_MOVE && !wf.steps[k].requiresConfirmation
    case MoveUnconfirmedByPolicy =>
      !PolicyConfirmsMove(wf.actions) && exists k :: 0 <= k < |wf.steps| && wf.steps[k].uses == FILES_MOVE && wf.steps[k].requiresConfirmation
    case ShellCommandDestructive(k) => k < |wf.steps| && DestructiveStep(wf.steps[k], destructive)
    case GeneratedMustBeDraft => wf.sourcePrompt != "" && wf.status == Enabled
    case BudgetTooSmall => wf.maxSteps < |wf.steps|
  }

  /** A workflow that may be validated. */
  ghost predicate WellFormed(wf: Workflow, destructive: string -> bool) {
    && Strip(wf.name) != ""
    && 0 < |wf.steps| <= wf.maxSteps
    && (forall j, k :: 0 <= j < k < |wf.steps| && wf.steps[k].id != "" ==> wf.steps[j].id != wf.steps[k].id)
    && (forall k :: 0 <= k < |wf.steps| ==>
          && wf.steps[k].uses in KNOWN_HANDLERS
          && (wf.steps[k].uses == FILES_MOVE ==> wf.steps[k].requiresConfirmation && PolicyConfirmsMove(wf.actions))
          && !DestructiveStep(wf.steps[k], destructive))
    && !(wf.sourcePrompt != "" && wf.status == Enabled)
  }

  /** The same, step by step and with the handlers that are known. */
  lemma WellFormedExactly(wf: Workflow, destructive: string -> bool)
    ensures WellFormed(wf, destructive) <==>
      && !AllSpace(wf.name)
      && 0 < |wf.steps| <= wf.maxSteps
      && (wf.sourcePrompt == "" || wf.status != Enabled)
      && (forall k :: 0 <= k < |wf.steps| ==> StepIsFit(wf, k, destructive))
  {
    NothingButSpace(wf.name);
    forall k | 0 <= k < |wf.steps|
      ensures StepIsFit(wf, k, destructive) <==>
        && (wf.steps[k].id == "" || forall j :: 0 <= j < k ==> wf.steps[j].id != wf.steps[k].id)
        && wf.steps[k].uses in KNOWN_HANDLERS
        && (wf.steps[k].uses == FILES_MOVE ==> wf.steps[k].requiresConfirmation && PolicyConfirmsMove(wf.actions))
        && !DestructiveStep(wf.steps[k], destructive)
    {
    }
  }

  predicate StepIsFit(wf: Workflow, k: nat, destructive: string -> bool)
    requires k < |wf.steps|
  {
    var step := wf.steps[k];
    && (step.id == "" || forall j :: 0 <= j < k ==> wf.steps[j].id != step.id)
    && step.uses in {"noop", "notification.send", "files.inspect", "files.suggest_destination", "workflow.ask_confirmation",
                     "files.move", "files.write", "shell.run"}
    && (step.uses == "files.move" ==> step.requiresConfirmation && "files.move" in wf.actions && wf.actions["files.move"] == Confirm)
    && !(step.uses == "shell.run" && "command" in step.withArgs && step.withArgs["command"].Str? && destructive(step.withArgs["command"].text))
  }

  lemma WellFormedIsFaultless(wf: Workflow, destructive: string -> bool)
    ensures WellFormed(wf, destructive) <==> forall f :: !Violates(wf, f, destructive)
  {
    if forall f :: !Violates(wf, f, destructive) {
      assert !Violates(wf, NameRequired, destructive) && !Violates(wf, StepsEmpty, destructive);
      assert !Violates(wf, GeneratedMustBeDraft, destructive) && !Violates(wf, BudgetTooSmall, destructive);
      assert !Violates(wf, MoveUnconfirmedByPolicy, destructive);
      forall k | 0 <= k < |wf.steps|
        ensures !IdTakenBefore(wf.steps, k) && wf.steps[k].uses in KNOWN_HANDLERS && !DestructiveStep(wf.steps[k], destructive)
        ensures wf.steps[k].uses == FILES_MOVE ==> wf.steps[k].requiresConfirmation && PolicyConfirmsMove(wf.actions)
      {
        assert !Violates(wf, StepIdDuplicate(k), destructive) && !Violates(wf, HandlerUnknown(k), destructive);
        assert !Violates(wf, ShellCommandDestructive(k), destructive) && !Violates(wf, MoveUnconfirmedByStep(k), destructive);
      }
    }
  }

  // ----- the findings in order -----

  function If(c: bool, f: Finding): seq<Finding> {
    if c then [f] else []
  }

  function FindingsAt(steps: seq<Step>, k: nat, actions: map<string, Decision>, destructive: string -> bool): seq<Finding>
    requires k < |steps|
  {
    If(IdTakenBefore(steps, k), StepIdDuplicate(k)) +
    If(steps[k].uses !in KNOWN_HANDLERS, HandlerUnknown(k)) +
    If(steps[k].uses == FILES_MOVE && !(steps[k].requiresConfirmation && PolicyConfirmsMove(actions)),
       if steps[k].requiresConfirmation then MoveUnconfirmedByPolicy else MoveUnconfirmedByStep(k)) +
    If(DestructiveStep(steps[k], destructive), ShellCommandDestructive(k))
  }

  function Concat<T>(parts: seq<seq<T>>): seq<T> {
    if parts == [] then [] else Concat(parts[..|parts| - 1]) + parts[|parts| - 1]
  }

  lemma {:induction false} InConcat<T>(parts: seq<seq<T>>, x: T)
    ensures x in Concat(parts) <==> exists k :: 0 <= k < |parts| && x in parts[k]
  {
    if parts != [] {
      var init := parts[..|parts| - 1];
      InConcat(init, x);
      assert forall k :: 0 <= k < |init| ==> init[k] == parts[k];
    }
  }

  function FindingsByStep(steps: seq<Step>, n: nat, actions: map<string, Decision>, destructive: string -> bool): (parts: seq<seq<Finding>>)
    requires n <= |steps|
  {
    seq(n, k requires 0 <= k < n => FindingsAt(steps, k, actions, destructive))
  }

  lemma FindingsOneMore(steps: seq<Step>, n: nat, actions: map<string, Decision>, destructive: string -> bool)
    requires n < |steps|
    ensures Concat(FindingsByStep(steps, n + 1, actions, destructive)) ==
            Concat(FindingsByStep(steps, n, actions, destructive)) + FindingsAt(steps, n, actions, destructive)
  {
    var parts := FindingsByStep(steps, n, actions, destructive);
    assert FindingsByStep(steps, n + 1, actions, destructive) == parts + [FindingsAt(steps, n, actions, destructive)];
    ConcatOneMore(parts, FindingsAt(steps, n, actions, destructive));
  }

  lemma ConcatOneMore<T>(parts: seq<seq<T>>, last: seq<T>)
    ensures Concat(parts + [last]) == Concat(parts) + last
  {
    assert (parts + [last])[..|parts|] == parts;
  }

  function SemanticFindings(wf: Workflow, destructive: string -> bool): seq<Finding> {
    If(wf.steps == [], StepsEmpty) +
    Concat(FindingsByStep(wf.steps, |wf.steps|, wf.actions, destructive)) +
    If(wf.sourcePrompt != "" && wf.status == Enabled, GeneratedMustBeDraft) +
    If(wf.maxSteps < |wf.steps|, BudgetTooSmall)
  }

  function AllFindings(wf: Workflow, destructive: string -> bool): seq<Finding> {
    If(Strip(wf.name) == "", NameRequired) + SemanticFindings(wf, destructive)
  }

  predicate AboutSteps(f: Finding) {
    f.StepIdDuplicate? || f.HandlerUnknown? || f.MoveUnconfirmedByStep? || f.MoveUnconfirmedByPolicy? || f.ShellCommandDestructive?
  }

  lemma InFindingsAt(steps: seq<Step>, k: nat, actions: map<string, Decision>, destructive: string -> bool, f: Finding)
    requires k < |steps|
    ensures f in FindingsAt(steps, k, actions, destructive) <==>
      match f
      case StepIdDuplicate(j) => j == k && IdTakenBefore(steps, k)
      case HandlerUnknown(j) => j == k && steps[k].uses !in KNOWN_HANDLERS
      case MoveUnconfirmedByStep(j) => j == k && steps[k].uses == FILES_MOVE && !steps[k].requiresConfirmation
      case MoveUnconfirmedByPolicy =>
        steps[k].uses == FILES_MOVE && steps[k].requiresConfirmation && !PolicyConfirmsMove(actions)
      case ShellCommandDestructive(j) => j == k && DestructiveStep(steps[k], destructive)
      case _ => false
  {
  }

  predicate FaultOfSteps(steps: seq<Step>, actions: map<string, Decision>, destructive: string -> bool, f: Finding) {
    exists k :: 0 <= k < |steps| && f in FindingsAt(steps, k, actions, destructive)
  }

  lemma FaultOfStepsIsFault(wf: Workflow, destructive: string -> bool, f: Finding)
    ensures FaultOfSteps(wf.steps, wf.actions, destructive, f) <==> AboutSteps(f) && Violates(wf, f, destructive)
  {
    forall k | 0 <= k < |wf.steps| {
      InFindingsAt(wf.steps, k, wf.actions, destructive, f);
    }
    if AboutSteps(f) && Violates(wf, f, destructive) {
      var k :| 0 <= k < |wf.steps| && (f.MoveUnconfirmedByPolicy? || k == f.step) &&
               (f.MoveUnconfirmedByPolicy? ==> wf.steps[k].uses == FILES_MOVE && wf.steps[k].requiresConfirmation);
      assert f in FindingsAt(wf.steps, k, wf.actions, destructive);
    }
  }

  lemma FaultOfStepsIsFound(steps: seq<Step>, actions: map<string, Decision>, destructive: string -> bool, f: Finding)
    ensures f in Concat(FindingsByStep(steps, |steps|, actions, destructive)) <==> FaultOfSteps(steps, actions, destructive, f)
  {
    var parts := FindingsByStep(steps, |steps|, actions, destructive);
    InConcat(parts, f);
    if FaultOfSteps(steps, actions, destructive, f) {
      var k :| 0 <= k < |steps| && f in FindingsAt(steps, k, actions, destructive);
      assert f in parts[k];
    }
  }

  function IdsBefore(steps: seq<Step>, i: nat): set<string>
    requires i <= |steps|
  {
    set j | 0 <= j < i && steps[j].id != "" :: steps[j].id
  }

  lemma SeenIsTaken(steps: seq<Step>, i: nat)
    requires i < |steps|
    ensures steps[i].id in IdsBefore(steps, i) <==> IdTakenBefore(steps, i)
    ensures IdsBefore(steps, i + 1) == IdsBefore(steps, i) + if steps[i].id != "" then {steps[i].id} else {}
  {
  }

  /** The findings are exactly the faults. */
  lemma FindingsAreFaults(wf: Workflow, destructive: string -> bool, f: Finding)
    ensures f in AllFindings(wf, destructive) <==> Violates(wf, f, destructive)
  {
    FaultOfStepsIsFault(wf, destructive, f);
    FaultOfStepsIsFound(wf.steps, wf.actions, destructive, f);
  }

  lemma FirstOccurrencesDiffer<T>(s: seq<T>, unique: seq<T>, at: seq<nat>)
    requires |at| == |unique| && forall k :: 0 <= k < |at| ==> at[k] < |s| && unique[k] == s[at[k]]
    requires forall k :: 0 <= k < |at| ==> unique[k] !in s[..at[k]]
    requires forall j, k :: 0 <= j < k < |at| ==> at[j] < at[k]
    ensures forall j, k :: 0 <= j < k < |unique| ==> unique[j] != unique[k]
  {
    forall j, k | 0 <= j < k < |unique| ensures unique[j] != unique[k] {
      assert s[..at[k]][at[j]] == unique[j];
    }
  }

  lemma SameElementsSameEmptiness<T>(s: seq<T>, t: seq<T>)
    requires forall x :: x in s <==> x in t
    ensures s == [] <==> t == []
  {
    if s != [] {
      assert s[0] in t;
    }
    if t != [] {
      assert t[0] in s;
    }
  }

  lemma FaultlessMeansEmpty(wf: Workflow, destructive: string -> bool, reported: seq<Finding>)
    requires forall f :: f in reported <==> Violates(wf, f, destructive)
    ensures reported == [] <==> WellFormed(wf, destructive)
  {
    WellFormedIsFaultless(wf, destructive);
    if reported != [] {
      assert Violates(wf, reported[0], destructive);
    }
  }

  lemma FaultsAreReported(wf: Workflow, destructive: string -> bool, reported: seq<Finding>)
    requires forall f :: f in reported <==> f in AllFindings(wf, destructive)
    ensures forall f :: f in reported <==> Violates(wf, f, destructive)
    ensures reported == [] <==> WellFormed(wf, destructive)
  {
    forall f ensures f in reported <==> Violates(wf, f, destructive) {
      FindingsAreFaults(wf, destructive, f);
    }
    FaultlessMeansEmpty(wf, destructive, reported);
  }

  // ----- the validator -----

  class Validator {
    const destructive: string -> bool

    constructor (destructive: string -> bool)
      ensures this.destructive == destructive
    {
      this.destructive := destructive;
    }

    /** `_step_findings`: one pass with the identifiers seen so far. */
    method StepFindings(steps: seq<Step>, actions: map<string, Decision>) returns (findings: seq<Finding>)
      ensures findings == Concat(FindingsByStep(steps, |steps|, actions, destructive))
    {
      findings := [];
      var seen: set<string> := {};
      for i := 0 to |steps|
        invariant seen == IdsBefore(steps, i)
        invariant findings == Concat(FindingsByStep(steps, i, actions, destructive))
      {
        SeenIsTaken(steps, i);
        var found := FindingsOfStep(steps, i, actions, steps[i].id in seen);
        if steps[i].id != "" {
          seen := seen + {steps[i].id};
        }
        FindingsOneMore(steps, i, actions, destructive);
        findings := findings + found;
      }
    }

    /** The body of the loop in `_step_findings`. */
    method FindingsOfStep(steps: seq<Step>, i: nat, actions: map<string, Decision>, seen: bool) returns (found: seq<Finding>)
      requires i < |steps| && (seen <==> IdTakenBefore(steps, i))
      ensures found == FindingsAt(steps, i, actions, destructive)
    {
      var step := steps[i];
      found := [];
      if step.id != "" && seen {
        found := found + [StepIdDuplicate(i)];
      }
      if step.uses !in KNOWN_HANDLERS {
        found := found + [HandlerUnknown(i)];
      }
      if step.uses == FILES_MOVE {
        if !step.requiresConfirmation || !PolicyConfirmsMove(actions) {
          found := found + [if !step.requiresConfirmation then MoveUnconfirmedByStep(i) else MoveUnconfirmedByPolicy];
        }
      }
      if step.uses == SHELL_RUN {
        if IsDestructive(Get(step.withArgs, "command"), destructive) {
          found := found + [ShellCommandDestructive(i)];
        }
      }
    }

    /** `_deduplicate`: every finding once, at its first occurrence (`at`), in order. */
    method Deduplicate(findings: seq<Finding>) returns (unique: seq<Finding>, ghost at: seq<nat>)
      ensures forall f :: f in unique <==> f in findings
      ensures |at| == |unique| && forall k :: 0 <= k < |at| ==> at[k] < |findings| && unique[k] == findings[at[k]]
      ensures forall k :: 0 <= k < |at| ==> unique[k] !in findings[..at[k]]
      ensures forall j, k :: 0 <= j < k < |at| ==> at[j] < at[k]
    {
      unique, at := [], [];
      var seen: set<Finding> := {};
      for i := 0 to |findings|
        invariant forall f :: f in seen <==> f in findings[..i]
        invariant forall f :: f in unique <==> f in findings[..i]
        invariant |at| == |unique| && forall k :: 0 <= k < |at| ==> at[k] < i && unique[k] == findings[at[k]]
        invariant forall k :: 0 <= k < |at| ==> unique[k] !in findings[..at[k]]
        invariant forall j, k :: 0 <= j < k < |at| ==> at[j] < at[k]
      {
        if findings[i] !in seen {
          seen := seen + {findings[i]};
          unique, at := unique + [findings[i]], at + [i];
        }
      }
      assert findings[..|findings|] == findings;
    }

    /** `_semantic_findings` */
    method FindSemantic(wf: Workflow) returns (findings: seq<Finding>)
      ensures findings == SemanticFindings(wf, destructive)
    {
      findings := [];
      if wf.steps == [] {
        findings := findings + [StepsEmpty];
      }
      var ofSteps := StepFindings(wf.steps, wf.actions);
      findings := findings + ofSteps;
      if wf.sourcePrompt != "" && wf.status == Enabled {
        findings := findings + [GeneratedMustBeDraft];
      }
      if wf.maxSteps < |wf.steps| {
        findings := findings + [BudgetTooSmall];
      }
    }

    /** `validate`: a finding is reported exactly for a fault, and the workflow passes exactly when it is well formed. */
    method Validate(wf: Workflow) returns (report: Report)
      ensures forall f :: f in report.findings <==> Violates(wf, f, destructive)
      ensures report.findings == [] <==> WellFormed(wf, destructive)
      ensures report.workflow == if report.findings == [] then Some(wf) else None
      ensures forall j, k :: 0 <= j < k < |report.findings| ==> report.findings[j] != report.findings[k]
    {
      var findings := [];
      if Strip(wf.name) == "" {
        findings := findings + [NameRequired];
      }
      var semantic := FindSemantic(wf);
      findings := findings + semantic;
      assert findings == AllFindings(wf, destructive);
      var unique, at := Deduplicate(findings);
      report := Report(unique, if findings == [] then Some(wf) else None);
      FirstOccurrencesDiffer(findings, unique, at);
      FaultsAreReported(wf, destructive, unique);
      SameElementsSameEmptiness(findings, unique);
    }
  }

  // ----- what validation buys at run time -----

  lemma WellFormedStepIsBlockedOnlyByDeclaration(wf: Workflow, k: nat, destructive: string -> bool)
    requires WellFormed(wf, destructive) && k < |wf.steps|
    ensures Evaluate(wf.actions, wf.steps[k], destructive) == Blocked ==>
              wf.steps[k].uses in wf.actions && wf.actions[wf.steps[k].uses] == Blocked
    ensures wf.steps[k].uses == FILES_MOVE ==> Evaluate(wf.actions, wf.steps[k], destructive) == Confirm
  {
    assert wf.steps[k].uses in KNOWN_HANDLERS;
    assert MinimumPolicy(wf.steps[k].uses) != Blocked;
    assert FILES_MOVE in CONFIRMED_HANDLERS && FILES_MOVE !in ALLOWED_HANDLERS && FILES_MOVE != SHELL_RUN;
  }

  /**
    A run that is never stopped by the step budget, is blocked only at a step whose handler the policy of the
    workflow blocks, and reaches `files.move` only after the confirmer said yes.
   */
  ghost predicate RunsAsValidated(wf: Workflow, w: World) {
    var o := RunOf(wf, w);
    && 0 < |o.rows| <= |wf.steps|
    && (o.status == RunBlocked ==>
          var uses := wf.steps[|o.rows| - 1].uses;
          o.error == Some("policy_blocked") && uses in wf.actions && wf.actions[uses] == Blocked)
    && (forall k :: 0 <= k < |o.rows| && Ran(o.rows[k]) && wf.steps[k].uses == FILES_MOVE ==>
          ResolveConfirmation(w, RanCalls(o.rows[..k], wf.steps, 0, w), k, CallOf(wf.steps[k])) == Some(true))
  }

  /** Validity depends on the status, so it is asked of the draft; the run may be that of any later form. */
  lemma ValidatedRun(draft: Workflow, wf: Workflow, w: World)
    requires WellFormed(draft, w.destructive)
    requires wf.steps == draft.steps && wf.actions == draft.actions && wf.maxSteps == draft.maxSteps
    ensures RunsAsValidated(wf, w)
  {
    var o := RunOf(wf, w);
    RunIsWellRecorded(wf, w);
    HandlersRunOnlyWhenPermitted(wf, w);
    BlockWasDeclared(draft, wf, w);
    forall k | 0 <= k < |o.rows| && Ran(o.rows[k]) && wf.steps[k].uses == FILES_MOVE
      ensures ResolveConfirmation(w, RanCalls(o.rows[..k], wf.steps, 0, w), k, CallOf(wf.steps[k])) == Some(true)
    {
      MoveWasConfirmed(draft, wf, w, o.rows, k);
    }
  }

  lemma BlockWasDeclared(draft: Workflow, wf: Workflow, w: World)
    requires WellFormed(draft, w.destructive)
    requires wf.steps == draft.steps && wf.actions == draft.actions && wf.maxSteps == draft.maxSteps
    ensures
      var o := RunOf(wf, w);
      o.status == RunBlocked ==>
        && BlockedAtTheEnd(o, wf.steps, wf.actions, w, 0)
        && var uses := wf.steps[|o.rows| - 1].uses; uses in wf.actions && wf.actions[uses] == Blocked
  {
    var o := RunOf(wf, w);
    if o.status == RunBlocked {
      BlockedAtTheLastStep(wf.steps, wf.actions, w, 0, []);
      WellFormedStepIsBlockedOnlyByDeclaration(draft, |o.rows| - 1, w.destructive);
    }
  }

  lemma MoveWasConfirmed(draft: Workflow, wf: Workflow, w: World, rows: seq<StepRow>, k: nat)
    requires WellFormed(draft, w.destructive) && wf.steps == draft.steps && wf.actions == draft.actions
    requires |rows| <= |wf.steps| && RunsOnlyWhenPermitted(rows, wf.steps, 0, wf.actions, w, [])
    requires k < |rows| && Ran(rows[k]) && wf.steps[k].uses == FILES_MOVE
    ensures ResolveConfirmation(w, RanCalls(rows[..k], wf.steps, 0, w), k, CallOf(wf.steps[k])) == Some(true)
  {
    WellFormedStepIsBlockedOnlyByDeclaration(draft, k, w.destructive);
    assert [] + RanCalls(rows[..k], wf.steps, 0, w) == RanCalls(rows[..k], wf.steps, 0, w);
  }

  predicate BlockedAtTheEnd(o: Outcome, steps: seq<Step>, actions: map<string, Decision>, w: World, i: nat) {
    && 0 < |o.rows| && i + |o.rows| <= |steps|
    && o.error == Some("policy_blocked")
    && Evaluate(actions, steps[i + |o.rows| - 1], w.destructive) == Blocked
  }

  lemma BlockedOneMore(row: StepRow, rest: Outcome, steps: seq<Step>, actions: map<string, Decision>, w: World, i: nat)
    requires BlockedAtTheEnd(rest, steps, actions, w, i + 1)
    ensures BlockedAtTheEnd(Prefixed([row], rest), steps, actions, w, i)
  {
  }

  lemma {:induction false} BlockedAtTheLastStep(steps: seq<Step>, actions: map<string, Decision>, w: World, i: nat, calls: seq<Call>)
    requires i < |steps|
    ensures
      var o := ExecuteFrom(steps, actions, w, i, calls);
      o.status == RunBlocked ==> BlockedAtTheEnd(o, steps, actions, w, i)
    decreases |steps| - i
  {
    if Evaluate(actions, steps[i], w.destructive) != Blocked {
      FirstStep(steps, actions, w, i, calls);
      var row, after := ExecuteFrom(steps, actions, w, i, calls).rows[0], CallsAfter(w, calls, CallOf(steps[i]));
      if Passed(row, steps[i]) && i + 1 < |steps| {
        BlockedAtTheLastStep(steps, actions, w, i + 1, after);
        if ExecuteFrom(steps, actions, w, i + 1, after).status == RunBlocked {
          BlockedOneMore(row, ExecuteFrom(steps, actions, w, i + 1, after), steps, actions, w, i);
        }
      }
    }
  }
}
