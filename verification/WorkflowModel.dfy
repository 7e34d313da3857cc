/** Declarative workflows: src/assistant/workflows/models.py and policies.py. */
module WorkflowModel {
  import opened Common
  import opened Json
  import opened IsoTime

  datatype Decision = Allow | Confirm | Blocked

  datatype WorkflowStatus = Draft | Validated | Approved | Enabled | Disabled | Rejected | Archived

  datatype Step = Step(
    id: string,
    uses: string,
    withArgs: map<string, Json>,
    requiresConfirmation: bool,
    continueOnError: bool)

  datatype Workflow = Workflow(
    name: string,
    status: WorkflowStatus,
    steps: seq<Step>,
    actions: map<string, Decision>,
    maxSteps: nat,
    sourcePrompt: string,
    approvedAt: Option<Instant>,
    enabledAt: Option<Instant>)

  const ALLOWED_HANDLERS := {"noop", "notification.send", "files.inspect", "files.suggest_destination"}
  const CONFIRMED_HANDLERS := {"workflow.ask_confirmation", "files.move", "files.write", "shell.run", "workflow.enable"}
  const FILES_MOVE := "files.move"
  const SHELL_RUN := "shell.run"

  /** `MINIMUM_POLICY`; a handler that is not listed is blocked. */
  function MinimumPolicy(uses: string): Decision {
    if uses in ALLOWED_HANDLERS then Allow
    else if uses in CONFIRMED_HANDLERS then Confirm
    else Blocked
  }

  function Rank(d: Decision): nat {
    match d
    case Allow => 0
    case Confirm => 1
    case Blocked => 2
  }

  function Declared(actions: map<string, Decision>, uses: string): Decision {
    if uses in actions then actions[uses] else MinimumPolicy(uses)
  }

  /** `is_destructive_shell_command`: false for anything but a string; `destructive` is the pattern test. */
  predicate IsDestructive(command: Option<Json>, destructive: string -> bool) {
    command.Some? && command.value.Str? && destructive(command.value.text)
  }

  predicate DestructiveStep(step: Step, destructive: string -> bool) {
    step.uses == SHELL_RUN && IsDestructive(Get(step.withArgs, "command"), destructive)
  }

  /** `WorkflowPolicyEvaluator.evaluate`. */
  function Evaluate(actions: map<string, Decision>, step: Step, destructive: string -> bool): Decision {
    if DestructiveStep(step, destructive) then Blocked
    else
      var minimum := MinimumPolicy(step.uses);
      var declared := Declared(actions, step.uses);
      var decision := if Rank(declared) > Rank(minimum) then declared else minimum;
      if step.requiresConfirmation && decision == Allow then Confirm else decision
  }

  // ----- what the decision must be -----

  /** A destructive command, a handler nobody knows, or one that the policy of the workflow blocks. */
  predicate Forbids(actions: map<string, Decision>, step: Step, destructive: string -> bool) {
    || (step.uses == "shell.run" && "command" in step.withArgs && step.withArgs["command"].Str? && destructive(step.withArgs["command"].text))
    || step.uses !in {"noop", "notification.send", "files.inspect", "files.suggest_destination", "workflow.ask_confirmation",
                      "files.move", "files.write", "shell.run", "workflow.enable"}
    || (step.uses in actions && actions[step.uses] == Blocked)
  }

  /** The step itself, the kind of its handler, or the policy of the workflow wants a confirmation. */
  predicate AsksFirst(actions: map<string, Decision>, step: Step) {
    || step.requiresConfirmation
    || step.uses in {"workflow.ask_confirmation", "files.move", "files.write", "shell.run", "workflow.enable"}
    || (step.uses in actions && actions[step.uses] == Confirm)
  }

  lemma MinimumExactly(uses: string)
    ensures MinimumPolicy(uses) == Blocked <==>
      uses !in {"noop", "notification.send", "files.inspect", "files.suggest_destination", "workflow.ask_confirmation",
                "files.move", "files.write", "shell.run", "workflow.enable"}
    ensures MinimumPolicy(uses) == Confirm <==>
      uses in {"workflow.ask_confirmation", "files.move", "files.write", "shell.run", "workflow.enable"}
  {
  }

  /** A step is blocked exactly if it is forbidden, and otherwise confirmed exactly if something wants it to be. */
  lemma DecidesExactly(actions: map<string, Decision>, step: Step, destructive: string -> bool)
    ensures
      var decision := Evaluate(actions, step, destructive);
      && (decision == Blocked <==> Forbids(actions, step, destructive))
      && (decision == Confirm <==> !Forbids(actions, step, destructive) && AsksFirst(actions, step))
  {
    MinimumExactly(step.uses);
  }

  /** `strict` never declares less than `loose`. */
  ghost predicate Stricter(strict: map<string, Decision>, loose: map<string, Decision>) {
    forall uses :: Rank(Declared(strict, uses)) >= Rank(Declared(loose, uses))
  }

  lemma EvaluateIsMonotone(strict: map<string, Decision>, loose: map<string, Decision>, step: Step, destructive: string -> bool)
    requires Stricter(strict, loose)
    ensures Rank(Evaluate(strict, step, destructive)) >= Rank(Evaluate(loose, step, destructive))
    ensures Rank(Evaluate(loose, step, destructive)) >= Rank(MinimumPolicy(step.uses))
  {
    assert Rank(Declared(strict, step.uses)) >= Rank(Declared(loose, step.uses));
  }
}
