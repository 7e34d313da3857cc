/**
  How the arguments of the action a user asked for travel through redaction, masking and the
  database to the retry that is finally executed:
  `_sanitize_proposal`, `build_retry_action` and the start of `_execute_original_action`.
 */
module RetryArguments {
  import opened Common
  import opened Json
  import opened Redaction

  const MASKING_MARKERS := ["shell", "environment", "env.", "system"]
  const EPHEMERAL_MARKERS := ["environment", "env.", "system_config"]
  const MASKED_KEYS := {"command", "content", "value"}

  const ENV_SET_USER := "local.windows.env_set_user"
  const GIT_STATUS := "local.git.status"

  /** The library functions on text that the model leaves open, and the test for sensitive keys. */
  datatype TextRules = TextRules(fold: CaseFold, render: StrOf, sensitive: KeyTest)

  type Action = map<string, Json>

  function CapabilityText(action: Action, rules: TextRules): string {
    Fold(if "capability" in action then rules.render(action["capability"]) else "", rules.fold)
  }

  function ActionArguments(action: Action): map<string, Json> {
    if "arguments" in action && action["arguments"].Obj? then action["arguments"].fields else map[]
  }

  predicate RequiresEphemeralArguments(action: Action, rules: TextRules) {
    ContainsAny(CapabilityText(action, rules), EPHEMERAL_MARKERS)
  }

  function Mask(fields: map<string, Json>): map<string, Json> {
    map k | k in fields :: if k in MASKED_KEYS then MARKER else fields[k]
  }

  predicate MasksArguments(action: Action, rules: TextRules) {
    ContainsAny(CapabilityText(RedactFields(action, rules.sensitive), rules), MASKING_MARKERS)
  }

  /** The form of the action that is stored and checkpointed. */
  function SanitizeAction(action: Action, rules: TextRules): Action {
    var redacted := RedactFields(action, rules.sensitive);
    if MasksArguments(action, rules) && "arguments" in redacted && redacted["arguments"].Obj? then
      redacted["arguments" := Obj(Mask(redacted["arguments"].fields))]
    else
      redacted
  }

  function GitArguments(action: Action): map<string, Json> {
    if "context" in action && action["context"].Obj? then
      var context := action["context"].fields;
      if "current_cwd" in context && Truthy(context["current_cwd"]) then map["cwd" := context["current_cwd"]] else map[]
    else map[]
  }

  function RetryArgumentsOf(tool: string, action: Action): map<string, Json> {
    if tool == ENV_SET_USER then Pick(ActionArguments(action), {"name", "value"})
    else if tool == GIT_STATUS then GitArguments(action)
    else ActionArguments(action)
  }

  function RetryAction(tool: string, arguments: map<string, Json>): Json {
    Obj(map["mode" := Str("action"), "capability" := Str(tool), "arguments" := Obj(arguments)])
  }

  /** The arguments a retry is prepared with; `ephemeral` is what this process still remembers. */
  function PreparedArguments(tool: string, stored: Action, ephemeral: Option<map<string, Json>>): map<string, Json> {
    if tool == ENV_SET_USER && ephemeral.Some?
    then Pick(ephemeral.value, {"name", "value"})
    else RetryArgumentsOf(tool, stored)
  }

  /** `None` when the retry stops with `sensitive_arguments_unavailable` and nothing is executed. */
  function PrepareRetry(tool: string, stored: Action, ephemeral: Option<map<string, Json>>): Option<Json> {
    var action := RetryAction(tool, PreparedArguments(tool, stored, ephemeral));
    if ContainsRedacted(action) then None else Some(action)
  }

  // ----- the stored form against the original -----

  lemma RedactKeepsTruth(v: Json, sensitive: KeyTest)
    ensures Truthy(Redact(v, sensitive)) == Truthy(v)
  {
    match v
    case Obj(fields) =>
      var r := RedactFields(fields, sensitive);
      assert r == map[] <==> r.Keys == {};
      assert fields == map[] <==> fields.Keys == {};
    case Arr(items) => assert |Redact(v, sensitive).items| == |items|;
    case _ =>
  }

  /** An object as it is stored: redacted, and masked for capabilities that act on the system. */
  function Shown(fields: map<string, Json>, masked: bool, sensitive: KeyTest): map<string, Json> {
    var redacted := RedactFields(fields, sensitive);
    if masked then Mask(redacted) else redacted
  }

  lemma StoredArguments(action: Action, rules: TextRules)
    ensures ActionArguments(SanitizeAction(action, rules)) ==
            Shown(ActionArguments(action), MasksArguments(action, rules), rules.sensitive)
  {
    var redacted := RedactFields(action, rules.sensitive);
    if "arguments" in action {
      assert redacted["arguments"] == Redact(action["arguments"], rules.sensitive);
    }
  }

  lemma StoredGitArguments(action: Action, rules: TextRules)
    ensures GitArguments(SanitizeAction(action, rules)) == Shown(GitArguments(action), false, rules.sensitive)
  {
    var stored := SanitizeAction(action, rules);
    if "context" in action {
      assert stored["context"] == Redact(action["context"], rules.sensitive);
      if action["context"].Obj? {
        var context := action["context"].fields;
        assert stored["context"] == Obj(RedactFields(context, rules.sensitive));
        if "current_cwd" in context {
          RedactKeepsTruth(context["current_cwd"], rules.sensitive);
        }
      }
    }
  }

  /** Nothing in the arguments is hidden by redaction. */
  predicate Clean(arguments: map<string, Json>, sensitive: KeyTest) {
    !HasSensitiveKey(Obj(arguments), sensitive) && !ContainsRedacted(Obj(arguments))
  }

  /** The caller-side condition under which a retry can run at all. */
  predicate CanRetry(tool: string, action: Action, ephemeral: bool, rules: TextRules) {
    var arguments := RetryArgumentsOf(tool, action);
    if tool == ENV_SET_USER && ephemeral then !ContainsRedacted(Obj(arguments))
    else
      && Clean(arguments, rules.sensitive)
      && (tool != GIT_STATUS && MasksArguments(action, rules) ==> arguments.Keys !! MASKED_KEYS)
  }

  lemma ActionShowsItsArguments(tool: string, arguments: map<string, Json>)
    requires tool != REDACTED
    ensures ContainsRedacted(RetryAction(tool, arguments)) <==> ContainsRedacted(Obj(arguments))
  {
    var fields := RetryAction(tool, arguments).fields;
    assert fields["arguments"] == Obj(arguments);
    assert fields["mode"] == Str("action") != MARKER;
  }

  /** The stored form shows the marker exactly when something is hidden; otherwise it is the original. */
  lemma ShownOrHidden(part: map<string, Json>, masked: bool, sensitive: KeyTest)
    ensures
      var shown := Shown(part, masked, sensitive);
      && (ContainsRedacted(Obj(shown)) <==> !Clean(part, sensitive) || (masked && !(part.Keys !! MASKED_KEYS)))
      && (!ContainsRedacted(Obj(shown)) ==> shown == part)
  {
    var shown := Shown(part, masked, sensitive);
    forall k | k in part
      ensures ContainsRedacted(shown[k]) <==>
        (masked && k in MASKED_KEYS) || sensitive(k) || HasSensitiveKey(part[k], sensitive) || ContainsRedacted(part[k])
      ensures !ContainsRedacted(shown[k]) ==> shown[k] == part[k]
    {
      MarkerExactlyWhenHidden(part[k], sensitive);
      if !ContainsRedacted(Redact(part[k], sensitive)) {
        MarkerFreeIsUnchanged(part[k], sensitive);
      }
    }
    if masked && !(part.Keys !! MASKED_KEYS) {
      var k :| k in part.Keys && k in MASKED_KEYS;
      assert ContainsRedacted(shown[k]);
    }
  }

  lemma ShownPick(fields: map<string, Json>, keys: set<string>, masked: bool, sensitive: KeyTest)
    ensures Pick(Shown(fields, masked, sensitive), keys) == Shown(Pick(fields, keys), masked, sensitive)
  {
  }

  /** What the retry reads from the stored action is the stored form of what it would read from the original. */
  lemma RetryReadsTheStoredForm(tool: string, action: Action, rules: TextRules)
    ensures RetryArgumentsOf(tool, SanitizeAction(action, rules)) ==
            Shown(RetryArgumentsOf(tool, action), tool != GIT_STATUS && MasksArguments(action, rules), rules.sensitive)
  {
    var masked := MasksArguments(action, rules);
    var raw := ActionArguments(action);
    if tool == ENV_SET_USER {
      StoredArguments(action, rules);
      ShownPick(raw, {"name", "value"}, masked, rules.sensitive);
    } else if tool == GIT_STATUS {
      StoredGitArguments(action, rules);
    } else {
      StoredArguments(action, rules);
    }
  }

  /**
    A retry runs exactly when `CanRetry` holds of the action the user asked for, and then with the
    arguments that the unredacted action prescribes: all of them, the name and value of the variable,
    or the working directory.
   */
  lemma RetryIsFaithful(tool: string, action: Action, ephemeral: Option<map<string, Json>>, rules: TextRules)
    requires tool != REDACTED
    requires ephemeral.Some? ==> ephemeral.value == ActionArguments(action)
    ensures
      var retry := PrepareRetry(tool, SanitizeAction(action, rules), ephemeral);
      retry == if CanRetry(tool, action, ephemeral.Some?, rules)
               then Some(RetryAction(tool, RetryArgumentsOf(tool, action)))
               else None
  {
    ActionShowsItsArguments(tool, PreparedArguments(tool, SanitizeAction(action, rules), ephemeral));
    if !(tool == ENV_SET_USER && ephemeral.Some?) {
      RetryReadsTheStoredForm(tool, action, rules);
      ShownOrHidden(RetryArgumentsOf(tool, action), tool != GIT_STATUS && MasksArguments(action, rules), rules.sensitive);
    }
  }

  // ----- what a retry carries -----

  /** The value at a field of a part of the action, if both are there. */
  function Named(action: Action, part: string, k: string): Option<Json> {
    At(Obj(action), [Key(part), Key(k)])
  }

  lemma NamedIs(action: Action, part: string, k: string)
    ensures Named(action, part, k) ==
      if part in action && action[part].Obj? && k in action[part].fields then Some(action[part].fields[k]) else None
  {
    var path := [Key(part), Key(k)];
    assert path[1..] == [Key(k)] && [Key(k)][1..] == [];
    if part in action {
      assert At(Obj(action), path) == At(action[part], [Key(k)]);
      if action[part].Obj? && k in action[part].fields {
        assert At(action[part], [Key(k)]) == At(action[part].fields[k], []);
      }
    }
  }

  /**
    The retry names the tool, and carries the name and value of a variable, the working directory of a Git status if
    there is one, and for any other tool all arguments of the action.
   */
  lemma RetryCarriesExactly(tool: string, action: Action, k: string)
    ensures
      var r := RetryAction(tool, RetryArgumentsOf(tool, action));
      && r.Obj? && r.fields.Keys == {"mode", "capability", "arguments"}
      && r.fields["mode"] == Str("action") && r.fields["capability"] == Str(tool) && r.fields["arguments"].Obj?
      && Get(r.fields["arguments"].fields, k) ==
           if tool == "local.windows.env_set_user" then if k == "name" || k == "value" then Named(action, "arguments", k) else None
           else if tool == "local.git.status" then
             if k == "cwd" && Named(action, "context", "current_cwd").Some? && Truthy(Named(action, "context", "current_cwd").value)
             then Named(action, "context", "current_cwd") else None
           else Named(action, "arguments", k)
  {
    NamedIs(action, "arguments", k);
    NamedIs(action, "context", "current_cwd");
  }
}
