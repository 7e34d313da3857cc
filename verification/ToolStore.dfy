/** The states of local tools: src/assistant/tools/state.py, and what every run of its calls keeps. */
module ToolStore {
  import opened Common

  datatype ToolState = Draft | Validating | Validated | Approved | Installed | Enabled | Disabled | Broken | Rejected

  /** Name and version; the stored key joins them with '@' (see `KeyTextIsInjective`). */
  datatype ToolKey = ToolKey(name: string, version: string)

  type Hashes = map<string, string>

  datatype ToolRecord = ToolRecord(state: ToolState, hashes: Hashes)

  type Tools = map<ToolKey, ToolRecord>

  datatype ToolError = NoSuchTool | InvalidToolTransition(from: ToolState, to: ToolState)

  /** `ALLOWED_TRANSITIONS` */
  function Allowed(s: ToolState): set<ToolState> {
    match s
    case Draft => {Validating, Rejected}
    case Validating => {Validated, Rejected}
    case Validated => {Approved, Rejected}
    case Approved => {Installed, Rejected}
    case Installed => {Enabled, Disabled, Broken}
    case Enabled => {Disabled, Broken}
    case Disabled => {Enabled, Broken}
    case Broken => {Validated, Rejected}
    case Rejected => {}
  }

  function KeyText(key: ToolKey): string {
    key.name + "@" + key.version
  }

  /** Tool names have no '@', so that the text of a key says which tool it is. */
  lemma KeyTextIsInjective(a: ToolKey, b: ToolKey)
    requires '@' !in a.name && '@' !in b.name && KeyText(a) == KeyText(b)
    ensures a == b
  {
    var s := KeyText(a);
    assert forall i :: 0 <= i < |a.name| ==> s[i] == a.name[i] != '@';
    assert forall i :: 0 <= i < |b.name| ==> s[i] == b.name[i] != '@';
    assert s[|a.name|] == '@' && s[|b.name|] == '@';
    assert a.name == s[..|a.name|] && b.name == s[..|b.name|];
    assert a.version == s[|a.name| + 1..] && b.version == s[|b.name| + 1..];
  }

  // ----- one call -----

  function StateOf(tools: Tools, key: ToolKey): Option<ToolState> {
    if key in tools then Some(tools[key].state) else None
  }

  function RegisterIn(tools: Tools, key: ToolKey, hashes: Hashes): Tools {
    tools[key := ToolRecord(Draft, hashes)]
  }

  function TransitionIn(tools: Tools, key: ToolKey, target: ToolState): Result<Tools, ToolError> {
    if key !in tools then Err(NoSuchTool)
    else if target !in Allowed(tools[key].state) then Err(InvalidToolTransition(tools[key].state, target))
    else Ok(tools[key := tools[key].(state := target)])
  }

  /** A file that differs breaks the tool, whatever its state, once it is past validation. */
  predicate Breaks(record: ToolRecord, current: Hashes) {
    record.hashes != current && record.state != Draft && record.state != Validating
  }

  function VerifyIn(tools: Tools, key: ToolKey, current: Hashes): Result<Tools, ToolError> {
    if key !in tools then Err(NoSuchTool)
    else if Breaks(tools[key], current) then Ok(tools[key := tools[key].(state := Broken)])
    else Ok(tools)
  }

  /** Which state changes are carried out. */
  lemma TransitionsExactly(tools: Tools, key: ToolKey, target: ToolState)
    ensures TransitionIn(tools, key, target).Ok? <==>
      key in tools &&
      var s := tools[key].state;
      match target
      case Draft => false
      case Validating => s == Draft
      case Validated => s == Validating || s == Broken
      case Approved => s == Validated
      case Installed => s == Approved
      case Enabled => s == Installed || s == Disabled
      case Disabled => s == Installed || s == Enabled
      case Broken => s == Installed || s == Enabled || s == Disabled
      case Rejected => s == Draft || s == Validating || s == Validated || s == Approved || s == Broken
  {
  }

  /** A tool is broken by a check of its files exactly if they differ and it was validated once; nothing else changes. */
  lemma VerifiesExactly(tools: Tools, key: ToolKey, current: Hashes, other: ToolKey)
    requires key in tools
    ensures
      VerifyIn(tools, key, current).Ok? &&
      var after := VerifyIn(tools, key, current).value;
      && (other in after <==> other in tools)
      && (other in tools ==>
            && after[other].hashes == tools[other].hashes
            && after[other].state ==
                 if other == key && current != tools[key].hashes && tools[key].state != Draft && tools[key].state != Validating then Broken
                 else tools[other].state)
  {
  }

  class ToolStateStore {
    var records: Tools

    constructor ()
      ensures records == map[]
    {
      records := map[];
    }

    method RegisterDraft(key: ToolKey, hashes: Hashes)
      modifies this
      ensures records == RegisterIn(old(records), key, hashes)
    {
      records := records[key := ToolRecord(Draft, hashes)];
    }

    method Transition(key: ToolKey, target: ToolState) returns (r: Result<ToolRecord, ToolError>)
      modifies this
      ensures
        match TransitionIn(old(records), key, target)
        case Ok(after) => records == after && r == Ok(after[key])
        case Err(e) => records == old(records) && r == Err(e)
    {
      if key !in records {
        return Err(NoSuchTool);
      }
      var current := records[key].state;
      if target !in Allowed(current) {
        return Err(InvalidToolTransition(current, target));
      }
      records := records[key := records[key].(state := target)];
      r := Ok(records[key]);
    }

    method Get(key: ToolKey) returns (record: Option<ToolRecord>)
      ensures record == if key in records then Some(records[key]) else None
    {
      record := if key in records then Some(records[key]) else None;
    }

    method VerifyIntegrity(key: ToolKey, current: Hashes) returns (r: Result<ToolRecord, ToolError>)
      modifies this
      ensures
        match VerifyIn(old(records), key, current)
        case Ok(after) => records == after && key in after && r == Ok(after[key])
        case Err(e) => records == old(records) && r == Err(e)
    {
      var record := Get(key);
      if record.None? {
        return Err(NoSuchTool);
      }
      if record.value.hashes != current && record.value.state !in {Draft, Validating} {
        records := records[key := records[key].(state := Broken)];
        return Ok(records[key]);
      }
      r := Ok(record.value);
    }
  }

  // ----- runs -----

  datatype Call =
    | Register(key: ToolKey, hashes: Hashes)
    | Transition(key: ToolKey, target: ToolState)
    | Verify(key: ToolKey, hashes: Hashes)

  /** The store, and for the theorems the states of each tool since its last registration, and what was registered. */
  datatype Registry = Registry(tools: Tools, history: map<ToolKey, seq<ToolState>>, registered: map<ToolKey, Hashes>)

  const EMPTY := Registry(map[], map[], map[])

  function WithState(r: Registry, key: ToolKey, tools: Tools): Registry {
    if tools == r.tools || key !in tools then r
    else Registry(tools, r.history[key := (if key in r.history then r.history[key] else []) + [tools[key].state]], r.registered)
  }

  function Step(r: Registry, c: Call): Registry {
    match c
    case Register(key, hashes) => Registry(RegisterIn(r.tools, key, hashes), r.history[key := [Draft]], r.registered[key := hashes])
    case Transition(key, target) =>
      (match TransitionIn(r.tools, key, target)
       case Ok(tools) => WithState(r, key, tools)
       case Err(_) => r)
    case Verify(key, hashes) =>
      (match VerifyIn(r.tools, key, hashes)
       case Ok(tools) => WithState(r, key, tools)
       case Err(_) => r)
  }

  function Run(r: Registry, calls: seq<Call>): Registry
    decreases |calls|
  {
    if calls == [] then r else Run(Step(r, calls[0]), calls[1..])
  }

  /** One state can follow another: by the table, or because the files differ. */
  predicate Follows(a: ToolState, b: ToolState) {
    b in Allowed(a) || (b == Broken && a != Draft && a != Validating)
  }

  predicate IsHistory(h: seq<ToolState>) {
    && h != [] && h[0] == Draft
    && forall k :: 0 < k < |h| ==> Follows(h[k - 1], h[k])
  }

  ghost predicate SoundTool(r: Registry, key: ToolKey)
    requires key in r.tools
  {
    && key in r.history && key in r.registered
    && IsHistory(r.history[key])
    && r.history[key][|r.history[key]| - 1] == r.tools[key].state
    && r.tools[key].hashes == r.registered[key]
  }

  ghost predicate Sound(r: Registry) {
    forall key :: key in r.tools ==> SoundTool(r, key)
  }

  lemma HistoryGoesOn(h: seq<ToolState>, s: ToolState)
    requires IsHistory(h) && Follows(h[|h| - 1], s)
    ensures IsHistory(h + [s])
  {
  }

  lemma WithStateIsSound(r: Registry, key: ToolKey, tools: Tools)
    requires Sound(r) && key in r.tools && key in tools && tools == r.tools[key := r.tools[key].(state := tools[key].state)]
    requires tools != r.tools ==> Follows(r.tools[key].state, tools[key].state)
    ensures Sound(WithState(r, key, tools))
  {
    if tools != r.tools {
      assert SoundTool(r, key);
      HistoryGoesOn(r.history[key], tools[key].state);
      assert forall other :: other in tools && other != key ==> SoundTool(r, other);
    }
  }

  lemma StepIsSound(r: Registry, c: Call)
    requires Sound(r)
    ensures Sound(Step(r, c))
  {
    match c
    case Register(key, hashes) =>
      assert forall other :: other in Step(r, c).tools && other != key ==> SoundTool(r, other);
    case Transition(key, target) =>
      if TransitionIn(r.tools, key, target).Ok? {
        WithStateIsSound(r, key, TransitionIn(r.tools, key, target).value);
      }
    case Verify(key, hashes) =>
      if VerifyIn(r.tools, key, hashes).Ok? {
        WithStateIsSound(r, key, VerifyIn(r.tools, key, hashes).value);
      }
  }

  lemma {:induction false} RunIsSound(r: Registry, calls: seq<Call>)
    requires Sound(r)
    ensures Sound(Run(r, calls))
    decreases |calls|
  {
    if calls != [] {
      StepIsSound(r, calls[0]);
      RunIsSound(Step(r, calls[0]), calls[1..]);
    }
  }

  // ----- what the history of an enabled tool looks like -----

  predicate PastInstallation(s: ToolState) {
    s == Installed || s == Enabled || s == Disabled
  }

  /** Validated, approved and installed in this order at `a - 1`, `a` and `a + 1`, and never broken, rejected or approved again. */
  predicate InstalledSince(h: seq<ToolState>, a: nat) {
    && 0 < a < |h| - 1
    && h[a - 1] == Validated && h[a] == Approved && h[a + 1] == Installed
    && forall k :: a < k < |h| ==> PastInstallation(h[k])
  }

  lemma {:induction false} InstallationWasApproved(h: seq<ToolState>) returns (a: nat)
    requires IsHistory(h) && PastInstallation(h[|h| - 1])
    ensures InstalledSince(h, a)
  {
    var n := |h| - 1;
    assert Follows(h[n - 1], h[n]);
    if h[n] == Installed {
      assert h[n - 1] == Approved;
      assert Follows(h[n - 2], h[n - 1]);
      a := n - 1;
    } else {
      assert PastInstallation(h[n - 1]);
      a := InstallationWasApproved(h[..n]);
      assert forall k :: a < k < n ==> h[k] == h[..n][k];
    }
  }

  /**
    In every reachable store, an enabled tool has the hashes of its last draft registration, and since that
    registration it was validated, approved and installed in this order, with nothing but installed, enabled and
    disabled after the last approval.
   */
  lemma EnabledWasApproved(calls: seq<Call>, key: ToolKey) returns (a: nat)
    requires StateOf(Run(EMPTY, calls).tools, key) == Some(Enabled)
    ensures
      var r := Run(EMPTY, calls);
      && key in r.history && key in r.registered
      && r.tools[key].hashes == r.registered[key]
      && InstalledSince(r.history[key], a)
  {
    RunIsSound(EMPTY, calls);
    var r := Run(EMPTY, calls);
    assert SoundTool(r, key);
    a := InstallationWasApproved(r.history[key]);
  }
}
