/**
  Drafting, installing and enabling a tool: src/assistant/tools/generator.py, src/assistant/tools/installer.py
  and `create_draft`, `approve_install_enable` and `expire_draft` of src/assistant/capabilities/provisioning.py.
  Files are reduced to which directories exist; what validation, hashing, the environment and pip give is a parameter.
 */
module ToolProvisioning {
  import opened Common
  import opened ToolStore

  // ----- tool names -----

  predicate IsLower(c: char) {
    'a' <= c <= 'z'
  }

  predicate IsWord(c: char) {
    IsLower(c) || '0' <= c <= '9'
  }

  /** Where a reader of the name is: before a first letter, in the first word, after a dot, in a later word. */
  datatype Reading = First | InFirst | AfterDot | InLater | Wrong

  function Read(r: Reading, c: char): Reading {
    match r
    case First => if IsLower(c) then InFirst else Wrong
    case InFirst => if IsWord(c) then InFirst else if c == '.' then AfterDot else Wrong
    case AfterDot => if IsLower(c) then InLater else Wrong
    case InLater => if IsWord(c) || c == '_' then InLater else if c == '.' then AfterDot else Wrong
    case Wrong => Wrong
  }

  function ReadAll(r: Reading, s: string): Reading
    decreases s
  {
    if s == "" then r else ReadAll(Read(r, s[0]), s[1..])
  }

  /** `^[a-z][a-z0-9]*(?:\.[a-z][a-z0-9_]*)+$` */
  predicate ValidToolName(name: string) {
    ReadAll(First, name) == InLater
  }

  // ----- the same names, word by word -----

  predicate FirstWord(s: string) {
    s != "" && 'a' <= s[0] <= 'z' && forall i :: 0 <= i < |s| ==> 'a' <= s[i] <= 'z' || '0' <= s[i] <= '9'
  }

  predicate LaterWord(s: string) {
    s != "" && 'a' <= s[0] <= 'z' && forall i :: 0 <= i < |s| ==> 'a' <= s[i] <= 'z' || '0' <= s[i] <= '9' || s[i] == '_'
  }

  function Dotted(words: seq<string>): string {
    if words == [] then "" else "." + words[0] + Dotted(words[1..])
  }

  ghost predicate LaterWords(words: seq<string>) {
    forall k :: 0 <= k < |words| ==> LaterWord(words[k])
  }

  lemma {:induction false} ReadConcat(r: Reading, a: string, b: string)
    ensures ReadAll(r, a + b) == ReadAll(ReadAll(r, a), b)
    decreases a
  {
    if a == "" {
      assert a + b == b;
    } else {
      assert (a + b)[1..] == a[1..] + b;
      ReadConcat(Read(r, a[0]), a[1..], b);
    }
  }

  lemma {:induction false} ReadTail(r: Reading, s: string)
    requires r == InFirst || r == InLater
    requires forall i :: 0 <= i < |s| ==> IsWord(s[i]) || (r == InLater && s[i] == '_')
    ensures ReadAll(r, s) == r
    decreases s
  {
    if s != "" {
      ReadTail(r, s[1..]);
    }
  }

  lemma {:induction false} ReadDotted(r: Reading, words: seq<string>)
    requires (r == InFirst || r == InLater) && LaterWords(words)
    ensures ReadAll(r, Dotted(words)) == if words == [] then r else InLater
    decreases |words|
  {
    if words != [] {
      var w := words[0];
      ReadConcat(r, "." + w, Dotted(words[1..]));
      ReadConcat(r, ".", w);
      assert ReadAll(r, ".") == AfterDot;
      ReadTail(InLater, w[1..]);
      ReadDotted(InLater, words[1..]);
    }
  }

  lemma LetterAfterDot(r: Reading, s: string)
    requires (r == InFirst || r == InLater) && s != "" && s[0] == '.' && ReadAll(r, s) == InLater
    ensures 2 <= |s| && IsLower(s[1]) && ReadAll(InLater, s[2..]) == InLater
  {
    assert ReadAll(r, s) == ReadAll(AfterDot, s[1..]);
    if 2 <= |s| {
      assert s[1..][1..] == s[2..];
      if !IsLower(s[1]) {
        WrongStays(s[2..]);
      }
    }
  }

  /** What is left to read is the rest of a word and then dotted words. */
  lemma {:induction false} SplitWords(r: Reading, s: string) returns (rest: string, words: seq<string>)
    requires (r == InFirst || r == InLater) && ReadAll(r, s) == InLater
    ensures s == rest + Dotted(words) && LaterWords(words) && (r == InFirst ==> words != [])
    ensures forall i :: 0 <= i < |rest| ==> IsWord(rest[i]) || (r == InLater && rest[i] == '_')
    decreases |s|
  {
    if s == "" {
      rest, words := "", [];
    } else if s[0] == '.' {
      LetterAfterDot(r, s);
      var word, more := SplitWords(InLater, s[2..]);
      rest, words := "", [[s[1]] + word] + more;
      assert words[1..] == more;
      assert s == "." + ([s[1]] + word) + Dotted(more);
    } else {
      if Read(r, s[0]) == Wrong {
        WrongStays(s[1..]);
      }
      var word, more := SplitWords(r, s[1..]);
      rest, words := [s[0]] + word, more;
    }
  }

  predicate IsDotted(name: string, first: string, words: seq<string>) {
    FirstWord(first) && words != [] && name == first + Dotted(words)
  }

  lemma ValidNameHasWords(name: string) returns (first: string, words: seq<string>)
    requires ValidToolName(name)
    ensures IsDotted(name, first, words) && LaterWords(words)
  {
    ValidNameStartsLower(name);
    var rest;
    rest, words := SplitWords(InFirst, name[1..]);
    first := [name[0]] + rest;
    PlusIsAssociative([name[0]], rest, Dotted(words));
  }

  lemma PlusIsAssociative(a: string, b: string, c: string)
    ensures (a + b) + c == a + (b + c)
  {
  }

  lemma WordsAreValid(name: string, first: string, words: seq<string>)
    requires IsDotted(name, first, words) && LaterWords(words)
    ensures ValidToolName(name)
  {
    ReadConcat(First, first, Dotted(words));
    ReadTail(InFirst, first[1..]);
    ReadDotted(InFirst, words);
  }

  /** A valid name is a first word and one or more dotted ones, each starting with a letter; underscores only after the first. */
  lemma ValidNamesExactly(name: string)
    ensures ValidToolName(name) <==>
      exists first: string, words: seq<string> :: IsDotted(name, first, words) && LaterWords(words)
  {
    if ValidToolName(name) {
      var first, words := ValidNameHasWords(name);
      assert IsDotted(name, first, words) && LaterWords(words);
    }
    if first: string, words: seq<string> :| IsDotted(name, first, words) && LaterWords(words) {
      WordsAreValid(name, first, words);
    }
  }

  lemma {:induction false} WrongStays(s: string)
    ensures ReadAll(Wrong, s) == Wrong
  {
    if s != "" {
      WrongStays(s[1..]);
    }
  }

  lemma ValidNameStartsLower(name: string)
    requires ValidToolName(name)
    ensures name != "" && IsLower(name[0])
  {
    if name != "" && !IsLower(name[0]) {
      WrongStays(name[1..]);
    }
  }

  lemma {:induction false} ReadCharacters(r: Reading, s: string)
    requires ReadAll(r, s) != Wrong
    ensures forall c :: c in s ==> IsWord(c) || c == '.' || c == '_'
    decreases s
  {
    if s != "" {
      if Read(r, s[0]) == Wrong {
        WrongStays(s[1..]);
      }
      ReadCharacters(Read(r, s[0]), s[1..]);
      assert forall c :: c in s ==> c == s[0] || c in s[1..];
    }
  }

  /** Hence the stored keys of generated tools never coincide. */
  lemma GeneratedKeysAreDistinct(a: ToolKey, b: ToolKey)
    requires ValidToolName(a.name) && ValidToolName(b.name) && KeyText(a) == KeyText(b)
    ensures a == b
  {
    ReadCharacters(First, a.name);
    ReadCharacters(First, b.name);
    KeyTextIsInjective(a, b);
  }

  // ----- the directories -----

  /** A quarantined draft, with the text of its hash file if there is one. */
  datatype DraftDir = DraftDir(definitionHash: Option<string>)

  type Drafts = map<ToolKey, DraftDir>

  datatype ProvisionError =
    | InvalidToolName
    | DraftExists
    | OutsideQuarantine
    | NotValidated
    | ApprovalRequired
    | TargetExists
    | InvalidRequirementsLock
    | SetupFailed
    | ManifestError
    | StoreError(error: ToolError)

  // ----- generate -----

  /** What generation finds in the files it has written. */
  datatype Written = Written(hashes: Hashes, valid: bool)

  /** `generate`: the resulting store and drafts, and the state of the draft. */
  function GenerateIn(tools: Tools, drafts: Drafts, key: ToolKey, hash: string, written: Written):
    (Tools, Drafts, Result<ToolState, ProvisionError>)
  {
    if !ValidToolName(key.name) then (tools, drafts, Err(InvalidToolName))
    else if key in drafts then
      if drafts[key].definitionHash == Some(hash) && StateOf(tools, key) == Some(Validated)
      then (tools, drafts, Ok(Validated))
      else (tools, drafts, Err(DraftExists))
    else
      var state := if written.valid then Validated else Rejected;
      (tools[key := ToolRecord(state, written.hashes)], drafts[key := DraftDir(Some(hash))], Ok(state))
  }

  /** `remove_quarantined`; `path` is the draft directory named, or `None` when it is outside the quarantine. */
  function RemoveIn(tools: Tools, drafts: Drafts, key: ToolKey, path: Option<ToolKey>): (Tools, Drafts, Result<bool, ProvisionError>) {
    if path.None? then (tools, drafts, Err(OutsideQuarantine))
    else if StateOf(tools, key) != Some(Validated) && StateOf(tools, key) != Some(Rejected) then (tools, drafts, Ok(false))
    else (tools[key := tools[key].(state := Rejected)], drafts - {path.value}, Ok(true))
  }

  class ToolDraftGenerator {
    const store: ToolStateStore
    var drafts: Drafts

    constructor (store: ToolStateStore)
      ensures this.store == store && drafts == map[]
    {
      this.store, drafts := store, map[];
    }

    method Generate(key: ToolKey, hash: string, written: Written) returns (r: Result<ToolState, ProvisionError>)
      modifies this, store
      ensures (store.records, drafts, r) == GenerateIn(old(store.records), old(drafts), key, hash, written)
    {
      if !ValidToolName(key.name) {
        return Err(InvalidToolName);
      }
      if key in drafts {
        var record := store.Get(key);
        if drafts[key].definitionHash == Some(hash) && record.Some? && record.value.state == Validated {
          return Ok(record.value.state);
        }
        return Err(DraftExists);
      }
      drafts := drafts[key := DraftDir(Some(hash))];
      store.RegisterDraft(key, written.hashes);
      var _ := store.Transition(key, Validating);
      var record := store.Transition(key, if written.valid then Validated else Rejected);
      assert store.records == old(store.records)[key := record.value];
      r := Ok(record.value.state);
    }

    method RemoveQuarantined(key: ToolKey, path: Option<ToolKey>) returns (r: Result<bool, ProvisionError>)
      modifies this, store
      ensures (store.records, drafts, r) == RemoveIn(old(store.records), old(drafts), key, path)
    {
      if path.None? {
        return Err(OutsideQuarantine);
      }
      var record := store.Get(key);
      if record.None? || record.value.state !in {Validated, Rejected} {
        return Ok(false);
      }
      if record.value.state == Validated {
        var _ := store.Transition(key, Rejected);
      }
      assert store.records == old(store.records)[key := record.value.(state := Rejected)];
      drafts := drafts - {path.value};
      r := Ok(true);
    }
  }

  // ----- install -----

  /** What becomes of a copied tool: environment, requirements and pip. */
  datatype Setup = Works | EnvironmentFails | UnhashedLock | PipFails

  /** `install`; `manifest` is the tool that the manifest in the source directory names, if it can be read. */
  function InstallIn(tools: Tools, installed: set<ToolKey>, manifest: Option<ToolKey>, setup: Setup):
    (Tools, set<ToolKey>, Result<ToolKey, ProvisionError>)
  {
    if manifest.None? then (tools, installed, Err(ManifestError))
    else
      var key := manifest.value;
      if StateOf(tools, key) != Some(Approved) then (tools, installed, Err(ApprovalRequired))
      else if key in installed then (tools, installed, Err(TargetExists))
      else
        match setup
        case Works => (tools[key := tools[key].(state := Installed)], installed + {key}, Ok(key))
        case UnhashedLock => (tools, installed, Err(InvalidRequirementsLock))
        case _ => (tools, installed + {key}, Err(SetupFailed))
  }

  class ToolInstaller {
    const store: ToolStateStore
    var installed: set<ToolKey>

    constructor (store: ToolStateStore)
      ensures this.store == store && installed == {}
    {
      this.store, installed := store, {};
    }

    method Install(manifest: Option<ToolKey>, setup: Setup) returns (r: Result<ToolKey, ProvisionError>)
      modifies this, store
      ensures (store.records, installed, r) == InstallIn(old(store.records), old(installed), manifest, setup)
    {
      if manifest.None? {
        return Err(ManifestError);
      }
      var key := manifest.value;
      var record := store.Get(key);
      if record.None? || record.value.state != Approved {
        return Err(ApprovalRequired);
      }
      if key in installed {
        return Err(TargetExists);
      }
      installed := installed + {key};
      if setup == EnvironmentFails {
        return Err(SetupFailed);
      }
      if setup == UnhashedLock {
        installed := installed - {key};
        assert installed == old(installed);
        return Err(InvalidRequirementsLock);
      }
      if setup == PipFails {
        return Err(SetupFailed);
      }
      var _ := store.Transition(key, Installed);
      r := Ok(key);
    }
  }

  // ----- approve, install and enable -----

  function ApproveIn(tools: Tools, installed: set<ToolKey>, key: ToolKey, manifest: Option<ToolKey>, setup: Setup):
    (Tools, set<ToolKey>, Result<(), ProvisionError>)
  {
    if StateOf(tools, key) == Some(Enabled) && key in installed then (tools, installed, Ok(()))
    else if StateOf(tools, key) != Some(Validated) then (tools, installed, Err(NotValidated))
    else
      var (tools1, installed1, r) := InstallIn(tools[key := tools[key].(state := Approved)], installed, manifest, setup);
      if r.Err? then (tools1, installed1, Err(r.error))
      else
        match TransitionIn(tools1, key, Enabled)
        case Ok(tools2) => (tools2, installed1, Ok(()))
        case Err(e) => (tools1, installed1, Err(StoreError(e)))
  }

  class CapabilityProvisioningService {
    const store: ToolStateStore
    const generator: ToolDraftGenerator
    const installer: ToolInstaller

    constructor (store: ToolStateStore, generator: ToolDraftGenerator, installer: ToolInstaller)
      requires generator.store == store && installer.store == store
      ensures this.store == store && this.generator == generator && this.installer == installer
    {
      this.store, this.generator, this.installer := store, generator, installer;
    }

    predicate Valid()
    {
      generator.store == store && installer.store == store
    }

    method ApproveInstallEnable(key: ToolKey, manifest: Option<ToolKey>, setup: Setup) returns (r: Result<(), ProvisionError>)
      requires Valid()
      modifies store, installer
      ensures (store.records, installer.installed, r) == ApproveIn(old(store.records), old(installer.installed), key, manifest, setup)
    {
      var record := store.Get(key);
      if record.Some? && record.value.state == Enabled && key in installer.installed {
        return Ok(());
      }
      if record.None? || record.value.state != Validated {
        return Err(NotValidated);
      }
      var _ := store.Transition(key, Approved);
      var target := installer.Install(manifest, setup);
      if target.Err? {
        return Err(target.error);
      }
      var enabled := store.Transition(key, Enabled);
      if enabled.Err? {
        return Err(StoreError(enabled.error));
      }
      r := Ok(());
    }

    /** `expire_draft` */
    method ExpireDraft(key: ToolKey, path: Option<ToolKey>) returns (r: Result<bool, ProvisionError>)
      requires Valid()
      modifies store, generator
      ensures (store.records, generator.drafts, r) == RemoveIn(old(store.records), old(generator.drafts), key, path)
    {
      r := generator.RemoveQuarantined(key, path);
    }
  }

  // ----- what these operations promise -----

  lemma EnablementEnables(tools: Tools, installed: set<ToolKey>, key: ToolKey, manifest: Option<ToolKey>, setup: Setup)
    requires ApproveIn(tools, installed, key, manifest, setup).2.Ok?
    ensures StateOf(ApproveIn(tools, installed, key, manifest, setup).0, key) == Some(Enabled)
  {
  }

  /**
    A draft is made exactly for a valid name without a draft, and one is used again exactly if it was made from the same
    definition and is still validated; a new one replaces the record of the tool and ends as its validation says.
   */
  lemma GenerationSucceedsExactly(tools: Tools, drafts: Drafts, key: ToolKey, hash: string, written: Written)
    ensures
      var (tools1, drafts1, r) := GenerateIn(tools, drafts, key, hash, written);
      && (r.Ok? <==>
            ValidToolName(key.name) &&
            (key in drafts ==> drafts[key].definitionHash == Some(hash) && key in tools && tools[key].state == Validated))
      && (r.Ok? && key !in drafts ==>
            && key in tools1 && tools1[key].hashes == written.hashes && tools1[key].state == (if written.valid then Validated else Rejected)
            && r.value == tools1[key].state && key in drafts1 && drafts1[key].definitionHash == Some(hash))
      && (r.Ok? && key in drafts ==> r.value == Validated)
      && (key in drafts || r.Err? ==> tools1 == tools && drafts1 == drafts)
      && (forall other :: other != key ==>
            (other in tools1 <==> other in tools) && (other in drafts1 <==> other in drafts) && StateOf(tools1, other) == StateOf(tools, other))
  {
  }

  /** Success leaves the tool enabled and its directory in place, and doing it again changes nothing. */
  lemma EnablementIsIdempotent(tools: Tools, installed: set<ToolKey>, key: ToolKey, manifest: Option<ToolKey>, setup: Setup,
                               manifestAgain: Option<ToolKey>, setupAgain: Setup)
    requires ApproveIn(tools, installed, key, manifest, setup).2.Ok?
    ensures
      var (tools1, installed1, _) := ApproveIn(tools, installed, key, manifest, setup);
      && StateOf(tools1, key) == Some(Enabled) && key in installed1
      && ApproveIn(tools1, installed1, key, manifestAgain, setupAgain) == (tools1, installed1, Ok(()))
  {
  }

  /**
    It succeeds exactly on a tool that is already enabled and installed, or on a validated one that is not installed
    yet, whose manifest names it and whose environment can be set up.
   */
  lemma EnablementSucceedsExactly(tools: Tools, installed: set<ToolKey>, key: ToolKey, manifest: Option<ToolKey>, setup: Setup)
    ensures ApproveIn(tools, installed, key, manifest, setup).2.Ok? <==>
      || (StateOf(tools, key) == Some(Enabled) && key in installed)
      || (StateOf(tools, key) == Some(Validated) && manifest == Some(key) && key !in installed && setup == Works)
  {
  }

  /** What enabling leaves: the tool enabled, or approved when a validated one could not be installed; a failed setup leaves its directory. */
  lemma EnablementLeavesExactly(tools: Tools, installed: set<ToolKey>, key: ToolKey, manifest: Option<ToolKey>, setup: Setup)
    requires manifest.Some? ==> manifest == Some(key)
    ensures
      var (tools1, installed1, r) := ApproveIn(tools, installed, key, manifest, setup);
      var copied := StateOf(tools, key) == Some(Validated) && manifest.Some? && key !in installed;
      && StateOf(tools1, key) == (if r.Ok? then Some(Enabled) else if StateOf(tools, key) == Some(Validated) then Some(Approved) else StateOf(tools, key))
      && installed1 == installed + (if copied && setup != UnhashedLock then {key} else {})
      && (key in tools ==> key in tools1 && tools1[key].hashes == tools[key].hashes)
      && (forall other :: other != key ==> (other in tools1 <==> other in tools) && (other in tools ==> tools1[other] == tools[other]))
  {
  }

  /** Expiry touches no tool but its own, and that only while it is validated: an approved, installed or enabled tool stays. */
  lemma ExpiryTouchesOnlyDrafts(tools: Tools, drafts: Drafts, key: ToolKey, path: Option<ToolKey>, other: ToolKey)
    ensures
      var (tools1, drafts1, r) := RemoveIn(tools, drafts, key, path);
      && (StateOf(tools1, other) != StateOf(tools, other) ==>
            other == key && StateOf(tools, key) == Some(Validated) && StateOf(tools1, key) == Some(Rejected))
      && (other in drafts && other !in drafts1 ==> path == Some(other) && r == Ok(true) && StateOf(tools1, key) == Some(Rejected))
  {
  }

  // ----- they are runs of the store -----

  /** The calls of the store that an operation makes, in order; a refused call changes nothing. */
  datatype Operation =
    | Generate(key: ToolKey, hash: string, written: Written, drafts: Drafts)
    | Expire(key: ToolKey, path: Option<ToolKey>, drafts: Drafts)
    | Enable(key: ToolKey, manifest: Option<ToolKey>, setup: Setup, installed: set<ToolKey>)

  function After(tools: Tools, op: Operation): Tools {
    match op
    case Generate(key, hash, written, drafts) => GenerateIn(tools, drafts, key, hash, written).0
    case Expire(key, path, drafts) => RemoveIn(tools, drafts, key, path).0
    case Enable(key, manifest, setup, installed) => ApproveIn(tools, installed, key, manifest, setup).0
  }

  function EnableCalls(key: ToolKey, manifest: Option<ToolKey>, setup: Setup, installed: set<ToolKey>): seq<Call> {
    [Transition(key, Approved)] +
    if manifest.Some? && manifest.value !in installed && setup == Works
    then [Transition(manifest.value, Installed), Transition(key, Enabled)]
    else []
  }

  function Calls(tools: Tools, op: Operation): seq<Call> {
    match op
    case Generate(key, hash, written, drafts) =>
      if !ValidToolName(key.name) || key in drafts then []
      else [Register(key, written.hashes), Transition(key, Validating), Transition(key, if written.valid then Validated else Rejected)]
    case Expire(key, path, drafts) =>
      if path.Some? && StateOf(tools, key) == Some(Validated) then [Transition(key, Rejected)] else []
    case Enable(key, manifest, setup, installed) =>
      if StateOf(tools, key) != Some(Validated) then []
      else if StateOf(tools[key := tools[key].(state := Approved)], if manifest.Some? then manifest.value else key) != Some(Approved)
      then [Transition(key, Approved)]
      else EnableCalls(key, manifest, setup, installed)
  }

  lemma RunThree(r: Registry, a: Call, b: Call, c: Call)
    ensures Run(r, [a]) == Step(r, a)
    ensures Run(r, [a, b, c]) == Step(Step(Step(r, a), b), c)
  {
    assert [a, b, c][1..] == [b, c] && [b, c][1..] == [c] && [c][1..] == [] && [a][1..] == [];
    assert Run(Step(r, a), []) == Step(r, a);
    assert Run(Step(Step(Step(r, a), b), c), []) == Step(Step(Step(r, a), b), c);
    assert Run(Step(Step(r, a), b), [c]) == Step(Step(Step(r, a), b), c);
    assert Run(Step(r, a), [b, c]) == Run(Step(Step(r, a), b), [c]);
  }

  lemma GenerateIsARun(r: Registry, key: ToolKey, hash: string, written: Written, drafts: Drafts)
    ensures var op := Generate(key, hash, written, drafts); Run(r, Calls(r.tools, op)).tools == After(r.tools, op)
  {
    var calls := Calls(r.tools, Generate(key, hash, written, drafts));
    if calls != [] {
      RunThree(r, calls[0], calls[1], calls[2]);
    }
  }

  lemma ExpireIsARun(r: Registry, key: ToolKey, path: Option<ToolKey>, drafts: Drafts)
    ensures var op := Expire(key, path, drafts); Run(r, Calls(r.tools, op)).tools == After(r.tools, op)
  {
    var change := Transition(key, Rejected);
    RunThree(r, change, change, change);
    if StateOf(r.tools, key) == Some(Rejected) {
      assert r.tools[key := r.tools[key].(state := Rejected)] == r.tools;
    }
  }

  /** A validated tool whose manifest can be installed: approved, installed, and enabled if it is the same tool. */
  lemma FullEnableIsARun(r: Registry, key: ToolKey, manifest: ToolKey, installed: set<ToolKey>)
    requires StateOf(r.tools, key) == Some(Validated) && manifest !in installed
    requires StateOf(r.tools[key := r.tools[key].(state := Approved)], manifest) == Some(Approved)
    ensures Run(r, [Transition(key, Approved), Transition(manifest, Installed), Transition(key, Enabled)]).tools ==
            ApproveIn(r.tools, installed, key, Some(manifest), Works).0
  {
    var a, b, c := Transition(key, Approved), Transition(manifest, Installed), Transition(key, Enabled);
    RunThree(r, a, b, c);
    TransitionStep(r, key, Approved);
    TransitionStep(Step(r, a), manifest, Installed);
    TransitionStep(Step(Step(r, a), b), key, Enabled);
  }

  lemma TransitionStep(r: Registry, key: ToolKey, target: ToolState)
    ensures Step(r, Transition(key, target)).tools ==
            if TransitionIn(r.tools, key, target).Ok? then TransitionIn(r.tools, key, target).value else r.tools
  {
  }

  lemma EnableIsARun(r: Registry, key: ToolKey, manifest: Option<ToolKey>, setup: Setup, installed: set<ToolKey>)
    ensures var op := Enable(key, manifest, setup, installed); Run(r, Calls(r.tools, op)).tools == After(r.tools, op)
  {
    var calls := Calls(r.tools, Enable(key, manifest, setup, installed));
    if |calls| == 3 {
      FullEnableIsARun(r, key, manifest.value, installed);
      assert calls == [Transition(key, Approved), Transition(manifest.value, Installed), Transition(key, Enabled)];
    } else if |calls| == 1 {
      RunThree(r, calls[0], calls[0], calls[0]);
      assert calls == [Transition(key, Approved)];
    }
  }

  /** An operation leaves the store that its calls leave. */
  lemma OperationsAreRunsOfTheStore(r: Registry, op: Operation)
    ensures Run(r, Calls(r.tools, op)).tools == After(r.tools, op)
  {
    match op
    case Generate(key, hash, written, drafts) => GenerateIsARun(r, key, hash, written, drafts);
    case Expire(key, path, drafts) => ExpireIsARun(r, key, path, drafts);
    case Enable(key, manifest, setup, installed) => EnableIsARun(r, key, manifest, setup, installed);
  }

  /** Operations and single calls of the store (the command line, the catalog) in any order. */
  datatype Event = Operated(op: Operation) | Called(call: Call)

  function AfterEvent(tools: Tools, e: Event): Tools {
    match e
    case Operated(op) => After(tools, op)
    case Called(call) => Step(EMPTY.(tools := tools), call).tools
  }

  function Replay(r: Registry, events: seq<Event>): Registry
    decreases |events|
  {
    if events == [] then r
    else Replay(if events[0].Operated? then Run(r, Calls(r.tools, events[0].op)) else Step(r, events[0].call), events[1..])
  }

  function AfterEvents(tools: Tools, events: seq<Event>): Tools
    decreases |events|
  {
    if events == [] then tools else AfterEvents(AfterEvent(tools, events[0]), events[1..])
  }

  lemma {:induction false} ReplayIsSound(r: Registry, events: seq<Event>)
    requires Sound(r)
    ensures Sound(Replay(r, events)) && Replay(r, events).tools == AfterEvents(r.tools, events)
    decreases |events|
  {
    if events != [] {
      match events[0]
      case Operated(op) =>
        RunIsSound(r, Calls(r.tools, op));
        OperationsAreRunsOfTheStore(r, op);
        ReplayIsSound(Run(r, Calls(r.tools, op)), events[1..]);
      case Called(call) =>
        StepIsSound(r, call);
        ReplayIsSound(Step(r, call), events[1..]);
    }
  }

  /** Whatever mix of operations and calls enabled a tool: since its registration it was validated, approved and installed. */
  lemma EnabledByOperationsWasApproved(events: seq<Event>, key: ToolKey) returns (a: nat)
    requires StateOf(AfterEvents(map[], events), key) == Some(Enabled)
    ensures
      var r := Replay(EMPTY, events);
      && r.tools == AfterEvents(map[], events)
      && key in r.history && key in r.registered
      && r.tools[key].hashes == r.registered[key]
      && InstalledSince(r.history[key], a)
  {
    ReplayIsSound(EMPTY, events);
    var r := Replay(EMPTY, events);
    assert SoundTool(r, key);
    a := InstallationWasApproved(r.history[key]);
  }
}
