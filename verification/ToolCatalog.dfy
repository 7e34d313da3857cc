/** The scan that lists the enabled tools and breaks the altered ones: src/assistant/tools/catalog.py. */
module ToolCatalog {
  import opened Common
  import opened ToolStore

  /** A directory with a manifest file, in the sorted order of the scan; `manifest` is `None` when it cannot be read. */
  datatype ToolDir = ToolDir(manifest: Option<ToolKey>, hashes: Hashes)

  /** A listed tool and the position of its directory. */
  datatype Listed = Bundled(dir: nat, key: ToolKey) | Local(dir: nat, key: ToolKey)

  /** One of the first `n` directories is this tool, with other files than were registered. */
  predicate Altered(record: ToolRecord, dirs: seq<ToolDir>, key: ToolKey, n: nat)
    requires n <= |dirs|
  {
    exists i :: 0 <= i < n && dirs[i].manifest == Some(key) && dirs[i].hashes != record.hashes
  }

  /** The store after the first `n` directories: an enabled tool that was found altered is broken, all else is as before. */
  function Scanned(tools: Tools, dirs: seq<ToolDir>, n: nat): Tools
    requires n <= |dirs|
  {
    map key | key in tools ::
      if tools[key].state == Enabled && Altered(tools[key], dirs, key, n) then tools[key].(state := Broken) else tools[key]
  }

  /**
    The `i`-th directory is listed: its tool was enabled when the scan began, has the registered files here, was not
    found altered earlier in the scan, and has its environment if environments are used.
   */
  predicate IsListed(tools: Tools, dirs: seq<ToolDir>, environments: Option<set<ToolKey>>, i: nat)
    requires i < |dirs|
  {
    dirs[i].manifest.Some? &&
    var key := dirs[i].manifest.value;
    && StateOf(tools, key) == Some(Enabled)
    && dirs[i].hashes == tools[key].hashes
    && !Altered(tools[key], dirs, key, i)
    && (environments.Some? ==> key in environments.value)
  }

  function ListedBundled(dirs: seq<ToolDir>, n: nat): seq<Listed>
    requires n <= |dirs|
  {
    if n == 0 then []
    else ListedBundled(dirs, n - 1) + if dirs[n - 1].manifest.Some? then [Bundled(n - 1, dirs[n - 1].manifest.value)] else []
  }

  function ListedLocal(tools: Tools, dirs: seq<ToolDir>, environments: Option<set<ToolKey>>, n: nat): seq<Listed>
    requires n <= |dirs|
  {
    if n == 0 then []
    else
      ListedLocal(tools, dirs, environments, n - 1) +
      if IsListed(tools, dirs, environments, n - 1) then [Local(n - 1, dirs[n - 1].manifest.value)] else []
  }

  class ToolCatalog {
    const store: ToolStateStore
    const environments: Option<set<ToolKey>>

    constructor (store: ToolStateStore, environments: Option<set<ToolKey>>)
      ensures this.store == store && this.environments == environments
    {
      this.store, this.environments := store, environments;
    }

    /** `list_enabled`; a root that does not exist has no directories. */
    method ListEnabled(bundled: seq<ToolDir>, local: seq<ToolDir>) returns (tools: seq<Listed>)
      modifies store
      ensures store.records == Scanned(old(store.records), local, |local|)
      ensures tools == ListedBundled(bundled, |bundled|) + ListedLocal(old(store.records), local, environments, |local|)
    {
      tools := [];
      for i := 0 to |bundled|
        invariant tools == ListedBundled(bundled, i)
        invariant store.records == old(store.records)
      {
        if bundled[i].manifest.Some? {
          tools := tools + [Bundled(i, bundled[i].manifest.value)];
        }
      }
      ghost var first := tools;
      ghost var before := store.records;
      for i := 0 to |local|
        invariant store.records == Scanned(before, local, i)
        invariant tools == first + ListedLocal(before, local, environments, i)
      {
        var listed := ListDirectory(local, i, before);
        tools := tools + listed;
      }
    }

    /** The body of the second loop in `list_enabled`. */
    method ListDirectory(local: seq<ToolDir>, i: nat, ghost before: Tools) returns (listed: seq<Listed>)
      requires i < |local| && store.records == Scanned(before, local, i)
      modifies store
      ensures store.records == Scanned(before, local, i + 1)
      ensures listed == if IsListed(before, local, environments, i) then [Local(i, local[i].manifest.value)] else []
    {
      listed := [];
      ScannedOneMore(before, local, i);
      if local[i].manifest.Some? {
        var key := local[i].manifest.value;
        var record := store.Get(key);
        if record.Some? && record.value.state == Enabled {
          var verified := store.VerifyIntegrity(key, local[i].hashes);
          if verified.value.state == Enabled {
            if environments.None? || key in environments.value {
              listed := [Local(i, key)];
            }
          }
        }
      }
    }
  }

  /** One more directory breaks its own tool at most. */
  lemma ScannedOneMore(tools: Tools, dirs: seq<ToolDir>, i: nat)
    requires i < |dirs|
    ensures
      var now, next := Scanned(tools, dirs, i), Scanned(tools, dirs, i + 1);
      if dirs[i].manifest.Some? && StateOf(now, dirs[i].manifest.value) == Some(Enabled) &&
         dirs[i].hashes != now[dirs[i].manifest.value].hashes
      then next == now[dirs[i].manifest.value := now[dirs[i].manifest.value].(state := Broken)]
      else next == now
  {
    var now, next := Scanned(tools, dirs, i), Scanned(tools, dirs, i + 1);
    forall key | key in tools
      ensures Altered(tools[key], dirs, key, i + 1) <==>
              Altered(tools[key], dirs, key, i) || (dirs[i].manifest == Some(key) && dirs[i].hashes != tools[key].hashes)
    {
    }
  }

  // ----- what a scan means -----

  lemma {:induction false} InListedLocal(tools: Tools, dirs: seq<ToolDir>, environments: Option<set<ToolKey>>, n: nat, i: nat, key: ToolKey)
    requires n <= |dirs|
    ensures Local(i, key) in ListedLocal(tools, dirs, environments, n) <==>
            i < n && IsListed(tools, dirs, environments, i) && dirs[i].manifest == Some(key)
  {
    if n > 0 {
      InListedLocal(tools, dirs, environments, n - 1, i, key);
    }
  }

  /** No two directories are the same tool. */
  ghost predicate DistinctTools(dirs: seq<ToolDir>) {
    forall i, j :: 0 <= i < j < |dirs| && dirs[i].manifest.Some? ==> dirs[i].manifest != dirs[j].manifest
  }

  predicate HasEnvironment(environments: Option<set<ToolKey>>, key: ToolKey) {
    environments.Some? ==> key in environments.value
  }

  /**
    With distinct tools: a tool with a directory stays enabled exactly when it was enabled and has the registered files
    there, and is listed exactly when it stays enabled and has its environment, if environments are used; an enabled tool
    found with other files is broken; every other record is unchanged.
   */
  lemma ScanAgreesWithStoreAndFiles(tools: Tools, dirs: seq<ToolDir>, environments: Option<set<ToolKey>>, i: nat, key: ToolKey)
    requires DistinctTools(dirs) && i < |dirs| && dirs[i].manifest == Some(key)
    ensures
      var after, listed := Scanned(tools, dirs, |dirs|), ListedLocal(tools, dirs, environments, |dirs|);
      && (StateOf(after, key) == Some(Enabled) <==> StateOf(tools, key) == Some(Enabled) && dirs[i].hashes == tools[key].hashes)
      && (Local(i, key) in listed <==> StateOf(after, key) == Some(Enabled) && HasEnvironment(environments, key))
      && (StateOf(tools, key) == Some(Enabled) && dirs[i].hashes != tools[key].hashes ==> StateOf(after, key) == Some(Broken))
      && (StateOf(tools, key) != Some(Enabled) ==> (key in after <==> key in tools) && (key in tools ==> after[key] == tools[key]))
  {
    InListedLocal(tools, dirs, environments, |dirs|, i, key);
    if key in tools {
      assert Altered(tools[key], dirs, key, |dirs|) <==> dirs[i].hashes != tools[key].hashes;
    }
  }

  /** A record changes only from enabled to broken, and exactly if some directory of its tool has other files; one without a directory never does. */
  lemma ScanChangesOnlyAltered(tools: Tools, dirs: seq<ToolDir>, key: ToolKey)
    ensures
      var after := Scanned(tools, dirs, |dirs|);
      && (key in after <==> key in tools)
      && (key in tools ==>
            after[key] == if tools[key].state == Enabled && Altered(tools[key], dirs, key, |dirs|)
                          then tools[key].(state := Broken) else tools[key])
      && (key in tools && (forall i :: 0 <= i < |dirs| ==> dirs[i].manifest != Some(key)) ==> after[key] == tools[key])
  {
  }

  /** In every reachable store a listed tool has the files of its last registration, and was validated, approved and installed since. */
  lemma ListedToolsWereApproved(calls: seq<Call>, dirs: seq<ToolDir>, environments: Option<set<ToolKey>>, i: nat, key: ToolKey) returns (a: nat)
    requires Local(i, key) in ListedLocal(Run(EMPTY, calls).tools, dirs, environments, |dirs|)
    ensures
      var r := Run(EMPTY, calls);
      && i < |dirs| && key in r.registered && r.registered[key] == dirs[i].hashes
      && key in r.history && InstalledSince(r.history[key], a)
  {
    ListedToolsAreRegistered(Run(EMPTY, calls).tools, dirs, environments, i, key);
    a := EnabledWasApproved(calls, key);
  }

  /** In every scan a tool is listed only with the files it was registered with, and records never lose their hashes. */
  lemma ListedToolsAreRegistered(tools: Tools, dirs: seq<ToolDir>, environments: Option<set<ToolKey>>, i: nat, key: ToolKey)
    requires Local(i, key) in ListedLocal(tools, dirs, environments, |dirs|)
    ensures i < |dirs| && key in tools && tools[key] == ToolRecord(Enabled, dirs[i].hashes)
    ensures Scanned(tools, dirs, |dirs|)[key].hashes == tools[key].hashes
    ensures Scanned(tools, dirs, |dirs|)[key].state == Enabled <==> !Altered(tools[key], dirs, key, |dirs|)
  {
    InListedLocal(tools, dirs, environments, |dirs|, i, key);
  }

  /** Distinct tools are needed: with a second, altered directory the scan lists a tool before it breaks it. */
  lemma ListedAndBroken(key: ToolKey, good: Hashes, bad: Hashes)
    requires good != bad
    ensures
      var tools := map[key := ToolRecord(Enabled, good)];
      var dirs := [ToolDir(Some(key), good), ToolDir(Some(key), bad)];
      && Local(0, key) in ListedLocal(tools, dirs, None, |dirs|)
      && StateOf(Scanned(tools, dirs, |dirs|), key) == Some(Broken)
  {
    var tools := map[key := ToolRecord(Enabled, good)];
    var dirs := [ToolDir(Some(key), good), ToolDir(Some(key), bad)];
    InListedLocal(tools, dirs, None, |dirs|, 0, key);
    assert dirs[1].manifest == Some(key) && dirs[1].hashes != tools[key].hashes;
  }

  // ----- what comes with the program -----

  lemma {:induction false} InListedBundled(dirs: seq<ToolDir>, n: nat, i: nat, key: ToolKey)
    requires n <= |dirs|
    ensures Bundled(i, key) in ListedBundled(dirs, n) <==> i < n && dirs[i].manifest == Some(key)
  {
    if n > 0 {
      InListedBundled(dirs, n - 1, i, key);
    }
  }

  /** A bundled tool is listed exactly when its manifest can be read, whatever the store says. */
  lemma BundledAreListedExactly(dirs: seq<ToolDir>, i: nat, key: ToolKey)
    ensures Bundled(i, key) in ListedBundled(dirs, |dirs|) <==> i < |dirs| && dirs[i].manifest == Some(key)
  {
    InListedBundled(dirs, |dirs|, i, key);
  }

  /** Each directory is listed once at most, in the order of the scan. */
  predicate InOrder(listed: seq<Listed>, n: nat) {
    && (forall j, k :: 0 <= j < k < |listed| ==> listed[j].dir < listed[k].dir)
    && (forall k :: 0 <= k < |listed| ==> listed[k].dir < n)
  }

  lemma {:induction false} ListedInOrder(tools: Tools, dirs: seq<ToolDir>, environments: Option<set<ToolKey>>, n: nat)
    requires n <= |dirs|
    ensures InOrder(ListedBundled(dirs, n), n) && InOrder(ListedLocal(tools, dirs, environments, n), n)
  {
    if n > 0 {
      ListedInOrder(tools, dirs, environments, n - 1);
    }
  }
}
