/**
  Tool leases: `acquire_tool_lease` and `release_tool_lease` of
  src/assistant/capabilities/workflow_repository.py, over every run of calls with arbitrary clock readings.
 */
module ToolLeases {
  import opened IsoTime

  datatype Lease = Lease(owner: string, expiresAt: Instant)

  type Leases = map<string, Lease>

  // ----- one call -----

  /** Whether `owner` is refused at `now`: someone else holds the tool and the lease has not expired. */
  predicate Refused(leases: Leases, tool: string, owner: string, now: Instant) {
    tool in leases && leases[tool].owner != owner && Before(now, leases[tool].expiresAt)
  }

  function AcquireIn(leases: Leases, tool: string, owner: string, now: Instant, expiresAt: Instant): (Leases, bool) {
    if Refused(leases, tool, owner, now) then (leases, false)
    else (leases[tool := Lease(owner, expiresAt)], true)
  }

  function ReleaseIn(leases: Leases, tool: string, owner: string): (Leases, bool) {
    if tool in leases && leases[tool].owner == owner then (leases - {tool}, true) else (leases, false)
  }

  // ----- runs -----

  datatype Call =
    | Acquire(tool: string, owner: string, now: Instant, expiresAt: Instant)
    | Release(tool: string, owner: string)

  function Step(leases: Leases, c: Call): (Leases, bool) {
    match c
    case Acquire(tool, owner, now, expiresAt) => AcquireIn(leases, tool, owner, now, expiresAt)
    case Release(tool, owner) => ReleaseIn(leases, tool, owner)
  }

  function Run(leases: Leases, calls: seq<Call>): Leases
    decreases |calls|
  {
    if calls == [] then leases else Run(Step(leases, calls[0]).0, calls[1..])
  }

  /** Whether the `k`-th call of a run succeeds. */
  predicate Granted(leases: Leases, calls: seq<Call>, k: nat)
    requires k < |calls|
  {
    Step(Run(leases, calls[..k]), calls[k]).1
  }

  /** The expiry `owner` asked for last: that of its latest acquire, or `first` when there is none. */
  function LatestExpiry(first: Instant, calls: seq<Call>, tool: string, owner: string): Instant {
    if calls == [] then first
    else
      var last := calls[|calls| - 1];
      if last.Acquire? && last.tool == tool && last.owner == owner then last.expiresAt
      else LatestExpiry(first, calls[..|calls| - 1], tool, owner)
  }

  /** A call that can end the lease of `owner`: its own release, or an acquire by another at or after the expiry. */
  predicate Ends(c: Call, tool: string, owner: string, expiry: Instant) {
    c.tool == tool &&
    match c
    case Release(_, who) => who == owner
    case Acquire(_, who, now, _) => who != owner && NotAfter(expiry, now)
  }

  ghost predicate NothingEnds(first: Instant, calls: seq<Call>, tool: string, owner: string) {
    forall k :: 0 <= k < |calls| ==> !Ends(calls[k], tool, owner, LatestExpiry(first, calls[..k], tool, owner))
  }

  lemma {:induction false} RunOneMore(leases: Leases, calls: seq<Call>, c: Call)
    ensures Run(leases, calls + [c]) == Step(Run(leases, calls), c).0
    decreases |calls|
  {
    if calls == [] {
      assert ([] + [c])[1..] == [];
    } else {
      assert (calls + [c])[1..] == calls[1..] + [c];
      RunOneMore(Step(leases, calls[0]).0, calls[1..], c);
    }
  }

  lemma NothingEndedBefore(first: Instant, calls: seq<Call>, tool: string, owner: string)
    requires calls != [] && NothingEnds(first, calls, tool, owner)
    ensures
      var init := calls[..|calls| - 1];
      && NothingEnds(first, init, tool, owner)
      && !Ends(calls[|init|], tool, owner, LatestExpiry(first, init, tool, owner))
  {
    var init := calls[..|calls| - 1];
    forall k | 0 <= k < |init| ensures !Ends(init[k], tool, owner, LatestExpiry(first, init[..k], tool, owner)) {
      assert calls[..k] == init[..k] && calls[k] == init[k];
    }
    assert calls[..|init|] == init;
  }

  /** A call that does not end a lease leaves it, or lets its owner set a new expiry. */
  lemma StepKeepsHold(leases: Leases, c: Call, tool: string, owner: string)
    requires tool in leases && leases[tool].owner == owner && !Ends(c, tool, owner, leases[tool].expiresAt)
    ensures
      var after := Step(leases, c).0;
      tool in after &&
      after[tool] == Lease(owner, if c.Acquire? && c.tool == tool && c.owner == owner then c.expiresAt else leases[tool].expiresAt)
  {
  }

  /**
    Until its own release, and as long as every other workflow asks strictly before its latest expiry, a lease
    is kept, through every interleaving of calls and also through releases by former owners.
   */
  lemma {:induction false} HeldThrough(leases: Leases, calls: seq<Call>, tool: string, owner: string)
    requires tool in leases && leases[tool].owner == owner
    requires NothingEnds(leases[tool].expiresAt, calls, tool, owner)
    ensures
      var after := Run(leases, calls);
      tool in after && after[tool] == Lease(owner, LatestExpiry(leases[tool].expiresAt, calls, tool, owner))
    decreases |calls|
  {
    if calls != [] {
      var init, last := calls[..|calls| - 1], calls[|calls| - 1];
      var first := leases[tool].expiresAt;
      NothingEndedBefore(first, calls, tool, owner);
      HeldThrough(leases, init, tool, owner);
      RunOneMore(leases, init, last);
      assert calls == init + [last];
      StepKeepsHold(Run(leases, init), last, tool, owner);
    }
  }

  /** Exactly then: another workflow gets the tool at the expiry instant and later, and not before. */
  lemma TakenOverExactlyFromExpiry(leases: Leases, calls: seq<Call>, tool: string, owner: string, other: string, now: Instant, until: Instant)
    requires tool in leases && leases[tool].owner == owner && other != owner
    requires NothingEnds(leases[tool].expiresAt, calls, tool, owner)
    ensures
      var expiry := LatestExpiry(leases[tool].expiresAt, calls, tool, owner);
      && (AcquireIn(Run(leases, calls), tool, other, now, until).1 <==> NotAfter(expiry, now))
      && ReleaseIn(Run(leases, calls), tool, other) == (Run(leases, calls), false)
  {
    HeldThrough(leases, calls, tool, owner);
  }

  /**
    Exclusion over every run: between two grants of one tool to different workflows, the first released it or
    another workflow asked at or after the expiry that the first had last asked for.
   */
  lemma TwoGrantsAreSeparated(leases: Leases, calls: seq<Call>, i: nat, j: nat)
    requires i < j < |calls| && calls[i].Acquire? && calls[j].Acquire?
    requires calls[i].tool == calls[j].tool && calls[i].owner != calls[j].owner
    requires Granted(leases, calls, i) && Granted(leases, calls, j)
    ensures exists k :: i < k <= j &&
              Ends(calls[k], calls[i].tool, calls[i].owner,
                   LatestExpiry(calls[i].expiresAt, calls[i + 1..k], calls[i].tool, calls[i].owner))
  {
    var a := calls[i];
    var between := calls[i + 1..j];
    GrantIsHeld(leases, calls, i);
    RunSplit(leases, calls[..i + 1], between);
    assert calls[..j] == calls[..i + 1] + between;
    if NothingEnds(a.expiresAt, between, a.tool, a.owner) {
      GrantedOnlyAfterExpiry(Run(leases, calls[..i + 1]), between, a.tool, a.owner, calls[j]);
    } else {
      SomethingEnds(calls, i, j, a.expiresAt, a.tool, a.owner);
    }
  }

  lemma GrantIsHeld(leases: Leases, calls: seq<Call>, i: nat)
    requires i < |calls| && calls[i].Acquire? && Granted(leases, calls, i)
    ensures
      var held := Run(leases, calls[..i + 1]);
      calls[i].tool in held && held[calls[i].tool] == Lease(calls[i].owner, calls[i].expiresAt)
  {
    RunOneMore(leases, calls[..i], calls[i]);
    assert calls[..i + 1] == calls[..i] + [calls[i]];
  }

  /** Once nothing has ended a lease, a grant to another workflow does. */
  lemma GrantedOnlyAfterExpiry(held: Leases, between: seq<Call>, tool: string, owner: string, c: Call)
    requires tool in held && held[tool].owner == owner && NothingEnds(held[tool].expiresAt, between, tool, owner)
    requires c.Acquire? && c.tool == tool && c.owner != owner && Step(Run(held, between), c).1
    ensures Ends(c, tool, owner, LatestExpiry(held[tool].expiresAt, between, tool, owner))
  {
    HeldThrough(held, between, tool, owner);
  }

  lemma SomethingEnds(calls: seq<Call>, i: nat, j: nat, first: Instant, tool: string, owner: string)
    requires i < j <= |calls| && !NothingEnds(first, calls[i + 1..j], tool, owner)
    ensures exists k :: i < k < j && Ends(calls[k], tool, owner, LatestExpiry(first, calls[i + 1..k], tool, owner))
  {
    var between := calls[i + 1..j];
    var k :| 0 <= k < |between| && Ends(between[k], tool, owner, LatestExpiry(first, between[..k], tool, owner));
    assert between[..k] == calls[i + 1..i + 1 + k] && between[k] == calls[i + 1 + k];
    assert Ends(calls[i + 1 + k], tool, owner, LatestExpiry(first, calls[i + 1..i + 1 + k], tool, owner));
  }

  lemma {:induction false} RunSplit(leases: Leases, a: seq<Call>, b: seq<Call>)
    ensures Run(leases, a + b) == Run(Run(leases, a), b)
    decreases |a|
  {
    if a == [] {
      assert a + b == b;
    } else {
      assert (a + b)[1..] == a[1..] + b;
      RunSplit(Step(leases, a[0]).0, a[1..], b);
    }
  }
}
