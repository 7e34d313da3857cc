/**
  What overlapping calls do to the status of a record: `_execute_original_action` of
  src/assistant/capabilities/adaptive_capability_graph.py reads the status, works, and compares with what it read.
  Exactly when the status graph is left, and exactly when a refused workflow is executed, in every run of `RetryRuns`.
 */
module RetryOverlaps {
  import opened Common
  import opened IsoTime
  import opened Json
  import opened CapabilityTable
  import opened RetryRuns
  import P = CapabilityProtocol

  // ----- the states of a run -----

  function StateAt(actions: seq<Action>, k: nat, maxPending: int): State
    requires k <= |actions|
  {
    Run(INITIAL, actions[..k], maxPending)
  }

  lemma {:induction false} RunConcat(s: State, a: seq<Action>, b: seq<Action>, maxPending: int)
    ensures Run(s, a + b, maxPending) == Run(Run(s, a, maxPending), b, maxPending)
    decreases |a|
  {
    if a == [] {
      assert a + b == b;
    } else {
      assert (a + b)[1..] == a[1..] + b;
      RunConcat(Step(s, a[0], maxPending), a[1..], b, maxPending);
    }
  }

  lemma RunOne(s: State, a: Action, maxPending: int)
    ensures Run(s, [a], maxPending) == Step(s, a, maxPending)
  {
    assert [a][1..] == [];
    assert Run(Step(s, a, maxPending), [], maxPending) == Step(s, a, maxPending);
  }

  lemma StateNext(actions: seq<Action>, k: nat, maxPending: int)
    requires k < |actions|
    ensures StateAt(actions, k + 1, maxPending) == Step(StateAt(actions, k, maxPending), actions[k], maxPending)
  {
    assert actions[..k + 1] == actions[..k] + [actions[k]];
    RunConcat(INITIAL, actions[..k], [actions[k]], maxPending);
    RunOne(StateAt(actions, k, maxPending), actions[k], maxPending);
  }

  // ----- what the threads remember -----

  predicate Final(s: Status) {
    s == ActionExecuted || s == ActionFailed
  }

  predicate Working(pc: Pc) {
    pc.Claimed? || pc.Ran? || pc.Completed?
  }

  predicate Engaged(pc: Pc, id: string) {
    (Working(pc) || pc.Crashed?) && pc.id == id
  }

  /** A final status was only read of a row whose retry is over, and nobody works with one. */
  predicate RemembersRightly(s: State, pc: Pc) {
    pc != Idle ==>
      && pc.id in s.rows
      && (pc.Loaded? && Final(pc.memo) ==> s.rows[pc.id].retryStatus != RetryPending)
      && (Working(pc) ==> !Final(pc.memo))
  }

  /** Besides, at most one thread was ever let into a row. */
  ghost predicate ThreadsAreRight(s: State) {
    && (forall t :: RemembersRightly(s, PcOf(s, t)))
    && (forall t, u, id :: Engaged(PcOf(s, t), id) && Engaged(PcOf(s, u), id) ==> t == u)
  }

  lemma RowsKeepThreads(s: State, n: State)
    requires ThreadsAreRight(s) && RowsMove(s.rows, n.rows) && n.threads == s.threads
    ensures ThreadsAreRight(n)
  {
    assert forall t :: PcOf(n, t) == PcOf(s, t);
    forall t ensures RemembersRightly(n, PcOf(n, t)) {
      assert RemembersRightly(s, PcOf(s, t));
    }
  }

  /** A thread that goes on, or leaves, with what it had. */
  lemma ThreadKeepsThreads(s: State, t: nat, pc: Pc)
    requires ThreadsAreRight(s) && RemembersRightly(s, pc)
    requires forall id :: Engaged(pc, id) ==> Engaged(PcOf(s, t), id)
    ensures ThreadsAreRight(At(s, t, pc))
  {
    var n := At(s, t, pc);
    assert forall u :: PcOf(n, u) == if u == t then pc else PcOf(s, u);
    forall u ensures RemembersRightly(n, PcOf(n, u)) {
      assert RemembersRightly(s, PcOf(s, u));
    }
  }

  lemma EnterKeepsThreads(s: State, t: nat, id: string)
    requires ThreadsAreRight(s) && FinalsAreRight(s) && id in s.rows
    ensures ThreadsAreRight(At(s, t, Loaded(id, s.rows[id].status)))
  {
    ThreadKeepsThreads(s, t, Loaded(id, s.rows[id].status));
  }

  lemma NobodyIsEngaged(s: State, id: string)
    requires OwnersAreRight(s) && id in s.rows && s.rows[id].retryStatus == RetryPending
    ensures forall t :: !Engaged(PcOf(s, t), id)
  {
    forall t ensures !Engaged(PcOf(s, t), id) {
      assert !Owns(PcOf(s, t), id);
    }
  }

  lemma ClaimKeepsThreads(s: State, t: nat, now: Instant)
    requires ThreadsAreRight(s) && OwnersAreRight(s)
    ensures ThreadsAreRight(StepClaim(s, t, now))
  {
    var pc := PcOf(s, t);
    if pc.Loaded? {
      assert RemembersRightly(s, pc);
      if s.rows[pc.id].retryStatus == RetryPending {
        NobodyIsEngaged(s, pc.id);
        var n := StepClaim(s, t, now);
        assert forall u :: PcOf(n, u) == if u == t then Claimed(pc.id, pc.memo) else PcOf(s, u);
        forall u ensures RemembersRightly(n, PcOf(n, u)) {
          assert RemembersRightly(s, PcOf(s, u));
        }
      } else {
        ThreadKeepsThreads(s, t, Idle);
      }
    }
  }

  lemma ExecuteKeepsThreads(s: State, t: nat, available: bool, ok: bool, result: Json)
    requires ThreadsAreRight(s) && PcOf(s, t).Claimed?
    ensures ThreadsAreRight(StepExecute(s, t, available, ok, result))
  {
    assert RemembersRightly(s, PcOf(s, t));
    var n := StepExecute(s, t, available, ok, result);
    ThreadKeepsThreads(s, t, PcOf(n, t));
    var m := At(s, t, PcOf(n, t));
    assert n.rows == m.rows && forall u :: PcOf(n, u) == PcOf(m, u);
    assert forall u :: RemembersRightly(m, PcOf(m, u)) ==> RemembersRightly(n, PcOf(n, u));
  }

  lemma EntryKeepsThreads(s: State, t: nat, id: string, maxPending: int)
    requires ThreadsAreRight(s) && FinalsAreRight(s)
    ensures ThreadsAreRight(Step(s, Enter(t, id), maxPending))
  {
    if id in s.rows {
      EnterKeepsThreads(s, t, id);
    }
  }

  lemma CallKeepsThreads(s: State, a: Action, maxPending: int)
    requires ThreadsAreRight(s) && OwnersAreRight(s) && FinalsAreRight(s) && a.Execute?
    ensures ThreadsAreRight(Step(s, a, maxPending))
  {
    if PcOf(s, a.t).Claimed? {
      ExecuteKeepsThreads(s, a.t, a.available, a.ok, a.result);
    }
  }

  lemma StepKeepsThreads(s: State, a: Action, maxPending: int)
    requires ThreadsAreRight(s) && OwnersAreRight(s) && FinalsAreRight(s)
    ensures ThreadsAreRight(Step(s, a, maxPending))
  {
    StepMovesRows(s, a, maxPending);
    match a
    case Create(_, _) => RowsKeepThreads(s, Step(s, a, maxPending));
    case Move(_, _, _, _) => RowsKeepThreads(s, Step(s, a, maxPending));
    case Enter(t, id) => EntryKeepsThreads(s, t, id, maxPending);
    case Claim(t, now) => ClaimKeepsThreads(s, t, now);
    case Execute(t, available, ok, result) => CallKeepsThreads(s, a, maxPending);
    case Complete(t, now) => CompleteKeepsThreads(s, t, now);
    case Finish(t, now) => FinishKeepsThreads(s, t, now);
    case Crash(t) => CrashKeepsThreads(s, t);
  }

  lemma CompleteKeepsThreads(s: State, t: nat, now: Instant)
    requires ThreadsAreRight(s) && RowsMove(s.rows, StepComplete(s, t, now).rows)
    ensures ThreadsAreRight(StepComplete(s, t, now))
  {
    RowsThenThread(s, StepComplete(s, t, now), t);
  }

  lemma FinishKeepsThreads(s: State, t: nat, now: Instant)
    requires ThreadsAreRight(s) && RowsMove(s.rows, StepFinish(s, t, now).rows)
    ensures ThreadsAreRight(StepFinish(s, t, now))
  {
    RowsThenThread(s, StepFinish(s, t, now), t);
  }

  lemma CrashKeepsThreads(s: State, t: nat)
    requires ThreadsAreRight(s)
    ensures ThreadsAreRight(Step(s, Crash(t), 0))
  {
    RowsThenThread(s, Step(s, Crash(t), 0), t);
  }

  lemma RowsThenThread(s: State, n: State, t: nat)
    requires ThreadsAreRight(s) && RowsMove(s.rows, n.rows)
    requires n.threads == s.threads || n.threads == s.threads[t := PcOf(n, t)]
    requires var pc, after := PcOf(s, t), PcOf(n, t);
             after == pc || after == Idle || (after.Crashed? && Working(pc) && after.id == pc.id) ||
             (Working(after) && Working(pc) && after.id == pc.id && after.memo == pc.memo)
    ensures ThreadsAreRight(n)
  {
    var m := s.(rows := n.rows);
    RowsKeepThreads(s, m);
    assert RemembersRightly(m, PcOf(m, t));
    if n.threads != s.threads {
      ThreadKeepsThreads(m, t, PcOf(n, t));
      assert forall u :: PcOf(n, u) == PcOf(At(m, t, PcOf(n, t)), u);
    } else {
      assert forall u :: PcOf(n, u) == PcOf(m, u);
    }
    forall u ensures RemembersRightly(n, PcOf(n, u)) {
    }
  }

  ghost predicate Right(s: State, maxPending: int) {
    Inv(s, maxPending) && ThreadsAreRight(s)
  }

  lemma {:induction false} StatesAreRight(actions: seq<Action>, k: nat, maxPending: int)
    requires k <= |actions|
    ensures Right(StateAt(actions, k, maxPending), maxPending)
  {
    if k == 0 {
      InitialIsRight(maxPending);
    } else {
      StatesAreRight(actions, k - 1, maxPending);
      NextIsRight(actions, k - 1, maxPending);
    }
  }

  lemma InitialIsRight(maxPending: int)
    ensures Right(INITIAL, maxPending)
  {
    InitialInvariant(maxPending);
  }

  lemma NextIsRight(actions: seq<Action>, k: nat, maxPending: int)
    requires k < |actions| && Right(StateAt(actions, k, maxPending), maxPending)
    ensures Right(StateAt(actions, k + 1, maxPending), maxPending)
  {
    StateNext(actions, k, maxPending);
    StepKeepsRight(StateAt(actions, k, maxPending), actions[k], maxPending);
  }

  lemma StepKeepsRight(s: State, a: Action, maxPending: int)
    requires Right(s, maxPending)
    ensures Right(Step(s, a, maxPending), maxPending)
  {
    StepKeepsOwners(s, a, maxPending);
    StepKeepsCalls(s, a, maxPending);
    StepKeepsFinals(s, a, maxPending);
    StepKeepsCapacity(s, a, maxPending);
    StepKeepsThreads(s, a, maxPending);
  }

  // ----- who changes a status -----

  /** A status change of another node that happens. */
  predicate MoveTakesEffect(s: State, a: Action, id: string) {
    a.Move? && a.id == id && id in s.rows && s.rows[id].status == From(a.move)
  }

  /** A final transition of `_execute_original_action` that happens. */
  predicate FinishTakesEffect(s: State, a: Action) {
    a.Finish? && PcOf(s, a.t).Completed? &&
    PcOf(s, a.t).id in s.rows && s.rows[PcOf(s, a.t).id].status == PcOf(s, a.t).memo
  }

  lemma MovesAreEdges(m: GraphMove)
    ensures P.Edge(From(m), To(m)) && !P.Refused(From(m)) && !Final(From(m)) && !Final(To(m))
  {
  }

  /** One step and one row: the status stays, or one of these two changed it. */
  lemma StatusStep(s: State, a: Action, maxPending: int, id: string)
    requires Right(s, maxPending) && id in s.rows
    ensures
      var n := Step(s, a, maxPending);
      && id in n.rows
      && if MoveTakesEffect(s, a, id) then n.rows[id].status == To(a.move)
         else if FinishTakesEffect(s, a) && PcOf(s, a.t).id == id then n.rows[id].status == ExecutionStatus(PcOf(s, a.t).ok)
         else n.rows[id].status == s.rows[id].status
  {
    match a
    case Create(other, record) => CreateKeepsStatus(s, other, record, maxPending, id);
    case Move(_, _, _, _) => MoveSetsStatus(s, a, maxPending, id);
    case Finish(t, now) => FinishSetsStatus(s, t, now, maxPending, id);
    case _ => OtherStepKeepsStatus(s, a, maxPending, id);
  }

  lemma CreateKeepsStatus(s: State, other: string, record: Record, maxPending: int, id: string)
    requires id in s.rows
    ensures var n := Step(s, Create(other, record), maxPending); id in n.rows && n.rows[id].status == s.rows[id].status
  {
  }

  lemma MoveSetsStatus(s: State, a: Action, maxPending: int, id: string)
    requires a.Move? && id in s.rows
    ensures
      var n := Step(s, a, maxPending);
      id in n.rows && n.rows[id].status == if MoveTakesEffect(s, a, id) then To(a.move) else s.rows[id].status
  {
  }

  lemma FinishSetsStatus(s: State, t: nat, now: Instant, maxPending: int, id: string)
    requires id in s.rows
    ensures
      var a, n := Finish(t, now), StepFinish(s, t, now);
      id in n.rows && n.rows[id].status ==
        if FinishTakesEffect(s, a) && PcOf(s, t).id == id then ExecutionStatus(PcOf(s, t).ok) else s.rows[id].status
  {
  }

  lemma OtherStepKeepsStatus(s: State, a: Action, maxPending: int, id: string)
    requires id in s.rows && !a.Create? && !a.Move? && !a.Finish?
    ensures id in Step(s, a, maxPending).rows && Step(s, a, maxPending).rows[id].status == s.rows[id].status
  {
    match a
    case Claim(t, now) => ClaimKeepsStatus(s, t, now, id);
    case Complete(t, now) => CompleteKeepsStatus(s, t, now, id);
    case _ =>
  }

  lemma ClaimKeepsStatus(s: State, t: nat, now: Instant, id: string)
    requires id in s.rows
    ensures id in StepClaim(s, t, now).rows && StepClaim(s, t, now).rows[id].status == s.rows[id].status
  {
  }

  lemma CompleteKeepsStatus(s: State, t: nat, now: Instant, id: string)
    requires id in s.rows
    ensures id in StepComplete(s, t, now).rows && StepComplete(s, t, now).rows[id].status == s.rows[id].status
  {
  }

  // ----- exactly when the status graph is kept -----

  predicate StatusChanges(before: Rows, after: Rows, id: string) {
    id in before && id in after && before[id].status != after[id].status
  }

  ghost predicate KeepsTheGraph(actions: seq<Action>, maxPending: int) {
    forall k: nat, id: string :: k < |actions| ==> KeepsTheGraphAt(actions, k, id, maxPending)
  }

  predicate KeepsTheGraphAt(actions: seq<Action>, k: nat, id: string, maxPending: int)
    requires k < |actions|
  {
    ChangesAlongTheGraph(StateAt(actions, k, maxPending).rows, StateAt(actions, k + 1, maxPending).rows, id)
  }

  predicate ChangesAlongTheGraph(before: Rows, after: Rows, id: string) {
    StatusChanges(before, after, id) ==> P.Edge(before[id].status, after[id].status)
  }

  /** The two statuses from which the graph goes to the execution. */
  predicate ExecutableAt(s: Status) {
    s == RuntimeReloaded || s == WaitingRetryConfirmation
  }

  predicate FinishesProperly(s: State, a: Action) {
    FinishTakesEffect(s, a) ==> ExecutableAt(PcOf(s, a.t).memo)
  }

  ghost predicate FinishesFromTheGraph(actions: seq<Action>, maxPending: int) {
    forall k: nat :: k < |actions| ==> FinishesProperly(StateAt(actions, k, maxPending), actions[k])
  }

  lemma StepKeepsTheGraph(s: State, a: Action, maxPending: int, id: string)
    requires Right(s, maxPending) && FinishesProperly(s, a) && StatusChanges(s.rows, Step(s, a, maxPending).rows, id)
    ensures P.Edge(s.rows[id].status, Step(s, a, maxPending).rows[id].status)
  {
    StatusStep(s, a, maxPending, id);
    if MoveTakesEffect(s, a, id) {
      MovesAreEdges(a.move);
    }
  }

  lemma ImproperFinishLeavesTheGraph(s: State, a: Action, maxPending: int)
    requires Right(s, maxPending) && !FinishesProperly(s, a)
    ensures
      var id, n := PcOf(s, a.t).id, Step(s, a, maxPending);
      StatusChanges(s.rows, n.rows, id) && !P.Edge(s.rows[id].status, n.rows[id].status)
  {
    var pc := PcOf(s, a.t);
    assert RemembersRightly(s, pc);
    StatusStep(s, a, maxPending, pc.id);
  }

  /**
    Exactly: every status change of a run is an edge of the graph if and only if no final transition takes effect from a
    status other than the two from which the graph executes.
   */
  lemma GraphIsKeptExactly(actions: seq<Action>, maxPending: int)
    ensures KeepsTheGraph(actions, maxPending) <==> FinishesFromTheGraph(actions, maxPending)
  {
    forall k: nat | k < |actions|
      ensures StateAt(actions, k + 1, maxPending) == Step(StateAt(actions, k, maxPending), actions[k], maxPending)
      ensures Right(StateAt(actions, k, maxPending), maxPending)
    {
      StateNext(actions, k, maxPending);
      StatesAreRight(actions, k, maxPending);
    }
    if FinishesFromTheGraph(actions, maxPending) {
      forall k: nat, id: string | k < |actions|
        ensures KeepsTheGraphAt(actions, k, id, maxPending)
      {
        if StatusChanges(StateAt(actions, k, maxPending).rows, StateAt(actions, k + 1, maxPending).rows, id) {
          StepKeepsTheGraph(StateAt(actions, k, maxPending), actions[k], maxPending, id);
        }
      }
    } else {
      var k: nat :| k < |actions| && !FinishesProperly(StateAt(actions, k, maxPending), actions[k]);
      var s := StateAt(actions, k, maxPending);
      ImproperFinishLeavesTheGraph(s, actions[k], maxPending);
      assert !KeepsTheGraphAt(actions, k, PcOf(s, actions[k].t).id, maxPending);
    }
  }

  // ----- one execution in a run -----

  predicate EntersAt(actions: seq<Action>, a: nat, t: nat, id: string, maxPending: int)
    requires a <= |actions|
  {
    a < |actions| && actions[a] == Enter(t, id) &&
    PcOf(StateAt(actions, a, maxPending), t) == Idle && id in StateAt(actions, a, maxPending).rows
  }

  /** The thread is inside from just after `a` up to `b`. */
  ghost predicate Inside(actions: seq<Action>, a: nat, b: nat, t: nat, maxPending: int)
    requires b <= |actions|
  {
    forall k: nat :: a < k <= b ==> PcOf(StateAt(actions, k, maxPending), t) != Idle
  }

  predicate CallsAt(s: State, a: Action, t: nat, id: string) {
    a.Execute? && a.t == t && a.available && PcOf(s, t).Claimed? && PcOf(s, t).id == id
  }

  /** Thread `t` enters at `a`, is let in, and calls `execute_action` for `id` at `e`. */
  ghost predicate Execution(actions: seq<Action>, a: nat, e: nat, t: nat, id: string, maxPending: int) {
    && a < e < |actions|
    && EntersAt(actions, a, t, id, maxPending) && Inside(actions, a, e, t, maxPending)
    && CallsAt(StateAt(actions, e, maxPending), actions[e], t, id)
  }

  /** The status of the record before the `k`-th step, which an execution that enters there reads. */
  function StatusAt(actions: seq<Action>, k: nat, id: string, maxPending: int): Option<Status>
    requires k <= |actions|
  {
    var rows := StateAt(actions, k, maxPending).rows;
    if id in rows then Some(rows[id].status) else None
  }

  predicate RefusedAt(actions: seq<Action>, k: nat, id: string, maxPending: int)
    requires k <= |actions|
  {
    StatusAt(actions, k, id, maxPending).Some? && P.Refused(StatusAt(actions, k, id, maxPending).value)
  }

  ghost predicate WasRefused(actions: seq<Action>, id: string, maxPending: int) {
    exists k: nat :: k <= |actions| && RefusedAt(actions, k, id, maxPending)
  }

  predicate MovesAt(actions: seq<Action>, k: nat, id: string, maxPending: int) {
    k < |actions| && MoveTakesEffect(StateAt(actions, k, maxPending), actions[k], id)
  }

  /** Some status change of the record takes effect after the entry at `a` and before `k`. */
  ghost predicate MovedBetween(actions: seq<Action>, a: nat, k: nat, id: string, maxPending: int) {
    exists j: nat :: a < j < k && MovesAt(actions, j, id, maxPending)
  }

  lemma MovedBetweenNext(actions: seq<Action>, a: nat, k: nat, id: string, maxPending: int)
    requires a < k
    ensures MovedBetween(actions, a, k + 1, id, maxPending) <==>
      MovedBetween(actions, a, k, id, maxPending) || MovesAt(actions, k, id, maxPending)
  {
  }

  predicate RefusesAt(actions: seq<Action>, k: nat, id: string, maxPending: int) {
    MovesAt(actions, k, id, maxPending) && P.Refused(To(actions[k].move))
  }

  /** A thread inside keeps its workflow, and what it read unless it crashed. */
  lemma ThreadStep(s: State, a: Action, t: nat, maxPending: int)
    requires PcOf(s, t) != Idle && PcOf(Step(s, a, maxPending), t) != Idle
    ensures
      var pc, after := PcOf(s, t), PcOf(Step(s, a, maxPending), t);
      && after.id == pc.id
      && (!after.Crashed? ==> !pc.Crashed? && after.memo == pc.memo)
      && (after.Loaded? ==> pc.Loaded?)
      && (pc.Loaded? && !after.Loaded? ==> pc.id in s.rows && s.rows[pc.id].retryStatus == RetryPending)
  {
  }

  lemma NextKeeps(actions: seq<Action>, k: nat, t: nat, maxPending: int)
    requires k < |actions|
    requires PcOf(StateAt(actions, k, maxPending), t) != Idle && PcOf(StateAt(actions, k + 1, maxPending), t) != Idle
    ensures
      var pc, after := PcOf(StateAt(actions, k, maxPending), t), PcOf(StateAt(actions, k + 1, maxPending), t);
      after.id == pc.id && (!after.Crashed? ==> !pc.Crashed? && after.memo == pc.memo)
  {
    StateNext(actions, k, maxPending);
    ThreadStep(StateAt(actions, k, maxPending), actions[k], t, maxPending);
  }

  lemma {:induction false} InsideKeeps(actions: seq<Action>, a: nat, k: nat, t: nat, id: string, maxPending: int)
    requires a < k <= |actions| && EntersAt(actions, a, t, id, maxPending) && Inside(actions, a, k, t, maxPending)
    ensures
      var pc := PcOf(StateAt(actions, k, maxPending), t);
      pc.id == id && (!pc.Crashed? ==> Some(pc.memo) == StatusAt(actions, a, id, maxPending))
  {
    if k == a + 1 {
      EnteredIsLoaded(actions, a, t, id, maxPending);
    } else {
      InsideKeeps(actions, a, k - 1, t, id, maxPending);
      NextKeeps(actions, k - 1, t, maxPending);
    }
  }

  /** What rows become over a part of a run. */
  lemma {:induction false} RowsOver(actions: seq<Action>, i: nat, k: nat, id: string, maxPending: int)
    requires i <= k <= |actions| && id in StateAt(actions, i, maxPending).rows
    ensures
      var before, after := StateAt(actions, i, maxPending).rows, StateAt(actions, k, maxPending).rows;
      id in after && CanFollow(before[id].retryStatus, after[id].retryStatus)
  {
    assert actions[..k] == actions[..i] + actions[i..k];
    RunConcat(INITIAL, actions[..i], actions[i..k], maxPending);
    RetryOnlyGoesForward(StateAt(actions, i, maxPending), actions[i..k], maxPending, id);
  }

  /** A thread that was let in entered while the retry was pending. */
  lemma {:induction false} EnteredPending(actions: seq<Action>, a: nat, k: nat, t: nat, id: string, maxPending: int)
    requires a < k <= |actions| && EntersAt(actions, a, t, id, maxPending) && Inside(actions, a, k, t, maxPending)
    requires !PcOf(StateAt(actions, k, maxPending), t).Loaded?
    ensures StateAt(actions, a, maxPending).rows[id].retryStatus == RetryPending
  {
    if k == a + 1 {
      EnteredIsLoaded(actions, a, t, id, maxPending);
    } else if PcOf(StateAt(actions, k - 1, maxPending), t).Loaded? {
      LetInWhilePending(actions, a, k - 1, t, id, maxPending);
      RowsOver(actions, a, k - 1, id, maxPending);
    } else {
      EnteredPending(actions, a, k - 1, t, id, maxPending);
    }
  }

  lemma EnteredIsLoaded(actions: seq<Action>, a: nat, t: nat, id: string, maxPending: int)
    requires a < |actions| && EntersAt(actions, a, t, id, maxPending)
    ensures
      var pc := PcOf(StateAt(actions, a + 1, maxPending), t);
      pc.Loaded? && pc.id == id && Some(pc.memo) == StatusAt(actions, a, id, maxPending)
  {
    StateNext(actions, a, maxPending);
  }

  lemma LetInWhilePending(actions: seq<Action>, a: nat, k: nat, t: nat, id: string, maxPending: int)
    requires a < k < |actions| && EntersAt(actions, a, t, id, maxPending) && Inside(actions, a, k + 1, t, maxPending)
    requires PcOf(StateAt(actions, k, maxPending), t).Loaded? && !PcOf(StateAt(actions, k + 1, maxPending), t).Loaded?
    ensures var rows := StateAt(actions, k, maxPending).rows; id in rows && rows[id].retryStatus == RetryPending
  {
    StateNext(actions, k, maxPending);
    InsideKeeps(actions, a, k, t, id, maxPending);
    ThreadStep(StateAt(actions, k, maxPending), actions[k], t, maxPending);
  }

  // ----- refusal before the entry -----

  lemma StatusNext(actions: seq<Action>, k: nat, id: string, maxPending: int)
    requires k < |actions| && id in StateAt(actions, k, maxPending).rows
    ensures
      var s, n := StateAt(actions, k, maxPending), StateAt(actions, k + 1, maxPending);
      && Right(s, maxPending) && id in n.rows
      && if MovesAt(actions, k, id, maxPending) then n.rows[id].status == To(actions[k].move)
         else if FinishTakesEffect(s, actions[k]) && PcOf(s, actions[k].t).id == id
         then n.rows[id].status == ExecutionStatus(PcOf(s, actions[k].t).ok)
         else n.rows[id].status == s.rows[id].status
  {
    StatesAreRight(actions, k, maxPending);
    StateNext(actions, k, maxPending);
    StatusStep(StateAt(actions, k, maxPending), actions[k], maxPending, id);
  }

  /** A refusal is final while the retry is pending. */
  lemma {:induction false} RefusalLasts(actions: seq<Action>, k: nat, a: nat, id: string, maxPending: int)
    requires k <= a <= |actions| && RefusedAt(actions, k, id, maxPending)
    requires id in StateAt(actions, a, maxPending).rows && StateAt(actions, a, maxPending).rows[id].retryStatus == RetryPending
    ensures RefusedAt(actions, a, id, maxPending)
    decreases a - k
  {
    if k < a {
      var s := StateAt(actions, k, maxPending);
      RowsOver(actions, k, a, id, maxPending);
      StatusNext(actions, k, id, maxPending);
      if MovesAt(actions, k, id, maxPending) {
        MovesAreEdges(actions[k].move);
      }
      assert s.rows[id].retryStatus == RetryPending;
      RefusalLasts(actions, k + 1, a, id, maxPending);
    }
  }

  /** Nothing but a refusing move refuses. */
  lemma {:induction false} RefusalHasItsMove(actions: seq<Action>, a: nat, k: nat, id: string, maxPending: int) returns (j: nat)
    requires a <= k <= |actions| && id in StateAt(actions, a, maxPending).rows
    requires !RefusedAt(actions, a, id, maxPending) && RefusedAt(actions, k, id, maxPending)
    ensures a <= j < k && RefusesAt(actions, j, id, maxPending)
    decreases k - a
  {
    StatusNext(actions, a, id, maxPending);
    if RefusedAt(actions, a + 1, id, maxPending) {
      j := a;
    } else {
      j := RefusalHasItsMove(actions, a + 1, k, id, maxPending);
    }
  }

  ghost predicate RefusedFrom(actions: seq<Action>, a: nat, b: nat, id: string, maxPending: int) {
    exists j: nat :: a <= j < b && RefusesAt(actions, j, id, maxPending)
  }

  /** A workflow that is executed was refused at some time exactly if it was when the thread entered, or a refusal took effect since. */
  lemma RefusedBeforeOrSince(actions: seq<Action>, a: nat, e: nat, t: nat, id: string, maxPending: int)
    requires Execution(actions, a, e, t, id, maxPending)
    ensures WasRefused(actions, id, maxPending) <==>
      RefusedAt(actions, a, id, maxPending) || RefusedFrom(actions, a + 1, |actions|, id, maxPending)
  {
    if WasRefused(actions, id, maxPending) && !RefusedAt(actions, a, id, maxPending) {
      var k: nat :| k <= |actions| && RefusedAt(actions, k, id, maxPending);
      EnteredPending(actions, a, e, t, id, maxPending);
      if k <= a {
        RefusalLasts(actions, k, a, id, maxPending);
      }
      var j := RefusalHasItsMove(actions, a, k, id, maxPending);
      assert a + 1 <= j < |actions|;
    }
    if j: nat :| a + 1 <= j < |actions| && RefusesAt(actions, j, id, maxPending) {
      StatusNext(actions, j, id, maxPending);
      assert RefusedAt(actions, j + 1, id, maxPending);
    }
  }

  // ----- refusal after the final transition -----

  /** The execution leaves at `b` with its final transition. */
  ghost predicate FinishesAt(actions: seq<Action>, a: nat, b: nat, t: nat, maxPending: int) {
    && a < b < |actions| && Inside(actions, a, b, t, maxPending)
    && actions[b].Finish? && actions[b].t == t && PcOf(StateAt(actions, b, maxPending), t).Completed?
  }

  lemma {:induction false} FinalStays(actions: seq<Action>, b: nat, k: nat, id: string, maxPending: int)
    requires b <= k <= |actions| && StatusAt(actions, b, id, maxPending).Some? && Final(StatusAt(actions, b, id, maxPending).value)
    ensures StatusAt(actions, k, id, maxPending) == StatusAt(actions, b, id, maxPending)
    decreases k - b
  {
    if b < k {
      StatusNext(actions, b, id, maxPending);
      var s := StateAt(actions, b, maxPending);
      if MovesAt(actions, b, id, maxPending) {
        MovesAreEdges(actions[b].move);
      }
      if FinishTakesEffect(s, actions[b]) {
        assert RemembersRightly(s, PcOf(s, actions[b].t));
      }
      FinalStays(actions, b + 1, k, id, maxPending);
    }
  }

  lemma NoRefusalAfterFinish(actions: seq<Action>, b: nat, id: string, maxPending: int)
    requires b < |actions| && FinishTakesEffect(StateAt(actions, b, maxPending), actions[b])
    requires PcOf(StateAt(actions, b, maxPending), actions[b].t).id == id
    ensures !RefusedFrom(actions, b, |actions|, id, maxPending)
  {
    StatusNext(actions, b, id, maxPending);
    forall j: nat | b <= j < |actions| ensures !RefusesAt(actions, j, id, maxPending) {
      if j > b {
        FinalStays(actions, b + 1, j, id, maxPending);
        if MovesAt(actions, j, id, maxPending) {
          MovesAreEdges(actions[j].move);
        }
      }
    }
  }

  /** The status stays, or goes down in rank. */
  predicate Lowers(before: Option<Status>, now: Option<Status>, moved: bool) {
    before.Some? && now.Some? && if moved then P.Rank(now.value) < P.Rank(before.value) else now == before
  }

  /** Between its entry and its end, only the moves change the status of the row a thread was let into; each lowers the rank. */
  lemma {:induction false} OnlyMovesInside(actions: seq<Action>, a: nat, k: nat, b: nat, t: nat, id: string, maxPending: int)
    requires a < k <= b <= |actions| && EntersAt(actions, a, t, id, maxPending) && Inside(actions, a, b, t, maxPending)
    requires b < |actions| && Working(PcOf(StateAt(actions, b, maxPending), t))
    ensures Lowers(StatusAt(actions, a, id, maxPending), StatusAt(actions, k, id, maxPending), MovedBetween(actions, a, k, id, maxPending))
  {
    if k == a + 1 {
      EntryKeepsStatus(actions, a, t, id, maxPending);
    } else {
      OnlyMovesInside(actions, a, k - 1, b, t, id, maxPending);
      NoOtherFinish(actions, a, k - 1, b, t, id, maxPending);
      OneMoveGoesDown(actions, k - 1, id, maxPending);
      MovedBetweenNext(actions, a, k - 1, id, maxPending);
    }
  }

  lemma EntryKeepsStatus(actions: seq<Action>, a: nat, t: nat, id: string, maxPending: int)
    requires a < |actions| && EntersAt(actions, a, t, id, maxPending)
    ensures StatusAt(actions, a, id, maxPending).Some? && StatusAt(actions, a + 1, id, maxPending) == StatusAt(actions, a, id, maxPending)
    ensures !MovedBetween(actions, a, a + 1, id, maxPending)
  {
    StatusNext(actions, a, id, maxPending);
  }

  lemma OneMoveGoesDown(actions: seq<Action>, k: nat, id: string, maxPending: int)
    requires k < |actions| && StatusAt(actions, k, id, maxPending).Some?
    requires var s := StateAt(actions, k, maxPending); !(FinishTakesEffect(s, actions[k]) && PcOf(s, actions[k].t).id == id)
    ensures Lowers(StatusAt(actions, k, id, maxPending), StatusAt(actions, k + 1, id, maxPending), MovesAt(actions, k, id, maxPending))
  {
    StatusNext(actions, k, id, maxPending);
    if MovesAt(actions, k, id, maxPending) {
      MovesAreEdges(actions[k].move);
      P.EdgesGoDown(From(actions[k].move), To(actions[k].move));
    }
  }

  /** No other thread finishes the row that a thread is let into, before or while it works. */
  lemma NoOtherFinish(actions: seq<Action>, a: nat, k: nat, b: nat, t: nat, id: string, maxPending: int)
    requires a < k < b < |actions| && EntersAt(actions, a, t, id, maxPending) && Inside(actions, a, b, t, maxPending)
    requires Working(PcOf(StateAt(actions, b, maxPending), t))
    ensures var s := StateAt(actions, k, maxPending); !(FinishTakesEffect(s, actions[k]) && PcOf(s, actions[k].t).id == id)
  {
    var s := StateAt(actions, k, maxPending);
    StatesAreRight(actions, k, maxPending);
    InsideKeeps(actions, a, k, t, id, maxPending);
    if FinishTakesEffect(s, actions[k]) && PcOf(s, actions[k].t).id == id {
      StateNext(actions, k, maxPending);
      assert PcOf(StateAt(actions, k + 1, maxPending), actions[k].t) == Idle;
      var u := actions[k].t;
      if PcOf(s, t).Loaded? {
        StillLoaded(actions, k, b, t, id, maxPending);
      } else {
        assert Engaged(PcOf(s, t), id) && Engaged(PcOf(s, u), id);
      }
    }
  }

  /** A thread that has only read a row whose retry is over is never let in. */
  lemma {:induction false} StillLoaded(actions: seq<Action>, k: nat, b: nat, t: nat, id: string, maxPending: int)
    requires k <= b <= |actions| && Inside(actions, k, b, t, maxPending)
    requires
      var s := StateAt(actions, k, maxPending);
      PcOf(s, t).Loaded? && PcOf(s, t).id == id && id in s.rows && s.rows[id].retryStatus != RetryPending
    ensures PcOf(StateAt(actions, b, maxPending), t).Loaded?
    decreases b - k
  {
    if k < b {
      StateNext(actions, k, maxPending);
      ThreadStep(StateAt(actions, k, maxPending), actions[k], t, maxPending);
      RowsOver(actions, k, k + 1, id, maxPending);
      StillLoaded(actions, k + 1, b, t, id, maxPending);
    }
  }

  /** The final transition is lost exactly if some status change of the record took effect since the entry. */
  lemma FinishIsLostExactly(actions: seq<Action>, a: nat, b: nat, t: nat, id: string, maxPending: int)
    requires EntersAtSafely(actions, a, t, id, maxPending) && FinishesAt(actions, a, b, t, maxPending)
    ensures !FinishTakesEffect(StateAt(actions, b, maxPending), actions[b]) <==>
              MovedBetween(actions, a, b, id, maxPending)
  {
    OnlyMovesInside(actions, a, b, b, t, id, maxPending);
    InsideKeeps(actions, a, b, t, id, maxPending);
  }

  predicate EntersAtSafely(actions: seq<Action>, a: nat, t: nat, id: string, maxPending: int) {
    a <= |actions| && EntersAt(actions, a, t, id, maxPending)
  }

  // ----- exactly when a refused workflow is executed -----

  /**
    Exactly, for an execution that ends with its final transition at `b`: the workflow was refused at some time if and only
    if it was refused when the thread entered, or a refusal took effect between entry and final transition, or one took
    effect later and the final transition was lost; and it is lost if and only if some status change of the record took
    effect between the two.
   */
  lemma ExecutedThoughRefusedExactly(actions: seq<Action>, a: nat, e: nat, b: nat, t: nat, id: string, maxPending: int)
    requires Execution(actions, a, e, t, id, maxPending) && FinishesAt(actions, a, b, t, maxPending)
    ensures
      var lost := !FinishTakesEffect(StateAt(actions, b, maxPending), actions[b]);
      && (WasRefused(actions, id, maxPending) <==>
            || RefusedAt(actions, a, id, maxPending)
            || RefusedFrom(actions, a + 1, b, id, maxPending)
            || (lost && RefusedFrom(actions, b, |actions|, id, maxPending)))
      && (lost <==> MovedBetween(actions, a, b, id, maxPending))
  {
    RefusedBeforeOrSince(actions, a, e, t, id, maxPending);
    FinishIsLostExactly(actions, a, b, t, id, maxPending);
    InsideKeeps(actions, a, b, t, id, maxPending);
    if FinishTakesEffect(StateAt(actions, b, maxPending), actions[b]) {
      NoRefusalAfterFinish(actions, b, id, maxPending);
    }
    assert RefusedFrom(actions, a + 1, |actions|, id, maxPending) <==>
      RefusedFrom(actions, a + 1, b, id, maxPending) || RefusedFrom(actions, b, |actions|, id, maxPending);
  }

  /** Hence, without a status change between entry and final transition, only a workflow that was refused already is executed though refused. */
  lemma WithoutOverlapRefusalComesFirst(actions: seq<Action>, a: nat, e: nat, b: nat, t: nat, id: string, maxPending: int)
    requires Execution(actions, a, e, t, id, maxPending) && FinishesAt(actions, a, b, t, maxPending)
    requires !MovedBetween(actions, a, b, id, maxPending)
    ensures WasRefused(actions, id, maxPending) <==> RefusedAt(actions, a, id, maxPending)
  {
    ExecutedThoughRefusedExactly(actions, a, e, b, t, id, maxPending);
  }

  // ----- every call is an execution -----

  lemma OnlyEntersFromIdle(s: State, a: Action, t: nat, maxPending: int)
    requires PcOf(s, t) == Idle && PcOf(Step(s, a, maxPending), t) != Idle
    ensures a.Enter? && a == Enter(t, PcOf(Step(s, a, maxPending), t).id) && a.id in s.rows
  {
  }

  lemma {:induction false} EnteredBefore(actions: seq<Action>, k: nat, t: nat, maxPending: int) returns (a: nat)
    requires k <= |actions| && PcOf(StateAt(actions, k, maxPending), t) != Idle
    ensures a < k && EntersAt(actions, a, t, PcOf(StateAt(actions, k, maxPending), t).id, maxPending)
    ensures Inside(actions, a, k, t, maxPending)
  {
    assert k > 0;
    if PcOf(StateAt(actions, k - 1, maxPending), t) == Idle {
      a := k - 1;
      EntersNow(actions, a, t, maxPending);
    } else {
      a := EnteredBefore(actions, k - 1, t, maxPending);
      NextKeeps(actions, k - 1, t, maxPending);
    }
  }

  lemma EntersNow(actions: seq<Action>, a: nat, t: nat, maxPending: int)
    requires a < |actions| && PcOf(StateAt(actions, a, maxPending), t) == Idle && PcOf(StateAt(actions, a + 1, maxPending), t) != Idle
    ensures EntersAt(actions, a, t, PcOf(StateAt(actions, a + 1, maxPending), t).id, maxPending)
  {
    StateNext(actions, a, maxPending);
    OnlyEntersFromIdle(StateAt(actions, a, maxPending), actions[a], t, maxPending);
  }

  lemma NewCall(s: State, a: Action, id: string, maxPending: int)
    requires id !in s.calls && id in Step(s, a, maxPending).calls
    ensures a.Execute? && CallsAt(s, a, a.t, id)
  {
  }

  lemma {:induction false} CallHasItsExecution(actions: seq<Action>, k: nat, id: string, maxPending: int) returns (a: nat, e: nat, t: nat)
    requires k <= |actions| && id in StateAt(actions, k, maxPending).calls
    ensures Execution(actions, a, e, t, id, maxPending)
  {
    assert k > 0;
    StateNext(actions, k - 1, maxPending);
    var s := StateAt(actions, k - 1, maxPending);
    if id in s.calls {
      a, e, t := CallHasItsExecution(actions, k - 1, id, maxPending);
    } else {
      NewCall(s, actions[k - 1], id, maxPending);
      e, t := k - 1, actions[k - 1].t;
      a := EnteredBefore(actions, e, t, maxPending);
    }
  }

  /** An execution of a workflow that was refused when the thread entered, or was refused since. */
  ghost predicate RefusedExecution(actions: seq<Action>, a: nat, e: nat, t: nat, id: string, maxPending: int) {
    Execution(actions, a, e, t, id, maxPending) &&
    (RefusedAt(actions, a, id, maxPending) || RefusedFrom(actions, a + 1, |actions|, id, maxPending))
  }

  lemma ExecutionIsCalled(actions: seq<Action>, a: nat, e: nat, t: nat, id: string, maxPending: int)
    requires Execution(actions, a, e, t, id, maxPending)
    ensures id in StateAt(actions, |actions|, maxPending).calls
  {
    StateNext(actions, e, maxPending);
    CallsStay(actions, e + 1, |actions|, id, maxPending);
  }

  lemma {:induction false} CallsStay(actions: seq<Action>, i: nat, k: nat, id: string, maxPending: int)
    requires i <= k <= |actions| && id in StateAt(actions, i, maxPending).calls
    ensures id in StateAt(actions, k, maxPending).calls
    decreases k - i
  {
    if i < k {
      StateNext(actions, i, maxPending);
      CallsStay(actions, i + 1, k, id, maxPending);
    }
  }

  /** Over every run: a workflow was both called and refused if and only if it has such an execution. */
  lemma CalledAndRefusedExactly(actions: seq<Action>, id: string, maxPending: int)
    ensures
      id in StateAt(actions, |actions|, maxPending).calls && WasRefused(actions, id, maxPending) <==>
      exists a, e, t :: RefusedExecution(actions, a, e, t, id, maxPending)
  {
    if id in StateAt(actions, |actions|, maxPending).calls && WasRefused(actions, id, maxPending) {
      var a, e, t := CallHasItsExecution(actions, |actions|, id, maxPending);
      RefusedBeforeOrSince(actions, a, e, t, id, maxPending);
      assert RefusedExecution(actions, a, e, t, id, maxPending);
    }
    if a, e, t :| RefusedExecution(actions, a, e, t, id, maxPending) {
      ExecutionIsCalled(actions, a, e, t, id, maxPending);
      RefusedBeforeOrSince(actions, a, e, t, id, maxPending);
    }
  }

  // ----- what is recorded of an execution -----

  predicate ActsFor(a: Action, t: nat) {
    (a.Enter? || a.Claim? || a.Execute? || a.Complete? || a.Finish? || a.Crash?) && a.t == t
  }

  lemma OthersLeaveThread(s: State, a: Action, t: nat, maxPending: int)
    requires !ActsFor(a, t)
    ensures PcOf(Step(s, a, maxPending), t) == PcOf(s, t)
  {
  }

  lemma {:induction false} ThreadWaits(s: State, actions: seq<Action>, t: nat, maxPending: int)
    requires forall a :: a in actions ==> !ActsFor(a, t)
    ensures PcOf(Run(s, actions, maxPending), t) == PcOf(s, t)
    decreases |actions|
  {
    if actions != [] {
      OthersLeaveThread(s, actions[0], t, maxPending);
      assert forall a :: a in actions[1..] ==> a in actions;
      ThreadWaits(Step(s, actions[0], maxPending), actions[1..], t, maxPending);
    }
  }

  lemma ExecuteGives(s: State, t: nat, available: bool, ok: bool, result: Json, maxPending: int)
    requires PcOf(s, t).Claimed?
    ensures
      var pc := PcOf(s, t);
      PcOf(Step(s, Execute(t, available, ok, result), maxPending), t) == Ran(pc.id, pc.memo, available && ok, result)
  {
  }

  /** The result of the owner is recorded, and its final transition follows it unless the record has moved. */
  lemma RanIsRecorded(s: State, t: nat, now: Instant, later: Instant, maxPending: int)
    requires OwnersAreRight(s) && PcOf(s, t).Ran?
    ensures
      var pc := PcOf(s, t);
      var end := Step(s, Complete(t, now), maxPending);
      var final := Step(end, Finish(t, later), maxPending);
      && pc.id in end.rows && pc.id in final.rows
      && end.rows[pc.id].retryStatus == (if pc.ok then RetryExecuted else RetryFailed) && end.rows[pc.id].result == Some(pc.result)
      && final.rows[pc.id].status ==
           if end.rows[pc.id].status != pc.memo then end.rows[pc.id].status else if pc.ok then ActionExecuted else ActionFailed
  {
    OwnerCompletes(s, t, now);
  }

  /**
    Over every run: what an execution reports is what is recorded, whatever other threads do between the call and
    `complete_retry`; and the final transition says the same unless the record has moved.
   */
  lemma ExecutionIsRecordedAsReported(actions: seq<Action>, t: nat, available: bool, ok: bool, result: Json, between: seq<Action>,
                                      now: Instant, later: Instant, maxPending: int)
    requires PcOf(Run(INITIAL, actions, maxPending), t).Claimed? && forall a :: a in between ==> !ActsFor(a, t)
    ensures
      var pc, called := PcOf(Run(INITIAL, actions, maxPending), t), Step(Run(INITIAL, actions, maxPending), Execute(t, available, ok, result), maxPending);
      var end := Step(Run(called, between, maxPending), Complete(t, now), maxPending);
      var final := Step(end, Finish(t, later), maxPending);
      && pc.id in end.rows && pc.id in final.rows
      && end.rows[pc.id].retryStatus == (if available && ok then RetryExecuted else RetryFailed) && end.rows[pc.id].result == Some(result)
      && final.rows[pc.id].status ==
           if end.rows[pc.id].status != pc.memo then end.rows[pc.id].status else if available && ok then ActionExecuted else ActionFailed
  {
    var s := Run(INITIAL, actions, maxPending);
    var a := Execute(t, available, ok, result);
    var called := Step(s, a, maxPending);
    ExecuteGives(s, t, available, ok, result, maxPending);
    ThreadWaits(called, between, t, maxPending);
    ReachedOwners(actions, [a] + between, maxPending);
    assert ([a] + between)[1..] == between;
    RanIsRecorded(Run(called, between, maxPending), t, now, later, maxPending);
  }

  lemma ReachedOwners(actions: seq<Action>, more: seq<Action>, maxPending: int)
    ensures OwnersAreRight(Run(Run(INITIAL, actions, maxPending), more, maxPending))
  {
    InitialInvariant(maxPending);
    RunKeepsInvariant(INITIAL, actions, maxPending);
    RunKeepsInvariant(Run(INITIAL, actions, maxPending), more, maxPending);
  }
}
