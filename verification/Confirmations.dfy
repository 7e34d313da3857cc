/**
  One-shot confirmations: the `confirmations` table of src/assistant/sessions/repository.py and
  `resolve_confirmation` of src/assistant/gateway/service.py, under any interleaving of decisions.
 */
module Confirmations {
  import opened Common
  import opened IsoTime
  import opened Json

  datatype Status = Pending | Approved | Rejected

  function StatusFor(approved: bool): Status {
    if approved then Approved else Rejected
  }

  datatype Confirmation = Confirmation(
    sessionId: string,
    runId: string,
    capability: string,
    arguments: Json,
    status: Status,
    createdAt: Instant,
    resolvedAt: Option<Instant>)

  type Table = map<string, Confirmation>

  function SaveRow(rows: Table, id: string, sessionId: string, runId: string, capability: string, arguments: Json, now: Instant): Option<Table> {
    if id in rows then None
    else Some(rows[id := Confirmation(sessionId, runId, capability, arguments, Pending, now, None)])
  }

  /** The conditional UPDATE; `None` when no row was pending. */
  function ResolveRow(rows: Table, id: string, approved: bool, now: Instant): Option<Table> {
    if id in rows && rows[id].status == Pending
    then Some(rows[id := rows[id].(status := StatusFor(approved), resolvedAt := Some(now))])
    else None
  }

  class SessionRepository {
    var confirmations: Table

    constructor ()
      ensures confirmations == map[]
    {
      confirmations := map[];
    }

    /** `save_confirmation`; the primary key refuses a second row. */
    method SaveConfirmation(id: string, sessionId: string, runId: string, capability: string, arguments: Json, now: Instant)
      returns (saved: bool)
      modifies this`confirmations
      ensures
        match SaveRow(old(confirmations), id, sessionId, runId, capability, arguments, now)
        case Some(rows) => saved && confirmations == rows
        case None => !saved && confirmations == old(confirmations)
    {
      saved := id !in confirmations;
      if saved {
        confirmations := confirmations[id := Confirmation(sessionId, runId, capability, arguments, Pending, now, None)];
      }
    }

    /** `resolve_confirmation`: only a pending row changes, and only its decision. */
    method ResolveConfirmation(id: string, approved: bool, now: Instant) returns (row: Option<Confirmation>)
      modifies this`confirmations
      ensures
        match ResolveRow(old(confirmations), id, approved, now)
        case Some(rows) => confirmations == rows && row == Some(rows[id])
        case None => row == None && confirmations == old(confirmations)
    {
      if id in confirmations && confirmations[id].status == Pending {
        var resolved := confirmations[id].(status := StatusFor(approved), resolvedAt := Some(now));
        confirmations := confirmations[id := resolved];
        return Some(confirmations[id]);
      }
      row := None;
    }
  }

  /** One call of `execute_confirmed_action`. */
  datatype Call = Call(id: string, capability: string, arguments: Json, approved: bool)

  class GatewayService {
    const repository: SessionRepository

    constructor (repository: SessionRepository)
      ensures this.repository == repository
    {
      this.repository := repository;
    }

    /** `resolve_confirmation` alone: the call that is made, or `None` for the error on a confirmation that is not pending. */
    method ResolveConfirmation(id: string, approved: bool, now: Instant) returns (call: Option<Call>)
      modifies repository
      ensures
        var before := old(repository.confirmations);
        match ResolveRow(before, id, approved, now)
        case Some(rows) => repository.confirmations == rows && call == Some(Call(id, before[id].capability, before[id].arguments, approved))
        case None => repository.confirmations == before && call == None
    {
      var pending := repository.ResolveConfirmation(id, approved, now);
      if pending.None? {
        return None;
      }
      call := Some(Call(id, pending.value.capability, pending.value.arguments, approved));
    }
  }

  // ----- interleaved decisions -----

  /** A thread inside the service's `resolve_confirmation`. */
  datatype Pc =
    | Idle
    | Won(id: string, approved: bool)
    | Loaded(id: string, approved: bool, row: Confirmation)

  datatype State = State(rows: Table, threads: map<nat, Pc>, calls: seq<Call>)

  datatype Action =
    | Save(id: string, sessionId: string, runId: string, capability: string, arguments: Json, now: Instant)
    | Resolve(t: nat, id: string, approved: bool, now: Instant)
    | Load(t: nat)
    | Execute(t: nat)
    | Crash(t: nat)

  const INITIAL := State(map[], map[], [])

  function PcOf(s: State, t: nat): Pc {
    if t in s.threads then s.threads[t] else Idle
  }

  function At(s: State, t: nat, pc: Pc): State {
    s.(threads := s.threads[t := pc])
  }

  function Step(s: State, a: Action): State {
    match a
    case Save(id, sessionId, runId, capability, arguments, now) =>
      (match SaveRow(s.rows, id, sessionId, runId, capability, arguments, now)
       case Some(rows) => s.(rows := rows)
       case None => s)
    case Resolve(t, id, approved, now) =>
      if PcOf(s, t) != Idle then s
      else
        (match ResolveRow(s.rows, id, approved, now)
         case Some(rows) => At(s.(rows := rows), t, Won(id, approved))
         case None => s)
    case Load(t) =>
      if PcOf(s, t).Won? && PcOf(s, t).id in s.rows
      then At(s, t, Loaded(PcOf(s, t).id, PcOf(s, t).approved, s.rows[PcOf(s, t).id]))
      else s
    case Execute(t) =>
      if PcOf(s, t).Loaded?
      then
        var pc := PcOf(s, t);
        At(s.(calls := s.calls + [Call(pc.id, pc.row.capability, pc.row.arguments, pc.approved)]), t, Idle)
      else s
    case Crash(t) => At(s, t, Idle)
  }

  function Run(s: State, actions: seq<Action>): State
    decreases |actions|
  {
    if actions == [] then s else Run(Step(s, actions[0]), actions[1..])
  }

  predicate InFlight(pc: Pc, id: string) {
    pc != Idle && pc.id == id
  }

  ghost predicate Inv(s: State) {
    && (forall t :: PcOf(s, t) != Idle ==>
          var pc := PcOf(s, t);
          && pc.id in s.rows && s.rows[pc.id].status == StatusFor(pc.approved)
          && (pc.Loaded? ==> pc.row == s.rows[pc.id]))
    && (forall t, u, id :: InFlight(PcOf(s, t), id) && InFlight(PcOf(s, u), id) ==> t == u)
    && (forall t, i :: 0 <= i < |s.calls| ==> !InFlight(PcOf(s, t), s.calls[i].id))
    && (forall i :: 0 <= i < |s.calls| ==>
          var c := s.calls[i];
          && c.id in s.rows && s.rows[c.id].status == StatusFor(c.approved)
          && s.rows[c.id].capability == c.capability && s.rows[c.id].arguments == c.arguments)
    && (forall i, j :: 0 <= i < j < |s.calls| ==> s.calls[i].id != s.calls[j].id)
  }

  lemma SaveKeepsInvariant(s: State, id: string, row: Confirmation)
    requires Inv(s) && id !in s.rows
    ensures Inv(s.(rows := s.rows[id := row]))
  {
    var n := s.(rows := s.rows[id := row]);
    assert forall t :: PcOf(n, t) == PcOf(s, t);
  }

  lemma ResolveKeepsInvariant(s: State, t: nat, id: string, approved: bool, now: Instant)
    requires Inv(s) && PcOf(s, t) == Idle && id in s.rows && s.rows[id].status == Pending
    ensures Inv(Step(s, Resolve(t, id, approved, now)))
  {
    var n := Step(s, Resolve(t, id, approved, now));
    assert forall u :: PcOf(n, u) == if u == t then Won(id, approved) else PcOf(s, u);
    assert forall u :: !InFlight(PcOf(s, u), id);
    assert forall i :: 0 <= i < |s.calls| ==> s.calls[i].id != id;
  }

  /** A thread that goes on, or gives up, with the confirmation it has won. */
  lemma MoveKeepsInvariant(s: State, t: nat, pc: Pc)
    requires Inv(s)
    requires pc == Idle || (PcOf(s, t).Won? && PcOf(s, t).id in s.rows &&
             pc == Loaded(PcOf(s, t).id, PcOf(s, t).approved, s.rows[PcOf(s, t).id]))
    ensures Inv(At(s, t, pc))
  {
    var n := At(s, t, pc);
    assert forall u :: PcOf(n, u) == if u == t then pc else PcOf(s, u);
    assert forall id :: InFlight(pc, id) ==> InFlight(PcOf(s, t), id);
  }

  lemma ExecuteKeepsInvariant(s: State, t: nat)
    requires Inv(s) && PcOf(s, t).Loaded?
    ensures Inv(Step(s, Execute(t)))
  {
    var n := Step(s, Execute(t));
    var id := PcOf(s, t).id;
    assert InFlight(PcOf(s, t), id);
    assert forall u :: PcOf(n, u) == if u == t then Idle else PcOf(s, u);
    assert forall i :: 0 <= i < |n.calls| ==> n.calls[i] == if i < |s.calls| then s.calls[i] else n.calls[|s.calls|];
    assert forall u :: u != t ==> !InFlight(PcOf(s, u), id);
  }

  lemma StepKeepsInvariant(s: State, a: Action)
    requires Inv(s)
    ensures Inv(Step(s, a))
  {
    match a
    case Save(id, sessionId, runId, capability, arguments, now) =>
      if id !in s.rows {
        SaveKeepsInvariant(s, id, Confirmation(sessionId, runId, capability, arguments, Pending, now, None));
      }
    case Resolve(t, id, approved, now) =>
      if PcOf(s, t) == Idle && id in s.rows && s.rows[id].status == Pending {
        ResolveKeepsInvariant(s, t, id, approved, now);
      }
    case Load(t) =>
      if PcOf(s, t).Won? && PcOf(s, t).id in s.rows {
        MoveKeepsInvariant(s, t, Loaded(PcOf(s, t).id, PcOf(s, t).approved, s.rows[PcOf(s, t).id]));
      }
    case Execute(t) =>
      if PcOf(s, t).Loaded? {
        ExecuteKeepsInvariant(s, t);
      }
    case Crash(t) => MoveKeepsInvariant(s, t, Idle);
  }

  lemma {:induction false} RunKeepsInvariant(s: State, actions: seq<Action>)
    requires Inv(s)
    ensures Inv(Run(s, actions))
    decreases |actions|
  {
    if actions != [] {
      StepKeepsInvariant(s, actions[0]);
      RunKeepsInvariant(Step(s, actions[0]), actions[1..]);
    }
  }

  /** What was asked for is never rewritten, and a decision once taken is never changed. */
  lemma {:induction false} RowIsFixed(s: State, actions: seq<Action>, id: string)
    requires id in s.rows
    ensures
      var rows := Run(s, actions).rows;
      && id in rows
      && rows[id].(status := s.rows[id].status, resolvedAt := s.rows[id].resolvedAt) == s.rows[id]
      && (s.rows[id].status != Pending ==> rows[id] == s.rows[id])
    decreases |actions|
  {
    if actions != [] {
      RowIsFixed(Step(s, actions[0]), actions[1..], id);
    }
  }

  /**
    In every run from the empty table: a confirmation is executed at most once, by a decision that
    won its pending row, with the capability and arguments that were saved and the decision itself.
   */
  lemma ExecutedAtMostOnce(actions: seq<Action>)
    ensures
      var s := Run(INITIAL, actions);
      && (forall i, j :: 0 <= i < j < |s.calls| ==> s.calls[i].id != s.calls[j].id)
      && (forall i :: 0 <= i < |s.calls| ==>
            var c := s.calls[i];
            && c.id in s.rows && s.rows[c.id].status == (if c.approved then Approved else Rejected)
            && s.rows[c.id].capability == c.capability && s.rows[c.id].arguments == c.arguments)
  {
    RunKeepsInvariant(INITIAL, actions);
  }

  /** The decision that won a row, and no other, goes on to execute it; nobody can take its place. */
  lemma WinnerExecutes(before: seq<Action>, t: nat, id: string, approved: bool, now: Instant, between: seq<Action>)
    requires
      var s := Run(INITIAL, before);
      PcOf(s, t) == Idle && id in s.rows && s.rows[id].status == Pending
    requires forall a :: a in between ==> !(a.Load? || a.Execute? || a.Crash? || a.Resolve?) || a.t != t
    ensures
      var s := Run(INITIAL, before);
      var end := Step(Step(Run(Step(s, Resolve(t, id, approved, now)), between), Load(t)), Execute(t));
      && end.calls != []
      && end.calls[|end.calls| - 1] == Call(id, s.rows[id].capability, s.rows[id].arguments, approved)
      && forall i :: 0 <= i < |end.calls| - 1 ==> end.calls[i].id != id
  {
    RunKeepsInvariant(INITIAL, before);
    var s := Run(INITIAL, before);
    var won := Step(s, Resolve(t, id, approved, now));
    StepKeepsInvariant(s, Resolve(t, id, approved, now));
    WinnerWaits(won, t, between);
    RunKeepsInvariant(won, between);
    RowIsFixed(won, between, id);
    var later := Run(won, between);
    assert PcOf(later, t) == Won(id, approved);
    assert InFlight(PcOf(later, t), id);
  }

  lemma {:induction false} WinnerWaits(s: State, t: nat, actions: seq<Action>)
    requires forall a :: a in actions ==> !(a.Load? || a.Execute? || a.Crash? || a.Resolve?) || a.t != t
    ensures PcOf(Run(s, actions), t) == PcOf(s, t)
    decreases |actions|
  {
    if actions != [] {
      assert actions[0] in actions && forall a :: a in actions[1..] ==> a in actions;
      WinnerWaits(Step(s, actions[0]), t, actions[1..]);
    }
  }

  // ----- executed as it was asked and answered -----

  /** Some action saved this confirmation as the row says. */
  ghost predicate SavedAs(actions: seq<Action>, id: string, row: Confirmation) {
    exists a :: a in actions && a.Save? && a.id == id && a.sessionId == row.sessionId && a.runId == row.runId &&
      a.capability == row.capability && a.arguments == row.arguments && a.now == row.createdAt
  }

  ghost predicate AnsweredAs(actions: seq<Action>, id: string, approved: bool) {
    exists a :: a in actions && a.Resolve? && a.id == id && a.approved == approved
  }

  /** Every row was saved, and decided rows, threads and calls go back to an answer. */
  ghost predicate Accounted(s: State, actions: seq<Action>) {
    && (forall id :: id in s.rows ==>
          var row := s.rows[id];
          && SavedAs(actions, id, row)
          && (row.status == Pending <==> row.resolvedAt == None)
          && (row.status != Pending ==> AnsweredAs(actions, id, row.status == Approved)))
    && (forall t :: PcOf(s, t) != Idle ==> AnsweredAs(actions, PcOf(s, t).id, PcOf(s, t).approved))
    && (forall i :: 0 <= i < |s.calls| ==> AnsweredAs(actions, s.calls[i].id, s.calls[i].approved))
  }

  lemma MoreActions(s: State, actions: seq<Action>, a: Action)
    requires Accounted(s, actions)
    ensures Accounted(s, actions + [a])
  {
    assert forall b :: b in actions ==> b in actions + [a];
  }

  lemma SaveIsAccounted(s: State, actions: seq<Action>, a: Action)
    requires Accounted(s, actions) && a in actions && a.Save? && a.id !in s.rows
    ensures Accounted(Step(s, a), actions)
  {
    assert forall t :: PcOf(Step(s, a), t) == PcOf(s, t);
    assert SavedAs(actions, a.id, Step(s, a).rows[a.id]);
  }

  lemma ResolveIsAccounted(s: State, actions: seq<Action>, a: Action)
    requires Accounted(s, actions) && a in actions && a.Resolve? && PcOf(s, a.t) == Idle && a.id in s.rows && s.rows[a.id].status == Pending
    ensures Accounted(Step(s, a), actions)
  {
    assert AnsweredAs(actions, a.id, a.approved) && SavedAs(actions, a.id, s.rows[a.id]);
    assert SavedAs(actions, a.id, Step(s, a).rows[a.id]);
    assert forall u :: PcOf(Step(s, a), u) == if u == a.t then Won(a.id, a.approved) else PcOf(s, u);
  }

  /** A thread that goes on, calls or gives up. */
  lemma ThreadIsAccounted(s: State, actions: seq<Action>, a: Action)
    requires Accounted(s, actions) && (a.Load? || a.Execute? || a.Crash?)
    ensures Accounted(Step(s, a), actions)
  {
    var n := Step(s, a);
    assert forall u :: PcOf(n, u) != Idle ==> PcOf(s, u) != Idle && PcOf(n, u).id == PcOf(s, u).id && PcOf(n, u).approved == PcOf(s, u).approved;
  }

  lemma StepIsAccounted(s: State, actions: seq<Action>, a: Action)
    requires Accounted(s, actions) && a in actions
    ensures Accounted(Step(s, a), actions)
  {
    match a
    case Save(id, _, _, _, _, _) =>
      if id !in s.rows {
        SaveIsAccounted(s, actions, a);
      }
    case Resolve(t, id, _, _) =>
      if PcOf(s, t) == Idle && id in s.rows && s.rows[id].status == Pending {
        ResolveIsAccounted(s, actions, a);
      }
    case _ => ThreadIsAccounted(s, actions, a);
  }

  lemma {:induction false} RunIsAccounted(s: State, before: seq<Action>, actions: seq<Action>)
    requires Accounted(s, before)
    ensures Accounted(Run(s, actions), before + actions)
    decreases |actions|
  {
    if actions == [] {
      assert before + [] == before;
    } else {
      MoreActions(s, before, actions[0]);
      StepIsAccounted(s, before + [actions[0]], actions[0]);
      RunIsAccounted(Step(s, actions[0]), before + [actions[0]], actions[1..]);
      assert before + [actions[0]] + actions[1..] == before + actions;
    }
  }

  /**
    In every run: what is executed was saved in some action with this capability and these arguments, and answered in
    another with this decision; and a row is pending exactly until it has its time of decision.
   */
  lemma ExecutedAsAskedAndAnswered(actions: seq<Action>)
    ensures
      var s := Run(INITIAL, actions);
      && (forall i :: 0 <= i < |s.calls| ==>
            var c := s.calls[i];
            c.id in s.rows && SavedAs(actions, c.id, s.rows[c.id]) && AnsweredAs(actions, c.id, c.approved) &&
            s.rows[c.id].capability == c.capability && s.rows[c.id].arguments == c.arguments)
      && (forall id :: id in s.rows ==>
            var row := s.rows[id];
            && (row.status == Pending <==> row.resolvedAt == None)
            && (row.status == Approved ==> AnsweredAs(actions, id, true)) && (row.status == Rejected ==> AnsweredAs(actions, id, false)))
  {
    RunIsAccounted(INITIAL, [], actions);
    assert [] + actions == actions;
    ExecutedAtMostOnce(actions);
  }
}
