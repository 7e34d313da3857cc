/**
  Any number of workers and the `jobs retry` and `jobs cancel` commands sharing one job table.
  One action is one locked repository call, or the work between two calls.
 */
module JobRuns {
  import opened Common
  import opened IsoTime
  import opened JobTable

  /** Where a worker is in `run_once`. */
  datatype Pc =
    | Idle
    | Picked(id: string)
    | Claimed(id: string)
    | Closing(id: string, target: JobStatus, error: Option<string>)
    | Crashed(id: string)

  /** What is logged for the theorems; a dispatch with what handling gave. */
  datatype Event =
    | Created(job: string)
    | Entered(job: string)
    | Dispatched(job: string, handled: Handled)
    | Requeued(job: string)

  datatype State = State(jobs: Jobs, workers: map<nat, Pc>, log: seq<Event>)

  datatype Action =
    | Create(id: string, reminder: bool, content: string, scheduledFor: Option<Instant>, now: Instant)
    | Pick(w: nat, found: string, now: Instant)
    | Claim(w: nat, now: Instant)
    | Dispatch(w: nat, handled: Handled)
    | Crash(w: nat)
    | Close(w: nat, now: Instant)
    | CliRetry(id: string, now: Instant)
    | CliCancel(id: string, now: Instant)

  function PcOf(s: State, w: nat): Pc {
    if w in s.workers then s.workers[w] else Idle
  }

  function At(s: State, w: nat, pc: Pc): State {
    s.(workers := s.workers[w := pc])
  }

  function Logged(s: State, e: Event): State {
    s.(log := s.log + [e])
  }

  /** An action that is not possible in a state changes nothing. */
  function Step(s: State, a: Action): State {
    match a
    case Create(id, reminder, content, scheduledFor, now) =>
      if id in s.jobs then s
      else Logged(s.(jobs := s.jobs[id := JobRecord("", "", Queued, reminder, content, scheduledFor, now, now, 0, None)]), Created(id))
    case Pick(w, found, now) =>
      if PcOf(s, w) == Idle && IsNext(s.jobs, now, found) then At(s, w, Picked(found)) else s
    case Claim(w, now) => StepClaim(s, w, now)
    case Dispatch(w, handled) => StepDispatch(s, w, handled)
    case Crash(w) =>
      (match PcOf(s, w)
       case Claimed(id) => At(s, w, Crashed(id))
       case Closing(id, _, _) => At(s, w, Crashed(id))
       case Picked(_) => At(s, w, Idle)
       case _ => s)
    case Close(w, now) => StepClose(s, w, now)
    case CliRetry(id, now) =>
      (match TransitionJob(s.jobs, id, Queued, None, now)
       case Ok(jobs) => Logged(s.(jobs := jobs), Requeued(id))
       case Err(_) => s)
    case CliCancel(id, now) =>
      (match TransitionJob(s.jobs, id, JobStatus.Cancelled, None, now)
       case Ok(jobs) => s.(jobs := jobs)
       case Err(_) => s)
  }

  function StepClaim(s: State, w: nat, now: Instant): State {
    if !PcOf(s, w).Picked? then s
    else
      var id := PcOf(s, w).id;
      match TransitionJob(s.jobs, id, Running, None, now)
      case Ok(jobs) => Logged(At(s.(jobs := jobs), w, Claimed(id)), Entered(id))
      case Err(_) => At(s, w, Idle)
  }

  function StepDispatch(s: State, w: nat, handled: Handled): State {
    if !PcOf(s, w).Claimed? || PcOf(s, w).id !in s.jobs then s
    else
      var id := PcOf(s, w).id;
      var end := ClosingOf(s.jobs[id], handled);
      Logged(At(s, w, Closing(id, end.0, end.1)), Dispatched(id, handled))
  }

  function StepClose(s: State, w: nat, now: Instant): State {
    if !PcOf(s, w).Closing? then s
    else
      var pc := PcOf(s, w);
      match TransitionJob(s.jobs, pc.id, pc.target, pc.error, now)
      case Ok(jobs) => At(s.(jobs := jobs), w, Idle)
      case Err(_) => At(s, w, Idle)
  }

  function Run(s: State, actions: seq<Action>): State
    decreases |actions|
  {
    if actions == [] then s else Run(Step(s, actions[0]), actions[1..])
  }

  const INITIAL := State(map[], map[], [])

  /** The kinds of events that are counted. */
  datatype Mark = Entry | Dispatching | Requeue

  predicate Marks(e: Event, m: Mark, id: string) {
    e.job == id &&
    match m
    case Entry => e.Entered?
    case Dispatching => e.Dispatched?
    case Requeue => e.Requeued?
  }

  function Times(log: seq<Event>, m: Mark, id: string): nat {
    if log == [] then 0
    else Times(log[..|log| - 1], m, id) + if Marks(log[|log| - 1], m, id) then 1 else 0
  }

  lemma TimesAppend(log: seq<Event>, last: Event)
    ensures forall m, id :: Times(log + [last], m, id) == Times(log, m, id) + if Marks(last, m, id) then 1 else 0
  {
    assert (log + [last])[..|log|] == log;
  }

  // ----- the invariant -----

  predicate Owns(pc: Pc, id: string) {
    (pc.Claimed? || pc.Closing? || pc.Crashed?) && pc.id == id
  }

  ghost predicate OwnersAreRight(s: State) {
    && (forall w, id :: Owns(PcOf(s, w), id) ==> id in s.jobs && s.jobs[id].status == Running)
    && (forall v, w, id :: Owns(PcOf(s, v), id) && Owns(PcOf(s, w), id) ==> v == w)
    && (forall id :: id in s.jobs && s.jobs[id].status == Running ==> exists w :: Owns(PcOf(s, w), id))
    && (forall w :: PcOf(s, w).Closing? ==> PcOf(s, w).target in ValidTransitions(Running))
  }

  /** The counts of one job; `extra` dispatches may still come without another entry. */
  predicate JobCounts(jobs: Jobs, log: seq<Event>, id: string, extra: nat) {
    if id in jobs then
      jobs[id].attempts == Times(log, Entry, id) && Times(log, Dispatching, id) + extra <= jobs[id].attempts
    else
      Times(log, Entry, id) == 0 && Times(log, Dispatching, id) == 0
  }

  ghost predicate CountsAreRight(s: State) {
    && (forall id :: JobCounts(s.jobs, s.log, id, 0))
    && (forall w :: PcOf(s, w).Claimed? ==> JobCounts(s.jobs, s.log, PcOf(s, w).id, 1))
  }

  ghost predicate Inv(s: State) {
    OwnersAreRight(s) && CountsAreRight(s)
  }

  /** A step that moves one worker between points where it owns the same job, or none. */
  lemma MoveKeepsOwners(s: State, w: nat, pc: Pc)
    requires OwnersAreRight(s)
    requires forall id :: Owns(PcOf(s, w), id) <==> Owns(pc, id)
    requires pc.Closing? ==> pc.target in ValidTransitions(Running)
    ensures OwnersAreRight(At(s, w, pc))
  {
    var t := At(s, w, pc);
    assert forall v :: PcOf(t, v) == if v == w then pc else PcOf(s, v);
    forall id | id in t.jobs && t.jobs[id].status == Running ensures exists v :: Owns(PcOf(t, v), id) {
      var v :| Owns(PcOf(s, v), id);
      assert Owns(PcOf(t, v), id);
    }
  }

  /** A status change of a job that is not running before or after. */
  lemma ChangeKeepsOwners(s: State, id: string, job: JobRecord)
    requires OwnersAreRight(s)
    requires id in s.jobs ==> s.jobs[id].status != Running
    requires job.status != Running
    ensures OwnersAreRight(s.(jobs := s.jobs[id := job]))
  {
    var t := s.(jobs := s.jobs[id := job]);
    assert forall w :: PcOf(t, w) == PcOf(s, w);
    forall other | other in t.jobs && t.jobs[other].status == Running ensures exists w :: Owns(PcOf(t, w), other) {
      var w :| Owns(PcOf(s, w), other);
      assert Owns(PcOf(t, w), other);
    }
  }

  lemma ClaimKeepsOwners(s: State, w: nat, now: Instant)
    requires OwnersAreRight(s)
    ensures OwnersAreRight(StepClaim(s, w, now))
  {
    var t := StepClaim(s, w, now);
    if PcOf(s, w).Picked? {
      var id := PcOf(s, w).id;
      if TransitionJob(s.jobs, id, Running, None, now).Err? {
        MoveKeepsOwners(s, w, Idle);
      } else {
        assert s.jobs[id].status != Running;
        assert forall v :: PcOf(t, v) == if v == w then Claimed(id) else PcOf(s, v);
        assert forall v :: !Owns(PcOf(s, v), id);
        forall other | other in t.jobs && t.jobs[other].status == Running ensures exists v :: Owns(PcOf(t, v), other) {
          if other == id {
            assert Owns(PcOf(t, w), id);
          } else {
            var v :| Owns(PcOf(s, v), other);
            assert Owns(PcOf(t, v), other);
          }
        }
      }
    }
  }

  /** The owner's closing change is always legal. */
  lemma ClosingSucceeds(s: State, w: nat, now: Instant)
    requires OwnersAreRight(s) && PcOf(s, w).Closing?
    ensures
      var pc := PcOf(s, w);
      pc.id in s.jobs && s.jobs[pc.id].status == Running &&
      TransitionJob(s.jobs, pc.id, pc.target, pc.error, now) ==
      Ok(s.jobs[pc.id := Moved(s.jobs[pc.id], pc.target, pc.error, now)])
  {
    assert Owns(PcOf(s, w), PcOf(s, w).id);
  }

  lemma CloseKeepsOwners(s: State, w: nat, now: Instant)
    requires OwnersAreRight(s)
    ensures OwnersAreRight(StepClose(s, w, now))
  {
    var t := StepClose(s, w, now);
    if PcOf(s, w).Closing? {
      ClosingSucceeds(s, w, now);
      var id := PcOf(s, w).id;
      assert Owns(PcOf(s, w), id);
      assert forall v :: PcOf(t, v) == if v == w then Idle else PcOf(s, v);
      assert t.jobs[id].status != Running;
      forall other | other in t.jobs && t.jobs[other].status == Running ensures exists v :: Owns(PcOf(t, v), other) {
        var v :| Owns(PcOf(s, v), other);
        assert Owns(PcOf(t, v), other);
      }
    }
  }

  lemma LogKeepsOwners(s: State, e: Event)
    requires OwnersAreRight(s)
    ensures OwnersAreRight(Logged(s, e))
  {
    var t := Logged(s, e);
    assert forall w :: PcOf(t, w) == PcOf(s, w);
    forall id | id in t.jobs && t.jobs[id].status == Running ensures exists w :: Owns(PcOf(t, w), id) {
      var w :| Owns(PcOf(s, w), id);
      assert Owns(PcOf(t, w), id);
    }
  }

  lemma StepKeepsOwners(s: State, a: Action)
    requires OwnersAreRight(s)
    ensures OwnersAreRight(Step(s, a))
  {
    match a
    case Create(id, reminder, content, scheduledFor, now) =>
      if id !in s.jobs {
        var job := JobRecord("", "", Queued, reminder, content, scheduledFor, now, now, 0, None);
        ChangeKeepsOwners(s, id, job);
        LogKeepsOwners(s.(jobs := s.jobs[id := job]), Created(id));
      }
    case Pick(w, found, now) =>
      if PcOf(s, w) == Idle && IsNext(s.jobs, now, found) {
        MoveKeepsOwners(s, w, Picked(found));
      }
    case Claim(w, now) => ClaimKeepsOwners(s, w, now);
    case Dispatch(w, handled) =>
      if PcOf(s, w).Claimed? && PcOf(s, w).id in s.jobs {
        var id := PcOf(s, w).id;
        ClosingIsLegal(s.jobs[id], handled);
        var end := ClosingOf(s.jobs[id], handled);
        MoveKeepsOwners(s, w, Closing(id, end.0, end.1));
        LogKeepsOwners(At(s, w, Closing(id, end.0, end.1)), Dispatched(id, handled));
      }
    case Crash(w) =>
      var pc := PcOf(s, w);
      if pc.Claimed? || pc.Closing? {
        MoveKeepsOwners(s, w, Crashed(pc.id));
      } else if pc.Picked? {
        MoveKeepsOwners(s, w, Idle);
      }
    case Close(w, now) => CloseKeepsOwners(s, w, now);
    case CliRetry(id, now) =>
      if TransitionJob(s.jobs, id, Queued, None, now).Ok? {
        var job := Moved(s.jobs[id], Queued, None, now);
        ChangeKeepsOwners(s, id, job);
        LogKeepsOwners(s.(jobs := s.jobs[id := job]), Requeued(id));
      }
    case CliCancel(id, now) =>
      if TransitionJob(s.jobs, id, JobStatus.Cancelled, None, now).Ok? {
        ChangeKeepsOwners(s, id, Moved(s.jobs[id], JobStatus.Cancelled, None, now));
      }
  }

  /** Changes that leave every attempts counter alone and log neither an entry nor a dispatch. */
  ghost predicate Quiet(s: State, t: State) {
    && (t.log == s.log || (|t.log| > 0 && t.log[..|t.log| - 1] == s.log &&
          !t.log[|t.log| - 1].Entered? && !t.log[|t.log| - 1].Dispatched?))
    && (forall id :: id in s.jobs ==> id in t.jobs && t.jobs[id].attempts == s.jobs[id].attempts)
    && (forall id :: id in t.jobs && id !in s.jobs ==> t.jobs[id].attempts == 0)
    && (forall w :: PcOf(t, w).Claimed? ==> PcOf(s, w) == PcOf(t, w))
  }

  lemma QuietStepKeepsCounts(s: State, t: State)
    requires Inv(s) && Quiet(s, t)
    ensures CountsAreRight(t)
  {
    forall id ensures Times(t.log, Entry, id) == Times(s.log, Entry, id) &&
                      Times(t.log, Dispatching, id) == Times(s.log, Dispatching, id)
    {
    }
    forall id ensures JobCounts(t.jobs, t.log, id, 0) {
      assert JobCounts(s.jobs, s.log, id, 0);
    }
    forall w | PcOf(t, w).Claimed? ensures JobCounts(t.jobs, t.log, PcOf(t, w).id, 1) {
      assert JobCounts(s.jobs, s.log, PcOf(s, w).id, 1);
      assert Owns(PcOf(s, w), PcOf(s, w).id);
    }
  }

  lemma WorkerIsQuiet(s: State, w: nat, pc: Pc)
    requires !pc.Claimed?
    ensures Quiet(s, At(s, w, pc))
  {
  }

  lemma JobIsQuiet(s: State, id: string, job: JobRecord)
    requires job.attempts == if id in s.jobs then s.jobs[id].attempts else 0
    ensures Quiet(s, s.(jobs := s.jobs[id := job]))
  {
    assert forall w :: PcOf(s.(jobs := s.jobs[id := job]), w) == PcOf(s, w);
  }

  lemma LogIsQuiet(s: State, t: State, e: Event)
    requires Quiet(s, t) && t.log == s.log && !e.Entered? && !e.Dispatched?
    ensures Quiet(s, Logged(t, e))
  {
    assert (s.log + [e])[..|s.log|] == s.log;
    assert forall w :: PcOf(Logged(t, e), w) == PcOf(t, w);
  }

  lemma CreateIsQuiet(s: State, a: Action)
    requires a.Create?
    ensures Quiet(s, Step(s, a))
  {
    if a.id !in s.jobs {
      var job := JobRecord("", "", Queued, a.reminder, a.content, a.scheduledFor, a.now, a.now, 0, None);
      JobIsQuiet(s, a.id, job);
      LogIsQuiet(s, s.(jobs := s.jobs[a.id := job]), Created(a.id));
    }
  }

  lemma RequeueIsQuiet(s: State, id: string, now: Instant)
    ensures Quiet(s, Step(s, CliRetry(id, now)))
  {
    if TransitionJob(s.jobs, id, Queued, None, now).Ok? {
      var job := Moved(s.jobs[id], Queued, None, now);
      JobIsQuiet(s, id, job);
      LogIsQuiet(s, s.(jobs := s.jobs[id := job]), Requeued(id));
    }
  }

  lemma CancelIsQuiet(s: State, id: string, now: Instant)
    ensures Quiet(s, Step(s, CliCancel(id, now)))
  {
    if TransitionJob(s.jobs, id, JobStatus.Cancelled, None, now).Ok? {
      JobIsQuiet(s, id, Moved(s.jobs[id], JobStatus.Cancelled, None, now));
    }
  }

  lemma CloseIsQuiet(s: State, w: nat, now: Instant)
    requires OwnersAreRight(s)
    ensures Quiet(s, StepClose(s, w, now))
  {
    if PcOf(s, w).Closing? {
      ClosingSucceeds(s, w, now);
    }
  }

  lemma OtherStepIsQuiet(s: State, a: Action)
    requires OwnersAreRight(s) && !a.Claim? && !a.Dispatch?
    ensures Quiet(s, Step(s, a))
  {
    match a
    case Create(_, _, _, _, _) => CreateIsQuiet(s, a);
    case Pick(w, found, now) => WorkerIsQuiet(s, w, Picked(found));
    case Crash(w) =>
      WorkerIsQuiet(s, w, Idle);
      WorkerIsQuiet(s, w, Crashed(if PcOf(s, w) == Idle then "" else PcOf(s, w).id));
    case Close(w, now) => CloseIsQuiet(s, w, now);
    case CliRetry(id, now) => RequeueIsQuiet(s, id, now);
    case CliCancel(id, now) => CancelIsQuiet(s, id, now);
  }

  lemma EntryIsCounted(jobs: Jobs, log: seq<Event>, id: string, job: JobRecord)
    requires id in jobs && JobCounts(jobs, log, id, 0) && job.attempts == jobs[id].attempts + 1
    ensures JobCounts(jobs[id := job], log + [Entered(id)], id, 1) && JobCounts(jobs[id := job], log + [Entered(id)], id, 0)
  {
    TimesAppend(log, Entered(id));
  }

  lemma OthersAreCounted(jobs: Jobs, log: seq<Event>, id: string, job: JobRecord, e: Event, other: string, extra: nat)
    requires other != id && e.job == id && JobCounts(jobs, log, other, extra)
    ensures JobCounts(jobs[id := job], log + [e], other, extra)
  {
    TimesAppend(log, e);
  }

  lemma ClaimKeepsCounts(s: State, w: nat, now: Instant)
    requires Inv(s)
    ensures CountsAreRight(StepClaim(s, w, now))
  {
    var t := StepClaim(s, w, now);
    if PcOf(s, w).Picked? && TransitionJob(s.jobs, PcOf(s, w).id, Running, None, now).Ok? {
      var id := PcOf(s, w).id;
      var job := Moved(s.jobs[id], Running, None, now);
      assert JobCounts(s.jobs, s.log, id, 0);
      EntryIsCounted(s.jobs, s.log, id, job);
      forall v | PcOf(t, v).Claimed? ensures JobCounts(t.jobs, t.log, PcOf(t, v).id, 1) {
        if v != w {
          assert JobCounts(s.jobs, s.log, PcOf(s, v).id, 1);
          assert Owns(PcOf(s, v), PcOf(s, v).id);
          OthersAreCounted(s.jobs, s.log, id, job, Entered(id), PcOf(s, v).id, 1);
        }
      }
      forall other ensures JobCounts(t.jobs, t.log, other, 0) {
        if other != id {
          assert JobCounts(s.jobs, s.log, other, 0);
          OthersAreCounted(s.jobs, s.log, id, job, Entered(id), other, 0);
        }
      }
    } else {
      QuietStepKeepsCounts(s, t);
    }
  }

  lemma DispatchKeepsCounts(s: State, w: nat, handled: Handled)
    requires Inv(s)
    ensures CountsAreRight(StepDispatch(s, w, handled))
  {
    var t := StepDispatch(s, w, handled);
    if PcOf(s, w).Claimed? && PcOf(s, w).id in s.jobs {
      var id := PcOf(s, w).id;
      assert Owns(PcOf(s, w), id);
      TimesAppend(s.log, Dispatched(id, handled));
      assert JobCounts(s.jobs, s.log, id, 1);
      forall other ensures JobCounts(t.jobs, t.log, other, 0) {
        assert JobCounts(s.jobs, s.log, other, 0);
      }
      forall v | PcOf(t, v).Claimed? ensures JobCounts(t.jobs, t.log, PcOf(t, v).id, 1) {
        assert JobCounts(s.jobs, s.log, PcOf(s, v).id, 1);
        assert Owns(PcOf(s, v), PcOf(s, v).id);
      }
    }
  }

  lemma StepKeepsCounts(s: State, a: Action)
    requires Inv(s)
    ensures CountsAreRight(Step(s, a))
  {
    match a
    case Claim(w, now) => ClaimKeepsCounts(s, w, now);
    case Dispatch(w, handled) => DispatchKeepsCounts(s, w, handled);
    case _ =>
      OtherStepIsQuiet(s, a);
      QuietStepKeepsCounts(s, Step(s, a));
  }

  // ----- over every run -----

  lemma InitialInvariant()
    ensures Inv(INITIAL)
  {
  }

  /**
    Every reachable state: a running job has exactly one owner, nobody else owns a job,
    `attempts` counts the entries into running, and a job was dispatched at most that often.
   */
  lemma {:induction false} RunKeepsInvariant(s: State, actions: seq<Action>)
    requires Inv(s)
    ensures Inv(Run(s, actions))
    decreases |actions|
  {
    if actions != [] {
      StepKeepsOwners(s, actions[0]);
      StepKeepsCounts(s, actions[0]);
      RunKeepsInvariant(Step(s, actions[0]), actions[1..]);
    }
  }

  /** In every run from the empty table, each worker that reaches its closing change succeeds in it. */
  lemma OwnerCanAlwaysClose(actions: seq<Action>, w: nat, now: Instant)
    ensures
      var s := Run(INITIAL, actions);
      PcOf(s, w).Closing? ==>
        var pc := PcOf(s, w);
        && pc.id in s.jobs
        && TransitionJob(s.jobs, pc.id, pc.target, pc.error, now).Ok?
        && (forall v :: v != w ==> !Owns(PcOf(s, v), pc.id))
  {
    InitialInvariant();
    RunKeepsInvariant(INITIAL, actions);
    var s := Run(INITIAL, actions);
    if PcOf(s, w).Closing? {
      ClosingSucceeds(s, w, now);
      assert Owns(PcOf(s, w), PcOf(s, w).id);
    }
  }

  // ----- closed jobs stay closed -----

  predicate Terminal(status: JobStatus) {
    status == Succeeded || status == JobStatus.Cancelled
  }

  lemma StepKeepsTerminal(s: State, a: Action, id: string)
    requires id in s.jobs && Terminal(s.jobs[id].status)
    ensures id in Step(s, a).jobs && Step(s, a).jobs[id] == s.jobs[id]
  {
  }

  /** A succeeded or cancelled job is never changed again, whatever happens. */
  lemma {:induction false} TerminalForever(s: State, actions: seq<Action>, id: string)
    requires id in s.jobs && Terminal(s.jobs[id].status)
    ensures id in Run(s, actions).jobs && Run(s, actions).jobs[id] == s.jobs[id]
    decreases |actions|
  {
    if actions != [] {
      StepKeepsTerminal(s, actions[0], id);
      TerminalForever(Step(s, actions[0]), actions[1..], id);
    }
  }
}
