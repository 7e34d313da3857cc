/** What the status of a job says about its last dispatch, with any number of workers: src/assistant/jobs/worker.py. */
module JobOutcomes {
  import opened Common
  import opened IsoTime
  import opened JobTable
  import opened JobRuns

  /** What handling gave when the job was dispatched last. */
  function LastAnswer(log: seq<Event>, id: string): Option<Handled> {
    if log == [] then None
    else
      var last := log[|log| - 1];
      if last.Dispatched? && last.job == id then Some(last.handled) else LastAnswer(log[..|log| - 1], id)
  }

  lemma AnswerOneMore(log: seq<Event>, e: Event, id: string)
    ensures LastAnswer(log + [e], id) == if e.Dispatched? && e.job == id then Some(e.handled) else LastAnswer(log, id)
  {
    assert (log + [e])[..|log|] == log;
  }

  /** A job that a worker has closed is explained by the answer to its last dispatch. */
  predicate Explained(job: JobRecord, answer: Option<Handled>) {
    && (job.status == Succeeded ==> job.reminder || answer == Some(Response(false, true)))
    && (job.status == WaitingConfirmation ==> !job.reminder && answer.Some? && answer.value.Response? && answer.value.waiting)
    && (job.status == Failed ==>
          !job.reminder && answer.Some? &&
          match answer.value
          case Raised(e) => job.lastError == Some(e)
          case Response(waiting, ok) => !waiting && !ok && job.lastError == Some("agent_response_failed"))
  }

  ghost predicate AllExplained(s: State) {
    && (forall id :: id in s.jobs ==> Explained(s.jobs[id], LastAnswer(s.log, id)))
    && (forall w :: PcOf(s, w).Closing? ==> ClosesRightly(s, PcOf(s, w)))
  }

  /** A worker about to close a job does so as the answer it got says. */
  predicate ClosesRightly(s: State, pc: Pc)
    requires pc.Closing?
  {
    pc.id in s.jobs &&
    var answer := LastAnswer(s.log, pc.id);
    answer.Some? && ClosesAs(s.jobs[pc.id].reminder, answer.value, pc.target, pc.error)
  }

  /** Nothing that the explanations are about changes. */
  ghost predicate Bystander(s: State, t: State) {
    && (forall id :: LastAnswer(t.log, id) == LastAnswer(s.log, id))
    && (forall w :: PcOf(t, w).Closing? ==> PcOf(s, w) == PcOf(t, w))
  }

  lemma OneJobChanges(s: State, t: State, id: string, job: JobRecord)
    requires AllExplained(s) && Bystander(s, t) && t.jobs == s.jobs[id := job]
    requires id in s.jobs ==> job.reminder == s.jobs[id].reminder
    requires Explained(job, LastAnswer(s.log, id))
    ensures AllExplained(t)
  {
    forall w | PcOf(t, w).Closing? ensures ClosesRightly(t, PcOf(t, w)) {
      assert ClosesRightly(s, PcOf(s, w));
    }
  }

  lemma LogIsBystander(s: State, jobs: Jobs, e: Event)
    requires !e.Dispatched?
    ensures Bystander(s, Logged(s.(jobs := jobs), e)) && Bystander(s, s.(jobs := jobs))
  {
    forall id {
      AnswerOneMore(s.log, e, id);
    }
  }

  lemma CreateIsExplained(s: State, a: Action)
    requires AllExplained(s) && a.Create?
    ensures AllExplained(Step(s, a))
  {
    if a.id !in s.jobs {
      var job := JobRecord("", "", Queued, a.reminder, a.content, a.scheduledFor, a.now, a.now, 0, None);
      LogIsBystander(s, s.jobs[a.id := job], Created(a.id));
      OneJobChanges(s, Step(s, a), a.id, job);
    }
  }

  lemma CommandIsExplained(s: State, a: Action)
    requires AllExplained(s) && (a.CliRetry? || a.CliCancel?)
    ensures AllExplained(Step(s, a))
  {
    var target := if a.CliRetry? then Queued else JobStatus.Cancelled;
    if TransitionJob(s.jobs, a.id, target, None, a.now).Ok? {
      var job := Moved(s.jobs[a.id], target, None, a.now);
      LogIsBystander(s, s.jobs[a.id := job], Requeued(a.id));
      OneJobChanges(s, Step(s, a), a.id, job);
    }
  }

  lemma ClaimIsExplained(s: State, w: nat, now: Instant)
    requires AllExplained(s)
    ensures AllExplained(StepClaim(s, w, now))
  {
    if PcOf(s, w).Picked? {
      var id := PcOf(s, w).id;
      if TransitionJob(s.jobs, id, Running, None, now).Ok? {
        var job := Moved(s.jobs[id], Running, None, now);
        LogIsBystander(s, s.jobs[id := job], Entered(id));
        OneJobChanges(s, StepClaim(s, w, now), id, job);
      } else {
        WorkerIsExplained(s, w, Idle);
      }
    }
  }

  lemma WorkerIsExplained(s: State, w: nat, pc: Pc)
    requires AllExplained(s) && (pc.Closing? ==> ClosesRightly(s, pc))
    ensures AllExplained(At(s, w, pc))
  {
    var t := At(s, w, pc);
    forall v | PcOf(t, v).Closing? ensures ClosesRightly(t, PcOf(t, v)) {
      assert v != w ==> ClosesRightly(s, PcOf(s, v));
    }
  }

  lemma CloseIsExplained(s: State, w: nat, now: Instant)
    requires AllExplained(s) && OwnersAreRight(s)
    ensures AllExplained(StepClose(s, w, now))
  {
    if PcOf(s, w).Closing? {
      var pc := PcOf(s, w);
      assert ClosesRightly(s, pc);
      ClosingSucceeds(s, w, now);
      OneJobChanges(s, StepClose(s, w, now), pc.id, Moved(s.jobs[pc.id], pc.target, pc.error, now));
    }
  }

  /** Nobody but the owner closes the job that is dispatched. */
  lemma DispatchIsExplained(s: State, w: nat, handled: Handled)
    requires AllExplained(s) && OwnersAreRight(s)
    ensures AllExplained(StepDispatch(s, w, handled))
  {
    var t := StepDispatch(s, w, handled);
    if PcOf(s, w).Claimed? && PcOf(s, w).id in s.jobs {
      var id := PcOf(s, w).id;
      assert Owns(PcOf(s, w), id);
      ClosingIsRight(s.jobs[id], handled);
      forall other ensures LastAnswer(t.log, other) == if other == id then Some(handled) else LastAnswer(s.log, other) {
        AnswerOneMore(s.log, Dispatched(id, handled), other);
      }
      forall v | PcOf(t, v).Closing? ensures ClosesRightly(t, PcOf(t, v)) {
        if v != w {
          assert ClosesRightly(s, PcOf(s, v)) && Owns(PcOf(s, v), PcOf(s, v).id);
        }
      }
    }
  }

  lemma StepIsExplained(s: State, a: Action)
    requires AllExplained(s) && OwnersAreRight(s)
    ensures AllExplained(Step(s, a))
  {
    match a
    case Create(_, _, _, _, _) => CreateIsExplained(s, a);
    case Pick(w, found, now) => WorkerIsExplained(s, w, Picked(found));
    case Claim(w, now) => ClaimIsExplained(s, w, now);
    case Dispatch(w, handled) => DispatchIsExplained(s, w, handled);
    case Crash(w) =>
      WorkerIsExplained(s, w, Idle);
      WorkerIsExplained(s, w, Crashed(if PcOf(s, w) == Idle then "" else PcOf(s, w).id));
    case Close(w, now) => CloseIsExplained(s, w, now);
    case CliRetry(_, _) => CommandIsExplained(s, a);
    case CliCancel(_, _) => CommandIsExplained(s, a);
  }

  lemma {:induction false} RunIsExplained(s: State, actions: seq<Action>)
    requires AllExplained(s) && OwnersAreRight(s)
    ensures AllExplained(Run(s, actions))
    decreases |actions|
  {
    if actions != [] {
      StepKeepsOwners(s, actions[0]);
      StepIsExplained(s, actions[0]);
      RunIsExplained(Step(s, actions[0]), actions[1..]);
    }
  }

  /**
    In every run: a job that succeeded is a reminder or its last dispatch answered so, one that waits was answered that it
    must, and one that failed keeps the exception of its last dispatch, or that its response failed.
   */
  lemma StatusTellsTheAnswer(actions: seq<Action>, id: string)
    requires id in Run(INITIAL, actions).jobs
    ensures var s := Run(INITIAL, actions); Explained(s.jobs[id], LastAnswer(s.log, id))
  {
    InitialInvariant();
    RunIsExplained(INITIAL, actions);
  }

  /**
    In every run: the worker that runs a job and has its answer closes it as this says: done for a reminder, waiting,
    succeeded or failed for anything else.
   */
  lemma OwnerClosesAsAnswered(actions: seq<Action>, w: nat, handled: Handled, now: Instant)
    requires PcOf(Run(INITIAL, actions), w).Claimed?
    ensures
      var s := Run(INITIAL, actions);
      var id, after := PcOf(s, w).id, Step(Step(s, Dispatch(w, handled)), Close(w, now));
      && id in s.jobs && id in after.jobs
      && ClosesAs(s.jobs[id].reminder, handled, after.jobs[id].status, after.jobs[id].lastError)
  {
    InitialInvariant();
    RunKeepsInvariant(INITIAL, actions);
    var s := Run(INITIAL, actions);
    var id := PcOf(s, w).id;
    assert Owns(PcOf(s, w), id);
    StepKeepsOwners(s, Dispatch(w, handled));
    ClosingIsRight(s.jobs[id], handled);
    ClosingSucceeds(Step(s, Dispatch(w, handled)), w, now);
  }
}
