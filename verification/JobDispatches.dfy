/** How often workers dispatch one job: src/assistant/jobs/worker.py over src/assistant/jobs/models.py, by the set of workers. */
module JobDispatches {
  import opened Common
  import opened IsoTime
  import opened JobTable
  import opened JobRuns

  /** The worker that acts, if any. */
  function WorkerOf(a: Action): Option<nat> {
    match a
    case Pick(w, _, _) => Some(w)
    case Claim(w, _) => Some(w)
    case Dispatch(w, _) => Some(w)
    case Crash(w) => Some(w)
    case Close(w, _) => Some(w)
    case _ => None
  }

  /** All workers of the run are among `ws`; anyone may create, retry and cancel jobs. */
  predicate RunBy(actions: seq<Action>, ws: set<nat>) {
    forall a :: a in actions && WorkerOf(a).Some? ==> WorkerOf(a).value in ws
  }

  /** The job was dispatched once, and at most once more for each `jobs retry`. */
  predicate OncePerRetry(actions: seq<Action>, id: string) {
    Times(Run(INITIAL, actions).log, Dispatching, id) <= 1 + Times(Run(INITIAL, actions).log, Requeue, id)
  }

  // ----- one worker -----

  predicate Waits(jobs: Jobs, id: string) {
    id in jobs && (jobs[id].status == Queued || jobs[id].status == JobStatus.Cancelled)
  }

  /** A job that was picked is still queued or has been cancelled. */
  predicate PickedWaits(s: State, w: nat) {
    PcOf(s, w).Picked? ==> Waits(s.jobs, PcOf(s, w).id)
  }

  predicate Bounded(jobs: Jobs, requeued: nat, id: string) {
    id in jobs ==> jobs[id].attempts <= requeued + if jobs[id].status == Queued then 0 else 1
  }

  ghost predicate OneWorkerInv(s: State, w: nat) {
    && (forall v :: v != w ==> PcOf(s, v) == Idle)
    && PickedWaits(s, w)
    && (forall id :: Bounded(s.jobs, Times(s.log, Requeue, id), id))
  }

  predicate ActsAs(a: Action, w: nat) {
    WorkerOf(a).Some? ==> WorkerOf(a).value == w
  }

  /** A change of the table that keeps waiting jobs waiting. */
  predicate KeepsWaiting(before: Jobs, after: Jobs, id: string) {
    Waits(before, id) ==> Waits(after, id)
  }

  lemma ChangeKeepsPicked(s: State, jobs: Jobs, w: nat)
    requires PickedWaits(s, w) && (PcOf(s, w).Picked? ==> KeepsWaiting(s.jobs, jobs, PcOf(s, w).id))
    ensures PickedWaits(s.(jobs := jobs), w)
  {
    assert PcOf(s.(jobs := jobs), w) == PcOf(s, w);
  }

  lemma CliKeepsPicked(s: State, id: string, to: JobStatus, now: Instant, w: nat)
    requires PickedWaits(s, w) && (to == Queued || to == JobStatus.Cancelled)
    ensures TransitionJob(s.jobs, id, to, None, now).Ok? ==>
              PickedWaits(s.(jobs := TransitionJob(s.jobs, id, to, None, now).value), w)
  {
    if TransitionJob(s.jobs, id, to, None, now).Ok? {
      ChangeKeepsPicked(s, TransitionJob(s.jobs, id, to, None, now).value, w);
    }
  }

  lemma CreateKeepsPicked(s: State, a: Action, w: nat)
    requires a.Create? && PickedWaits(s, w)
    ensures PickedWaits(Step(s, a), w)
  {
    ChangeKeepsPicked(s, Step(s, a).jobs, w);
  }

  lemma WorkerKeepsPicked(s: State, a: Action, w: nat)
    requires WorkerOf(a) == Some(w) && PickedWaits(s, w)
    ensures PickedWaits(Step(s, a), w)
  {
  }

  lemma StepKeepsPicked(s: State, a: Action, w: nat)
    requires ActsAs(a, w) && PickedWaits(s, w)
    ensures PickedWaits(Step(s, a), w)
  {
    match a
    case Create(_, _, _, _, _) => CreateKeepsPicked(s, a, w);
    case CliRetry(id, now) => CliKeepsPicked(s, id, Queued, now, w);
    case CliCancel(id, now) => CliKeepsPicked(s, id, JobStatus.Cancelled, now, w);
    case _ => WorkerKeepsPicked(s, a, w);
  }

  lemma StepMovesOneWorker(s: State, a: Action, w: nat, v: nat)
    requires ActsAs(a, w) && v != w
    ensures PcOf(Step(s, a), v) == PcOf(s, v)
  {
  }

  /** Only `jobs retry` logs a request to queue again. */
  lemma RequeuesOneMore(log: seq<Event>, e: Event, id: string)
    ensures Times(log + [e], Requeue, id) == Times(log, Requeue, id) + if Marks(e, Requeue, id) then 1 else 0
  {
    TimesAppend(log, e);
  }

  lemma ClaimKeepsBound(s: State, w: nat, now: Instant, id: string)
    requires PickedWaits(s, w) && Bounded(s.jobs, Times(s.log, Requeue, id), id)
    ensures var t := StepClaim(s, w, now); Bounded(t.jobs, Times(t.log, Requeue, id), id)
  {
    if PcOf(s, w).Picked? {
      var picked := PcOf(s, w).id;
      RequeuesOneMore(s.log, Entered(picked), id);
      StartKeepsBound(s.jobs, Times(s.log, Requeue, id), picked, now, id);
    }
  }

  /** A queued job that is started spends what it was allowed. */
  lemma StartKeepsBound(jobs: Jobs, requeued: nat, picked: string, now: Instant, id: string)
    requires Waits(jobs, picked) && Bounded(jobs, requeued, id)
    ensures
      var r := TransitionJob(jobs, picked, Running, None, now);
      r.Ok? ==> Bounded(r.value, requeued, id)
  {
  }

  lemma CloseKeepsBound(s: State, w: nat, now: Instant, id: string)
    requires OwnersAreRight(s) && Bounded(s.jobs, Times(s.log, Requeue, id), id)
    ensures var t := StepClose(s, w, now); Bounded(t.jobs, Times(t.log, Requeue, id), id)
  {
    if PcOf(s, w).Closing? {
      ClosingSucceeds(s, w, now);
    }
  }

  lemma DispatchKeepsBound(s: State, w: nat, handled: Handled, id: string)
    requires Bounded(s.jobs, Times(s.log, Requeue, id), id)
    ensures var t := StepDispatch(s, w, handled); Bounded(t.jobs, Times(t.log, Requeue, id), id)
  {
    if PcOf(s, w).Claimed? {
      RequeuesOneMore(s.log, Dispatched(PcOf(s, w).id, handled), id);
    }
  }

  lemma RequeueKeepsBound(s: State, other: string, now: Instant, id: string)
    requires Bounded(s.jobs, Times(s.log, Requeue, id), id)
    ensures var t := Step(s, CliRetry(other, now)); Bounded(t.jobs, Times(t.log, Requeue, id), id)
  {
    RequeuesOneMore(s.log, Requeued(other), id);
    RequeueAllowsOneMore(s.jobs, Times(s.log, Requeue, id), other, now, id);
  }

  /** A job that is queued again is allowed one more. */
  lemma RequeueAllowsOneMore(jobs: Jobs, requeued: nat, other: string, now: Instant, id: string)
    requires Bounded(jobs, requeued, id)
    ensures
      var r := TransitionJob(jobs, other, Queued, None, now);
      r.Ok? ==> Bounded(r.value, requeued + if other == id then 1 else 0, id)
  {
  }

  lemma CreateKeepsBound(s: State, a: Action, id: string)
    requires a.Create? && Bounded(s.jobs, Times(s.log, Requeue, id), id)
    ensures var t := Step(s, a); Bounded(t.jobs, Times(t.log, Requeue, id), id)
  {
    RequeuesOneMore(s.log, Created(a.id), id);
  }

  lemma StepKeepsBound(s: State, a: Action, w: nat, id: string)
    requires ActsAs(a, w) && PickedWaits(s, w) && OwnersAreRight(s) && Bounded(s.jobs, Times(s.log, Requeue, id), id)
    ensures var t := Step(s, a); Bounded(t.jobs, Times(t.log, Requeue, id), id)
  {
    match a
    case Create(_, _, _, _, _) => CreateKeepsBound(s, a, id);
    case Claim(_, now) => ClaimKeepsBound(s, w, now, id);
    case Dispatch(_, handled) => DispatchKeepsBound(s, w, handled, id);
    case Close(_, now) => CloseKeepsBound(s, w, now, id);
    case CliRetry(other, now) => RequeueKeepsBound(s, other, now, id);
    case _ =>
  }

  lemma OneWorkerStep(s: State, a: Action, w: nat)
    requires OneWorkerInv(s, w) && OwnersAreRight(s) && ActsAs(a, w)
    ensures OneWorkerInv(Step(s, a), w)
  {
    var t := Step(s, a);
    StepKeepsPicked(s, a, w);
    forall v | v != w ensures PcOf(t, v) == Idle {
      StepMovesOneWorker(s, a, w, v);
    }
    forall id ensures Bounded(t.jobs, Times(t.log, Requeue, id), id) {
      StepKeepsBound(s, a, w, id);
    }
  }

  lemma {:induction false} OneWorkerRun(s: State, actions: seq<Action>, w: nat)
    requires Inv(s) && OneWorkerInv(s, w)
    requires forall a :: a in actions ==> ActsAs(a, w)
    ensures OneWorkerInv(Run(s, actions), w)
    decreases |actions|
  {
    if actions != [] {
      assert actions[0] in actions && forall a :: a in actions[1..] ==> a in actions;
      OneWorkerStep(s, actions[0], w);
      StepKeepsOwners(s, actions[0]);
      StepKeepsCounts(s, actions[0]);
      OneWorkerRun(Step(s, actions[0]), actions[1..], w);
    }
  }

  /** One worker dispatches a job once, and at most once more for each `jobs retry`. */
  lemma OneWorkerDispatchesOncePerRetry(actions: seq<Action>, w: nat, id: string)
    requires forall a :: a in actions ==> ActsAs(a, w)
    ensures OncePerRetry(actions, id)
  {
    InitialInvariant();
    RunKeepsInvariant(INITIAL, actions);
    OneWorkerRun(INITIAL, actions, w);
    var s := Run(INITIAL, actions);
    assert JobCounts(s.jobs, s.log, id, 0) && Bounded(s.jobs, Times(s.log, Requeue, id), id);
  }

  // ----- two workers -----

  /** Both workers pick the job before one of them runs it; the other then takes it out of waiting for confirmation. */
  function StaleRun(v: nat, w: nat, id: string, now: Instant): seq<Action> {
    StaleStart(v, w, id, now) + StaleRest(v, w, now)
  }

  function StaleStart(v: nat, w: nat, id: string, now: Instant): seq<Action> {
    [Create(id, false, "", None, now), Pick(v, id, now), Pick(w, id, now), Claim(v, now)]
  }

  function StaleRest(v: nat, w: nat, now: Instant): seq<Action> {
    [Dispatch(v, Response(true, true)), Close(v, now), Claim(w, now), Dispatch(w, Response(true, true))]
  }

  lemma {:induction false} RunConcat(s: State, a: seq<Action>, b: seq<Action>)
    ensures Run(s, a + b) == Run(Run(s, a), b)
    decreases |a|
  {
    if a == [] {
      assert a + b == b;
    } else {
      assert (a + b)[1..] == a[1..] + b;
      RunConcat(Step(s, a[0]), a[1..], b);
    }
  }

  lemma RunTwo(s: State, a: Action, b: Action)
    ensures Run(s, [a, b]) == Step(Step(s, a), b)
  {
    assert [a, b][1..] == [b] && [b][1..] == [];
    assert Run(Step(s, a), [b]) == Run(Step(Step(s, a), b), []);
  }

  lemma RunFour(s: State, a: Action, b: Action, c: Action, d: Action)
    ensures Run(s, [a, b, c, d]) == Step(Step(Step(Step(s, a), b), c), d)
  {
    assert [a, b, c, d] == [a, b] + [c, d];
    RunConcat(s, [a, b], [c, d]);
    RunTwo(s, a, b);
    RunTwo(Step(Step(s, a), b), c, d);
  }

  predicate RunsAndPicked(s: State, v: nat, w: nat, id: string) {
    && id in s.jobs && s.jobs[id].status == Running && !s.jobs[id].reminder
    && PcOf(s, v) == Claimed(id) && PcOf(s, w) == Picked(id)
    && s.log == [Created(id), Entered(id)]
  }

  lemma StaleRunStarts(v: nat, w: nat, id: string, now: Instant)
    requires v != w
    ensures RunsAndPicked(Run(INITIAL, StaleStart(v, w, id, now)), v, w, id)
  {
    var a := StaleStart(v, w, id, now);
    RunFour(INITIAL, a[0], a[1], a[2], a[3]);
    var s1 := Step(INITIAL, a[0]);
    assert IsNext(s1.jobs, now, id);
    var s2 := Step(s1, a[1]);
    assert s2.jobs == s1.jobs && PcOf(s2, v) == Picked(id);
    var s3 := Step(s2, a[2]);
    assert s3.jobs == s1.jobs && PcOf(s3, v) == Picked(id) && PcOf(s3, w) == Picked(id);
    assert [Created(id)] + [Entered(id)] == [Created(id), Entered(id)];
  }

  lemma StaleRunGoesOn(s: State, v: nat, w: nat, id: string, now: Instant)
    requires v != w && RunsAndPicked(s, v, w, id)
    ensures
      var t := Step(Step(s, Dispatch(v, Response(true, true))), Close(v, now));
      && id in t.jobs && t.jobs[id].status == WaitingConfirmation && PcOf(t, w) == Picked(id)
      && t.log == s.log + [Dispatched(id, Response(true, true))]
  {
    var d := Step(s, Dispatch(v, Response(true, true)));
    assert PcOf(d, v) == Closing(id, WaitingConfirmation, None) && PcOf(d, w) == Picked(id) && d.jobs == s.jobs;
  }

  lemma StaleRunEnds(s: State, w: nat, id: string, now: Instant)
    requires id in s.jobs && s.jobs[id].status == WaitingConfirmation && PcOf(s, w) == Picked(id)
    ensures Step(Step(s, Claim(w, now)), Dispatch(w, Response(true, true))).log == s.log + [Entered(id)] + [Dispatched(id, Response(true, true))]
  {
    var c := Step(s, Claim(w, now));
    assert PcOf(c, w) == Claimed(id) && id in c.jobs && c.log == s.log + [Entered(id)];
  }

  lemma StaleLog(id: string)
    ensures
      var log := [Created(id), Entered(id)] + [Dispatched(id, Response(true, true))] + [Entered(id)] + [Dispatched(id, Response(true, true))];
      Times(log, Dispatching, id) == 2 && Times(log, Requeue, id) == 0
  {
    TimesAppend([], Created(id));
    assert [] + [Created(id)] == [Created(id)] && [Created(id)] + [Entered(id)] == [Created(id), Entered(id)];
    TimesAppend([Created(id)], Entered(id));
    TimesAppend([Created(id), Entered(id)], Dispatched(id, Response(true, true)));
    TimesAppend([Created(id), Entered(id)] + [Dispatched(id, Response(true, true))], Entered(id));
    TimesAppend([Created(id), Entered(id)] + [Dispatched(id, Response(true, true))] + [Entered(id)], Dispatched(id, Response(true, true)));
  }

  /** Any two workers can dispatch a job that waits for confirmation a second time although nobody asked for a retry. */
  lemma StaleWorkerRunsWaitingJob(v: nat, w: nat, id: string, now: Instant)
    requires v != w
    ensures
      var log := Run(INITIAL, StaleRun(v, w, id, now)).log;
      Times(log, Dispatching, id) == 2 && Times(log, Requeue, id) == 0
  {
    var rest := StaleRest(v, w, now);
    RunConcat(INITIAL, StaleStart(v, w, id, now), rest);
    StaleRunStarts(v, w, id, now);
    var s := Run(INITIAL, StaleStart(v, w, id, now));
    RunFour(s, rest[0], rest[1], rest[2], rest[3]);
    StaleRunGoesOn(s, v, w, id, now);
    StaleRunEnds(Step(Step(s, rest[0]), rest[1]), w, id, now);
    StaleLog(id);
  }

  // ----- exactly one worker -----

  ghost predicate AlwaysOncePerRetry(ws: set<nat>) {
    forall actions: seq<Action>, id: string :: RunBy(actions, ws) ==> OncePerRetry(actions, id)
  }

  ghost predicate AtMostOne(ws: set<nat>) {
    forall v, w :: v in ws && w in ws ==> v == w
  }

  lemma OneSufficesForAll(ws: set<nat>)
    requires AtMostOne(ws)
    ensures AlwaysOncePerRetry(ws)
  {
    var w := if ws == {} then 0 else var x :| x in ws; x;
    forall actions: seq<Action>, id: string | RunBy(actions, ws) ensures OncePerRetry(actions, id) {
      OneWorkerDispatchesOncePerRetry(actions, w, id);
    }
  }

  lemma StaleRunIsBy(v: nat, w: nat, id: string, now: Instant, ws: set<nat>)
    requires v in ws && w in ws
    ensures RunBy(StaleRun(v, w, id, now), ws)
  {
    var a := StaleRun(v, w, id, now);
    assert forall k :: 0 <= k < |a| && WorkerOf(a[k]).Some? ==> WorkerOf(a[k]).value in {v, w};
  }

  /** Exactly: every run by the workers `ws` dispatches every job at most once per retry if and only if `ws` has at most one worker. */
  lemma OncePerRetryExactlyForOneWorker(ws: set<nat>)
    ensures AlwaysOncePerRetry(ws) <==> AtMostOne(ws)
  {
    if AtMostOne(ws) {
      OneSufficesForAll(ws);
    } else {
      var v, w :| v in ws && w in ws && v != w;
      var id, now := "", Fields(1, 1, 1, 0, 0, 0, 0);
      StaleRunIsBy(v, w, id, now, ws);
      StaleWorkerRunsWaitingJob(v, w, id, now);
      assert !OncePerRetry(StaleRun(v, w, id, now), id);
    }
  }
}
