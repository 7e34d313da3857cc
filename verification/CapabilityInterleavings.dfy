/**
  Consent and faithful arguments under every interleaving: any number of threads run the graph of
  src/assistant/capabilities/adaptive_capability_graph.py over the same workflows, resume from any checkpoint ever
  saved, crash and replay, while the other steps of the repository come at any time. The retry automaton is that
  of `RetryRuns`.
 */
module CapabilityInterleavings {
  import opened Common
  import opened IsoTime
  import opened Json
  import opened RetryArguments
  import opened CapabilityTable
  import opened CapabilityProtocol
  import opened CapabilityGraph
  import P = ToolProvisioning
  import R = RetryRuns
  import opened SingleRuns
  import C = CapabilityRuns

  /** Where a thread is in the graph, with the decision that its graph state carries. */
  datatype Node =
    | AtTool
    | AtEnable(decision: ToolDecision)
    | AtReload(decision: ToolDecision)
    | AtRoute(decision: ToolDecision)
    | AtRetry
    | AtExecute

  datatype Place = Place(id: string, node: Node)

  /** What a workflow was started with, and whether its interrupt offers the single run, which follows from that. */
  datatype Origin = Origin(definition: Definition, proposed: Action, offered: bool)

  /** `saved` holds every checkpoint there ever was; `places` the threads inside the graph; the stories are for the theorems. */
  datatype Scene = Scene(
    retry: R.State,
    origins: map<string, Origin>,
    saved: set<Place>,
    places: map<nat, Place>,
    ephemeral: map<string, map<string, Json>>,
    stories: map<string, seq<Event>>)

  datatype Act =
    | Start(id: string, definition: Definition, proposed: Action, record: Record)
    | Resume(t: nat, place: Place)
    | AnswerTool(t: nat, tool: ToolDecision)
    | Enabled(t: nat)
    | Reloaded(t: nat)
    | Judge(t: nat, policy: string, dryRun: map<string, Json>)
    | AnswerRetry(t: nat, retry: RetryDecision)
    | Enter(t: nat)
    | Execute(t: nat, ok: bool, result: Json)
    | Repository(action: R.Action)
    | Leave(t: nat)
    | Forget(id: string)

  const INITIAL := Scene(R.INITIAL, map[], {}, map[], map[], map[])

  // ----- small changes -----

  function Tell(w: Scene, id: string, e: Event): Scene {
    if id in w.stories then w.(stories := w.stories[id := w.stories[id] + [e]]) else w
  }

  /** The thread goes on to the next node, and its graph state is saved. */
  function Go(w: Scene, t: nat, p: Place): Scene {
    w.(places := w.places[t := p], saved := w.saved + {p})
  }

  function Leaves(w: Scene, t: nat): Scene {
    w.(places := w.places - {t})
  }

  predicate IsAt(w: Scene, t: nat) {
    t in w.places && w.places[t].id in w.origins && w.places[t].id in w.stories
  }

  function Stored(o: Origin, rules: TextRules): Action {
    SanitizeAction(o.proposed, rules)
  }

  function OriginOf(definition: Definition, proposed: Action, rules: TextRules): Origin {
    Origin(definition, proposed, CanOfferRunOnce(definition.permissions, SanitizeAction(proposed, rules), rules))
  }

  // ----- the steps -----

  /** An act that is not possible changes nothing. */
  function Step(w: Scene, a: Act, cfg: Config): Scene {
    match a
    case Start(id, definition, proposed, record) => StartStep(w, id, OriginOf(definition, proposed, cfg.rules), record, cfg)
    case Resume(t, place) => if t !in w.places && place in w.saved then w.(places := w.places[t := place]) else w
    case AnswerTool(t, d) => if IsAt(w, t) && w.places[t].node.AtTool? then AnswerToolStep(w, t, d) else w
    case Enabled(t) => if IsAt(w, t) && w.places[t].node.AtEnable? then EnabledStep(w, t) else w
    case Reloaded(t) => if IsAt(w, t) && w.places[t].node.AtReload? then ReloadedStep(w, t) else w
    case Judge(t, policy, dryRun) => if IsAt(w, t) && w.places[t].node.AtRoute? then JudgeStep(w, t, policy, dryRun, cfg.rules) else w
    case AnswerRetry(t, r) => if IsAt(w, t) && w.places[t].node.AtRetry? then AnswerRetryStep(w, t, r) else w
    case Enter(t) => if IsAt(w, t) && w.places[t].node.AtExecute? then EnterStep(w, t, cfg.maxPending) else w
    case Execute(t, ok, result) => ExecuteStep(w, t, ok, result, cfg)
    case Repository(action) =>
      if action.Create? || action.Enter? || action.Execute? then w
      else w.(retry := R.Step(w.retry, action, cfg.maxPending))
    case Leave(t) => Leaves(w, t)
    case Forget(id) => w.(ephemeral := w.ephemeral - {id})
  }

  function StartStep(w: Scene, id: string, origin: Origin, record: Record, cfg: Config): Scene {
    var n := R.Step(w.retry, R.Create(id, record), cfg.maxPending);
    if id in w.origins || id in w.stories || n == w.retry || !P.ValidToolName(origin.definition.key.name) then w
    else
      Scene(n, w.origins[id := origin], w.saved + {Place(id, AtTool)}, w.places,
            if RequiresEphemeralArguments(origin.proposed, cfg.rules)
            then w.ephemeral[id := ActionArguments(origin.proposed)] else w.ephemeral - {id},
            w.stories[id := [Proposed(origin.proposed)]])
  }

  function EnabledStep(w: Scene, t: nat): Scene
    requires IsAt(w, t) && w.places[t].node.AtEnable?
  {
    Go(w, t, Place(w.places[t].id, AtReload(w.places[t].node.decision)))
  }

  function ReloadedStep(w: Scene, t: nat): Scene
    requires IsAt(w, t) && w.places[t].node.AtReload?
  {
    var d := w.places[t].node.decision;
    Go(w, t, Place(w.places[t].id, if d == ApproveAndRunOnce then AtRoute(d) else AtRetry))
  }

  function EnterStep(w: Scene, t: nat, maxPending: int): Scene
    requires IsAt(w, t)
  {
    w.(retry := R.Step(w.retry, R.Enter(t, w.places[t].id), maxPending))
  }

  function AnswerToolStep(w: Scene, t: nat, d: ToolDecision): Scene
    requires IsAt(w, t)
  {
    var id := w.places[t].id;
    var told := Tell(w, id, ToolDecided(d, w.origins[id].offered));
    if Approves(d) then Go(told, t, Place(id, AtEnable(d))) else Leaves(told, t)
  }

  function JudgeStep(w: Scene, t: nat, policy: string, dryRun: map<string, Json>, rules: TextRules): Scene
    requires IsAt(w, t)
  {
    var id := w.places[t].id;
    var o := w.origins[id];
    var retryStatus := if id in w.retry.rows then w.retry.rows[id].retryStatus else RetryPending;
    var judgement := Judgement(o.definition.permissions, Stored(o, rules), policy, retryStatus, dryRun, rules);
    Go(Tell(w, id, judgement), t, Place(id, if judgement.eligible then AtExecute else AtRetry))
  }

  function AnswerRetryStep(w: Scene, t: nat, r: RetryDecision): Scene
    requires IsAt(w, t)
  {
    var id := w.places[t].id;
    var told := Tell(w, id, RetryDecided(r));
    if r == ConfirmRetry then Go(told, t, Place(id, AtExecute)) else Leaves(told, t)
  }

  function Prepares(w: Scene, id: string, rules: TextRules): Option<Json>
    requires id in w.origins
  {
    PrepareRetry(w.origins[id].definition.key.name, Stored(w.origins[id], rules), if id in w.ephemeral then Some(w.ephemeral[id]) else None)
  }

  function ExecuteStep(w: Scene, t: nat, ok: bool, result: Json, cfg: Config): Scene {
    var pc := R.PcOf(w.retry, t);
    if !pc.Claimed? || pc.id !in w.origins then w
    else
      var retry := Prepares(w, pc.id, cfg.rules);
      var told := if retry.Some? then Tell(w, pc.id, Called(retry.value)) else w;
      told.(retry := R.Step(w.retry, R.Execute(t, retry.Some?, ok, result), cfg.maxPending))
  }

  function Run(w: Scene, acts: seq<Act>, cfg: Config): Scene
    decreases |acts|
  {
    if acts == [] then w else Run(Step(w, acts[0], cfg), acts[1..], cfg)
  }

  // ----- what a place stands for -----

  ghost predicate Decided(h: seq<Event>, d: ToolDecision, offered: bool) {
    Approves(d) && exists i :: 0 <= i < |h| && h[i] == ToolDecided(d, offered)
  }

  ghost predicate Approved(h: seq<Event>) {
    exists i: nat :: ApprovedAt(h, i)
  }

  /** The story has the consent that a thread at this node has obtained, itself or through a checkpoint. */
  ghost predicate Justified(h: seq<Event>, n: Node, offered: bool) {
    match n
    case AtTool => true
    case AtEnable(d) => Decided(h, d, offered)
    case AtReload(d) => Decided(h, d, offered)
    case AtRoute(d) => Decided(h, d, offered) && d == ApproveAndRunOnce
    case AtRetry => Approved(h)
    case AtExecute => ConsentedBefore(h, |h|)
  }

  type Origins = map<string, Origin>

  type Stories = map<string, seq<Event>>

  ghost predicate JustifiedAt(origins: Origins, stories: Stories, p: Place) {
    p.id in origins && p.id in stories && Justified(stories[p.id], p.node, origins[p.id].offered)
  }

  lemma DecidedOneMore(h: seq<Event>, e: Event, d: ToolDecision, offered: bool)
    requires Decided(h, d, offered)
    ensures Decided(h + [e], d, offered)
  {
    var i :| 0 <= i < |h| && h[i] == ToolDecided(d, offered);
    assert (h + [e])[i] == h[i];
  }

  lemma ApprovedOneMore(h: seq<Event>, e: Event)
    requires Approved(h)
    ensures Approved(h + [e])
  {
    var i: nat :| ApprovedAt(h, i);
    assert ApprovedAt(h + [e], i);
  }

  lemma ConsentedOneMore(h: seq<Event>, e: Event, k: nat)
    requires k <= |h| && ConsentedBefore(h, k)
    ensures ConsentedBefore(h + [e], k) && ConsentedBefore(h + [e], |h| + 1)
  {
    var i, j :| 0 <= i < j < k <= |h| && ApprovedAt(h, i) &&
      (h[j] == RetryDecided(ConfirmRetry) || (h[j].Judged? && h[j].eligible && h[i] == ToolDecided(ApproveAndRunOnce, true)));
    var g := h + [e];
    assert g[i] == h[i] && g[j] == h[j] && ApprovedAt(g, i);
  }

  /** Consent once given is never lost. */
  lemma JustifiedOneMore(h: seq<Event>, e: Event, n: Node, offered: bool)
    requires Justified(h, n, offered)
    ensures Justified(h + [e], n, offered)
  {
    match n
    case AtTool =>
    case AtEnable(d) => DecidedOneMore(h, e, d, offered);
    case AtReload(d) => DecidedOneMore(h, e, d, offered);
    case AtRoute(d) => DecidedOneMore(h, e, d, offered);
    case AtRetry => ApprovedOneMore(h, e);
    case AtExecute => ConsentedOneMore(h, e, |h|);
  }

  // ----- the invariant -----

  ghost predicate Placed(origins: Origins, stories: Stories, saved: set<Place>, places: map<nat, Place>) {
    && (forall p :: p in saved ==> JustifiedAt(origins, stories, p))
    && (forall t :: t in places ==> JustifiedAt(origins, stories, places[t]))
  }

  ghost predicate Consented(stories: Stories, id: string) {
    id in stories && ConsentedBefore(stories[id], |stories[id]|)
  }

  /** Every thread in the execution is there with consent. */
  ghost predicate WorksWithConsent(r: R.State, stories: Stories) {
    forall t :: R.PcOf(r, t) != R.Idle ==> Consented(stories, R.PcOf(r, t).id)
  }

  /** A story: what was proposed, calls that were consented to and carry what the proposal prescribes, and right judgements. */
  ghost predicate GoodStory(h: seq<Event>, o: Origin, rules: TextRules) {
    && h != [] && h[0] == Proposed(o.proposed) && P.ValidToolName(o.definition.key.name)
    && EventsAreGood(h, C.ProperFor(o.definition, o.proposed, rules))
  }

  ghost predicate EventsAreGood(h: seq<Event>, good: Event -> bool) {
    && (forall k :: 0 <= k < |h| && h[k].Called? ==> ConsentedBefore(h, k))
    && (forall k :: 0 <= k < |h| && C.Weighty(h[k]) ==> good(h[k]))
  }

  ghost predicate GoodStories(origins: Origins, stories: Stories, rules: TextRules) {
    forall id :: id in stories ==> id in origins && GoodStory(stories[id], origins[id], rules)
  }

  ghost predicate Remembers(origins: Origins, ephemeral: map<string, map<string, Json>>) {
    forall id :: id in ephemeral && id in origins ==> ephemeral[id] == ActionArguments(origins[id].proposed)
  }

  ghost predicate AtMostOneCall(h: seq<Event>) {
    forall i, k :: 0 <= i < k < |h| && h[i].Called? ==> !h[k].Called?
  }

  /** The story has at most one call, and none before the repository counts one. */
  ghost predicate Counted(stories: Stories, calls: seq<string>) {
    forall id :: id in stories ==> AtMostOneCall(stories[id]) && (CalledIn(stories[id]) ==> id in calls)
  }

  /** Whether the single run is offered is what the definition and the stored action say. */
  ghost predicate Honest(origins: Origins, rules: TextRules) {
    forall id :: id in origins ==> origins[id] == OriginOf(origins[id].definition, origins[id].proposed, rules)
  }

  ghost predicate Inv(w: Scene, cfg: Config) {
    && Placed(w.origins, w.stories, w.saved, w.places)
    && GoodStories(w.origins, w.stories, cfg.rules)
    && Remembers(w.origins, w.ephemeral)
    && Counted(w.stories, w.retry.calls)
    && WorksWithConsent(w.retry, w.stories)
    && R.Inv(w.retry, cfg.maxPending)
  }

  // ----- the small changes keep it -----

  lemma JustifiedStays(origins: Origins, stories: Stories, id: string, e: Event, p: Place)
    requires id in stories && JustifiedAt(origins, stories, p)
    ensures JustifiedAt(origins, stories[id := stories[id] + [e]], p)
  {
    if p.id == id {
      JustifiedOneMore(stories[id], e, p.node, origins[id].offered);
    }
  }

  lemma TellKeepsPlaces(origins: Origins, stories: Stories, id: string, e: Event, saved: set<Place>, places: map<nat, Place>)
    requires Placed(origins, stories, saved, places) && id in stories
    ensures Placed(origins, stories[id := stories[id] + [e]], saved, places)
  {
    forall p | p in saved {
      JustifiedStays(origins, stories, id, e, p);
    }
    forall t | t in places {
      JustifiedStays(origins, stories, id, e, places[t]);
    }
  }

  lemma ConsentStays(stories: Stories, id: string, e: Event, other: string)
    requires id in stories && Consented(stories, other)
    ensures Consented(stories[id := stories[id] + [e]], other)
  {
    if other == id {
      ConsentedOneMore(stories[id], e, |stories[id]|);
    }
  }

  lemma TellKeepsWork(r: R.State, stories: Stories, id: string, e: Event)
    requires WorksWithConsent(r, stories) && id in stories
    ensures WorksWithConsent(r, stories[id := stories[id] + [e]])
  {
    forall t | R.PcOf(r, t) != R.Idle ensures Consented(stories[id := stories[id] + [e]], R.PcOf(r, t).id) {
      ConsentStays(stories, id, e, R.PcOf(r, t).id);
    }
  }

  lemma StoryOneMore(h: seq<Event>, e: Event, o: Origin, rules: TextRules)
    requires GoodStory(h, o, rules)
    requires (e.Called? ==> ConsentedBefore(h, |h|)) && (C.Weighty(e) ==> C.ProperFor(o.definition, o.proposed, rules)(e))
    ensures GoodStory(h + [e], o, rules)
  {
    EventsOneMore(h, e, C.ProperFor(o.definition, o.proposed, rules));
  }

  lemma EventsOneMore(h: seq<Event>, e: Event, good: Event -> bool)
    requires EventsAreGood(h, good) && (e.Called? ==> ConsentedBefore(h, |h|)) && (C.Weighty(e) ==> good(e))
    ensures EventsAreGood(h + [e], good)
  {
    var g := h + [e];
    forall k | 0 <= k < |g| && g[k].Called? ensures ConsentedBefore(g, k) {
      if k < |h| {
        assert g[k] == h[k];
      }
      ConsentedOneMore(h, e, k);
    }
  }

  /** A call or judgement of this workflow is what it should be. */
  ghost predicate IsProper(origins: Origins, id: string, e: Event, rules: TextRules) {
    C.Weighty(e) ==> id in origins && C.ProperFor(origins[id].definition, origins[id].proposed, rules)(e)
  }

  lemma TellKeepsStories(origins: Origins, stories: Stories, id: string, e: Event, rules: TextRules)
    requires GoodStories(origins, stories, rules) && id in stories
    requires e.Called? ==> Consented(stories, id)
    requires IsProper(origins, id, e, rules)
    ensures GoodStories(origins, stories[id := stories[id] + [e]], rules)
  {
    StoryOneMore(stories[id], e, origins[id], rules);
  }

  lemma CountOneMore(h: seq<Event>, e: Event)
    requires AtMostOneCall(h) && (e.Called? ==> !CalledIn(h))
    ensures AtMostOneCall(h + [e]) && (CalledIn(h + [e]) <==> CalledIn(h) || e.Called?)
  {
    var g := h + [e];
    assert forall k :: 0 <= k < |h| ==> g[k] == h[k];
    assert g[|h|] == e;
  }

  lemma TellKeepsCount(stories: Stories, id: string, e: Event, calls: seq<string>, after: seq<string>)
    requires Counted(stories, calls) && id in stories && calls <= after
    requires e.Called? ==> id !in calls && id in after
    ensures Counted(stories[id := stories[id] + [e]], after)
  {
    CountOneMore(stories[id], e);
    assert forall other :: other in calls ==> other in after;
  }

  /** An event that is no call. */
  lemma TellKeepsInvariant(w: Scene, id: string, e: Event, cfg: Config)
    requires Inv(w, cfg) && id in w.stories && !e.Called? && IsProper(w.origins, id, e, cfg.rules)
    ensures Inv(Tell(w, id, e), cfg)
  {
    TellKeepsPlaces(w.origins, w.stories, id, e, w.saved, w.places);
    TellKeepsWork(w.retry, w.stories, id, e);
    TellKeepsStories(w.origins, w.stories, id, e, cfg.rules);
    TellKeepsCount(w.stories, id, e, w.retry.calls, w.retry.calls);
  }

  lemma GoKeepsInvariant(w: Scene, t: nat, p: Place, cfg: Config)
    requires Inv(w, cfg) && JustifiedAt(w.origins, w.stories, p)
    ensures Inv(Go(w, t, p), cfg)
  {
  }

  lemma LeaveKeepsInvariant(w: Scene, t: nat, cfg: Config)
    requires Inv(w, cfg)
    ensures Inv(Leaves(w, t), cfg)
  {
  }

  /** One more event of the story, after which the thread goes on to a place that the event justifies. */
  lemma TellAndGo(w: Scene, t: nat, id: string, e: Event, p: Place, cfg: Config)
    requires Inv(w, cfg) && id in w.stories && !e.Called? && IsProper(w.origins, id, e, cfg.rules)
    requires JustifiedAt(w.origins, w.stories[id := w.stories[id] + [e]], p)
    ensures Inv(Go(Tell(w, id, e), t, p), cfg)
  {
    TellKeepsInvariant(w, id, e, cfg);
    GoKeepsInvariant(Tell(w, id, e), t, p, cfg);
  }

  lemma TellAndLeave(w: Scene, t: nat, id: string, e: Event, cfg: Config)
    requires Inv(w, cfg) && id in w.stories && !e.Called? && IsProper(w.origins, id, e, cfg.rules)
    ensures Inv(Leaves(Tell(w, id, e), t), cfg)
  {
    TellKeepsInvariant(w, id, e, cfg);
    LeaveKeepsInvariant(Tell(w, id, e), t, cfg);
  }

  // ----- the steps keep it -----

  lemma RetryStepKeeps(s: R.State, a: R.Action, maxPending: int)
    requires R.Inv(s, maxPending)
    ensures R.Inv(R.Step(s, a, maxPending), maxPending)
  {
    R.StepKeepsOwners(s, a, maxPending);
    R.StepKeepsCalls(s, a, maxPending);
    R.StepKeepsFinals(s, a, maxPending);
    R.StepKeepsCapacity(s, a, maxPending);
  }

  /** A step of the repository by which nobody enters. */
  lemma OtherStepOfThread(s: R.State, a: R.Action, maxPending: int, t: nat)
    requires !a.Enter?
    ensures var n := R.Step(s, a, maxPending); R.PcOf(n, t) != R.Idle ==> R.PcOf(s, t) != R.Idle && R.PcOf(s, t).id == R.PcOf(n, t).id
  {
  }

  lemma CallsGoOn(s: R.State, a: R.Action, maxPending: int)
    ensures s.calls <= R.Step(s, a, maxPending).calls
  {
  }

  lemma OtherStepKeepsWork(s: R.State, a: R.Action, maxPending: int, stories: Stories)
    requires WorksWithConsent(s, stories) && !a.Enter?
    ensures WorksWithConsent(R.Step(s, a, maxPending), stories)
  {
    forall t {
      OtherStepOfThread(s, a, maxPending, t);
    }
  }

  lemma MoreCallsCount(stories: Stories, calls: seq<string>, after: seq<string>)
    requires Counted(stories, calls) && calls <= after
    ensures Counted(stories, after)
  {
    assert forall id :: id in calls ==> id in after;
  }

  lemma RepositoryKeepsInvariant(w: Scene, a: R.Action, cfg: Config)
    requires Inv(w, cfg) && !a.Enter?
    ensures Inv(w.(retry := R.Step(w.retry, a, cfg.maxPending)), cfg)
  {
    RetryStepKeeps(w.retry, a, cfg.maxPending);
    CallsGoOn(w.retry, a, cfg.maxPending);
    OtherStepKeepsWork(w.retry, a, cfg.maxPending, w.stories);
    MoreCallsCount(w.stories, w.retry.calls, R.Step(w.retry, a, cfg.maxPending).calls);
  }

  lemma EnterKeepsWork(s: R.State, t: nat, id: string, maxPending: int, stories: Stories)
    requires WorksWithConsent(s, stories) && Consented(stories, id)
    ensures WorksWithConsent(R.Step(s, R.Enter(t, id), maxPending), stories)
    ensures R.Step(s, R.Enter(t, id), maxPending).calls == s.calls
  {
    var n := R.Step(s, R.Enter(t, id), maxPending);
    assert forall u :: u != t ==> R.PcOf(n, u) == R.PcOf(s, u);
  }

  lemma PlaceIsJustified(w: Scene, t: nat, cfg: Config)
    requires Inv(w, cfg) && IsAt(w, t)
    ensures JustifiedAt(w.origins, w.stories, w.places[t])
  {
  }

  lemma EnterWithConsent(w: Scene, t: nat, id: string, cfg: Config)
    requires Inv(w, cfg) && Consented(w.stories, id)
    ensures Inv(w.(retry := R.Step(w.retry, R.Enter(t, id), cfg.maxPending)), cfg)
  {
    EnterKeepsWork(w.retry, t, id, cfg.maxPending, w.stories);
    RetryStepKeeps(w.retry, R.Enter(t, id), cfg.maxPending);
  }

  lemma EnterKeepsInvariant(w: Scene, t: nat, cfg: Config)
    requires Inv(w, cfg)
    ensures Inv(Step(w, Enter(t), cfg), cfg)
  {
    if IsAt(w, t) && w.places[t].node.AtExecute? {
      PlaceIsJustified(w, t, cfg);
      PlaceHasConsent(w.origins, w.stories, w.places[t]);
      EnterWithConsent(w, t, w.places[t].id, cfg);
    }
  }

  lemma PlaceHasConsent(origins: Origins, stories: Stories, p: Place)
    requires JustifiedAt(origins, stories, p) && p.node.AtExecute?
    ensures Consented(stories, p.id)
  {
  }

  lemma DecidedPlace(origins: Origins, stories: Stories, id: string, d: ToolDecision)
    requires id in origins && id in stories && Approves(d)
    ensures JustifiedAt(origins, stories[id := stories[id] + [ToolDecided(d, origins[id].offered)]], Place(id, AtEnable(d)))
  {
    var e := ToolDecided(d, origins[id].offered);
    assert (stories[id] + [e])[|stories[id]|] == e;
  }

  lemma AnswerToolKeepsInvariant(w: Scene, t: nat, d: ToolDecision, cfg: Config)
    requires Inv(w, cfg)
    ensures Inv(Step(w, AnswerTool(t, d), cfg), cfg)
  {
    if IsAt(w, t) && w.places[t].node.AtTool? {
      var id := w.places[t].id;
      var e := ToolDecided(d, w.origins[id].offered);
      if Approves(d) {
        DecidedPlace(w.origins, w.stories, id, d);
        TellAndGo(w, t, id, e, Place(id, AtEnable(d)), cfg);
      } else {
        TellAndLeave(w, t, id, e, cfg);
      }
    }
  }

  lemma ConsentByJudgement(h: seq<Event>, d: ToolDecision, e: Event)
    requires Decided(h, d, true) && d == ApproveAndRunOnce && e.Judged? && e.eligible
    ensures var g := h + [e]; ConsentedBefore(g, |g|)
  {
    var i :| 0 <= i < |h| && h[i] == ToolDecided(d, true);
    var g := h + [e];
    assert g[i] == h[i] && g[|h|] == e && ApprovedAt(g, i);
  }

  lemma ConsentByConfirmation(h: seq<Event>)
    requires Approved(h)
    ensures var g := h + [RetryDecided(ConfirmRetry)]; ConsentedBefore(g, |g|)
  {
    var i: nat :| ApprovedAt(h, i);
    var g := h + [RetryDecided(ConfirmRetry)];
    assert g[i] == h[i] && g[|h|] == RetryDecided(ConfirmRetry) && ApprovedAt(g, i);
  }

  lemma DecidedIsApproved(h: seq<Event>, d: ToolDecision, offered: bool)
    requires Decided(h, d, offered)
    ensures Approved(h)
  {
    var i :| 0 <= i < |h| && h[i] == ToolDecided(d, offered);
    assert ApprovedAt(h, i);
  }

  lemma JudgeKeepsInvariant(w: Scene, t: nat, policy: string, dryRun: map<string, Json>, cfg: Config)
    requires Inv(w, cfg) && Honest(w.origins, cfg.rules)
    ensures Inv(Step(w, Judge(t, policy, dryRun), cfg), cfg)
  {
    if IsAt(w, t) && w.places[t].node.AtRoute? {
      var id := w.places[t].id;
      var o := w.origins[id];
      var retryStatus := if id in w.retry.rows then w.retry.rows[id].retryStatus else RetryPending;
      var verdict := Evaluate(o.definition.permissions, Stored(o, cfg.rules), policy, retryStatus, dryRun, cfg.rules);
      var e := Judgement(o.definition.permissions, Stored(o, cfg.rules), policy, retryStatus, dryRun, cfg.rules);
      PlaceIsJustified(w, t, cfg);
      C.JudgementIsProper(o.definition, o.proposed, policy, retryStatus, dryRun, cfg.rules);
      if verdict.None? {
        EligibleWasOffered(o.definition.permissions, Stored(o, cfg.rules), policy, retryStatus, dryRun, cfg.rules);
        JudgedPlace(w.origins, w.stories, w.places[t], e);
        TellAndGo(w, t, id, e, Place(id, AtExecute), cfg);
      } else {
        UnjudgedPlace(w.origins, w.stories, w.places[t], e);
        TellAndGo(w, t, id, e, Place(id, AtRetry), cfg);
      }
    }
  }

  lemma JudgedPlace(origins: Origins, stories: Stories, p: Place, e: Event)
    requires JustifiedAt(origins, stories, p) && p.node.AtRoute? && origins[p.id].offered && e.Judged? && e.eligible
    ensures JustifiedAt(origins, stories[p.id := stories[p.id] + [e]], Place(p.id, AtExecute))
  {
    ConsentByJudgement(stories[p.id], p.node.decision, e);
  }

  lemma UnjudgedPlace(origins: Origins, stories: Stories, p: Place, e: Event)
    requires JustifiedAt(origins, stories, p) && p.node.AtRoute?
    ensures JustifiedAt(origins, stories[p.id := stories[p.id] + [e]], Place(p.id, AtRetry))
  {
    DecidedIsApproved(stories[p.id], p.node.decision, origins[p.id].offered);
    ApprovedOneMore(stories[p.id], e);
  }

  lemma ConfirmedPlace(origins: Origins, stories: Stories, p: Place)
    requires JustifiedAt(origins, stories, p) && p.node.AtRetry?
    ensures JustifiedAt(origins, stories[p.id := stories[p.id] + [RetryDecided(ConfirmRetry)]], Place(p.id, AtExecute))
  {
    ConsentByConfirmation(stories[p.id]);
  }

  lemma AnswerRetryKeepsInvariant(w: Scene, t: nat, r: RetryDecision, cfg: Config)
    requires Inv(w, cfg)
    ensures Inv(Step(w, AnswerRetry(t, r), cfg), cfg)
  {
    if IsAt(w, t) && w.places[t].node.AtRetry? {
      var id := w.places[t].id;
      if r == ConfirmRetry {
        PlaceIsJustified(w, t, cfg);
        ConfirmedPlace(w.origins, w.stories, w.places[t]);
        TellAndGo(w, t, id, RetryDecided(r), Place(id, AtExecute), cfg);
      } else {
        TellAndLeave(w, t, id, RetryDecided(r), cfg);
      }
    }
  }

  lemma ReloadedKeepsInvariant(w: Scene, t: nat, cfg: Config)
    requires Inv(w, cfg)
    ensures Inv(Step(w, Reloaded(t), cfg), cfg)
  {
    if IsAt(w, t) && w.places[t].node.AtReload? {
      var id, d := w.places[t].id, w.places[t].node.decision;
      PlaceIsJustified(w, t, cfg);
      DecidedIsApproved(w.stories[id], d, w.origins[id].offered);
      GoKeepsInvariant(w, t, Place(id, if d == ApproveAndRunOnce then AtRoute(d) else AtRetry), cfg);
    }
  }

  lemma PreparesFaithfully(w: Scene, id: string, cfg: Config)
    requires Inv(w, cfg) && id in w.stories
    ensures
      id in w.origins &&
      var retry := Prepares(w, id, cfg.rules);
      retry.Some? ==> C.Faithful(retry.value, w.origins[id].definition.key.name, w.origins[id].proposed, cfg.rules)
  {
    var o := w.origins[id];
    C.ValidNameIsNotTheMarker(o.definition.key.name);
    C.PreparedRetryIsFaithful(o.definition.key.name, o.proposed, if id in w.ephemeral then Some(w.ephemeral[id]) else None, cfg.rules);
  }

  /** The call of the thread that was let in, told and counted together. */
  lemma CallKeepsInvariant(w: Scene, t: nat, e: Event, ok: bool, result: Json, cfg: Config)
    requires Inv(w, cfg) && R.PcOf(w.retry, t).Claimed? && R.PcOf(w.retry, t).id in w.stories && e.Called?
    requires var o := w.origins[R.PcOf(w.retry, t).id]; C.Faithful(e.retry, o.definition.key.name, o.proposed, cfg.rules)
    ensures Inv(Tell(w, R.PcOf(w.retry, t).id, e).(retry := R.Step(w.retry, R.Execute(t, true, ok, result), cfg.maxPending)), cfg)
  {
    var id, a := R.PcOf(w.retry, t).id, R.Execute(t, true, ok, result);
    RetryStepKeeps(w.retry, a, cfg.maxPending);
    assert Consented(w.stories, id) && !R.CalledFor(w.retry, id) && IsProper(w.origins, id, e, cfg.rules);
    TellKeepsPlaces(w.origins, w.stories, id, e, w.saved, w.places);
    TellKeepsStories(w.origins, w.stories, id, e, cfg.rules);
    TellKeepsWork(w.retry, w.stories, id, e);
    OtherStepKeepsWork(w.retry, a, cfg.maxPending, w.stories[id := w.stories[id] + [e]]);
    CallIsCounted(w.retry, t, ok, result, cfg.maxPending);
    TellKeepsCount(w.stories, id, e, w.retry.calls, R.Step(w.retry, a, cfg.maxPending).calls);
  }

  lemma CallIsCounted(s: R.State, t: nat, ok: bool, result: Json, maxPending: int)
    requires R.PcOf(s, t).Claimed?
    ensures R.Step(s, R.Execute(t, true, ok, result), maxPending).calls == s.calls + [R.PcOf(s, t).id]
  {
  }

  lemma ExecuteKeepsInvariant(w: Scene, t: nat, ok: bool, result: Json, cfg: Config)
    requires Inv(w, cfg)
    ensures Inv(ExecuteStep(w, t, ok, result, cfg), cfg)
  {
    var pc := R.PcOf(w.retry, t);
    if pc.Claimed? && pc.id in w.origins {
      assert Consented(w.stories, pc.id);
      PreparesFaithfully(w, pc.id, cfg);
      var retry := Prepares(w, pc.id, cfg.rules);
      if retry.Some? {
        CallKeepsInvariant(w, t, Called(retry.value), ok, result, cfg);
      } else {
        RepositoryKeepsInvariant(w, R.Execute(t, false, ok, result), cfg);
      }
    }
  }

  lemma JustifiedAfterStart(w: Scene, id: string, o: Origin, h: seq<Event>, p: Place)
    requires id !in w.origins && JustifiedAt(w.origins, w.stories, p)
    ensures JustifiedAt(w.origins[id := o], w.stories[id := h], p)
  {
  }

  lemma StartKeepsPlaces(w: Scene, id: string, o: Origin, h: seq<Event>)
    requires id !in w.origins && Placed(w.origins, w.stories, w.saved, w.places)
    ensures Placed(w.origins[id := o], w.stories[id := h], w.saved + {Place(id, AtTool)}, w.places)
  {
    forall p | p in w.saved {
      JustifiedAfterStart(w, id, o, h, p);
    }
    forall t | t in w.places {
      JustifiedAfterStart(w, id, o, h, w.places[t]);
    }
  }

  lemma StartKeepsStories(w: Scene, id: string, o: Origin, rules: TextRules)
    requires GoodStories(w.origins, w.stories, rules) && id !in w.origins && P.ValidToolName(o.definition.key.name)
    ensures GoodStories(w.origins[id := o], w.stories[id := [Proposed(o.proposed)]], rules)
  {
  }

  lemma StartKeepsInvariant(w: Scene, id: string, origin: Origin, record: Record, cfg: Config)
    requires Inv(w, cfg)
    ensures Inv(StartStep(w, id, origin, record, cfg), cfg)
  {
    var n := StartStep(w, id, origin, record, cfg);
    if n != w {
      RetryStepKeeps(w.retry, R.Create(id, record), cfg.maxPending);
      OtherStepKeepsWork(w.retry, R.Create(id, record), cfg.maxPending, w.stories);
      CallsGoOn(w.retry, R.Create(id, record), cfg.maxPending);
      MoreCallsCount(w.stories, w.retry.calls, n.retry.calls);
      StartKeepsPlaces(w, id, origin, [Proposed(origin.proposed)]);
      StartKeepsStories(w, id, origin, cfg.rules);
      StartKeepsWork(n.retry, w.stories, id, Proposed(origin.proposed));
      StartKeepsMemory(w, id, origin, cfg.rules);
    }
  }

  lemma StartKeepsWork(r: R.State, stories: Stories, id: string, e: Event)
    requires id !in stories && WorksWithConsent(r, stories) && Counted(stories, r.calls) && !e.Called?
    ensures WorksWithConsent(r, stories[id := [e]]) && Counted(stories[id := [e]], r.calls)
  {
  }

  lemma StartKeepsMemory(w: Scene, id: string, o: Origin, rules: TextRules)
    requires Remembers(w.origins, w.ephemeral)
    ensures Remembers(w.origins[id := o],
                      if RequiresEphemeralArguments(o.proposed, rules)
                      then w.ephemeral[id := ActionArguments(o.proposed)] else w.ephemeral - {id})
  {
  }

  lemma ResumeKeepsInvariant(w: Scene, t: nat, p: Place, cfg: Config)
    requires Inv(w, cfg)
    ensures Inv(Step(w, Resume(t, p), cfg), cfg)
  {
  }

  lemma ForgetKeepsInvariant(w: Scene, id: string, cfg: Config)
    requires Inv(w, cfg)
    ensures Inv(w.(ephemeral := w.ephemeral - {id}), cfg)
  {
  }

  lemma EnabledKeepsInvariant(w: Scene, t: nat, cfg: Config)
    requires Inv(w, cfg)
    ensures Inv(Step(w, Enabled(t), cfg), cfg)
  {
    if IsAt(w, t) && w.places[t].node.AtEnable? {
      PlaceIsJustified(w, t, cfg);
      GoKeepsInvariant(w, t, Place(w.places[t].id, AtReload(w.places[t].node.decision)), cfg);
    }
  }

  lemma RepositoryStepped(w: Scene, a: R.Action, cfg: Config)
    requires Inv(w, cfg)
    ensures Inv(Step(w, Repository(a), cfg), cfg)
  {
    if !a.Enter? {
      RepositoryKeepsInvariant(w, a, cfg);
    }
  }

  lemma OnlyStartAddsAnOrigin(w: Scene, a: Act, cfg: Config)
    ensures
      var after := Step(w, a, cfg).origins;
      after == w.origins || (a.Start? && after == w.origins[a.id := OriginOf(a.definition, a.proposed, cfg.rules)])
  {
  }

  lemma StartedIsHonest(origins: Origins, id: string, definition: Definition, proposed: Action, rules: TextRules)
    requires Honest(origins, rules)
    ensures Honest(origins[id := OriginOf(definition, proposed, rules)], rules)
  {
  }

  lemma StepKeepsHonest(w: Scene, a: Act, cfg: Config)
    requires Honest(w.origins, cfg.rules)
    ensures Honest(Step(w, a, cfg).origins, cfg.rules)
  {
    OnlyStartAddsAnOrigin(w, a, cfg);
    if a.Start? {
      StartedIsHonest(w.origins, a.id, a.definition, a.proposed, cfg.rules);
    }
  }

  lemma StepKeepsInvariant(w: Scene, a: Act, cfg: Config)
    requires Inv(w, cfg) && Honest(w.origins, cfg.rules)
    ensures Inv(Step(w, a, cfg), cfg)
  {
    match a
    case Start(id, d, proposed, record) => StartKeepsInvariant(w, id, OriginOf(d, proposed, cfg.rules), record, cfg);
    case Resume(t, place) => ResumeKeepsInvariant(w, t, place, cfg);
    case AnswerTool(t, d) => AnswerToolKeepsInvariant(w, t, d, cfg);
    case Enabled(t) => EnabledKeepsInvariant(w, t, cfg);
    case Reloaded(t) => ReloadedKeepsInvariant(w, t, cfg);
    case Judge(t, policy, dryRun) => JudgeKeepsInvariant(w, t, policy, dryRun, cfg);
    case AnswerRetry(t, r) => AnswerRetryKeepsInvariant(w, t, r, cfg);
    case Enter(t) => EnterKeepsInvariant(w, t, cfg);
    case Execute(t, ok, result) => ExecuteKeepsInvariant(w, t, ok, result, cfg);
    case Repository(action) => RepositoryStepped(w, action, cfg);
    case Leave(t) => LeaveKeepsInvariant(w, t, cfg);
    case Forget(id) => ForgetKeepsInvariant(w, id, cfg);
  }

  lemma {:induction false} RunKeepsInvariant(w: Scene, acts: seq<Act>, cfg: Config)
    requires Inv(w, cfg) && Honest(w.origins, cfg.rules)
    ensures Inv(Run(w, acts, cfg), cfg) && Honest(Run(w, acts, cfg).origins, cfg.rules)
    decreases |acts|
  {
    if acts != [] {
      StepKeepsHonest(w, acts[0], cfg);
      StepKeepsInvariant(w, acts[0], cfg);
      RunKeepsInvariant(Step(w, acts[0], cfg), acts[1..], cfg);
    }
  }

  // ----- the main results -----

  lemma Reachable(acts: seq<Act>, cfg: Config)
    ensures Inv(Run(INITIAL, acts, cfg), cfg) && Honest(Run(INITIAL, acts, cfg).origins, cfg.rules)
  {
    R.InitialInvariant(cfg.maxPending);
    RunKeepsInvariant(INITIAL, acts, cfg);
  }

  lemma StoryIsGood(acts: seq<Act>, cfg: Config, id: string)
    requires id in Run(INITIAL, acts, cfg).stories
    ensures
      var w := Run(INITIAL, acts, cfg);
      && id in w.origins && w.origins[id] == OriginOf(w.origins[id].definition, w.origins[id].proposed, cfg.rules)
      && GoodStory(w.stories[id], w.origins[id], cfg.rules) && AtMostOneCall(w.stories[id])
  {
    Reachable(acts, cfg);
  }

  lemma GoodCall(h: seq<Event>, o: Origin, rules: TextRules, k: nat)
    requires GoodStory(h, o, rules) && k < |h| && C.Weighty(h[k])
    ensures C.Proper(h[k], o.definition, o.proposed, rules) && (h[k].Called? ==> ConsentedBefore(h, k))
  {
    assert C.ProperFor(o.definition, o.proposed, rules)(h[k]);
  }

  /**
    In every interleaving: whatever was executed for a workflow was consented to before, was called once, and carried
    exactly the arguments that the proposed action prescribes.
   */
  lemma EveryExecutionIsConsentedAndFaithful(acts: seq<Act>, cfg: Config, id: string, k: nat)
    requires
      var stories := Run(INITIAL, acts, cfg).stories;
      id in stories && k < |stories[id]| && stories[id][k].Called?
    ensures
      var w := Run(INITIAL, acts, cfg);
      && id in w.origins && w.origins[id] == OriginOf(w.origins[id].definition, w.origins[id].proposed, cfg.rules)
      && ConsentedBefore(w.stories[id], k) && C.OnlyCall(w.stories[id], k)
      && w.stories[id][0] == Proposed(w.origins[id].proposed)
      && C.Faithful(w.stories[id][k].retry, w.origins[id].definition.key.name, w.origins[id].proposed, cfg.rules)
  {
    StoryIsGood(acts, cfg, id);
    var w := Run(INITIAL, acts, cfg);
    GoodCall(w.stories[id], w.origins[id], cfg.rules, k);
  }

  /** In every interleaving: a judgement lets the single run go ahead if and only if it is safe by the rules. */
  lemma EveryJudgementIsExact(acts: seq<Act>, cfg: Config, id: string, k: nat)
    requires
      var stories := Run(INITIAL, acts, cfg).stories;
      id in stories && k < |stories[id]| && stories[id][k].Judged?
    ensures
      var w := Run(INITIAL, acts, cfg);
      id in w.origins &&
      var e, o := w.stories[id][k], w.origins[id];
      e.eligible <==>
        SafeToRunOnce(o.definition.permissions, SanitizeAction(o.proposed, cfg.rules), e.policy, e.retryStatus, e.dryRun, cfg.rules)
  {
    StoryIsGood(acts, cfg, id);
    var w := Run(INITIAL, acts, cfg);
    GoodCall(w.stories[id], w.origins[id], cfg.rules, k);
  }

  /** In every interleaving: what was executed without a confirmed retry follows a judgement of a run that was safe. */
  lemma UnconfirmedCallsAreSafe(acts: seq<Act>, cfg: Config, id: string, k: nat) returns (j: nat)
    requires
      var stories := Run(INITIAL, acts, cfg).stories;
      id in stories && k < |stories[id]| && stories[id][k].Called? && RetryDecided(ConfirmRetry) !in stories[id][..k]
    ensures
      var w := Run(INITIAL, acts, cfg);
      id in w.origins && j < k && w.stories[id][j].Judged? &&
      var e, o := w.stories[id][j], w.origins[id];
      SafeToRunOnce(o.definition.permissions, SanitizeAction(o.proposed, cfg.rules), e.policy, e.retryStatus, e.dryRun, cfg.rules)
  {
    EveryExecutionIsConsentedAndFaithful(acts, cfg, id, k);
    j := JudgementBefore(Run(INITIAL, acts, cfg).stories[id], k);
    EveryJudgementIsExact(acts, cfg, id, j);
  }

  /** A thread that chose the single run goes on to the execution if and only if it is safe, and to the question otherwise. */
  lemma SafeRunsGoOn(w: Scene, t: nat, policy: string, dryRun: map<string, Json>, cfg: Config)
    requires IsAt(w, t) && w.places[t].node.AtRoute?
    ensures
      var id, after := w.places[t].id, Step(w, Judge(t, policy, dryRun), cfg);
      var o, retry := w.origins[id], if id in w.retry.rows then w.retry.rows[id].retryStatus else RetryPending;
      && t in after.places
      && after.places[t] ==
           Place(id, if SafeToRunOnce(o.definition.permissions, SanitizeAction(o.proposed, cfg.rules), policy, retry, dryRun, cfg.rules)
                     then AtExecute else AtRetry)
  {
    var id := w.places[t].id;
    var o, retry := w.origins[id], if id in w.retry.rows then w.retry.rows[id].retryStatus else RetryPending;
    EligibleExactly(o.definition.permissions, SanitizeAction(o.proposed, cfg.rules), policy, retry, dryRun, cfg.rules);
  }

  /**
    In every interleaving: a thread that was let in calls the action if and only if nothing that it needs is hidden, and
    then with the arguments that the proposed action prescribes.
   */
  lemma ExecutionCallsExactly(acts: seq<Act>, cfg: Config, t: nat, ok: bool, result: Json)
    requires R.PcOf(Run(INITIAL, acts, cfg).retry, t).Claimed?
    ensures
      var w := Run(INITIAL, acts, cfg);
      var id, after := R.PcOf(w.retry, t).id, Step(w, Execute(t, ok, result), cfg);
      id in w.origins && id in w.stories && id in after.stories &&
      var tool, proposed := w.origins[id].definition.key.name, w.origins[id].proposed;
      after.stories[id] == w.stories[id] +
        if CanRetry(tool, proposed, id in w.ephemeral, cfg.rules)
        then [Called(RetryAction(tool, RetryArgumentsOf(tool, proposed)))] else []
  {
    Reachable(acts, cfg);
    var w := Run(INITIAL, acts, cfg);
    var id := R.PcOf(w.retry, t).id;
    ClaimedHasItsStory(w, t, cfg);
    PreparesExactly(w.origins[id], if id in w.ephemeral then Some(w.ephemeral[id]) else None, cfg.rules);
    ExecuteTells(w, t, ok, result, cfg, Prepares(w, id, cfg.rules));
  }

  lemma ClaimedHasItsStory(w: Scene, t: nat, cfg: Config)
    requires Inv(w, cfg) && R.PcOf(w.retry, t).Claimed?
    ensures
      var id := R.PcOf(w.retry, t).id;
      && id in w.origins && id in w.stories && P.ValidToolName(w.origins[id].definition.key.name)
      && (id in w.ephemeral ==> w.ephemeral[id] == ActionArguments(w.origins[id].proposed))
  {
    assert Consented(w.stories, R.PcOf(w.retry, t).id);
  }

  lemma ExecuteTells(w: Scene, t: nat, ok: bool, result: Json, cfg: Config, call: Option<Json>)
    requires var pc := R.PcOf(w.retry, t); pc.Claimed? && pc.id in w.origins && pc.id in w.stories && Prepares(w, pc.id, cfg.rules) == call
    ensures
      var id, after := R.PcOf(w.retry, t).id, Step(w, Execute(t, ok, result), cfg).stories;
      id in after && after[id] == w.stories[id] + if call.Some? then [Called(call.value)] else []
  {
    CallIsTold(w, R.PcOf(w.retry, t).id, call);
  }

  lemma CallIsTold(w: Scene, id: string, call: Option<Json>)
    requires id in w.stories
    ensures
      var told := if call.Some? then Tell(w, id, Called(call.value)) else w;
      id in told.stories && told.stories[id] == w.stories[id] + if call.Some? then [Called(call.value)] else []
  {
    assert w.stories[id] + [] == w.stories[id];
  }

  lemma PreparesExactly(o: Origin, ephemeral: Option<map<string, Json>>, rules: TextRules)
    requires P.ValidToolName(o.definition.key.name) && (ephemeral.Some? ==> ephemeral.value == ActionArguments(o.proposed))
    ensures
      var tool := o.definition.key.name;
      PrepareRetry(tool, Stored(o, rules), ephemeral) ==
        if CanRetry(tool, o.proposed, ephemeral.Some?, rules) then Some(RetryAction(tool, RetryArgumentsOf(tool, o.proposed))) else None
  {
    C.ValidNameIsNotTheMarker(o.definition.key.name);
    RetryIsFaithful(o.definition.key.name, o.proposed, ephemeral, rules);
  }

  /** The calls of the repository that an act makes. */
  function RepositoryCalls(w: Scene, a: Act, cfg: Config): seq<R.Action> {
    match a
    case Start(id, _, _, record) => if Step(w, a, cfg) == w then [] else [R.Create(id, record)]
    case Enter(t) => if IsAt(w, t) && w.places[t].node.AtExecute? then [R.Enter(t, w.places[t].id)] else []
    case Execute(t, ok, result) =>
      var pc := R.PcOf(w.retry, t);
      if !pc.Claimed? || pc.id !in w.origins then []
      else [R.Execute(t, Prepares(w, pc.id, cfg.rules).Some?, ok, result)]
    case Repository(action) => if action.Create? || action.Enter? || action.Execute? then [] else [action]
    case _ => []
  }

  function AllRepositoryCalls(w: Scene, acts: seq<Act>, cfg: Config): seq<R.Action>
    decreases |acts|
  {
    if acts == [] then [] else RepositoryCalls(w, acts[0], cfg) + AllRepositoryCalls(Step(w, acts[0], cfg), acts[1..], cfg)
  }

  lemma StepIsARun(w: Scene, a: Act, cfg: Config)
    ensures Step(w, a, cfg).retry == R.Run(w.retry, RepositoryCalls(w, a, cfg), cfg.maxPending)
  {
    var calls := RepositoryCalls(w, a, cfg);
    if calls != [] {
      assert calls[1..] == [];
      assert R.Run(R.Step(w.retry, calls[0], cfg.maxPending), [], cfg.maxPending) == R.Step(w.retry, calls[0], cfg.maxPending);
    }
  }

  /** Every interleaving is a run of the retry automaton, so that all that is proved of those runs holds here too. */
  lemma {:induction false} InterleavingsAreRetryRuns(w: Scene, acts: seq<Act>, cfg: Config)
    ensures Run(w, acts, cfg).retry == R.Run(w.retry, AllRepositoryCalls(w, acts, cfg), cfg.maxPending)
    decreases |acts|
  {
    if acts != [] {
      var n := Step(w, acts[0], cfg);
      StepIsARun(w, acts[0], cfg);
      InterleavingsAreRetryRuns(n, acts[1..], cfg);
      RunConcat(w.retry, RepositoryCalls(w, acts[0], cfg), AllRepositoryCalls(n, acts[1..], cfg), cfg.maxPending);
    }
  }

  lemma {:induction false} RunConcat(s: R.State, a: seq<R.Action>, b: seq<R.Action>, maxPending: int)
    ensures R.Run(s, a + b, maxPending) == R.Run(R.Run(s, a, maxPending), b, maxPending)
    decreases |a|
  {
    if a == [] {
      assert a + b == b;
    } else {
      assert (a + b)[1..] == a[1..] + b;
      RunConcat(R.Step(s, a[0], maxPending), a[1..], b, maxPending);
    }
  }
}
