# Verified model of the local assistant

This project models five cores of the assistant whose state lives in tables and is moved by conditional updates, and
proves what their users rely on. It is self-contained; `dafny verify dfyconfig.toml` checks it all.

* **Capability provisioning.** `CapabilityTable` and `ToolLeases` are the workflow repository. `RetryRuns` interleaves any
  number of threads, replays and crashes over its locked calls; `RetryOverlaps` says exactly what overlapping calls can do to
  the status of a record, and `RetryWitnesses` has a run for each way. `CapabilityProtocol` says which stories of decisions,
  calls and status changes are permitted and proves consent, at-most-once and the status graph about every permitted story.
  `CapabilityGraph` gives the graph nodes and the public calls as functions, `CapabilityRuns` shows that every run of public
  calls tells permitted stories with faithful arguments, and `CapabilityInterleavings` that consent and faithful arguments do
  not depend on calls following one another. `SingleRuns` says when a run needs no question, `CapabilityOutcomes` what each
  public call leads to in every reachable world, and `CapabilityRecords` when a workflow begins and what its record shows.
  `AdaptiveGraph` is the class itself, which updates repository, store, checkpoints and ephemeral arguments step by step and is
  proved to do what the functions say. `Redaction` and `RetryArguments` follow the arguments through redaction. `ToolStore`, `ToolProvisioning` and `ToolCatalog` are the state machine of the tools themselves.
* **Declarative workflows.** `WorkflowModel` (policy lattice), `WorkflowRunner` and `WorkflowRuns` (the sequential runner, its
  specification, and the comparison of two policies), `WorkflowOutcomes` (what each row says), `WorkflowValidator`, and
  `WorkflowEngine` (the life cycle).
* **Job queue.** `IsoTime` (text order of time stamps), `JobTable`, `JobRuns`, `JobDispatches` (how often) and `JobOutcomes`
  (with what result).
* **Markdown memory.** `Whitespace`, `LongTermMemory`, `LongTermMemoryLimits`, `MemorySecrets` and `MemoryTitles`.
* **One-shot confirmations.** `Confirmations`.

Each repository method is one atomic step, because the repository holds its lock throughout; tables are maps. In `RetryRuns`,
`CapabilityInterleavings`, `JobRuns` and `Confirmations` these steps interleave freely. In `CapabilityRuns` public calls do not
overlap: that a refused workflow is never executed, and that the status follows its graph, holds only there. Overlapping calls
break these two promises in different ways. The execution reads the status, claims the retry, works, and compares the status
with what it read; neither the claim nor the comparison asks whether that status is one to execute from. An execution that
reads a refused status goes through, and its final transition then leaves the graph. A refusal that comes between the read and the
final transition leaves the graph intact, but the record was executed all the same; and one that comes after a lost final
transition refuses what was already executed. `CapabilityRuns` also lets `execute_action` return rather than raise, and does
not resume a workflow whose graph node raised; `CapabilityInterleavings` has both, as a thread that stops and a checkpoint that
is resumed. Between two calls anything may change the tools and their directories, and a restart may forget the ephemeral
arguments. Clocks, validation outcomes, hashes, policies, handlers, the confirmer and what an executed action returns are
parameters. Handlers may depend on the calls made so far, and the confirmer on these and on the position of the step.

Where a promise holds only under a condition, the exact condition is proved:

* a note is read back if and only if its fields keep to their lines (`ReadBackExactly`), so the round trip holds for
  newline-free fields and somewhat beyond;
* a learning that names a secret is never read back as long as fields keep to their lines (`SecretsStayOut`); in general it is
  read back if and only if some written note has a block whose last learning line names one (`SecretsAreReadExactly`), as the
  context and the source are not searched for secrets (`SecondLineIsRead`);
* a stored result hides what is below sensitive keys if and only if it is that of an execution, or the dry run that is shown
  with the question has nothing to hide: the dry run is stored as it was built (`StoredResultsHideExactly`);
* a retry runs if and only if nothing that it needs was hidden (`RetryIsFaithful`, condition `CanRetry`);
* every run of overlapping calls keeps the status graph if and only if no final transition takes effect from a status other than
  the two executable ones (`GraphIsKeptExactly`), and an executed workflow was refused exactly in the three cases above
  (`ExecutedThoughRefusedExactly`, and for every run `CalledAndRefusedExactly`);
* a set of workers dispatches every job at most once per retry if and only if it has at most one worker
  (`OncePerRetryExactlyForOneWorker`), because any two can run a job that waits for confirmation again;
* a scan of the catalog agrees with the store for distinct tools; without that it can list a tool and break it
  (`ListedAndBroken`).

Section 5.1 of RFC 3339 promises that time stamps sort as text only when they have equally many fraction digits. The code prints
zero or six; `IsoTime.IsoOrder` shows that the order still holds, because `+` sorts before `.`.

## Model

| member | source | states |
|---|---|---|
| CapabilityTable.CreateKeepsCapacity | src/assistant/capabilities/workflow_repository.py:125-157 | a creation that the capacity check lets through leaves every session within its limit |
| CapabilityTable.CapabilityWorkflowRepository.Create | src/assistant/capabilities/workflow_repository.py:125-157 | inserts the record, or refuses it for a full session or a second workflow or proposal identifier and changes nothing |
| CapabilityTable.CapabilityWorkflowRepository.EnsurePendingCapacity | src/assistant/capabilities/workflow_repository.py:435-446 | free exactly when fewer approvals of the session are pending than allowed |
| CapabilityTable.CapabilityWorkflowRepository.Transition | src/assistant/capabilities/workflow_repository.py:252-298 | compare-and-set on the status: the row gets the target and the given updates, or nothing changes |
| CapabilityTable.CapabilityWorkflowRepository.ClaimRetry | src/assistant/capabilities/workflow_repository.py:300-305 | compare-and-set of the retry status from pending to executing |
| CapabilityTable.CapabilityWorkflowRepository.CompleteRetry | src/assistant/capabilities/workflow_repository.py:307-333 | only an executing retry becomes executed or failed, with its result; any other target is refused |
| CapabilityTable.CapabilityWorkflowRepository.FindEquivalentPending | src/assistant/capabilities/workflow_repository.py:180-210 | a latest-created pending record of the same session, tool, version and hash, and none exactly when there is none, although the rows are ordered by time stamp text |
| CapabilityTable.CapabilityWorkflowRepository.ListExpired | src/assistant/capabilities/workflow_repository.py:335-359 | exactly the expired pending records, each once, by expiry, although selected and ordered by text |
| CapabilityTable.CapabilityWorkflowRepository.AcquireToolLease | src/assistant/capabilities/workflow_repository.py:361-414 | refused exactly while another owner holds an unexpired lease; otherwise taken over or renewed |
| CapabilityTable.CapabilityWorkflowRepository.ReleaseToolLease | src/assistant/capabilities/workflow_repository.py:416-429 | only the owner frees its lease |
| ToolLeases.HeldThrough | src/assistant/capabilities/workflow_repository.py:361-429 | over every run with arbitrary clock readings, a lease is kept as long as its owner does not release it and all others ask before its latest expiry, also through releases by former owners |
| ToolLeases.TakenOverExactlyFromExpiry | src/assistant/capabilities/workflow_repository.py:379-410 | another workflow then gets the tool if and only if it asks at or after the latest expiry, and its release frees nothing |
| ToolLeases.TwoGrantsAreSeparated | src/assistant/capabilities/workflow_repository.py:361-429 | between two grants of one tool to different workflows there is a release by the first or a request at or after its latest expiry |
| RetryRuns.RunKeepsInvariant | src/assistant/capabilities/adaptive_capability_graph.py:614-675 | under every interleaving of threads, stale graph steps, replays and crashes: one owner per executing row, at most one call per workflow and only after the claim, final statuses that agree with the retry status, bounded pending work |
| RetryRuns.CalledAtMostOnce | src/assistant/capabilities/adaptive_capability_graph.py:614-675 | `execute_action` is called at most once per workflow; executed means called, the final statuses mean executed and failed |
| RetryRuns.OwnerCompletes | src/assistant/capabilities/workflow_repository.py:307-333 | the owner of an executing row always completes it, and nobody else owns it |
| RetryRuns.SessionsStayWithinCapacity | src/assistant/capabilities/workflow_repository.py:435-446 | in every reachable state every session is within its limit of pending approvals |
| RetryRuns.RetryOnlyGoesForward | src/assistant/capabilities/workflow_repository.py:448-469 | over every run records are never deleted, their request never changes, and the retry status only moves pending, executing, then executed or failed |
| RetryOverlaps.GraphIsKeptExactly | src/assistant/capabilities/adaptive_capability_graph.py:614-666 | over every run: each status change is an edge of the status graph if and only if no final transition takes effect from a status other than the two from which the graph goes to the execution |
| RetryOverlaps.FinishIsLostExactly | src/assistant/capabilities/adaptive_capability_graph.py:662-666 | the final transition of an execution is lost if and only if some other status change of its record took effect since it read the status |
| RetryOverlaps.ExecutedThoughRefusedExactly | src/assistant/capabilities/adaptive_capability_graph.py:619-666 | an executed workflow was refused at some time if and only if it was refused when the execution read its status, or a refusal took effect before the final transition, or the final transition was lost and a refusal took effect later |
| RetryOverlaps.CalledAndRefusedExactly | src/assistant/capabilities/adaptive_capability_graph.py:614-666 | over every run: a workflow was both called and refused if and only if it has an execution that read a refused status or was overtaken by a refusal, whether or not the thread came to its end |
| RetryOverlaps.WithoutOverlapRefusalComesFirst | src/assistant/capabilities/adaptive_capability_graph.py:619-666 | without a status change between reading and final transition, only a workflow that had been refused before is executed though refused |
| RetryOverlaps.ExecutionIsRecordedAsReported | src/assistant/capabilities/adaptive_capability_graph.py:650-666 | over every run: what the action reports is what is recorded, whatever other threads do in between, and the final transition says the same unless the record has moved |
| RetryWitnesses.ExpiredRecordCanBeExecuted | src/assistant/capabilities/adaptive_capability_graph.py:619-666 | a run that enters at an expired record, executes it, and leaves the status graph |
| RetryWitnesses.ExpiredAfterEntryIsExecuted | src/assistant/capabilities/adaptive_capability_graph.py:619-620 | a run in which a cleanup comes between the read and the claim: the status graph is kept, and the expired record is executed |
| RetryWitnesses.RejectedAfterLossWasExecuted | src/assistant/capabilities/adaptive_capability_graph.py:655-666 | a run in which another step moves the record while the action runs: the final transition is lost, and the user rejects what was executed |
| Redaction.RedactAt | src/assistant/workflows/redaction.py:21-42 | place by place: open places keep kind, keys and leaves, the first sensitive key leads to the marker |
| Redaction.RedactIdempotent | src/assistant/workflows/redaction.py:21-42 | redacting twice is redacting once, over all JSON trees |
| Redaction.MarkerExactlyWhenHidden | src/assistant/workflows/redaction.py:21-42 | the output contains the marker exactly when the input has a sensitive key or already contained it |
| Redaction.MarkerFreeIsUnchanged | src/assistant/workflows/redaction.py:21-42 | an output without the marker is the input |
| Redaction.HidesExactlySensitiveKeys | src/assistant/workflows/redaction.py:21-42 | below open places the value of a key is hidden exactly if the source calls the key sensitive; any other value is redacted further |
| Redaction.SensitiveKeysExactly | src/assistant/workflows/redaction.py:38-42 | an ASCII key is sensitive exactly if its letters and digits, whatever their case and what is between them, are one of the ten words |
| RetryArguments.StoredArguments | src/assistant/capabilities/adaptive_capability_graph.py:827-852 | the stored arguments are the original ones redacted, and masked exactly for capabilities that act on the system |
| RetryArguments.RetryReadsTheStoredForm | src/assistant/capabilities/provisioning.py:291-315 | what the retry reads from the stored action is the stored form of what it would read from the original |
| RetryArguments.RetryIsFaithful | src/assistant/capabilities/adaptive_capability_graph.py:627-649 | the retry runs if and only if nothing it needs was hidden, and then with exactly the original arguments, the name and value of the variable, or the working directory |
| RetryArguments.RetryCarriesExactly | src/assistant/capabilities/provisioning.py:291-315 | field by field: the tool, and the name and value of a variable, the working directory of a Git status, or all arguments |
| SingleRuns.EligibleExactly | src/assistant/capabilities/adaptive_capability_graph.py:70-101 | the evaluator lets a single run go ahead if and only if the tool only reads, the policy says allow, the retry is pending, the dry run is harmless, the capability is none of nine effectful ones, and no key at any place of the stored arguments names a secret |
| SingleRuns.OfferedExactly | src/assistant/capabilities/adaptive_capability_graph.py:772-788 | the single run is offered if and only if the tool only reads and the capability is none of the nine |
| CapabilityProtocol.CallsAreConsented | src/assistant/capabilities/adaptive_capability_graph.py:317-364 | in every permitted story each call is preceded by an approval and then by a confirmation, or by an offered single run that was judged eligible |
| CapabilityProtocol.CalledAtMostOnce | src/assistant/capabilities/adaptive_capability_graph.py:614-675 | a permitted story has at most one call |
| CapabilityProtocol.RefusedMeansNoCall | src/assistant/capabilities/adaptive_capability_graph.py:450-469 | a rejected, cancelled or expired story has no call |
| CapabilityProtocol.MovesFollowTheGraph | src/assistant/capabilities/adaptive_capability_graph.py:317-364 | each status change starts where the last one ended, is an edge of the status graph and lowers the rank; enabled is only reached while the store holds the tool as enabled |
| CapabilityProtocol.NothingFollowsTheEnd | src/assistant/capabilities/adaptive_capability_graph.py:341-363 | nothing follows a terminal status |
| CapabilityGraph.EligibleWasOffered | src/assistant/capabilities/adaptive_capability_graph.py:70-101 | whatever may run once was among the options offered |
| AdaptiveGraph.AdaptiveCapabilityGraph.ChecksStart | src/assistant/capabilities/adaptive_capability_graph.py:186-218 | a workflow starts exactly for a proposal that can be created, has no pending equivalent and finds room in its session |
| AdaptiveGraph.AdaptiveCapabilityGraph.CreateDraft | src/assistant/capabilities/adaptive_capability_graph.py:366-418 | the draft is generated first, and the record and checkpoint appear only if both the draft and the insertion succeed |
| AdaptiveGraph.AdaptiveCapabilityGraph.StartFromProposal | src/assistant/capabilities/adaptive_capability_graph.py:179-245 | the step-by-step call leaves the world that the graph model prescribes |
| AdaptiveGraph.AdaptiveCapabilityGraph.EnableTool | src/assistant/capabilities/adaptive_capability_graph.py:471-514 | lease, enablement, release in every case, then the transition and the reload, or stuck when enabling raised |
| AdaptiveGraph.AdaptiveCapabilityGraph.ReloadRuntime | src/assistant/capabilities/adaptive_capability_graph.py:516-566 | the transition to reloaded and the route to execution or to the confirmation |
| AdaptiveGraph.AdaptiveCapabilityGraph.ExecuteOriginalAction | src/assistant/capabilities/adaptive_capability_graph.py:614-675 | claim, call unless an argument is hidden, completion, final transition and forgetting of the arguments, in this order |
| AdaptiveGraph.AdaptiveCapabilityGraph.DecideTool | src/assistant/capabilities/adaptive_capability_graph.py:247-259 | resumes only a record that waits for its approval, and leaves the world that the graph model prescribes |
| AdaptiveGraph.AdaptiveCapabilityGraph.DecideRetry | src/assistant/capabilities/adaptive_capability_graph.py:261-273 | resumes only a record that waits for its confirmation; the node that runs again from its top changes nothing |
| AdaptiveGraph.AdaptiveCapabilityGraph.Cancel | src/assistant/capabilities/adaptive_capability_graph.py:281-287 | cancels what is pending and nothing else |
| AdaptiveGraph.AdaptiveCapabilityGraph.CleanupExpired | src/assistant/capabilities/adaptive_capability_graph.py:289-315 | expires exactly the expired pending records, by expiry, removing the drafts of undecided tools |
| CapabilityRuns.ExecutionsAreConsentedAndFaithful | src/assistant/capabilities/adaptive_capability_graph.py:539-675 | in every run each execution was consented to, is the only one of its workflow, and carries exactly the arguments of the proposed action |
| CapabilityInterleavings.EveryExecutionIsConsentedAndFaithful | src/assistant/capabilities/adaptive_capability_graph.py:317-364 | the same in every interleaving of threads that run the graph, resume from any checkpoint ever saved, replay and crash: consented, the only call, and with exactly the arguments of the proposed action |
| CapabilityInterleavings.InterleavingsAreRetryRuns | src/assistant/capabilities/adaptive_capability_graph.py:539-675 | each of those interleavings is a run of the retry automaton, so that ownership, capacity and the overlap results hold of it |
| CapabilityInterleavings.EveryJudgementIsExact | src/assistant/capabilities/adaptive_capability_graph.py:539-566 | in every interleaving a judgement lets the single run go ahead if and only if it was safe by the rules |
| CapabilityInterleavings.UnconfirmedCallsAreSafe | src/assistant/capabilities/adaptive_capability_graph.py:539-566 | in every interleaving what was executed without a confirmed retry follows a judgement of a safe run |
| CapabilityInterleavings.SafeRunsGoOn | src/assistant/capabilities/adaptive_capability_graph.py:539-566 | a thread that chose the single run goes on to the execution if and only if it is safe, else to the question |
| CapabilityInterleavings.ExecutionCallsExactly | src/assistant/capabilities/adaptive_capability_graph.py:627-649 | in every interleaving a thread that was let in calls the action if and only if nothing that it needs is hidden, with what the proposed action prescribes |
| CapabilityRuns.StatusTellsTheStory | src/assistant/capabilities/adaptive_capability_graph.py:450-612 | in every run the status is where the story ends; pending, refused, cancelled and expired records were never executed |
| CapabilityRuns.EveryMoveFollowsTheGraph | src/assistant/capabilities/adaptive_capability_graph.py:317-364 | in every run each status change is an edge of the acyclic graph with falling rank, and enabled is reached only while the store holds the tool as enabled |
| CapabilityRuns.PendingIsBoundedAndUnique | src/assistant/capabilities/workflow_repository.py:180-210 | in every run no two pending records share session, tool, version and hash, and no session exceeds its limit |
| CapabilityRuns.UsedArgumentsAreForgotten | src/assistant/capabilities/adaptive_capability_graph.py:674-675 | in every run arguments that were only remembered are forgotten once the retry was claimed or called |
| CapabilityRuns.CleanupExpiresExactly | src/assistant/capabilities/adaptive_capability_graph.py:289-315 | a cleanup expires exactly the expired pending records, leaves every other record as it was, and leaves none expired |
| CapabilityRuns.CleanupKeepsLiveTools | src/assistant/tools/generator.py:157-164 | a cleanup changes no tool but from validated to rejected |
| CapabilityRuns.TerminalForever | src/assistant/capabilities/adaptive_capability_graph.py:247-315 | in every run a terminal record keeps its status and story whatever is called later |
| CapabilityRuns.RunExtends | src/assistant/capabilities/adaptive_capability_graph.py:179-315 | in every run no workflow is lost, no request is rewritten, and stories only go on |
| CapabilityOutcomes.ConfirmedRetryIsExecuted | src/assistant/capabilities/adaptive_capability_graph.py:614-675 | in every reachable world a confirmed retry is executed: called if and only if nothing that it needs is hidden, with what the proposed action prescribes; executed if and only if called and reported ok; with the redacted result |
| CapabilityOutcomes.RefusedRetryEnds | src/assistant/capabilities/adaptive_capability_graph.py:596-612 | in every reachable world any other answer ends the workflow at its own status and calls nothing |
| CapabilityOutcomes.ApprovalLeads | src/assistant/capabilities/adaptive_capability_graph.py:471-566 | in every reachable world an approval enables the tool if and only if this is possible, and leads to the executed single run, to the question with the dry run, or to where an error left it |
| CapabilityOutcomes.SingleRunIsExecutedExactly | src/assistant/capabilities/adaptive_capability_graph.py:539-566 | in every reachable world an approved single run is executed in the same call if and only if the tool can be enabled, the runtime reloads, the run is safe by the rules and nothing that it needs is hidden |
| CapabilityOutcomes.RefusedToolEnds | src/assistant/capabilities/adaptive_capability_graph.py:450-469 | in every reachable world a refusal of the tool ends the workflow and enables nothing |
| CapabilityOutcomes.CancelEnds | src/assistant/capabilities/adaptive_capability_graph.py:281-287 | in every reachable world `cancel` ends what waits for an answer and leaves what has ended alone |
| CapabilityOutcomes.JudgementsAreExact | src/assistant/capabilities/adaptive_capability_graph.py:539-566 | in every run a judgement lets the single run go ahead if and only if it was safe by the rules, with the policy, retry status and dry run it was based on |
| CapabilityOutcomes.UnconfirmedCallsAreSafe | src/assistant/capabilities/adaptive_capability_graph.py:539-566 | in every run what was executed without a confirmed retry follows a judgement of a safe run |
| CapabilityRecords.StartsExactly | src/assistant/capabilities/adaptive_capability_graph.py:179-245 | a workflow begins if and only if the proposal can be created, has no pending equivalent, finds room and a draft, and was not recorded before; with every field of its record, and its arguments kept in memory exactly for the three kinds of capability |
| CapabilityRecords.StartMakesTheDraft | src/assistant/capabilities/adaptive_capability_graph.py:366-395 | the draft is made once the early checks pass, even if the record is then refused |
| CapabilityRecords.StoredActionsHide | src/assistant/capabilities/adaptive_capability_graph.py:827-852 | in every run neither the record nor the checkpoint shows a value below a sensitive key, nor the command, content or value of an action on the shell, the environment or the system |
| CapabilityRecords.StoredResultsHideExactly | src/assistant/capabilities/adaptive_capability_graph.py:568-576 | in every run a stored result shows no value below a sensitive key if and only if it is that of an execution or the dry run had none |
| CapabilityRecords.ProposalsAreStartedOnce | src/assistant/capabilities/workflow_repository.py:125-157 | in every run no two workflows have the same proposal |
| CapabilityRecords.LeaseIsRespected | src/assistant/capabilities/adaptive_capability_graph.py:471-488 | nothing is enabled while another workflow holds an unexpired lease of the tool |
| CapabilityRecords.LeaseIsFreed | src/assistant/capabilities/adaptive_capability_graph.py:484-493 | otherwise the lease is free after the call, whether or not enabling worked |
| CapabilityRecords.CleanupRemovesDrafts | src/assistant/tools/generator.py:146-164 | a cleanup rejects the tool and removes the draft of every expired undecided workflow whose draft was validated or rejected |
| ToolStore.KeyTextIsInjective | src/assistant/tools/state.py:90-91 | the joined key says which tool it is, as names have no @ |
| ToolStore.ToolStateStore.Transition | src/assistant/tools/state.py:58-68 | a state change happens exactly when the table allows it; otherwise nothing changes |
| ToolStore.ToolStateStore.VerifyIntegrity | src/assistant/tools/state.py:74-88 | a record past validation with other hashes becomes broken, every other one stays |
| ToolStore.TransitionsExactly | src/assistant/tools/state.py:20-68 | for each target, the states from which the change is carried out |
| ToolStore.VerifiesExactly | src/assistant/tools/state.py:74-88 | a check of the files breaks the tool exactly if they differ and it was validated once, and changes no other |
| ToolStore.EnabledWasApproved | src/assistant/tools/state.py:20-88 | in every reachable store an enabled tool has the hashes of its last registration and since then was validated, approved and installed in this order, with nothing broken, rejected or approved after |
| ToolProvisioning.GeneratedKeysAreDistinct | src/assistant/tools/generator.py:26-36 | generated tools with the same stored key are the same tool |
| ToolProvisioning.ValidNamesExactly | src/assistant/tools/generator.py:26-36 | a valid name is a first word and one or more dotted ones |
| ToolProvisioning.GenerationSucceedsExactly | src/assistant/tools/generator.py:32-144 | a draft is made for a valid name without one, and reused exactly if it has the same hash and is validated; with what it leaves in the store |
| ToolProvisioning.ToolDraftGenerator.Generate | src/assistant/tools/generator.py:32-144 | a new draft ends validated or rejected; an existing one is reused only with the same hash and while validated |
| ToolProvisioning.ToolDraftGenerator.RemoveQuarantined | src/assistant/tools/generator.py:146-164 | only a validated or rejected draft inside the quarantine is removed, and its tool ends rejected |
| ToolProvisioning.ToolInstaller.Install | src/assistant/tools/installer.py:36-82 | only an approved tool is installed; a failing setup leaves it approved |
| ToolProvisioning.CapabilityProvisioningService.ApproveInstallEnable | src/assistant/capabilities/provisioning.py:187-249 | the three steps in order, with what each failure leaves behind |
| ToolProvisioning.EnablementIsIdempotent | src/assistant/capabilities/provisioning.py:204-217 | after a success the tool is enabled and in place, and enabling it again changes nothing |
| ToolProvisioning.EnablementSucceedsExactly | src/assistant/capabilities/provisioning.py:187-249 | success exactly for an enabled and installed tool, or a validated one not yet installed whose manifest names it and whose setup works |
| ToolProvisioning.EnablementLeavesExactly | src/assistant/tools/installer.py:36-82 | the state and the directories after enabling, in each case of failure |
| ToolProvisioning.ExpiryTouchesOnlyDrafts | src/assistant/tools/generator.py:157-164 | expiry changes no tool but its own, and that only from validated to rejected |
| ToolProvisioning.OperationsAreRunsOfTheStore | src/assistant/capabilities/provisioning.py:187-271 | generating, enabling and expiring leave the store that their single store calls leave |
| ToolProvisioning.EnabledByOperationsWasApproved | src/assistant/tools/state.py:20-30 | whatever mix of operations and store calls enabled a tool, it was validated, approved and installed since its registration |
| ToolCatalog.ToolCatalog.ListEnabled | src/assistant/tools/catalog.py:30-78 | the listed tools and the store after the scan, directory by directory, for any directories |
| ToolCatalog.ScanAgreesWithStoreAndFiles | src/assistant/tools/catalog.py:47-77 | for distinct tools and any environments: a tool with a directory is enabled afterwards if and only if it was and has the registered files there, and is listed if and only if enabled afterwards with its environment present; an enabled tool found altered is broken; other records are unchanged |
| ToolCatalog.ScanChangesOnlyAltered | src/assistant/tools/catalog.py:53-57 | for any directories a record changes, from enabled to broken, exactly if some directory of its tool has other files; a record without a directory never changes |
| ToolCatalog.ListedToolsWereApproved | src/assistant/tools/catalog.py:47-77 | in every reachable store a listed tool has the files of its last registration, and was validated, approved and installed since |
| ToolCatalog.ListedToolsAreRegistered | src/assistant/tools/catalog.py:53-77 | for any directories and environments a listed tool was enabled with exactly these files |
| ToolCatalog.ListedAndBroken | src/assistant/tools/catalog.py:47-77 | with two directories of one tool the scan can list it and then break it |
| ToolCatalog.BundledAreListedExactly | src/assistant/tools/catalog.py:30-45 | a bundled tool is listed exactly when its manifest can be read |
| ToolCatalog.ListedInOrder | src/assistant/tools/catalog.py:30-78 | each directory is listed once at most, in the order of the scan |
| WorkflowModel.EvaluateIsMonotone | src/assistant/workflows/policies.py:54-79 | a pointwise stricter policy never decides less strictly, and no decision is below the minimum policy |
| WorkflowModel.DecidesExactly | src/assistant/workflows/policies.py:54-79 | a step is blocked exactly for a destructive command, an unknown handler or a policy that blocks it, and otherwise confirmed exactly if the step, the kind of its handler or the policy wants it |
| WorkflowRunner.RunTables.UpdateRunStatus | src/assistant/workflows/repository.py:224-254 | status, error, and a finish time exactly for terminal statuses; an unknown run is reported and changes nothing |
| WorkflowRunner.RunTables.UpdateRunStepStatus | src/assistant/workflows/repository.py:296-337 | status, error, a kept output unless a new one is given, and a finish time exactly for terminal statuses; an unknown step is reported and changes nothing |
| WorkflowRunner.SequentialWorkflowRunner.RunSteps | src/assistant/workflows/runner.py:56-137 | the loop leaves the rows, the end and the handler calls of the recursive specification |
| WorkflowRunner.SequentialWorkflowRunner.Run | src/assistant/workflows/runner.py:35-142 | the loop with its early returns refines the recursive specification: the run row, the step rows and the handler calls |
| WorkflowRunner.SequentialWorkflowRunner.RunStep | src/assistant/workflows/runner.py:63-137 | one step: its row, and whether and how the run ends there |
| WorkflowRuns.RunIsWellRecorded | src/assistant/workflows/runner.py:56-142 | the rows follow the steps in order, all but the last succeeded or failed with `continue_on_error`, the last one fixes status and error, and success means that every step passed |
| WorkflowRuns.HandlersRunOnlyWhenPermitted | src/assistant/workflows/runner.py:72-116 | the handler calls are exactly those of the rows that ran, and each was allowed or confirmed |
| WorkflowRuns.TighteningOnlyRestricts | src/assistant/workflows/policies.py:54-79 | under a stricter policy the handler calls of a run are a prefix and the rows before the last are the same |
| WorkflowOutcomes.EveryRowIsRight | src/assistant/workflows/runner.py:63-137 | in every run each row is what its step, the policy, the confirmer and the handler make of it: status, output, error and end |
| WorkflowOutcomes.RunsExactlyWhenItMay | src/assistant/workflows/runner.py:72-116 | in every run a step that is reached runs if and only if it is not forbidden and, where something wants a confirmation, the confirmer said yes |
| WorkflowOutcomes.RunsFinishUnlessTheyWait | src/assistant/workflows/repository.py:224-254 | a run is finished unless its last step waits for an approval |
| WorkflowValidator.Validator.StepFindings | src/assistant/workflows/validator.py:198-279 | the pass with the seen identifiers yields the findings of every step in order |
| WorkflowValidator.Validator.Deduplicate | src/assistant/workflows/validator.py:281-292 | every finding once, at its first occurrence, in order |
| WorkflowValidator.FindingsAreFaults | src/assistant/workflows/validator.py:120-279 | a finding is reported exactly for a fault |
| WorkflowValidator.WellFormedExactly | src/assistant/workflows/validator.py:120-279 | what passes validation, step by step |
| WorkflowValidator.Validator.Validate | src/assistant/workflows/validator.py:44-78 | reports exactly the faults and passes exactly the well-formed workflows |
| WorkflowValidator.ValidatedRun | src/assistant/workflows/runner.py:56-116 | a validated workflow is never stopped by its step budget, is blocked only where its own policy blocks the handler, and moves files only after the confirmer said yes |
| WorkflowEngine.WorkflowTable.UpdateWorkflowStatus | src/assistant/workflows/repository.py:150-182 | a checked status change that writes the approval and enabling times |
| WorkflowEngine.Engine.Generate | src/assistant/workflows/engine.py:44-50 | whatever the planner says, the workflow starts as a draft |
| WorkflowEngine.Engine.Get | src/assistant/workflows/engine.py:52-67 | the exact identifier, the only row with a prefix of eight characters or more, or the right error |
| WorkflowEngine.ResolvesExactly | src/assistant/workflows/engine.py:52-67 | for every text: its own row, the only row with this prefix of eight characters or more, or the error that says why not |
| WorkflowEngine.StatusChangesExactly | src/assistant/workflows/models.py:146-172 | for each target, the statuses from which the change is carried out, and what it changes |
| WorkflowEngine.Engine.Validate | src/assistant/workflows/engine.py:75-83 | moves to validated exactly a well-formed workflow whose status allows it |
| WorkflowEngine.Engine.Transition | src/assistant/workflows/engine.py:85-98 | the five status orders, refused without effect when the table forbids them |
| WorkflowEngine.Engine.Run | src/assistant/workflows/engine.py:100-111 | runs only an enabled workflow; otherwise nothing is recorded or called |
| WorkflowEngine.KeptHistory | src/assistant/workflows/models.py:146-172 | a workflow that is not rejected or archived was validated, approved and enabled in this order and then disabled and enabled in turn |
| WorkflowEngine.EnabledMeansValidatedThenApproved | src/assistant/workflows/engine.py:44-111 | in every reachable state an enabled workflow was validated, then approved once, never rejected or archived; its times are those of that approval and of the latest enabling; the rest is its well-formed draft |
| WorkflowEngine.EngineRunsAsValidated | src/assistant/workflows/engine.py:100-111 | whatever the engine runs, in any reachable state, runs as validated |
| IsoTime.IsoOrder | src/assistant/jobs/repository.py:136-153 | the code-point order of two printed UTC times is their chronological order, with or without a fraction |
| IsoTime.MicrosOrder | src/assistant/jobs/repository.py:136-153 | chronological order of instants is the order of calendar date and clock |
| JobTable.TextSelectsByTime | src/assistant/jobs/repository.py:144-147 | the text comparisons of the query select and order by time |
| JobTable.JobRepository.NextQueued | src/assistant/jobs/repository.py:136-153 | a least due queued job by due and creation time, and none exactly when none is due |
| JobTable.JobRepository.Transition | src/assistant/jobs/repository.py:155-194 | a checked status change that counts the entries into running and keeps an error only for failures |
| JobTable.NextExactly | src/assistant/jobs/repository.py:136-153 | the next job is queued, its time has come, and no other such job was due before it, or at equal times created before it |
| JobTable.OrdersSucceedExactly | src/assistant/jobs/models.py:27-52 | for each target, the statuses from which the change is carried out |
| JobTable.OrdersDoExactly | src/assistant/jobs/repository.py:155-194 | a change counts the starts, keeps an error only for a failure, and leaves the rest |
| JobTable.ClosingIsLegal | src/assistant/jobs/worker.py:30-60 | every way to close a handled job is legal from running |
| JobTable.JobWorker.RunOnce | src/assistant/jobs/worker.py:18-60 | alone, the worker runs the least due job and closes it as the answer says, or reports that none is due |
| JobRuns.RunKeepsInvariant | src/assistant/jobs/worker.py:18-60 | with any number of workers, crashes, retries and cancels: one owner per running job, attempts count the entries into running and bound the dispatches |
| JobRuns.OwnerCanAlwaysClose | src/assistant/jobs/worker.py:40-60 | the owner of a running job can always close it, and has no rival |
| JobRuns.TerminalForever | src/assistant/jobs/models.py:27-52 | a succeeded or cancelled job never changes again |
| JobOutcomes.StatusTellsTheAnswer | src/assistant/jobs/worker.py:25-60 | with any number of workers: a job that succeeded is a reminder or was answered ok, one that waits was answered so, one that failed keeps the exception of its last dispatch or that its response failed |
| JobOutcomes.OwnerClosesAsAnswered | src/assistant/jobs/worker.py:40-60 | with any number of workers: the worker that has the answer closes the job as the answer says |
| JobDispatches.OncePerRetryExactlyForOneWorker | src/assistant/jobs/worker.py:18-60 | for every set of workers: all their runs dispatch every job at most once, and once more per `jobs retry`, if and only if the set has at most one worker |
| JobDispatches.OneWorkerDispatchesOncePerRetry | src/assistant/jobs/worker.py:18-60 | one worker dispatches a job once, and once more per `jobs retry` |
| JobDispatches.StaleWorkerRunsWaitingJob | src/assistant/jobs/models.py:38-42 | any two workers can dispatch a job that waits for confirmation a second time without any retry |
| LongTermMemory.LongTermMemoryStore.Remember | src/assistant/memory/long_term.py:40-67 | appends the printed note to its own topic file, after the title of a new file, or rejects the learning and changes nothing |
| LongTermMemory.LongTermMemoryStore.ReadMemoryFile | src/assistant/memory/long_term.py:101-125 | the two loops read the entries of the file as the block-wise specification says |
| LongTermMemory.AppendIsLocal | src/assistant/memory/long_term.py:57-66 | appending adds what the note alone reads as, after everything that was there, for any file that ends in a newline |
| LongTermMemory.TitleShape | src/assistant/memory/long_term.py:96-99 | a title is never empty, has at most 80 characters, no line break and no leading space |
| LongTermMemory.RoundTrip | src/assistant/memory/long_term.py:40-76 | after any sequence of calls the file reads as the old entries and then the accepted notes in order, equal up to stripping and the title rule |
| LongTermMemoryLimits.ReadBackExactly | src/assistant/memory/long_term.py:101-125 | an appended note is read back if and only if its fields keep to their lines |
| MemorySecrets.NoteIsWrittenExactly | src/assistant/memory/long_term.py:31-67 | a note is appended if and only if its stripped learning is there and has none of the eight words in lower case; otherwise nothing is written |
| MemorySecrets.SecretsStayOut | src/assistant/memory/long_term.py:31-38 | after any sequence of calls whose fields keep to their lines, no learning that is read back has one of the eight words |
| MemorySecrets.SecretsAreReadExactly | src/assistant/memory/long_term.py:101-125 | after any sequence of calls, a learning with one of the words is read back if and only if some written note has a block whose last learning line has one |
| MemorySecrets.SecondLineIsRead | src/assistant/memory/long_term.py:57-66 | a source with a second line is such a note: what that line calls a learning is read back, secret or not |
| MemoryTitles.TitleShowsTheLearning | src/assistant/memory/long_term.py:96-99 | the title shows the beginning of the learning, and all of it but dots at its end unless it was cut at 80 characters |
| MemoryTitles.PlainLearningIsItsTitle | src/assistant/memory/long_term.py:96-99 | a learning of single-spaced words without a dot at the end is its own title, up to 80 characters |
| MemoryTitles.DateIsThatOfTheTimeStamp | src/assistant/memory/long_term.py:62 | the date of a note is the date part of a printed time stamp |
| Confirmations.SessionRepository.SaveConfirmation | src/assistant/sessions/repository.py:94-125 | inserts a pending confirmation, or refuses a second one with its identifier |
| Confirmations.SessionRepository.ResolveConfirmation | src/assistant/sessions/repository.py:151-169 | decides only a pending confirmation, and only its decision and time change |
| Confirmations.GatewayService.ResolveConfirmation | src/assistant/gateway/service.py:177-203 | alone, the decision of a pending confirmation makes one call with the stored capability and arguments and its own answer; any other makes none |
| Confirmations.ExecutedAtMostOnce | src/assistant/gateway/service.py:177-203 | under every interleaving a confirmation is executed at most once, with the stored capability and arguments and the decision that won |
| Confirmations.ExecutedAsAskedAndAnswered | src/assistant/gateway/service.py:177-203 | in every run what is executed was saved with this capability and these arguments and answered with this decision, and a row is pending exactly until it is decided |
| Confirmations.WinnerExecutes | src/assistant/gateway/service.py:177-203 | the decision that won the pending row is the one that executes it, whatever happens in between |
| Confirmations.RowIsFixed | src/assistant/sessions/repository.py:151-169 | what was asked for is never rewritten and a decision is never changed |

## Left out

- WorkflowValidator.Validator.Validate: takes parsed workflows only, not dictionaries that fail to parse, and drops the message of a finding, which its code and path determine.
- WorkflowEngine.Engine.Validate: the error carries no report, because the report is stated by the validator.
- WorkflowValidator.Validator.StepFindings: steps that are not objects, or have no text as identifier, cannot be expressed, because the step is a parsed one.
- WorkflowRunner.RunTables.UpdateRunStatus: a finish time is reduced to whether it is set.
- WorkflowRunner.RunTables.UpdateRunStepStatus: likewise for step rows.
- CapabilityTable.CapabilityWorkflowRepository.Transition: an unknown update keyword, which the source refuses, cannot be expressed.
- CapabilityTable.CapabilityWorkflowRepository.ListExpired: rows of equal expiry may come in any order, as in the query.
- AdaptiveGraph.AdaptiveCapabilityGraph.DecideTool: replies are reduced to the status; a graph whose node raised is left alone; one clock reading serves a whole call.
- AdaptiveGraph.AdaptiveCapabilityGraph.DecideRetry: likewise.
- AdaptiveGraph.AdaptiveCapabilityGraph.Cancel: likewise.
- AdaptiveGraph.AdaptiveCapabilityGraph.ExecuteOriginalAction: `execute_action` returns; that it raises after it was called is a crash in `RetryRuns` and `CapabilityInterleavings`, where what follows is proved.
- AdaptiveGraph.AdaptiveCapabilityGraph.StartFromProposal: the reply is reduced to whether a workflow began; the new identifier is a parameter that must be unused.
- ToolProvisioning.ToolDraftGenerator.Generate: file contents are reduced to hashes, the hash file and the outcome of validation.
- ToolProvisioning.ToolDraftGenerator.RemoveQuarantined: path resolution is reduced to which draft directory is named, or none.
- ToolProvisioning.ToolInstaller.Install: the environment, the requirements and pip are one outcome parameter.
- LongTermMemory.LongTermMemoryStore.ReadMemoryFile: newline translation of text mode, the `source_file` field and the order of files in `list_memories` are not modelled.
- JobTable.JobWorker.RunOnce: the request, the response and the notification are reduced to what decides the closing status.
- Confirmations.GatewayService.ResolveConfirmation: session locks, the response of the agent and the handling of errors raised by the action are not modelled.
- The stored copy of the proposal, its arguments and the user goal: only the original action, which is what is executed, is followed through redaction.
- SQLite, pydantic, YAML, JSON Schema and LangGraph: tables are maps, stored JSON is what was stored, the graph is a program counter; races of several processes on one database file are out.
- Case folding beyond ASCII and `str()` of JSON values that are not strings: left open as parameters.
- The destructive-command patterns: one predicate shared by policy and validator.
- Tool validation rules, hashing, subprocesses, virtual environments: outcomes only.
- Search and ranking of memories, file scoring, natural-language routing, planners, suggestions: heuristics without a deep property.
- Command line, HTTP, rendering, notifications, audit logs: plumbing.
- `default_decision`, step timeouts, run resumption from waiting approval: declared in the source but not acted on by the runner.
- Queries that only list (`list_pending`, `list_runs`, `list_recent`, `get_enabled`): easy members.
