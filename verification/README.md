# Verified model of the FGVC platform

This project models the parts of the platform whose correctness rests on protocols and counting rather than on
plumbing, and proves what they promise for every run, every input and every interleaving.

## What is modelled

**The agent run protocol** (`AgentTypes`, `RunRow`, `RunnerMachine`, `OperationLedger`, `AgentSession`,
`AgentInvariant`, `AgentKeeps`, `AgentKeepsMore`, `AgentSafety`, `Admission`, `AgentFleet`, `AgentTheorems`,
`AgentStops`, `AgentProgress`, `RunnerLaws`, and the imperative `RunStore`, `Runner`, `OperationStore`). A run is a row of a durable queue. Workers claim it under an epoch
and a lease, hold a copy of its state, persist what they are about to do before every side effect, and may crash
between the two. The platform keeps one record per write operation. `AgentSession` is one run with its row, its
workers, the requests in flight and the platform's record, under 23 kinds of events; `AgentFleet` puts any number of
runs under one clock. The invariants are proved by induction over all histories. `RunStore.Store` holds the
transactions, `Runner.Execute` the worker's loop over services that may answer anything, and
`OperationStore.MemoryStore` and `Bridge` the platform's end; each is proved against the functions the histories use,
and against rules that say in terms of rows, answers and requests what these functions must do.

**The dataset builders** (`Datasets`, `Splits`, `SeenImages`, `LabeledBuild`, `LabeledArchive`, `LabeledLaws`, `MergeBuild`,
`MergeWrite`, `MergeAdditions`, `MergeLaws`, `Scanner`, `Versions`). A version is a manifest over an archive. Two builders make the
next version from a baseline: one splits confirmed images by rank, the other appends training images. Both are methods
over the loops of the original; what they accept is stated exactly, counts and bytes included, and what they write is
read back by the scanner and followed along any chain of versions. SHA-256 is an injective value: equal digests stand
for equal bytes, and the rank of a digest under a seed is a number no other digest has.

**The annotation ledger** (`PaidLedger`, `PaidLedgerRuns`, `PaidLedgerTheorems`, `PaidLedgerLaws`, `EngineCall`). Paid model stages,
frozen predictions, confirmed labels and their outbox. A run is any sequence of dispatches, answers, crashes and
operator decisions.

**The annotation platform** (`AnnotationTasks`, `Prediction`, `Publication`): the task queue, the hand-off of
predictions to it, and the ownership of images by releases.

**Compact algorithms** (`AdaptiveGate`, `EventStream`, `EventStandard`, `Tiling`, `TopLists`, `Fusion`, `LabelFusion`,
`FusionLaws`, `ToolBatch`, `Watches`): the adaptive admission gate, the reader of streamed answers, overlapping tiles, rank fusion,
the batch executor and the training watches.

`Options`, `Sets`, `Sequences` and `Texts` hold what several modules share. Transactions are atomic steps on maps of
rows, and a clock is a number that does not decrease. What users, models, clocks, the network and other services decide
is a parameter or an arbitrary choice. The word `label` is reserved in Dafny; labels are called `tag`.

## Where the code falls short of what one might expect

- The status update to "registering" has no guard. If a coordinator loses its database session while it builds, a
  published release can be under way again, and a cancelled one too, without owning its images: `LostSessionUndoesEnds`
  gives both runs. `RunOwns` says of every run that ownership is in order exactly when each such update meets a release
  that still holds its images or has none, `EndsAreFinal` that a published or cancelled release stays so exactly until
  such an update.
- The repair in the largest-remainder split can take val, and only val, one below its floor: `ValCanLoseItsFloor` gives
  an input (two samples at 1/50/49), and `AllocationIsSound` says exactly when it happens.
- The stream reader differs from section 9.2.6 of the WHATWG HTML standard in three ways: it ignores a bare `data` line,
  does not end a line at a lone carriage return, and does not strip a byte order mark. `BareFieldIsLost`,
  `LoneReturnIsKept` and `MarkHidesField` give an input for each. `LinesAgree` says exactly on which texts both see the
  same lines, and `EventsAgree` on which lines both dispatch the same events.

## Model

| member | source | states |
|---|---|---|
| AgentTheorems.AtMostOneEffect | go/internal/httpapi/agent_tools.go:153-219 | over every history of workers, crashes, lease expiry, cancel, confirm and resume, the platform runs an operation at most once |
| AgentTheorems.EffectsDoNotCross | agent/internal/runner/runner.go:118-181 | operations of different runs never share an identifier, so the bound holds across the fleet |
| AgentTheorems.RetryOnlyAfterDenial | agent/internal/runner/runner.go:118-181 | sends of a write never exceed its confirmations, and those never exceed one plus its definite 401 or 403 answers |
| AgentTheorems.CompletedMeansDecided | agent/internal/runner/runner.go:118-181 | a write the run records as completed either ran exactly once with a final outcome, or never ran and was never registered |
| AgentTheorems.EffectsAreRemembered | agent/internal/storage/store.go:288-313 | a business effect is always still carried by the persisted row |
| AgentTheorems.NoEffectWithoutConfirmation | agent/internal/storage/store.go:344-387 | nothing runs that the user did not confirm, and it runs with the tool and arguments proposed |
| AgentTheorems.ModelRequestsAreBounded | agent/internal/runner/runner.go:271-352 | each round's model request is sent at most once and at most eight in all, crashes included |
| AgentTheorems.BudgetsHold | agent/internal/storage/store.go:202-282 | round and tool budgets, no two pending flags, a queued row without model request or cancel, confirmed proposals only, no grant after the end |
| AgentTheorems.EpochsAreUnique | agent/internal/storage/store.go:202-282 | epochs are handed out in strictly increasing order and no two workers share one |
| AgentTheorems.FleetLimits | agent/internal/storage/store.go:115-282 | at most 8 running, 2 running per owner, 1 active per conversation, 8 active per owner, in every reachable state |
| AgentTheorems.TerminalForever | agent/internal/storage/store.go:314-343 | an ended run never becomes active again and keeps its state; only unknown may become cancelled |
| AgentTheorems.OutcomeForever | go/internal/agenttools/operations.go:153-170 | a stored outcome below 500 is never replaced, whatever follows |
| AgentFleet.EveryHistoryIsSafe | agent/internal/storage/store.go:115-387 | the invariant of every run, the fleet limits and the separation of identifiers hold after every history |
| AgentFleet.LinearHistory | agent/internal/storage/store.go:283-313 | the persisted state changes only by the current worker's checkpoint, out of that very state, or by a confirmation |
| AgentTheorems.FenceIsForever | agent/internal/storage/store.go:283-313 | an epoch once granted that does not hold the row never holds it again, whatever follows |
| AgentTheorems.StaleWorkerNeverWrites | agent/internal/storage/store.go:283-313 | a worker whose epoch was overtaken, whose lease ended or whose run left running changes the row at no later point of any history |
| AgentStops.StopIsFinal | agent/internal/runner/runner.go:106-113 | a stop once requested stands; a worker at the head of its loop, then or later, sends no write and asks no model at any later point of any history |
| AgentStops.StopSilences | agent/internal/runner/runner.go:106-113 | once all workers of a stopped run are at the head of their loops, nothing is sent or asked any more |
| AgentProgress.ModelRound | agent/internal/runner/runner.go:247-352 | when nothing fails, a round asks the model once and its answer becomes the state, or ends the run as succeeded |
| AgentProgress.ConfirmedWrite | agent/internal/runner/runner.go:118-181 | when nothing fails, a confirmed write is sent once, runs once, has its answer recorded and is remembered as completed |
| AgentProgress.ReadBatch | agent/internal/runner/runner.go:226-246 | when nothing fails, a few reads are run, counted and dropped |
| AgentProgress.WriteWaits | agent/internal/runner/runner.go:197-225 | a write stops the run as a proposal, and the confirmation of these arguments queues it again |
| AgentFleet.ClaimStartsFromRow | agent/internal/storage/store.go:202-282 | a claim starts from the persisted state under a new epoch and fences every earlier worker |
| AgentSafety.StepKeeps | agent/internal/runner/runner.go:105-352 | each of the 23 events keeps all ten parts of the invariant |
| AgentKeepsMore.ClaimKeeps | agent/internal/storage/store.go:202-282 | the claim of a run keeps the invariant, whatever workers were left behind |
| AgentKeepsMore.RecoverKeeps | agent/internal/storage/store.go:211-262 | recovery of an expired lease keeps the invariant |
| Admission.SubmitKeepsLimits | agent/internal/storage/store.go:115-200 | an admitted submission keeps every quota |
| Admission.SubmitIsIdempotent | agent/internal/storage/store.go:115-200 | repeating a submission under its key, with other white space around it as well, finds the first run and changes nothing |
| Admission.SubmitAnswers | agent/internal/storage/store.go:115-200 | every answer to a submission, exactly, in the order of the reasons: 422, the first run or 409, 404, 409, 429, or the new row |
| Admission.ClaimKeepsLimits | agent/internal/storage/store.go:202-282 | a claim keeps the quotas on running runs |
| RunStore.Store.SubmitRun | agent/internal/storage/store.go:115-200 | the submission transaction: trimming, the limit in bytes, idempotency key, quotas, new row, as the admission function says |
| RunStore.Store.ClaimNext | agent/internal/storage/store.go:202-282 | recovery first, then the eligible run that comes first in the queue's order; a lapsed run that may go on is queued as it was, and one that is the only unfinished run is handed out |
| RunStore.ClaimServes | agent/internal/storage/store.go:202-282 | what a claim does to every row, lapsed, ready or neither, in terms of its fields |
| RunStore.ClaimIsFair | agent/internal/storage/store.go:263-267 | the run handed out is of an owner with the fewest runs under way, and the oldest of those |
| RunStore.PassedOverWhenFull | agent/internal/storage/store.go:263-267 | a queued run is passed over only when eight runs are under way, or two of its owner |
| RunStore.Store.FindBest | agent/internal/storage/store.go:263-282 | the scan finds a run no eligible run precedes, and misses none |
| RunStore.Store.SaveRun | agent/internal/storage/store.go:288-313 | a checkpoint is stored exactly under the current epoch, status and lease |
| RunStore.Store.ConfirmRun | agent/internal/storage/store.go:344-387 | a confirmation is accepted once, for the waiting proposal with the very same arguments |
| Runner.Execute | agent/internal/runner/runner.go:105-352 | the loop ends for all answers of its services, keeps both budgets, and ends where the step machine ends on the same answers |
| RunnerLaws.ConversationObeys | agent/internal/runner/runner.go:105-352 | every exchange of the loop follows from the answer before it and the last checkpoint, by rules stated without the step machine |
| RunnerLaws.StopIsObeyed | agent/internal/runner/runner.go:106-113 | after a stop, a lost lease or the end of its context the worker makes one last checkpoint, as cancelled, and nothing else |
| RunnerLaws.WritesArePersisted | agent/internal/runner/runner.go:144-148 | a write is sent only right after a stored checkpoint that names it as pending and confirmed |
| RunnerLaws.RequestsArePersisted | agent/internal/runner/runner.go:247-305 | the model is asked only right after a stored checkpoint that says so, within the budgets on rounds and tokens |
| RunnerLaws.ReadsAreWithinRules | agent/internal/runner/runner.go:183-246 | reads run at most four at a time, valid and within the budget |
| Runner.Proposing | agent/internal/runner/runner.go:183-246 | a proposal is made only of a write that was the sole call of its round |
| Runner.Inspect | agent/internal/runner/runner.go:183-205 | the scan of the calls is valid exactly when all are, and finds a write exactly when there is one |
| OperationStore.MemoryStore.BeginOperation | go/internal/agenttools/operations.go:138-152 | a new operation is registered once; a known one is returned or conflicts |
| OperationStore.MemoryStore.FinishOperation | go/internal/agenttools/operations.go:153-170 | only a pending record or one of 500 and above takes a result |
| OperationStore.Bridge.Invoke | go/internal/httpapi/agent_tools.go:153-219 | each of the ways an invocation ends, exactly: a fresh action runs once and its answer is recorded, a final record is returned, another order conflicts, anything else runs nothing |
| OperationStore.Bridge.Recover | go/internal/httpapi/agent_tools.go:258-276 | recovery stores a result only for an action that ran, and never runs one |
| Splits.SplitLabels | go/internal/dataset/annotation_build.go:37-60 | the loops compute the largest-remainder allocation with its repair |
| Splits.AllocationIsSound | go/internal/dataset/annotation_build.go:37-60 | counts add up, unwanted splits stay empty, train is never empty, no count exceeds its quota rounded up, train and test keep their floors, and val loses one exactly in the case stated |
| Splits.ApportionIsRounding | go/internal/dataset/annotation_build.go:37-49 | before the repair every count is the floor or the ceiling of its quota |
| Splits.ValCanLoseItsFloor | go/internal/dataset/annotation_build.go:50-58 | an input on which the repair takes from val what its floor had promised |
| SeenImages.Noted | go/internal/dataset/annotation_build.go:152-161 | the remembered identities answer for the whole baseline, conflicting legacy duplicates included |
| SeenImages.Judges | go/internal/dataset/annotation_build.go:190-198 | the two checks on a repeated image refuse it exactly when the baseline evaluates on it or labels it otherwise |
| LabeledBuild.Collect | go/internal/dataset/annotation_build.go:174-202 | the batch passes exactly when it is well-formed, free of leaks and conflicts, and fits in bytes beside the baseline; duplicates and new digests add up |
| LabeledBuild.CopyBaseline | go/internal/dataset/annotation_build.go:129-167 | a usable baseline within the limits on images and bytes is kept sample by sample, in order, with label and split |
| LabeledArchive.RankIsPosition | go/internal/dataset/annotation_build.go:221-239 | in a ranked class the k-th image has exactly k of the class below it |
| LabeledArchive.WriteAll | go/internal/dataset/annotation_build.go:203-256 | every class is written whole: each new digest once, in the split of its rank, with exact tallies; what was collected always fits in bytes |
| LabeledArchive.BuildLabeledArchive | go/internal/dataset/annotation_build.go:64-268 | the build succeeds exactly on acceptable requests, and then the archive is the baseline plus each new digest in its split |
| LabeledArchive.TallyPrefix | go/internal/dataset/annotation_build.go:233-256 | splitting by position gives each split exactly its allocated count |
| LabeledLaws.ClassIsShared | go/internal/dataset/annotation_build.go:221-256 | each label of a build is divided by the plan: the new images in train, val and test, counted in the archive, are the quotas rounded down or up, with the repair in the one case stated |
| LabeledLaws.LargerRemaindersFirst | go/internal/dataset/annotation_build.go:45-49 | what is left over goes to the larger remainders, and among equals to the earlier split |
| LabeledLaws.SplitsFollowRank | go/internal/dataset/annotation_build.go:221-239 | within a label train has the lowest ranks and test the highest |
| LabeledLaws.TrainOnlyTrains | go/internal/dataset/annotation_build.go:226-229 | a build for training adds to train only |
| MergeWrite.MergeWriter.Write | go/internal/dataset/merge.go:96-139 | the write closure: refusals, duplicates, and every index it keeps |
| MergeWrite.CopyBase | go/internal/dataset/merge.go:140-178 | the baseline is copied exactly when it is mergeable, and its evaluation digests are known |
| MergeAdditions.Add | go/internal/dataset/merge.go:179-185 | an offer is taken exactly when the baseline, the earlier offers and the names admit it |
| MergeAdditions.NamesApart | go/internal/dataset/merge.go:183 | added images with different digests get different file names |
| MergeAdditions.Merge | go/internal/dataset/merge.go:53-300 | the merge succeeds exactly on mergeable requests, and then appends each new digest once, to train only |
| MergeLaws.UploadIsFiled | go/internal/dataset/merge.go:194-221 | a new image uploaded under a label, or under train and a label, is archived once, in train, under that label and no other |
| MergeLaws.ReviewIsFiled | go/internal/dataset/merge.go:222-290 | a new reviewed image is archived once, in train, under the label the reviewer gave it |
| MergeLaws.EvaluationIsRefused | go/internal/dataset/merge.go:200-202 | an upload under val or test refuses the merge |
| MergeLaws.LabelIsRequired | go/internal/dataset/merge.go:196-209 | so does an upload that names no label |
| MergeLaws.PathIsKept | go/internal/dataset/merge.go:168-171 | a baseline image that lies under its split and label keeps its path |
| MergeLaws.AddedIsImage | go/internal/dataset/merge.go:179-185 | every added file has an image extension, which the scanner insists on |
| Scanner.FiledIsReadBack | backend/src/finevision/ml_toolkit/datasets.py:55-75 | scanning an archive whose files lie under split and label lists the very samples it was written from |
| Versions.HistoryPreserves | go/internal/dataset/merge.go:50-52 | along any chain of versions nothing is lost, moved or relabelled, training and evaluation stay apart, merges and builds for training keep the evaluation samples |
| Versions.StepPreserves | go/internal/dataset/annotation_build.go:62-63 | the same for one step of either builder |
| Versions.EveryImageIsFiled | go/internal/dataset/annotation_build.go:174-256 | every accepted image is in the new version under its label, and nowhere under another |
| Versions.AcceptanceIgnoresOrder | go/internal/dataset/annotation_build.go:35-36 | a batch is accepted or refused alike in every upload order |
| Versions.SplitsIgnoreOrder | go/internal/dataset/annotation_build.go:35-36 | each digest gets the same split and label in every upload order |
| PaidLedger.Ledger.Begin | annotation/lab_v4/state.py:110-144 | each answer of begin is given exactly when it is due; a dispatch is charged and logged first |
| PaidLedger.Ledger.Complete | annotation/lab_v4/state.py:146-179 | an answer settles the row; only a local deferral gives the attempt back |
| PaidLedger.Ledger.Resolve | annotation/lab_v4/state.py:181-208 | an operator may act only on an uncertain or configuration-blocked stage |
| PaidLedger.Ledger.Confirm | annotation/lab_v4/state.py:254-292 | a label is recorded with its parcel, once per image, for a locked prediction |
| PaidLedgerTheorems.BudgetHolds | annotation/lab_v4/state.py:110-179 | attempts are dispatches minus deferrals, at most three a stage and six a sample, in every run |
| PaidLedgerTheorems.DispatchesApart | annotation/lab_v4/state.py:110-208 | two dispatches of a stage are separated by a retryable or deferred answer or an operator's retry, and carry the same request |
| PaidLedgerTheorems.InputIsFixed | annotation/lab_v4/state.py:112-115 | a stage keeps the request it was first asked with |
| PaidLedgerTheorems.DoneIsForever | annotation/lab_v4/state.py:110-208 | in every run, whatever operators resolve, a done stage is never touched again |
| PaidLedgerTheorems.DoneReplays | annotation/lab_v4/state.py:120-121 | asking for a done stage again returns its first response and changes nothing |
| PaidLedgerLaws.AnswerDecidesNext | annotation/lab_v4/state.py:110-179 | in every run, what the next request of a stage gets after an answer: the answer itself, nothing, or a new dispatch, within the budgets and not before the wait is over |
| PaidLedgerLaws.SilenceBlocks | annotation/lab_v4/state.py:116-119 | a dispatch without an answer blocks the stage until an operator decides |
| PaidLedgerLaws.OperatorDecidesNext | annotation/lab_v4/state.py:181-208 | after "retry" the next request goes at once, within the budgets; after "fail" the stage is given up |
| PaidLedgerLaws.AnswerDecidesOperator | annotation/lab_v4/state.py:181-193 | an operator may decide after an unknown or a blocked outcome and after no other |
| PaidLedgerLaws.SampleBudgetHolds | annotation/lab_v4/state.py:125-132 | by the log alone, at most six model requests of a sample are sent and not handed back |
| PaidLedgerTheorems.RecordsLast | annotation/lab_v4/state.py:241-322 | samples, predictions and labels are immutable, deliveries final, and labels and parcels go together |
| PaidLedgerTheorems.OneConfirmationPerSample | annotation/lab_v4/state.py:53 | no sample is confirmed under two digests |
| EngineCall.Call | annotation/lab_v4/engine.py:102-147 | every request sent is charged, at most three are paid for, and the outcome is the last answer's |
| EngineCall.AnswersMean | annotation/lab_v4/engine.py:108-147 | how each kind of answer ends the call or is retried, and that a retry waits for provider and backoff |
| AnnotationTasks.TaskTable.Claim | go/internal/annotation/annotation.go:237-275 | lapsed leases are quarantined, then the earliest queued task is leased |
| AnnotationTasks.TaskTable.Finish | go/internal/annotation/annotation.go:276-321 | a report is accepted exactly when it is small enough, decodes, is presentable, and is live or a repetition |
| AnnotationTasks.TaskTable.Confirm | go/internal/annotation/annotation.go:185-236 | a label is taken exactly from the catalog on a task without worker, and recorded with its outbox row |
| AnnotationTasks.RunsAtMostOnce | go/internal/annotation/annotation.go:169-275 | no task enters running twice |
| AnnotationTasks.LabelIsFinal | go/internal/annotation/annotation.go:213-221 | a confirmed label never changes |
| AnnotationTasks.RunningEnds | go/internal/annotation/annotation.go:237-321 | a running task is ended by its own worker within its lease, or set aside as unknown after it |
| AnnotationTasks.LeaseMeans | go/internal/annotation/annotation.go:263-267 | the worker that claimed a task, and nobody else, may report on it for twenty minutes |
| AnnotationTasks.LapseMeans | go/internal/annotation/annotation.go:243-250 | a lapsed task becomes unknown and is never queued again; the others stay |
| AnnotationTasks.ReportMeans | go/internal/annotation/annotation.go:305-321 | a stored report is recognized when it comes again, and no other is |
| AnnotationTasks.PresentableMeans | go/internal/annotation/annotation.go:294-304 | a suggestion names ten classes of the catalog, or all of a smaller one, each once |
| AnnotationTasks.RunIsSane | go/internal/annotation/annotation.go:157-321 | outbox rows match confirmed tasks, suggestions and labels fit the catalog, one task per image |
| Prediction.Candidates | annotation/lab_v4/engine.py:36-51 | the usable ids of an answer, each once, by first mention |
| Prediction.AssembledIsSound | annotation/lab_v4/engine.py:395-411 | for any two answers the list is distinct, inside the catalog and at most ten long |
| Prediction.ReportIsAccepted | annotation/worker.py:61-77 | whatever the model said, the platform accepts the worker's report |
| Prediction.EnoughIsOk | annotation/lab_v4/engine.py:395-411 | answers that name the whole catalog between them give a complete prediction |
| Prediction.CompleteIsSuggested | annotation/worker.py:61-77 | a complete prediction, and nothing else, is reported as a suggestion |
| Prediction.FirstAnswerLeads | annotation/lab_v4/engine.py:395-411 | the first answer's usable ids come first, in its own order |
| Publication.Publisher.Transition | go/internal/annotation/publication.go:248-289 | confirm and cancel succeed exactly when allowed; a conflict over one image changes nothing |
| Publication.TransitionMeans | go/internal/annotation/publication.go:248-289 | when each transition is allowed and what it makes of releases and members, in terms of statuses and images |
| Publication.RunOwns | go/internal/annotation/publication.go:248-364 | in every run, lost sessions included, a release owns exactly its images while it holds them exactly as long as every stray update is harmless |
| Publication.NoImageTwice | go/internal/annotation/publication.go:273-285 | in such runs no image is in two releases that hold images |
| Publication.EndsAreFinal | go/internal/annotation/publication.go:254-269 | in every run a release keeps its images, and a published or cancelled one stays so exactly until a stray update |
| Publication.StrayUpdate | go/internal/annotation/publication.go:357-359 | the unguarded update keeps ownership exactly when its release still holds its images or has none |
| Publication.LostSessionUndoesEnds | go/internal/annotation/publication.go:291-364 | two runs with a lost session in which a published release, or a cancelled one, is under way again |
| AdaptiveGate.Gate.Done | go/cmd/annotation-agent/transport.go:211-244 | how each ending moves limit, failures, cooldown and circuit |
| AdaptiveGate.FailureMeans | go/cmd/annotation-agent/transport.go:218-230 | a failure halves the limit, keeps the wait asked for, and opens the circuit for its cooldown when it is the third or a probe |
| AdaptiveGate.SuccessMeans | go/cmd/annotation-agent/transport.go:231-241 | a success after the cooldown closes the circuit; eight raise the limit by one; one during the cooldown changes nothing |
| AdaptiveGate.ThreeFailuresOpen | go/cmd/annotation-agent/transport.go:218-230 | three failures in a row open the circuit, whatever came before |
| AdaptiveGate.AdmitsWhenFree | go/cmd/annotation-agent/transport.go:192-209 | a gate admits exactly when it is not blocked, cooling down or full, and idle if its circuit is open |
| AdaptiveGate.GateIsSafe | go/cmd/annotation-agent/transport.go:180-244 | concurrency counts admissions minus endings within bounds, and the limit grows one step in eight successes |
| AdaptiveGate.OpenProbesOne | go/cmd/annotation-agent/transport.go:205-242 | until the first success after its cooldown, an open circuit lets one request through at a time |
| AdaptiveGate.NoWayBack | go/cmd/annotation-agent/transport.go:196-230 | a cooldown is never shortened, and after a fatal answer nothing is admitted |
| EventStream.ReadSSE | go/cmd/annotation-agent/transport.go:93-176 | the reader gives the verdict the dispatched events deserve |
| EventStream.TruncationIsInterrupted | go/cmd/annotation-agent/transport.go:173-175 | a complete stream cut before its closing blank line, even mid-line, is interrupted |
| EventStream.ExtensionIsIgnored | go/cmd/annotation-agent/transport.go:164-171 | what follows a complete stream does not change what was read |
| EventStream.FinishIsLast | go/cmd/annotation-agent/transport.go:137-140 | the finish reason that counts is the last one given |
| EventStream.ContentsAddUp | go/cmd/annotation-agent/transport.go:130-136 | the content is that of all events, one after the other |
| EventStandard.LinesAgree | go/cmd/annotation-agent/transport.go:147-151 | reader and standard see the same lines exactly when no carriage return stands alone and no byte order mark leads |
| EventStandard.EventsAgree | go/cmd/annotation-agent/transport.go:147-163 | on the same lines they dispatch the same events exactly when no bare `data` line has a blank line after it |
| EventStandard.ReaderMeetsStandard | go/cmd/annotation-agent/transport.go:147-163 | the two together, for whole texts |
| Tiling.StartsCover | annotation/lab_v4/gpu_worker.py:30-33 | every cell of an axis lies in some tile |
| Tiling.StartsOverlap | annotation/lab_v4/gpu_worker.py:30-33 | neighbouring tiles share at least the overlap, and exactly the overlap except at the end |
| Tiling.Tiled | annotation/lab_v4/gpu_worker.py:22-41 | for any model each output cell is the average of the tiles that reach it, and at least one does |
| Tiling.TiledPointwise | annotation/lab_v4/gpu_worker.py:22-41 | for a pointwise model the tiled result is the direct map on the whole image |
| Tiling.PixelMapIsPointwise | annotation/lab_v4/gpu_worker.py:36-40 | a pixel-to-block map with integer upscaling is pointwise |
| Fusion.FuseReferences | annotation/lab_v4/policy.py:88-115 | the dictionary loop gives each class its reciprocal-rank sum, and the list is the top of the set by the key |
| Fusion.BestIsBest | annotation/lab_v4/policy.py:102-107 | the row kept for a class is a first row of some view, and no view has a more similar one |
| FusionLaws.VoteByRank | annotation/lab_v4/policy.py:92-101 | a class votes one over sixty plus the number of distinct classes down to its first row |
| FusionLaws.UnanimousComesFirst | annotation/lab_v4/policy.py:88-115 | a class ahead of another in every view is ahead of it in the fused list |
| FusionLaws.ListDescends | annotation/lab_v4/policy.py:108-115 | the list descends by score, then similarity, then name, and what was cut off would come after it |
| FusionLaws.NamesOfVoters | annotation/lab_v4/policy.py:92-102 | the views recorded with a class are those it occurs in |
| Fusion.RepeatIsIgnored | annotation/lab_v4/policy.py:89-99 | a later row of a class can be left out without effect |
| Fusion.RepeatsDoNotVote | annotation/lab_v4/policy.py:89-99 | only the ranking of classes in each view matters |
| Fusion.ViewOrderIsIrrelevant | annotation/lab_v4/policy.py:88-115 | reordering the views gives the same labels in the same places with the same scores |
| TopLists.TopIsUnique | annotation/lab_v4/policy.py:108-115 | the first few of a set by a total order are one list only |
| LabelFusion.FusedLabelsAreOrdered | annotation/lab_v4/text_candidates.py:194-215 | the fused list holds all labels of both branches once, in order of the key |
| LabelFusion.AgreementComesFirst | annotation/lab_v4/text_candidates.py:194-215 | a label both branches found precedes every label only one found |
| FusionLaws.BetterComesFirst | annotation/lab_v4/text_candidates.py:194-215 | a label with the better place in both branches comes first |
| FusionLaws.TiesAreBroken | annotation/lab_v4/text_candidates.py:207-215 | equal scores are told apart by the image branch, then the text branch, then the name |
| FusionLaws.BranchByFirstAppearance | annotation/lab_v4/text_candidates.py:197-199 | a branch ranks its labels by first appearance and keeps ten |
| LabelFusion.RepeatsDoNotCount | annotation/lab_v4/text_candidates.py:197-199 | repeating a label in a branch changes nothing |
| ToolBatch.Check | agent/internal/tools/registry.go:109-129 | a batch passes exactly when all its calls are valid, distinct, and a write stands alone with approval |
| ToolBatch.BatchIsComplete | agent/internal/tools/registry.go:130-158 | however the workers interleave, every call runs once, and at its place stands what the worker that took it ended with |
| ToolBatch.SomethingIsEnabled | agent/internal/tools/registry.go:130-158 | the pool cannot get stuck |
| ToolBatch.EventsRunOut | agent/internal/tools/registry.go:130-158 | every schedule ends |
| Watches.WatchStore.ClaimWatch | agent/internal/storage/watches.go:78-89 | expired watches end, then the due watch that waited longest is leased under a new epoch |
| Watches.EpochIsUnique | agent/internal/storage/watches.go:78-89 | no epoch of a watch is handed out twice |
| Watches.OvertakenCannotSave | agent/internal/storage/watches.go:90-99 | a poller overtaken by a claim or its user can no longer save |
| Watches.RunIsOrderly | agent/internal/storage/watches.go:19-77 | at most eight live watches per owner, one per resource and conversation, no grant after the end |
| Watches.EightLive | agent/internal/storage/watches.go:42-48 | at most eight live watches of an owner, counted in the table |
| Watches.LeaseMeans | agent/internal/storage/watches.go:83-88 | a leased watch is given to nobody else for 45 seconds, and is due again after that |
| Watches.SaveMeans | agent/internal/storage/watches.go:90-99 | a saved watch is due again after thirty seconds, or never once it has ended |
| Watches.ExpiryMeans | agent/internal/storage/watches.go:78-82 | a watch ends a day after it was created, and not before |

## Left out

- RunStore.Store.ClaimNext: claims the first eligible run; which one `SKIP LOCKED` leaves to a concurrent claim is not modelled.
- Runner.Execute: the worker's context at the head of its loop and the drawing of operation identifiers are one input of the turn.
- OperationStore.Bridge.Invoke: redirect answers, which the platform's own routes do not produce, and the text of answers are not modelled.
- LabeledArchive.BuildLabeledArchive: the `sample_sources`, `warnings` and per-class reports, and which of several errors is reported first are not modelled.
- MergeAdditions.Merge: `sample_sources`, the reading of upload directories, and which of several errors is reported first are not modelled.
- Scanner.FiledIsReadBack: that the object store hands out the bytes that were written is assumed; the order of the manifest is left open, as are the checks on files (decoding, repeated names) that make a scan fail, and the scanner's own random split of archives without split directories.
- Versions.HistoryPreserves: speaks of scans that succeed, under the assumption on the object store made there.
- EngineCall.Call: the wall-clock time of remote calls is an input of each turn.
- Publication.Publisher.Transition: the contents of a release and the validation of its request are not modelled.
- EventStream.ReadSSE: the reported model name and usage, and the limit on bytes, are not stated.
- Fusion.FuseReferences: scores are exact reals, so floating-point ties are not modelled; labels are numbered in alphabetical order.
- Tiling.Tiled: pixels are exact reals, one channel at a time.
- ToolBatch.BatchIsComplete: the registry's slots shared across batches are not modelled.
- Watches.WatchStore.ClaimWatch: which watch `SKIP LOCKED` leaves to a concurrent claim is not modelled.
- Message history, tool-message truncation, conversation titles and the events table of the agent: they carry text, not decisions.
- HTTP parsing, authentication, signatures and argument schemas: their verdicts are arbitrary inputs, and approvals are opaque matching tokens.
- The bound of 128 queued and running runs over whole histories: it is a check at admission, and is stated there.
- Local steps of the prediction engine, retrieval, image tools and quality rules: they produce inputs of the modelled parts.
- The RPC loop of the transport, training, inference, dataset import, the frontend and the adapters: plumbing, or code whose transitions are not visible.
