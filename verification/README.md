# Verification of the migration controllers

A Dafny model of the state machines, undo code, accounting and indexes of mig-controller, the set of
Kubernetes controllers that move applications and their volumes between clusters. `dafny verify
dfyconfig.toml` checks it.

Each controller is a step function that is run again and again against a cluster that changes, fails
calls and forgets. The model keeps that shape. Every module has three parts: functions that say what one
step does, a class or method in the shape of the Go code that is proved equal to them, and theorems about
all runs of steps, with the environment free to fail any call, to cut any pass short and to change what
the controller does not own. Where a property fails, a theorem gives the failing input and the exact
condition under which it holds.

| file | what it models |
|---|---|
| Strconv.dfy, Quantities.dfy, Wrappers.dfy | numbers as text, Kubernetes quantities, optional values |
| RsyncRetry.dfy | the retry protocol of one claim: attempt-labelled pods, back-off limit, create before delete |
| Itineraries.dfy | the itinerary engine of the three direct migrations and the parent's reading of its end |
| QuiesceScope.dfy, Quiesce.dfy | what a quiesce pass covers, and undoing it after passes cut short |
| StagePods.dfy | stage pods that cover every copied claim, and repeated creation |
| PodProgress.dfy | cumulative progress over the attempts of a claim |
| LimitRanges.dfy | merging a namespace's LimitRanges and fitting pod resources into them |
| VolumeSizing.dfy | from measured usage through the plan to the destination claim |
| VmUpdate.dfy | renaming the volumes of a virtual machine, cancelling and repeating it |
| References.dfy | the index from targets to owners, under interleaved events |
| ImageStreams.dfy | creating child migrations and sorting image streams over polls |
| Annotations.dfy | marking stage resources, at most 51 counted updates a pass |

Assumptions: creation timestamps strictly increase among the client pods of a claim, and nobody else makes
or relabels such pods; the cleanup of completed block pods before the retry loop (rsync.go:2113-2142) counts
among the deletions of others; a claim is in at most one of the two transfer lists; the back-off limit, the
plan and the settings are constant during a run, but a workload may be unquiesced by another migration than
quiesced it; durable conditions are kept; a quantity is an integer count of milli-units; lists from the API server name every object once; errors have a message. Annotations that hold
JSON are represented by the value encoded in them.

Where code and documentation disagree, the model follows the code:

- `AllCompleted` says it checks for terminal states; a claim whose first pod was just created passes it
  (`RsyncRetry.QuietBeforeTerminal`).
- The back-off limit does not bound the pods of a claim whose retries find no transfer to start
  (`RsyncRetry.NoCapWithoutTransfer`), or whose VM is started and stopped during a cutover
  (`RsyncRetry.NoCapUnderCancellation`).
- `getLimitRangeForNamespace` says it keeps the most restrictive value; a maximum that the first item does
  not declare is lost (`LimitRanges.MergedMaxIsTightest`).
- `checkMultiplePlans` compares source namespaces with entries that may be mappings
  (`QuiesceScope.MappedEntriesAreMissed`).
- `processProposedPVCapacities` says the confirmation is withdrawn when the new proposal is larger; the code
  withdraws it when the new proposal is smaller, as `VolumeSizing.ConfirmedExactly` states.
- In a namespace shared between plans, a rollback looks for renamed claims by their target names, and does not
  scale up what the migration scaled down by their source names (`QuiesceScope.RollbackLeavesScaledDown`);
  `QuiesceScope.StrandedByPlan` is the exact condition.
- The percentage shown is not reset when a retry gets a new pod, so what a failed pod had copied counts twice
  (`PodProgress.RetryCountsTwice`); `PodProgress.TotalIsTheSumExactly` is the exact condition.
- Comparing a machine's volumes counts them, and miscounts a claim that is mounted twice
  (`VmUpdate.CompareMiscounts`, `VmUpdate.ComparesNames`).
- Live migrating a machine without a template dereferences nil (`VmUpdate.Machine.UpdateVM`).
- A proposed size can be below the requested one (`VolumeSizing.RequestIsLost`), and a volume without a second
  measurement makes the analytic dereference nil (`VolumeSizing.PersistentVolumeAdjuster.Run`).
- Service accounts and claims missed by one annotation pass are missed by all later ones
  (`Annotations.MissedAccountStaysMissed`, `Annotations.MissedClaimStaysMissed`); what a finished pass has
  labelled is stated by `Annotations.AccountsLabelledExactly` and `Annotations.ClaimsMarkedExactly`.
- An image stream whose child exists without being recorded cannot be polled
  (`ImageStreams.CreationMakesPollable`).

## Model

| member | source | states |
|---|---|---|
| Strconv.AtoiFormatInt | pkg/controller/directvolumemigration/rsync.go:2726-2752 | A number printed in base 10, as the attempt labels and replica annotations are, is read back as the same number, for every 64-bit integer. |
| Strconv.ProgressRoundTrip | pkg/controller/directvolumemigrationprogress/directvolumemigrationprogress_controller.go:500-515 | A printed percentage is read back as the value printed. |
| Strconv.MaxProgressValue | pkg/controller/directvolumemigrationprogress/directvolumemigrationprogress_controller.go:517-522 | The maximum of two percentage strings, read back, is the maximum of what they read as. |
| Strconv.ProgressStringToValue | pkg/controller/directvolumemigrationprogress/directvolumemigrationprogress_controller.go:500-511 | Whatever the text, a percentage reads as a natural number within 64 bits. |
| Strconv.AtoiExactly | pkg/controller/directvolumemigration/rsync.go:2726-2752 | A label or annotation reads as a number exactly when it is at least one digit with at most one sign and the value fits into 64 bits, and then as that value. |
| Strconv.FindPercentIsLeftmost | pkg/controller/directvolumemigrationprogress/directvolumemigrationprogress_controller.go:500-515 | The digits found are all those before the first percent sign that follows a digit, and there are none exactly when no percent sign does. |
| Strconv.ProgressReads | pkg/controller/directvolumemigrationprogress/directvolumemigrationprogress_controller.go:500-511 | A progress text reads as the number of that match, and as 0 when there is none or it does not fit into 64 bits. |
| RsyncRetry.GetRsyncPodBackOffLimit | pkg/controller/directvolumemigration/rsync.go:2302-2313 | The overriding setting wins whenever it is set, then the limit of the spec; without either the limit is 20, and it is never 0. |
| RsyncRetry.TransferClients.GetLatestPodForOperation | pkg/controller/directvolumemigration/rsync.go:2726-2752 | The search loop finds the pod of the specification function Latest. |
| RsyncRetry.LatestIsNewest | pkg/controller/directvolumemigration/rsync.go:2726-2752 | The pod chosen is among those with a readable attempt label, none of which is newer; none is chosen exactly when there is none. |
| RsyncRetry.TransferClients.AttemptTransfer | pkg/controller/directvolumemigration/rsync.go:770-843 | Creating the pod of an attempt: the cluster and the report for every way the creation can end. |
| RsyncRetry.TransferClients.CancelOfflineMigration | pkg/controller/directvolumemigration/rsync.go:910-940 | Which client pods the cancellation leaves, and whether it returns an error, for every answer to every deletion. |
| RsyncRetry.DeletionsRemoveExactly | pkg/controller/directvolumemigration/rsync.go:910-940 | A cancellation removes only running and succeeded pods, and without an error exactly those whose deletion takes effect. |
| RsyncRetry.TransferClients.ReconcileVolume | pkg/controller/directvolumemigration/rsync.go:661-903 | One reconcile of one claim, cancellation included, is the step Pass of the protocol, whatever calls fail. |
| RsyncRetry.TransferClients.CreateRsyncTransferClients | pkg/controller/directvolumemigration/rsync.go:579-907 | The loop over the claims is the sweep of these steps, with the status list in order. |
| RsyncRetry.AllCompleted | pkg/controller/directvolumemigration/rsync.go:2644-2651 | True exactly when no reported operation is pending, running or in error. |
| RsyncRetry.TopIsLargest | pkg/controller/directvolumemigration/rsync.go:2726-2752 | In a reachable state the current attempt is the largest present, within the cap, and 0 exactly when there is no pod. |
| RsyncRetry.PassKeepsInv | pkg/controller/directvolumemigration/rsync.go:754-847 | One reconcile keeps the invariant, creates a pod exactly on the start and retry branches when the write takes effect, only as the next attempt, and loses the current attempt exactly when it retries without a transfer to start and the delete works, or when a cancellation removes the current pod. |
| RsyncRetry.RetryReplaces | pkg/controller/directvolumemigration/rsync.go:765-847 | Of the pods there were a retry deletes the failed one and no other, and only when the creation of its successor has returned without an error and the deletion works. |
| RsyncRetry.RunsAreSafe | pkg/controller/directvolumemigration/rsync.go:754-903 | Over every run of reconciles mixed with phase changes, outside deletions and failing calls: later pods have strictly larger attempts, no attempt passes max(1, limit), an operation is failed only at the limit and never both failed and succeeded; and created pods are bounded by the losses of the current pod while the operation is open. |
| RsyncRetry.PodsEverCreated | pkg/controller/directvolumemigration/rsync.go:754-847 | From a new claim, at most the cap of pods is created, plus the cap once more for every time the current pod of an open operation is lost without a successor. |
| RsyncRetry.LostExactly | pkg/controller/directvolumemigration/rsync.go:765-847 | Over any run, nothing is lost exactly when no step of the open operation retries with a skipped transfer and a working delete, cancels the current pod while it runs, or has others lower the current attempt. |
| RsyncRetry.KeptIsNotLost | pkg/controller/directvolumemigration/rsync.go:765-847 | That is so when, while the operation is open, others leave the current pod alone, every retry has a transfer to start and no running transfer is cancelled. |
| RsyncRetry.AtMostCapPods | pkg/controller/directvolumemigration/rsync.go:754-847 | Under that last condition at most max(1, limit) pods are ever created, however often creates and deletes fail; a start that has to wait for its server is allowed. |
| RsyncRetry.SkippedRetryStartsOver | pkg/controller/directvolumemigration/rsync.go:765-847 | Concrete run with limit 2: a failed pod whose claim is in neither transfer list is deleted without a successor. |
| RsyncRetry.NoCapWithoutTransfer | pkg/controller/directvolumemigration/rsync.go:765-847 | The transfer condition is needed: for every n there is a run with limit 2, without outside deletions, that creates n pods. |
| RsyncRetry.CancelledStartsOver | pkg/controller/directvolumemigration/rsync.go:811-829 | Concrete run under any limit: a running pod is cancelled because its VM was started, and nothing is left of the attempt. |
| RsyncRetry.NoCapUnderCancellation | pkg/controller/directvolumemigration/rsync.go:811-829 | The cancellation condition is needed: under any limit and for every n there is a run in which every transfer can be started, no call fails, nobody else deletes a pod, and n pods are created. |
| RsyncRetry.CompletionIsFinal | pkg/controller/directvolumemigration/rsync.go:661-676 | Once failed or succeeded, no later step creates or deletes a pod or changes the operation. |
| RsyncRetry.CompletesExactlyAtLastAttempt | pkg/controller/directvolumemigration/rsync.go:832-903 | An operation completes in a reconcile exactly when its current pod has succeeded, or has failed as the last allowed attempt. |
| RsyncRetry.CreatedPodIsNext | pkg/controller/directvolumemigration/rsync.go:754-847 | A pod that a reconcile creates is pending, the newest, and its label reads as the next attempt after the current one. |
| RsyncRetry.AttemptIsRecorded | pkg/controller/directvolumemigration/rsync.go:754-903 | The stored attempt of an open operation is that of its current pod after every reconcile that could look it up, and 0 without a pod. |
| RsyncRetry.ReportTellsTheOutcome | pkg/controller/directvolumemigration/rsync.go:661-903 | In every reconcile the failed and succeeded flags of the report are those of the stored operation, and an operation that is over has a report. |
| RsyncRetry.ReportShowsThePod | pkg/controller/directvolumemigration/rsync.go:754-903 | Waiting is reported as running exactly when the current pod runs and as pending exactly when it is pending or unknown; a retry as pending; there is no report exactly when a transfer could not be built. |
| RsyncRetry.ReportCountsErrors | pkg/controller/directvolumemigration/rsync.go:661-903 | A report is in error exactly when a call of the reconcile failed: the lookup, the creation, the deletion of the failed pod, or the cancellation. |
| RsyncRetry.QuietReportExactly | pkg/controller/directvolumemigration/rsync.go:2644-2652 | When a claim is reported as neither pending, running nor in error: it is complete, or its first pod was only just considered, or its pod has no phase. |
| RsyncRetry.SweepIsPerVolume | pkg/controller/directvolumemigration/rsync.go:640-903 | Distinct claims do not disturb each other: each makes its own step and no other claim changes. |
| RsyncRetry.SweepReportsEach | pkg/controller/directvolumemigration/rsync.go:640-903 | Every claim that has a report is in the status list with it. |
| RsyncRetry.SweepTellsTheOutcome | pkg/controller/directvolumemigration/rsync.go:640-903 | For distinct claims some status in the list is failed exactly when some operation is stored as failed, and likewise for succeeded. |
| RsyncRetry.FailedOperations | pkg/controller/directvolumemigration/rsync.go:2664-2672 | The count is positive exactly when some listed operation is failed. |
| RsyncRetry.ProcessRsyncOperationStatus | pkg/controller/directvolumemigration/rsync.go:2501-2515 | The phase is over exactly when the list is quiet, and the migration has failed exactly when moreover some listed operation is failed. |
| RsyncRetry.AllCompletedMeansTerminal | pkg/controller/directvolumemigration/rsync.go:2644-2652 | What AllCompleted does promise: with every claim underway and its transfer built, a quiet list means every operation is over. |
| RsyncRetry.QuietBeforeTerminal | pkg/controller/directvolumemigration/rsync.go:845-903 | What it does not promise: a just-created pod, or any retry whose transfer cannot be built, leaves the list quiet. |
| Itineraries.Task.Init | pkg/controller/directvolumemigration/task.go:219-239 | The engine takes the failed itinerary exactly when the resource has failed, and restarts at its first step when the itinerary changed. |
| Itineraries.Task.Next | pkg/controller/directvolumemigration/task.go:538-569 | The search loop moves to the successor of the first occurrence of the phase, or to Completed. |
| Itineraries.Task.Fail | pkg/controller/directvolumemigration/task.go:572-599 | Errors are added without repetition, the durable condition is set, and a critical failure goes to MigrationFailed. |
| Itineraries.Task.Run | pkg/controller/directvolumemigration/task.go:261-535 | What one phase does to the resource and the phase for every result of its work, in the three controllers. |
| Itineraries.Reconcile | pkg/controller/directvolumemigration/migrate.go:18-105 | One reconcile, for all three controllers: error kinds, what is written back, and when Succeeded is set. |
| Itineraries.HasDirectVolumeMigrationCompleted | pkg/controller/migmigration/dvm.go:96-123 | The parent answers completed exactly when the child reads as succeeded or failed, with its reasons, and its progress lines in any order. |
| Itineraries.VolumeEngineIsSimple | pkg/controller/directvolumemigration/task.go:120-175 | Both volume itineraries start at Created, end at Completed, repeat no phase and do not contain MigrationFailed. |
| Itineraries.ImageEnginesAreSimple | pkg/controller/directimagemigration/task.go:80-102 | The same of the image and image-stream itineraries. |
| Itineraries.StandingIndex | pkg/controller/directvolumemigration/task.go:538-570 | In a reachable state the phase has one place in the itinerary in force, the last exactly when it is Completed, and otherwise the next phase is the next step. |
| Itineraries.MigrateKeepsInv | pkg/controller/directvolumemigration/migrate.go:53-104 | One reconcile keeps the invariant, and either stays, moves exactly one step, or records a failure; failure is never undone. |
| Itineraries.RunKeepsInv | pkg/controller/directvolumemigration/migrate.go:53-104 | Over every run: failure is permanent, Failed and Succeeded exclude each other, a failed volume migration stands at MigrationFailed or Completed, and a resting resource never changes. |
| Itineraries.RankFalls | pkg/controller/directvolumemigration/task.go:219-239 | The pair (not failed, steps left) stays at a repetition, falls by one step at an advance, and falls at a failure. |
| Itineraries.ChangesAreBounded | pkg/controller/directvolumemigration/task.go:538-570 | However long a run is, it advances or fails at most as often as there are steps left, plus two. |
| Itineraries.SuccessIsTheWholeItinerary | pkg/controller/directvolumemigration/migrate.go:53-104 | Succeeded exactly when Completed without a failure, and then the phases left, in order, are the whole chosen itinerary. |
| Itineraries.NoPhaseTwice | pkg/controller/directvolumemigration/task.go:538-570 | No run leaves the same phase twice. |
| Itineraries.CriticalFailureRests | pkg/controller/directvolumemigration/directvolumemigration_controller.go:174-197 | A volume migration with a critical failure rests at MigrationFailed for ever. |
| Itineraries.WorkDecides | pkg/controller/directvolumemigration/task.go:261-535 | While no failure is recorded, a reconcile that reaches a phase with work of its own advances exactly when the work is done; waiting changes neither the standing nor the errors; a failure is recorded exactly when the work fails or returns an error other than a conflict. |
| Itineraries.ImmediateAdvances | pkg/controller/directvolumemigration/task.go:261-535 | The phases without work advance in every reconcile that reaches them. |
| Itineraries.FailureIsGraded | pkg/controller/directvolumemigration/migrate.go:53-104 | A recorded failure is critical exactly when a volume migration meets a fatal error or failing Rsync operations, a warning exactly when it meets another error, and exactly its reasons join the errors. |
| Itineraries.FailedGoesOn | pkg/controller/directvolumemigration/task.go:261-535 | A failed resource that is not blocked is Completed by the next reconcile that reaches it, and not Succeeded. |
| Itineraries.LeftMeansDone | pkg/controller/directvolumemigration/task.go:261-535 | A run without a failure leaves a phase with work only if some reconcile standing there found the work done. |
| Itineraries.AllDoneSucceeds | pkg/controller/directvolumemigration/task.go:538-570 | A run whose reconciles all find their work done succeeds after exactly one reconcile for every step to leave. |
| Itineraries.VolumesInOrder | pkg/controller/directvolumemigration/task.go:120-146 | The volume itinerary has its phases in the order that their work depends on, for every pair of them. |
| Itineraries.RollbackInOrder | pkg/controller/directvolumemigration/task.go:156-169 | The rollback removes stale resources and waits for them before it runs Rsync. |
| Itineraries.ImagesInOrder | pkg/controller/directimagemigration/task.go:80-102 | The image itinerary creates namespaces, lists the streams, creates the children and then waits for them. |
| Itineraries.ParentReadsTheEnd | pkg/controller/migmigration/dvm.go:96-123 | In every reachable state of the child the parent reads completed exactly when the child is failed or Completed, and failed exactly when it is failed. |
| QuiesceScope.CheckMultiplePlans | pkg/controller/migmigration/quiesce.go:106-131 | True exactly when some namespace is listed more than once by all plans together. |
| QuiesceScope.CountIsMultiplicity | pkg/controller/migmigration/quiesce.go:106-131 | The count of a namespace is its multiplicity among the entries of all plans. |
| QuiesceScope.NamesOfMapping | pkg/apis/migration/v1alpha1/migplan_types.go:900-919 | A name "source:target" gives back both parts, whatever follows a second colon, and a name without a colon is both. |
| QuiesceScope.MappedEntriesAreMissed | pkg/controller/migmigration/quiesce.go:106-131 | The count is that of the plans that migrate the namespace exactly when no plan maps it ("ns:target"); every mapped entry is missed. |
| QuiesceScope.GetSelectedPVCs | pkg/controller/migmigration/quiesce.go:133-148 | The selected names are exactly the source (on rollback, target) names of the volumes with the copy action, by namespace. |
| QuiesceScope.SelectedAreCopied | pkg/controller/migmigration/quiesce.go:133-148 | A name is selected exactly for a volume that is neither moved nor skipped, by its source name or, in a rollback, its target name. |
| QuiesceScope.StrandedByPlan | pkg/controller/migmigration/quiesce.go:133-148 | In terms of the plans, with source or target names looked for in either direction: a workload is not given back exactly when the quiescing migration scales it down and the unquiescing one does not find it by the claims that its pods mount. |
| QuiesceScope.StrandedInOneMigration | pkg/controller/migmigration/quiesce.go:483-594 | When both directions look for the same names, these are exactly the scaled-up StatefulSets of namespaces shared between plans of which the plan copies a claim made from their templates but none that their pods mount by name. |
| QuiesceScope.RollbackLeavesScaledDown | pkg/controller/migmigration/quiesce.go:133-148 | A Deployment that mounts a renamed claim in a shared namespace is scaled down by the migration and left at 0 by the rollback. |
| Quiesce.Cluster.ShouldAct | pkg/controller/migmigration/quiesce.go:240-258 | The selection test is the membership stated by Covers. |
| Quiesce.Cluster.QuiesceOne | pkg/controller/migmigration/quiesce.go:365-415 | The write made for one workload of any kind is the quiesced workload, and none is made only when that is unchanged. |
| Quiesce.Cluster.UnquiesceOne | pkg/controller/migmigration/quiesce.go:417-480 | The one or two writes of unquiescing, or the annotation that cannot be parsed. |
| Quiesce.Cluster.PassOverOne | pkg/controller/migmigration/quiesce.go:596-710 | One object of a pass ends untouched, half written or done, and is done when no error is returned. |
| Quiesce.Cluster.PassOverNamespace | pkg/controller/migmigration/quiesce.go:596-710 | One namespace of a pass: other kinds stay, and without an error all of its workloads are done. |
| Quiesce.Cluster.PassOverKind | pkg/controller/migmigration/quiesce.go:365-819 | A pass over one kind leaves every workload untouched, half written or done, all of the kind done when it returns no error, and other kinds alone. |
| Quiesce.Cluster.PassOverApplications | pkg/controller/migmigration/quiesce.go:59-100 | A whole pass over the kinds in their order, ended by the first error: always a partial pass, a full one when no error is returned, and else with earlier kinds done and later ones untouched. |
| Quiesce.QuiesceIsIdempotent | pkg/controller/migmigration/quiesce.go:365-415 | Quiescing a quiesced workload changes nothing, so the parked values are never overwritten by zeros. |
| Quiesce.QuiescedIsDown | pkg/controller/migmigration/quiesce.go:365-415 | A workload that quiescing touches has no replicas and is not paused, or has the extra node selector; the annotations hold the old values and read back as them; nothing else changes, and a workload that is not touched stays. |
| Quiesce.ParkedRoundTrip | pkg/controller/migmigration/quiesce.go:395-475 | Parked replica counts are read back exactly, through text, 64 bits and the truncation to 32. |
| Quiesce.UnparsableExactly | pkg/controller/migmigration/quiesce.go:417-480 | An unquiesce pass meets an error of parsing exactly at a selected workload whose parked count or selector cannot be read, or whose parked flag cannot when there is a count. |
| Quiesce.UnquiesceRestores | pkg/controller/migmigration/quiesce.go:440-475 | For every selected workload with a parked count that can be read: a count other than 0 stays, at 0 the parked count comes back, itself when it is in range and modulo 2^32 otherwise, the parked flag comes back, and the annotations are gone whatever the count was. |
| Quiesce.UnquiesceRestoresSelector | pkg/controller/migmigration/quiesce.go:762-819 | A DaemonSet gets its parked node selector back, and loses the annotation, exactly while it has the quiescing one. |
| Quiesce.CountsDuringUnquiesce | pkg/controller/migmigration/quiesce.go:417-480 | Over any unquiesce passes, cut short or not, a workload that somebody has scaled up keeps its count in every state, and one at 0 shows 0 or the parked count only. |
| Quiesce.UnquiesceUndoesQuiesce | pkg/controller/migmigration/quiesce.go:233-819 | Quiesce under one selection and unquiesce under any other gives back replicas, paused flag, node selector and annotations exactly when the workload is not scaled down by the first and left unselected by the second. |
| Quiesce.StrandedUnderOneSelection | pkg/controller/migmigration/quiesce.go:483-594 | Under one selection for both only StatefulSets can be left so: those selected by their claim templates but not by the volumes of their pods. |
| Quiesce.DuringQuiesce | pkg/controller/migmigration/quiesce.go:365-415 | During any number of cut-short quiesce passes a workload is as it began or quiesced, nothing in between. |
| Quiesce.DuringUnquiesce | pkg/controller/migmigration/quiesce.go:417-480 | During any number of cut-short unquiesce passes it is parked or restored. |
| Quiesce.DeploymentConfigCutBetweenWrites | pkg/controller/migmigration/quiesce.go:286-362 | A DeploymentConfig cut between the two writes of its unquiesce stays unpaused with the parked flag, and no later pass changes that. |
| Quiesce.DeploymentConfigRestored | pkg/controller/migmigration/quiesce.go:286-362 | A DeploymentConfig quiesced under one selection and found again under another is restored by repeated passes exactly when none of them was cut between its two writes. |
| Quiesce.RepeatedPassesRestore | pkg/controller/migmigration/quiesce.go:59-232 | After any number of quiesce passes cut short at any object, the last complete, and then of unquiesce passes likewise, under any two selections, a workload of any kind that began without parked values is what it was exactly when it is not stranded between the selections, nor a DeploymentConfig of which a pass was cut between its two writes; unselected workloads never change. |
| StagePods.VolumesContained | pkg/controller/migmigration/stage.go:146-163 | The nested search decides containment: same namespace and every source mounted. |
| StagePods.Contains | pkg/controller/migmigration/stage.go:165-173 | The list search decides whether some pod of the list contains the pod. |
| StagePods.BuildStagePods | pkg/controller/migmigration/stage.go:55-91 | The loops build the deduplicated list of the specification. |
| StagePods.Cluster.CreateStagePods | pkg/controller/migmigration/stage.go:230-254 | What a creation pass adds, for every answer to every creation, what it counts, and what is left when it is refused. |
| StagePods.PvcMounted | pkg/controller/migmigration/stage.go:306-319 | The closure decides whether a listed stage pod mounts the claim. |
| StagePods.BuildOrphans | pkg/controller/migmigration/stage.go:335-362 | The orphan loop builds stage pods for bound eligible claims that are not mounted, without duplicates. |
| StagePods.Cluster.EnsureFromOrphanedPVCs | pkg/controller/migmigration/stage.go:292-383 | The orphan phase creates exactly the missing ones of these. |
| StagePods.ContainedIsReflexive | pkg/controller/migmigration/stage.go:146-163 | Containment is reflexive. |
| StagePods.ContainedIsTransitive | pkg/controller/migmigration/stage.go:146-163 | Containment is transitive. |
| StagePods.BuildCovers | pkg/controller/migmigration/stage.go:55-91 | Deduplication loses nothing: every pod with eligible volumes is contained in a stage pod of the result. |
| StagePods.BuildIsIrredundant | pkg/controller/migmigration/stage.go:55-91 | Every stage pod comes from an input pod, mounts something, and is not contained in an earlier one. |
| StagePods.EligibleVolumesAreMounted | pkg/controller/migmigration/stage.go:55-91 | Every claim of every input pod that the plan copies, not by a snapshot, is mounted by a stage pod of the same namespace. |
| StagePods.StagePodsMountOnlyCopied | pkg/controller/migmigration/stage.go:55-91 | The converse: a stage pod is named after an input pod of its namespace and mounts only volumes of it, of claims that the plan copies, not by a snapshot. |
| StagePods.LaterPodsMountMore | pkg/controller/migmigration/stage.go:55-91 | Of two stage pods of a namespace the later mounts something that the earlier does not. |
| StagePods.CreationsEnsure | pkg/controller/migmigration/stage.go:230-254 | After a creation pass every wanted stage pod is covered or exists, unless its creation was answered with AlreadyExists. |
| StagePods.CreationsAreNeeded | pkg/controller/migmigration/stage.go:230-254 | A creation pass adds labelled pods only for stage pods that no existing one contains. |
| StagePods.CoveredInLaterListing | pkg/controller/migmigration/stage.go:230-272 | What was covered or created stays covered in every later listing, in any order. |
| StagePods.RepetitionCreatesNothing | pkg/controller/migmigration/stage.go:230-272 | Repeating the creation on the resulting cluster wants nothing except pods answered with AlreadyExists. |
| StagePods.OrphanIsMade | pkg/controller/migmigration/stage.go:292-372 | Every bound eligible claim that is not mounted gets a stage pod of the orphan list. |
| StagePods.OrphansAreUnmounted | pkg/controller/migmigration/stage.go:292-372 | The converse: the orphan list holds pods of one bound claim each that the plan copies, not by a snapshot, and that no stage pod of the namespace mounts. |
| StagePods.OrphansAreMounted | pkg/controller/migmigration/stage.go:292-372 | After the orphan phase every bound claim of the namespaces that the plan copies, not by a snapshot, is a volume of a labelled pod of its namespace. |
| PodProgress.Progress.RsyncPodExistsInHistory | pkg/controller/directvolumemigrationprogress/directvolumemigrationprogress_controller.go:202-225 | The search decides whether a pod is in the history. |
| PodProgress.Progress.Run | pkg/controller/directvolumemigrationprogress/directvolumemigrationprogress_controller.go:202-263 | One pass over the pods is the step Pass: dead pods into the history once, the newest as current, the total recomputed. |
| PodProgress.Progress.UpdateCumulativeProgressPercentage | pkg/controller/directvolumemigrationprogress/directvolumemigrationprogress_controller.go:318-328 | The total is the history without the current pod plus the current percentage, at most 100. |
| PodProgress.ScanAppends | pkg/controller/directvolumemigrationprogress/directvolumemigrationprogress_controller.go:202-245 | A pass only appends pods that were not in the history, and picks as current one that was not. |
| PodProgress.EntriesRecordPods | pkg/controller/directvolumemigrationprogress/directvolumemigrationprogress_controller.go:202-245 | Every new entry of the history is that of a dead, labelled pod of the pass, with the larger of its percentage and the one last shown of it. |
| PodProgress.ScanEnters | pkg/controller/directvolumemigrationprogress/directvolumemigrationprogress_controller.go:202-235 | A pod is in the history after a pass exactly when it was before or the pass saw it dead and could label it. |
| PodProgress.NewestIsShown | pkg/controller/directvolumemigrationprogress/directvolumemigrationprogress_controller.go:236-262 | Over distinct pods a pass shows the newest pod it takes up; the percentage is the larger of the pod and of the one shown before, even of another pod. |
| PodProgress.MergedKeeps | pkg/controller/directvolumemigrationprogress/directvolumemigrationprogress_controller.go:286-307 | Merging keeps the larger percentage, the exit code there is and the newer rate, of the same pod only. |
| PodProgress.PassAdvances | pkg/controller/directvolumemigrationprogress/directvolumemigrationprogress_controller.go:202-329 | One pass never lowers the reported total, although the current pod may change or move into the history. |
| PodProgress.ProgressIsMonotone | pkg/controller/directvolumemigrationprogress/directvolumemigrationprogress_controller.go:202-329 | Over any passes the total never decreases and stays within 100 percent, no pod enters the history twice and old entries never change. |
| PodProgress.ReportsNeverFall | pkg/controller/directvolumemigrationprogress/directvolumemigrationprogress_controller.go:202-329 | The same for a new resource, between any two points of its life. |
| PodProgress.TotalCountsEveryPod | pkg/controller/directvolumemigrationprogress/directvolumemigrationprogress_controller.go:318-328 | After any run the total is the current percentage plus the sum over the history, cut at 100; without history it is the current percentage; each entry of another pod contributes its percentage and one of the current pod nothing. |
| PodProgress.SumCountsEntry | pkg/controller/directvolumemigrationprogress/directvolumemigrationprogress_controller.go:318-328 | An entry inserted anywhere into the history raises the sum by what its percentage reads as, and by nothing if it is the current pod. |
| PodProgress.SumIgnoresOrder | pkg/controller/directvolumemigrationprogress/directvolumemigrationprogress_controller.go:318-328 | The sum is the same for every order of the history. |
| PodProgress.PastPodsCount | pkg/controller/directvolumemigrationprogress/directvolumemigrationprogress_controller.go:318-328 | The total of a run is at least the current percentage plus those of any two past pods, up to 100. |
| PodProgress.TotalIsTheSumExactly | pkg/controller/directvolumemigrationprogress/directvolumemigrationprogress_controller.go:236-329 | The total is the sum of what the pods themselves report exactly when the pod shown before reported no more than the newest one, or the sum reaches 100. |
| PodProgress.RetryCountsTwice | pkg/controller/directvolumemigrationprogress/directvolumemigrationprogress_controller.go:236-329 | A family of runs in which it is not: a pod fails at n percent, another starts, and the total is twice n. |
| LimitRanges.ScaledDownIsFloor | pkg/controller/directvolumemigration/resource.go:274-292 | For a scale of at least 2 the result r satisfies r * scale <= q < (r + 1) * scale, although Value rounds up and the code branches on it. |
| LimitRanges.ScaledByOne | pkg/controller/directvolumemigration/resource.go:274-292 | For scale 1 it is the identity exactly on whole units. |
| LimitRanges.ScaledDownElsewhere | pkg/controller/directvolumemigration/resource.go:274-292 | There is no result exactly for a scale below 1; a negative quantity is divided and cut towards zero. |
| LimitRanges.ResourceRequirements.ApplyLimitRangeItem | pkg/controller/directvolumemigration/resource.go:218-270 | The in-place updates of one item: requests clamped, limits capped, small limits deleted. |
| LimitRanges.ResourceRequirements.ApplyLimitRange | pkg/controller/directvolumemigration/resource.go:332-354 | The loop applies the items in order, pod items halved. |
| LimitRanges.AppliedToRequest | pkg/controller/directvolumemigration/resource.go:218-270 | The effect on one resource is a clamp, untouched by what happens to the other resource and to the limits. |
| LimitRanges.AppliedToLimit | pkg/controller/directvolumemigration/resource.go:218-270 | A limit left by an item lies between the request and the maximum and was there before. |
| LimitRanges.LimitExactly | pkg/controller/directvolumemigration/resource.go:218-270 | A limit is kept exactly when it and the maximum are at least the request, unchanged when it is below the maximum and else as the maximum. |
| LimitRanges.RequestsFitWhenPossible | pkg/controller/directvolumemigration/resource.go:332-354 | After any number of items the CPU and memory requests respect all bounds, halved for pods, exactly when some value does, whatever the requests were. |
| LimitRanges.LimitsLieBetween | pkg/controller/directvolumemigration/resource.go:332-354 | Every limit still present lies between the request and every maximum. |
| LimitRanges.FittingRequirementsStay | pkg/controller/directvolumemigration/resource.go:332-354 | Requirements that fit every item are left exactly as they are, limits included. |
| LimitRanges.TwoContainersFitThePod | pkg/controller/directvolumemigration/resource.go:274-354 | With consistent pod bounds only, two containers together stay within the pod maximum and miss the pod minimum by at most one milli-unit. |
| LimitRanges.PodBoundsDoubled | pkg/controller/directvolumemigration/resource.go:274-354 | A value respects the halved bounds of a pod item exactly when twice the value is at most the pod maximum and twice the value plus one milli-unit at least the pod minimum. |
| LimitRanges.TargetItem.MergeResourceLimitRangeItems | pkg/controller/directvolumemigration/resource.go:175-214 | The in-place merge of one item into another. |
| LimitRanges.GetLimitRangeForNamespace | pkg/controller/directvolumemigration/resource.go:132-170 | All items of a namespace become at most one pod item and one container item; nothing without LimitRange objects. |
| LimitRanges.MinimaMerge | pkg/controller/directvolumemigration/resource.go:175-214 | The merged minimum is the most restrictive of all, always. |
| LimitRanges.MaximaMerge | pkg/controller/directvolumemigration/resource.go:175-214 | The merged maximum is the most restrictive of all when the first item declares one; otherwise the merged item declares none. |
| LimitRanges.MergedMaxIsTightest | pkg/controller/directvolumemigration/resource.go:175-214 | The merged maximum allows what all items allow exactly when the first item declares a maximum or none does. |
| LimitRanges.MergedAllowsTheSame | pkg/controller/directvolumemigration/resource.go:132-216 | For one kind of item, halved for pods, the merged item allows exactly what all items allow. |
| LimitRanges.NamespaceRequestsFit | pkg/controller/directvolumemigration/resource.go:132-354 | End to end: under that condition for each kind, the requests respect every item of the namespace exactly when some non-negative value does. |
| LimitRanges.ContainersWin | pkg/controller/directvolumemigration/resource.go:132-354 | Where bounds contradict each other, every minimum of a container item holds all the same, and every maximum of one as soon as some value respects all container items and the first declares it. |
| VolumeSizing.Threshold | pkg/controller/miganalytic/volume_adjustment.go:410-415 | A configured threshold strictly between 0 and 100 is the one in force, and 3 is in every other case. |
| VolumeSizing.CalculateProposedVolumeSize | pkg/controller/miganalytic/volume_adjustment.go:376-407 | The reassignments compute the proposal and the reason of the specification. |
| VolumeSizing.ProposedSizeHoldsTheData | pkg/controller/miganalytic/volume_adjustment.go:376-407 | On every branch the proposal is at least the capacity times usage plus threshold, in whole units rounded down. |
| VolumeSizing.EntryBounds | pkg/controller/miganalytic/volume_adjustment.go:332-345 | A recorded proposal is at least the provisioned capacity and that bound; below the threshold it is the largest of three, and NoOp is reported exactly when it is the request. |
| VolumeSizing.EntryTells | pkg/controller/miganalytic/volume_adjustment.go:320-360 | An unreadable measurement leaves an entry with the request only; otherwise the size is recorded, a volume is sparse exactly when the second measurement is larger, and each reason is given exactly under its condition on usage, threshold, request and capacities. |
| VolumeSizing.RequestIsLost | pkg/controller/miganalytic/volume_adjustment.go:332-341 | The proposal falls below the requested capacity exactly when usage plus threshold is over 100, less was provisioned than requested, and in whole units the measured capacity times that percentage stays under a hundred times the request. |
| VolumeSizing.ProposalBelowRequest | pkg/controller/miganalytic/volume_adjustment.go:376-407 | A concrete full volume whose proposal is a tenth of the request. |
| VolumeSizing.PersistentVolumeAdjuster.FindOriginal | pkg/controller/miganalytic/volume_adjustment.go:241-251 | The search finds the first volume of the node with the name and namespace. |
| VolumeSizing.FirstDetailIs | pkg/controller/miganalytic/volume_adjustment.go:241-251 | It is the volume at the first place that matches, and none when no place does. |
| VolumeSizing.PersistentVolumeAdjuster.FindDu | pkg/controller/miganalytic/volume_adjustment.go:364-374 | The search finds the first second measurement of the claim. |
| VolumeSizing.PersistentVolumeAdjuster.Run | pkg/controller/miganalytic/volume_adjustment.go:309-362 | The run crashes exactly when some output has no namespace in the status or no second measurement, at that output; otherwise it appends one entry per measured volume to its namespace and names exactly the volumes in error. |
| VolumeSizing.CrashesExactly | pkg/controller/miganalytic/volume_adjustment.go:309-362 | Nil is dereferenced exactly at an output of a listed volume whose namespace the analytic does not cover, or whose size was read without any second measurement of its claim. |
| VolumeSizing.DuForIs | pkg/controller/miganalytic/volume_adjustment.go:364-374 | The second measurement is the one at the first place that matches, and none when no place does. |
| VolumeSizing.WarningsName | pkg/controller/miganalytic/volume_adjustment.go:309-362 | The warnings name exactly the listed volumes whose size could not be read. |
| VolumeSizing.SecondWarningsName | pkg/controller/miganalytic/volume_adjustment.go:309-362 | And those whose size was read but whose second measurement failed. |
| VolumeSizing.RunAppendsPerClaim | pkg/controller/miganalytic/volume_adjustment.go:309-362 | The last entry of a claim is that of its last measurement, whatever else is measured in between. |
| VolumeSizing.MigPlan.ProcessProposedPVCapacities | pkg/controller/migplan/migplan_controller.go:623-660 | Every plan volume takes the entries of its claim, in order; volumes to resize and volumes without an entry are reported. |
| VolumeSizing.TakenKeeps | pkg/controller/migplan/migplan_controller.go:623-660 | The proposal taken is the last entry; name, namespace and capacity stay. |
| VolumeSizing.PlanIsTold | pkg/controller/migplan/migplan_controller.go:623-660 | The volumes to resize are exactly those with an entry that gives a reason, and information is missing exactly of those without an entry. |
| VolumeSizing.MatchingAre | pkg/controller/migplan/migplan_controller.go:623-660 | The entries read for a claim are those of its name in a status of its namespace. |
| VolumeSizing.ConfirmedExactly | pkg/controller/migplan/migplan_controller.go:623-660 | A confirmed capacity stays confirmed exactly when no proposal taken is smaller than the one before it. |
| VolumeSizing.FindMatchingPV | pkg/controller/directvolumemigration/pvcs.go:245-255 | The search finds the first plan volume of the claim. |
| VolumeSizing.FirstVolumeIs | pkg/controller/directvolumemigration/pvcs.go:245-255 | It is the plan volume at the first place that matches, and none when no place does. |
| VolumeSizing.DestinationRequest | pkg/controller/directvolumemigration/pvcs.go:156-182 | The stepwise maximum is the request of the specification, the source request when resizing is off or nothing matches. |
| VolumeSizing.RequestIsLargest | pkg/controller/directvolumemigration/pvcs.go:156-182 | The request is the source request unless the plan has the volume and resizing is on, and then the largest of the three. |
| VolumeSizing.DestinationHoldsTheData | pkg/controller/directvolumemigration/pvcs.go:168-182 | End to end, from measurement through plan to claim: the destination request is at least the source request, the plan capacity, the provisioned capacity and the data with its margin, and equals the request, the capacity or the proposal. |
| VmUpdate.Machine.CompareVolumes | pkg/controller/directvolumemigration/vm.go:277-298 | The counting loop decides whether as many volumes bear the names as there are names. |
| VmUpdate.Machine.RenameVolumes | pkg/controller/directvolumemigration/vm.go:513-532 | The inner loop renames the volumes of one pair in the copy, reading the original, and records the claims. |
| VmUpdate.Machine.RenameTemplates | pkg/controller/directvolumemigration/vm.go:533-549 | The inner loop renames the templates of one pair in the copy and sets their storage class. |
| VmUpdate.Machine.UpdateVM | pkg/controller/directvolumemigration/vm.go:499-553 | The whole update: what is stored and which error ends it, for every failing call and for the nil template on which the controller crashes; nothing is written when one fails. |
| VmUpdate.Machine.StorageLiveMigrateVM | pkg/controller/directvolumemigration/vm.go:250-275 | The comparison with sources and targets around the update, with every error. |
| VmUpdate.Machine.CancelLiveMigration | pkg/controller/directvolumemigration/vm.go:463-477 | Cancelling is the update with the lists exchanged. |
| VmUpdate.ChainIsSubst | pkg/controller/directvolumemigration/vm.go:511-549 | For distinct sources and distinct targets, renaming one pair after the other, as for templates, equals renaming all at once, as for volumes, exactly when no target is a later source. |
| VmUpdate.ThereAndBack | pkg/controller/directvolumemigration/vm.go:463-553 | Renaming there and back restores a name exactly when it is not a target without being a source. |
| VmUpdate.TemplateName | pkg/controller/directvolumemigration/vm.go:533-549 | The name of a template after n pairs is the chain of n renamings. |
| VmUpdate.TemplateFollowsItsClaim | pkg/controller/directvolumemigration/vm.go:533-549 | With sources and targets as there, the template of a source ends with the target name and the storage class of the target claim, or of the claim named "" when no volume used the source; nothing else of it changes. |
| VmUpdate.LiveMigrationStoresMigration | pkg/controller/directvolumemigration/vm.go:499-553 | Of every live migration that finds the machine with its sources, and of every cancellation: without an error the stored strategy is Migration; whenever the stored machine differs from the one before it is Migration; the name of the machine and the number of its volumes and templates stay. |
| VmUpdate.VolumesFollow | pkg/controller/directvolumemigration/vm.go:499-553 | After an update without an error every claim and DataVolume of a source is that of its target, and no other name has changed. |
| VmUpdate.UpdateErrors | pkg/controller/directvolumemigration/vm.go:499-553 | An error leaves the machine as it was; the crash is exactly that of a named machine without a template; a failed adoption stops the update; and without a failing call there is no client error. |
| VmUpdate.LiveMigrationErrors | pkg/controller/directvolumemigration/vm.go:250-275 | Volumes are reported as not matching exactly when the machine is found and agrees with neither list; a machine whose targets match already is no error; and it is left alone when it cannot be read or its sources do not match. |
| VmUpdate.ComparesNames | pkg/controller/directvolumemigration/vm.go:277-298 | For distinct names and volumes the counts agree exactly when every name is in use. |
| VmUpdate.CompareMiscounts | pkg/controller/directvolumemigration/vm.go:277-298 | A machine that mounts one claim twice: it compares equal to two names of which it uses one, and unequal to that name alone. |
| VmUpdate.CancelRestoresVolumes | pkg/controller/directvolumemigration/vm.go:463-553 | Cancelling brings every volume name back exactly when no volume outside the sources used a target name; sources and targets may overlap. |
| VmUpdate.CancellingUndoes | pkg/controller/directvolumemigration/vm.go:463-477 | Cancelling, without an error, a live migration that succeeded gives every volume the claims it had exactly when no volume outside the sources used a target. |
| VmUpdate.CancelRestoresTemplateNames | pkg/controller/directvolumemigration/vm.go:463-553 | The same for template names, for lists without common names. |
| VmUpdate.SecondPassChangesNothing | pkg/controller/directvolumemigration/vm.go:250-298 | Once a pass has found the machine and met no client error, no later pass changes it, whatever the API server answers. |
| VmUpdate.SecondPassReports | pkg/controller/directvolumemigration/vm.go:250-298 | After a successful rename a later pass reports unmatched volumes exactly when a volume already bore a target name. |
| References.RefMap.Add | pkg/reference/map.go:35-50 | The search and append add the owner once. |
| References.RefMap.Delete | pkg/reference/map.go:53-70 | The filtering loop removes the owner, and leaves the map alone when it is not there. |
| References.RefMap.Find | pkg/reference/map.go:73-88 | The loop returns the owners of the kind, in order. |
| References.GetRequests | pkg/reference/handler.go:9-31 | The loop returns the requests of the specification. |
| References.MigrationPredicate.MapRefs | pkg/controller/migmigration/predicate.go:61-79 | Adds the reference of a migration when it is set. |
| References.MigrationPredicate.UnmapRefs | pkg/controller/migmigration/predicate.go:81-99 | Deletes the reference of a migration when it is set. |
| References.MigrationPredicate.Create | pkg/controller/migmigration/predicate.go:17-26 | A created migration of the namespace is mapped. |
| References.MigrationPredicate.Update | pkg/controller/migmigration/predicate.go:28-48 | A changed migration of the namespace is unmapped as it was and mapped as it is. |
| References.MigrationPredicate.Delete | pkg/controller/migmigration/predicate.go:50-59 | A deleted migration of the namespace is unmapped. |
| References.ClusterPredicate.MapRefs | pkg/controller/migcluster/predicate.go:61-79 | Adds the reference of a cluster when it is set. |
| References.ClusterPredicate.UnmapRefs | pkg/controller/migcluster/predicate.go:81-99 | Deletes the reference of a cluster when it is set. |
| References.ClusterPredicate.Create | pkg/controller/migcluster/predicate.go:18-27 | A created cluster of the namespace is mapped. |
| References.ClusterPredicate.Update | pkg/controller/migcluster/predicate.go:29-48 | A changed cluster of the namespace is unmapped as it was and mapped as it is. |
| References.ClusterPredicate.Delete | pkg/controller/migcluster/predicate.go:50-59 | A deleted cluster of the namespace is unmapped. |
| References.AddedLists | pkg/reference/map.go:35-50 | As a relation, adding adds exactly one pair. |
| References.DeletedLists | pkg/reference/map.go:53-70 | As a relation, deleting removes exactly one pair. |
| References.StepKeepsInv | pkg/controller/migmigration/predicate.go:17-99 | Every step under the lock, of either predicate or of any other writer, keeps the index equal to the live references. |
| References.IndexIsExact | pkg/controller/migcluster/predicate.go:18-99 | Over every well-formed run of events, an owner is listed under a target exactly when a live watched object references it and is not between the halves of an update, without duplicates. |
| References.RequestsAreExact | pkg/reference/handler.go:9-31 | Every owner of the asked kind and namespace that references the target is requested exactly once, and nobody else. |
| References.TargetExactly | pkg/controller/migmigration/predicate.go:61-79 | A migration references exactly the plan its specification names, and a cluster the secret, when both fields are set. |
| References.UnchangedExactly | pkg/controller/migmigration/predicate.go:28-48 | An update is no change exactly when the specification stays, a migration does not lose its final condition and a cluster keeps its deletion time; then the reference stays. |
| References.MigrationsOfPlan | pkg/controller/migmigration/predicate.go:17-99 | After any events, with no update of a migration under way, the migrations requested for a plan are exactly the live, watched ones whose specification names it. |
| References.ClustersOfSecret | pkg/controller/migcluster/predicate.go:18-99 | The same for clusters and their secrets. |
| ImageStreams.ImageStatus.CreateDirectImageStreamMigrations | pkg/controller/directimagemigration/imagestream.go:80-141 | The loop gives each item its child, for every answer, and stops at the first failure. |
| ImageStreams.CreationMakesPollable | pkg/controller/directimagemigration/imagestream.go:80-141 | After a successful creation pass the poll can read an item exactly when its stream had no child that the item did not record. |
| ImageStreams.CreationExactly | pkg/controller/directimagemigration/imagestream.go:80-141 | The call succeeds exactly when no item fails; an item before the first failure gets exactly the child created for it, the failing one is at most marked, those after it are untouched, and nothing else of an item changes. |
| ImageStreams.ImageStatus.CheckDISMCompletion | pkg/controller/directimagemigration/imagestream.go:166-208 | One poll sorts the new items into the buckets, and returns completion and reasons. |
| ImageStreams.PollsConserve | pkg/controller/directimagemigration/imagestream.go:166-208 | Over any polls no item is lost, duplicated or turned into another: the multiset over the four buckets is constant. |
| ImageStreams.NewItemsKeepOrder | pkg/controller/directimagemigration/imagestream.go:166-208 | The remaining new items are those that waited in every poll, unchanged and in order; completed exactly when every item has ended in some poll. |
| ImageStreams.FirstVerdictDecides | pkg/controller/directimagemigration/imagestream.go:166-208 | A bucket holds what it held and exactly the items whose first verdict sent them there, with the errors of that verdict. |
| ImageStreams.SuccessfulMeans | pkg/controller/directimagemigration/imagestream.go:166-208 | Over any polls, the successful bucket holds exactly the items, unchanged, whose child ran until a poll that found it readable, completed and without errors. |
| ImageStreams.FailedMeans | pkg/controller/directimagemigration/imagestream.go:166-208 | The failed bucket holds exactly the items whose child ran until a poll that could not read it or found it completed with errors, with these errors added. |
| ImageStreams.DeletedMeans | pkg/controller/directimagemigration/imagestream.go:166-208 | The deleted bucket holds exactly the items marked as not found, from the first poll on. |
| ImageStreams.ReasonsExactlyWhenFailed | pkg/controller/directimagemigration/imagestream.go:166-208 | Every failed item carries an error, so the reasons are empty exactly when nothing failed. |
| ImageStreams.ReasonsInOrder | pkg/controller/directimagemigration/imagestream.go:166-208 | The reasons are the errors of the failed items, each after those of the items before it. |
| ImageStreams.RemainingArePollable | pkg/controller/directimagemigration/imagestream.go:166-208 | Items that remain can be polled again. |
| Annotations.Task.LabelNamespaces | pkg/controller/migmigration/annotation.go:126-159 | The bounded loop over the namespaces, for every failing call. |
| Annotations.Task.AnnotatePods | pkg/controller/migmigration/annotation.go:167-220 | The bounded loop over the stage pods, with the service accounts of the pods it annotated. |
| Annotations.Task.AnnotatePVs | pkg/controller/migmigration/annotation.go:229-320 | The bounded loop over the stage volumes and their claims, counted only when the claim is written. |
| Annotations.Task.LabelServiceAccounts | pkg/controller/migmigration/annotation.go:323-362 | The bounded loops over the accounts of the pods of this pass. |
| Annotations.Task.LabelImageStreams | pkg/controller/migmigration/annotation.go:365-399 | The bounded loops over the image streams. |
| Annotations.Task.AnnotateStageResources | pkg/controller/migmigration/annotation.go:36-88 | The stages in order, ended by an error or by the limit; true when the last one is through. |
| Annotations.PassAdvances | pkg/controller/migmigration/annotation.go:36-88 | One pass, whatever fails: marks are never removed or changed, the counted updates are exactly the objects newly marked other than volumes, and a pass that returns false without an error made exactly 51, any other at most 50. |
| Annotations.EarlyEndsAreBounded | pkg/controller/migmigration/annotation.go:36-88 | Over any passes, those that return false without an error number at most a 51st of the objects still to be marked. |
| Annotations.SomePassFinishes | pkg/controller/migmigration/annotation.go:36-88 | Of enough passes without an error one returns true. |
| Annotations.FailuresComeFromCalls | pkg/controller/migmigration/annotation.go:36-88 | A pass in which no call fails does not fail. |
| Annotations.TrueMeansMarked | pkg/controller/migmigration/annotation.go:36-88 | When a pass returns true, all source namespaces, stage pods and stage volumes are marked, and all image streams when images are migrated indirectly. |
| Annotations.ClaimsMarkedExactly | pkg/controller/migmigration/annotation.go:229-320 | When a pass returns true, a claim is marked exactly when it was before or its volume was not. |
| Annotations.AccountsLabelledExactly | pkg/controller/migmigration/annotation.go:167-360 | When a pass returns true, a service account is labelled exactly when it was before, or it exists in a source namespace and belongs to a stage pod that was still to be annotated. |
| Annotations.MarkedAsSelected | pkg/controller/migmigration/annotation.go:229-320 | After any passes every marked pod carries its Restic volumes; every marked volume its action and storage class, and the copy method exactly when it is copied; every marked claim its action, and the storage class, the copy method and the access mode where one is selected exactly when it is copied. |
| Annotations.MissedAccountStaysMissed | pkg/controller/migmigration/annotation.go:167-360 | Once all pods of a service account are annotated, no later pass labels the account. |
| Annotations.MissedClaimStaysMissed | pkg/controller/migmigration/annotation.go:229-320 | Once a volume is marked and its claim is not, no later pass marks the claim. |
| Annotations.FiftyOnePodsLoseTheirAccounts | pkg/controller/migmigration/annotation.go:36-88 | With 51 stage pods to annotate the first pass ends after them, and their service accounts are never labelled by any later pass. |

## Left out

- Cluster clients, discovery, logging, tracing, metrics, endpoints, routes and tunnels: input and output, reduced to calls that succeed or fail as the environment chooses.
- The transfer library that holds the two transfer lists is not part of this model; its construction is one possible failure of an attempt.
- Jobs, CronJobs and virtual machines in quiescing, whose errors end a pass as well: their "already quiesced" tests compare pointers or talk to the VM API, and a repeated pass does not restore them.
- The swap of claim references in storage conversions, which restores some workloads by itself between a migration and its rollback: workloads change through quiesce and unquiesce passes only.
- Annotation updates that take effect although the call returns an error: a failed update leaves no mark.
- Annotations of workloads other than the three of quiescing are kept as they are; labels, owner references beyond "owned", and template fields are not represented.
- Strconv.MaxProgressValue: does not model the float64 in which the source takes this maximum, which is exact up to 2^53 only.
- Itineraries.HasDirectVolumeMigrationCompleted: does not model how the progress lines are worded, nor the order they are sorted into.
- Integer overflow of int64 sums and products, and the float64 minimum in the cumulative percentage: numbers are unbounded where the source does not truncate on purpose.
- PodProgress.Progress.Run: does not model the single-pod path, elapsed times, log parsing and the progress text.
- Application pods that are labelled in place instead of getting stage pods, stage pod images, resource mappings, names after truncation, and waiting for stage pods to start or end. A listing that fails ends the orphan phase before anything is created and is not modelled.
- Security contexts, Rsync options, user-configured resources, and reading LimitRanges from the cluster.
- LimitRanges.GetLimitRangeForNamespace: merges into fresh objects; that the first item of each kind is itself overwritten in the listing is not represented.
- Quantities finer than a milli-unit and their textual formats.
- VolumeSizing.MigPlan.ProcessProposedPVCapacities: does not model the staging list that the volumes are also added to, and the plan conditions made from its results.
- Parsing the output of df and du, and the warnings beyond the names they list.
- VmUpdate.Machine.UpdateVM: does not model the adopting DataVolumes that are created on the way, which cancelling leaves in place; storage classes of templates are modelled but cancelling does not promise to restore them.
- Which volumes belong to which virtual machine, ongoing offline migrations and the progress of live migrations: they are read from listings.
- Events for objects of unexpected types, and the predicates of other owner kinds, which appear only as writers with owners of their own.
- Computing the Restic volumes of a pod, removing the annotations after the migration, and the progress text of annotation passes.
- The work of the single phases of the itineraries: its result is an input of the engine.
- The GVK comparison, validation and postponing of migrations: they depend on listing code outside this model or give easier claims.
