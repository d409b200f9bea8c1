# daemonjob: a verified model

daemonjob is a Kubernetes operator with three kinds of objects. A **DaemonJob** starts one broadcast
Job, whose pod creates one worker Job for every matching node; the DaemonJob then reports a verdict
over the workers. A **DaemonCronJob** does the same on a schedule. A **DaemonCronJobSet** keeps one
CronJob for every matching node. This project models the protocols these controllers run over the
shared object store, and proves what they promise, for all inputs, all failures of API calls and, where
steps interleave, all runs.

Every file is one module.

| file | models |
|---|---|
| `Kube.dfy` | labels, label selectors, list calls |
| `Quorum.dfy` | the quorum monitor of `internal/util/cond.go`, as interleaved steps of any number of threads, and as a class whose methods take those steps |
| `Conditions.dfy` | status conditions and the outcome of a Job (`internal/controller/status.go`) |
| `DaemonJobStatus.dfy` | the verdict of a DaemonJob, over single updates and over runs of updates |
| `Scheduling.dfy`, `Objects.dfy` | the meaning of node terms, taints and tolerations; maps and pointers on the heap |
| `WorkerJobs.dfy`, `Broadcast.dfy` | building worker Jobs; dry-run all, then create all |
| `BroadcastJobs.dfy`, `CronJobSets.dfy`, `Preview.dfy` | the objects the three kinds generate, with their aliased label maps; the offline preview |
| `Selectors.dfy` | the list selectors against the labels the builders write |
| `SetStore.dfy`, `SetReconciler.dfy` | one reconcile of a DaemonCronJobSet, with faults |
| `SetRuns.dfy`, `SetForgetting.dfy` | whole runs of the DaemonCronJobSet controller between node changes, edits, deletions and late watch events; which steps can make it forget a set |
| `SetConvergence.dfy` | how long the controller can go on when nodes and sets stay as they are, and what it leaves |
| `SetRefinement.dfy` | the single reconcile, whatever fails in it, as one of those runs |
| `Finalizer.dfy` | the finalizer protocol of DaemonJob and DaemonCronJob against users, failures and crashes |
| `WorkerCleanup.dfy`, `EndToEnd.dfy` | deleting workers of missing nodes; from the broadcast to the verdict |
| `BroadcastRefinement.dfy` | Run and the cleanup, whatever fails in them, as runs of that machine |

The state machines (`Quorum.Next`, `SetRuns.Next`, `Finalizer.Next`, `EndToEnd.Next`) take one API call
or one memory access at a time. Classes do the same work in place:
`QuorumExecutor.Run` and `Finalizer.Reconciler.Reconcile` are proved to be runs of their machine, and
`SetRefinement.ReconcileRefines` shows the same of the reconciler in `SetReconciler`, for all faults.
`BroadcastRefinement.RunRefines` and `CleanupRefines` do so for `EndToEnd.Next` and the methods of
`Broadcast` and `WorkerCleanup`; its status step is the specification of `DaemonJobStatus`.

Library behaviour is modelled as follows. Get and List read the current store. CreateOrUpdate looks up
by key; if the object exists the stored one wins, and setting the controller reference fails when
another controller owns it. An update is refused unless the object is still the version that was read,
and an object being deleted disappears with its last finalizer. Setting a condition upserts by type. The
work queue runs one reconcile per key at a time and keeps a key that is added meanwhile. A write that
changes a stored object is an event for whoever watches its kind, also when it changes the status only;
one that changes nothing is not. A dry-run create
gives the verdict of a create and stores nothing. Node selector terms are ORed, and an empty term matches
nothing. Kubernetes generates the labels `controller-uid`, `job-name` and their `batch.kubernetes.io`
forms, and a Job's final condition stays.

## Findings

- Complete can be reported although a node that never left has no worker: a cleanup that listed the
  nodes before the node joined, and the Jobs after Run created the worker, deletes it
  (`EndToEnd.LateNodeIsLost`). It cannot happen if and only if no cleanup in flight at Run's node list is
  out of date about the node (`EndToEnd.CompleteIsTrueExactly`).
- `CronJob()` copies into the template's label map before its nil check
  (`internal/controller/daemoncronjob.go:137-144`), so a DaemonCronJob whose template has no labels
  panics, in the controller and in the preview (`BroadcastJobs.NewCronJob`, `Preview.GenerateDaemonCronJob`).
- A DaemonCronJobSet can be forgotten, wrong and with nothing that happened left to look at it, in three
  ways: a delete phase fails, leaves a CronJob on a node that does not match, and the status already says
  the counts that follow; a failed list in the event handler loses the event of a node the set has to
  catch up on; a terminating node is relabelled to match a set without a CronJob on it. These are all the
  ways, and exactly so (`SetForgetting.TameExactly`, `SetForgetting.FailedDeleteExactly`). One failed
  delete phase after a rest is always made good, because its counts are news and their status write queues
  the set (`SetForgetting.FailedAtRest`); a second in a row is not (`SetForgetting.SecondFailureForgets`).
  For the other two ways the conditions at rest are `SetForgetting.LostAtRest` and `RelabelledAtRest`. A
  forgotten set is looked at again only when something else prompts it: a resync of the watch
  (`SetRefinement.ResyncCures`), a restart, or an update of one of its CronJobs, which each firing makes.
- Names collide exactly when two pairs of names join to the same text: CronJobs of different sets, and
  then the later set's reconciles fail (`CronJobSets.CronJobNamesCollide`, `SetReconciler.TakenByWhom`);
  ClusterRoleBindings of objects in different namespaces, and then the later object's reconciles succeed
  and leave it without a binding (`Finalizer.BindingNamesCollide`, `Finalizer.UnboundExactly`).
- A worker whose template already requires node terms may also run on the nodes these admit
  (`WorkerJobs.WorkerPlacement`).
- The preview of a DaemonCronJob names the broadcast Job after the CronJob, while at run time each
  trigger gives the Job a name of its own. For one object, previewed and created Jobs are equal exactly
  when that name, the namespace and the uid agree (`Preview.SameJobsExactly`).
- Progressing, once true, is never reset (`DaemonJobStatus.ProgressingForever`); the state is still right
  because verdicts go first.

## Model

| member | source | states |
|---|---|---|
| Kube.Enumerate | internal/controller/api.go:42-48 | a list call names every object once, in some order |
| Kube.JoinedEqual | internal/controller/daemonjob.go:93 | two pairs joined by a dash give the same text exactly when they are equal or one first part goes on, after a dash, where the other ends and the second parts make up for it |
| Quorum.QuorumSafety | internal/util/cond.go:37-60 | from a new executor, in every interleaving: before each execution of f at least maxAck acks have come since the previous one, AckAndWait returns only when f ran after its own ack, and executions times maxAck never exceed the acks |
| Quorum.QuorumBound | internal/util/cond.go:49-60 | any history in which each execution had its quorum has at least maxAck acks for each execution, plus those still waiting |
| Quorum.NoLostWakeup | internal/util/cond.go:44-46 | whenever the mutex is free, every parked acker sees ack > 0 and every parked executor ack < maxAck |
| Quorum.InvAlongRun | internal/util/cond.go:38-60 | mutual exclusion, the count, what each acker is owed and why each parked thread is parked hold along every run |
| Quorum.QuietStepDescends | internal/util/cond.go:37-60 | from a reset, with no new AckAndWait, every thread step shrinks a measure, the broadcast paying for the threads it wakes |
| Quorum.QuietNotStuck | internal/util/cond.go:37-60 | as long as a caller of AckAndWait is outstanding some thread can move |
| Quorum.QuietActionSpends | internal/util/cond.go:50-60 | from a reset, a new call of WaitAndExecute uses up one of the threads that can still make one, and no step makes another such thread |
| Quorum.FewNewExecutors | internal/util/cond.go:50-60 | so at most as many executors arrive as there are such threads, whatever the schedule |
| Quorum.AckersReturn | internal/util/cond.go:37-60 | hence every schedule without new AckAndWait calls is over after a number of steps known beforehand from the state alone, and where it can go no further every acker has returned |
| Quorum.QuorumExecutor.constructor | internal/util/cond.go:21-29 | a new executor is an initial state of the machine |
| Quorum.QuorumExecutor.Call | internal/util/cond.go:38-39 | entering AckAndWait or WaitAndExecute is a step of the machine |
| Quorum.QuorumExecutor.Broadcast | internal/util/cond.go:43-59 | nobody is left parked, each thread that was parked waits for the mutex in the method it was in, and nobody else has moved |
| Quorum.QuorumExecutor.Run | internal/util/cond.go:38-60 | each statement, done on the fields in place, is a step of the machine |
| Conditions.UpsertEffect | internal/controller/status.go:107-111 | setting a condition keeps types unique and changes the truth of that type only |
| Conditions.UpsertPlaces | internal/controller/status.go:107-111 | the first condition of the type is replaced where it stands; only a new type is added, at the end |
| Conditions.UpsertHolds | internal/controller/status.go:107-111 | what was set is there with its reason and message as the only condition of its type, and the conditions of other types are the same |
| Conditions.PairEffect | internal/controller/status.go:86-105 | after SetPair exactly one of the two verdicts is true and no other type changes |
| Conditions.PairSays | internal/controller/status.go:86-105 | the verdict that is true carries the reason and the message, the other the reason and no message |
| Conditions.PairTwice | internal/controller/status.go:86-111 | writing the same verdict once more leaves the conditions as they are |
| Conditions.FirstVerdictMeaning | internal/controller/status.go:54-71 | State finds a verdict exactly when one is true, and the one it finds is true |
| Conditions.FirstVerdictIsFirst | internal/controller/status.go:54-71 | when both are true it is the one that comes first in the list |
| Conditions.StateIgnoresOrder | internal/controller/status.go:54-71 | when not both verdicts are true, State is the same for every order of the conditions |
| Conditions.Status.State | internal/controller/status.go:54-71 | the loop with its early return computes the state |
| Conditions.Status.Set | internal/controller/status.go:107-111 | the conditions are upserted in the order given |
| Conditions.Status.SetProgressing | internal/controller/status.go:73-80 | the whole new list after reporting progress |
| Conditions.Status.SetPair | internal/controller/status.go:86-105 | the whole new list after writing a verdict |
| Conditions.Status.SetNotFound | internal/controller/status.go:82-84 | the whole new list after reporting a missing resource |
| Conditions.CheckJobStatus | internal/controller/status.go:135-155 | over the list itself: Complete exactly when some condition is true and of type Complete and no earlier one is true and of either type, likewise Failed, progressing exactly when none is; reason and message are those of that condition |
| Conditions.JobStatusMeaning | internal/controller/status.go:135-155 | the same of the function the later proofs use |
| DaemonJobStatus.DaemonJob.UpdateStatus | internal/controller/daemonjob_controller.go:210-325 | conditions and state become those the specification decides on, or stay when a read or the write fails, and success is reported exactly when both go through |
| DaemonJobStatus.DaemonJob.CheckBroadcast | internal/controller/daemonjob_controller.go:258-322 | the part after the broadcast Job was found, error exits included |
| DaemonJobStatus.DaemonJob.CheckWorkers | internal/controller/daemonjob_controller.go:291-297 | name and outcome of each listed worker, in order |
| DaemonJobStatus.DaemonJob.JudgeWorkers | internal/controller/daemonjob_controller.go:298-319 | the verdict over the workers, failures before progress, with the messages that name them |
| DaemonJobStatus.DaemonJob.CheckPods | internal/controller/daemonjob_controller.go:267-278 | the message of a failed broadcast, with a line for each pod that said something; pods that cannot be listed are passed over |
| DaemonJobStatus.DaemonJob.Write | internal/controller/daemonjob_controller.go:219-229 | an accepted write stores the conditions together with the state they mean; a refused one stores nothing |
| DaemonJobStatus.ResourcesEffect | internal/controller/daemonjob_controller.go:232-246 | a missing ServiceAccount or ClusterRoleBinding leaves Degraded true and Complete not; with both present the checks change nothing |
| DaemonJobStatus.DecideMeaning | internal/controller/daemonjob_controller.go:232-324 | for every observation: Complete becomes true exactly when the broadcast Job and every listed worker are Complete, or was true and only progress was seen; Degraded exactly in the other cases; types stay unique and never are both true |
| DaemonJobStatus.MissingJobSays | internal/controller/daemonjob_controller.go:247-254 | a missing Job is named before all other missing resources |
| DaemonJobStatus.RunningSays | internal/controller/daemonjob_controller.go:232-316 | while there is only progress it is reported so, and the verdict still names a missing ClusterRoleBinding, or else a missing ServiceAccount |
| DaemonJobStatus.JobsSay | internal/controller/daemonjob_controller.go:266-319 | a failed broadcast, failed workers and completion are reported with their reasons and messages whatever resources are missing |
| DaemonJobStatus.DecideFails | internal/controller/daemonjob_controller.go:232-286 | the update fails before its write exactly when a read it needs fails; a missing resource is no failure |
| DaemonJobStatus.FailureMessageGrows | internal/controller/daemonjob_controller.go:299-307 | each failed worker adds one line of name, reason and message, in the order listed, and any other worker nothing |
| DaemonJobStatus.ProgressMessageGrows | internal/controller/daemonjob_controller.go:308-316 | each progressing worker adds its name after a comma, any other nothing |
| DaemonJobStatus.BroadcastFailureGrows | internal/controller/daemonjob_controller.go:267-278 | a failed broadcast says its reason and message; each pod with a log adds a line, any other nothing |
| DaemonJobStatus.ConsistentAlongRun | internal/controller/daemonjob_controller.go:210-325 | unique types and never both verdicts, along every run of updates |
| DaemonJobStatus.StateNeverUnknown | internal/controller/daemonjob_controller.go:219-229 | after a successful update the state is known and says which verdict is true, Progressing meaning none yet |
| DaemonJobStatus.StateSays | internal/controller/status.go:54-71 | Complete or Degraded go before Progressing, and Unknown is left for none of the three |
| DaemonJobStatus.CompleteHasProof | internal/controller/daemonjob_controller.go:280-319 | when Complete went from not true to true, some written update saw the broadcast Job and all listed workers Complete |
| DaemonJobStatus.VerdictForever | internal/controller/status.go:86-105 | once a verdict was written exactly one is true after every later update |
| DaemonJobStatus.ProgressingOnlyBeforeVerdict | internal/controller/daemonjob_controller.go:264-316 | a state of Progressing means that no verdict was ever written before |
| DaemonJobStatus.ProgressingForever | internal/controller/status.go:73-80 | once Progressing is true it is true after every later update |
| Scheduling.AppendedTargetAdmits | internal/broadcast/broadcast.go:251-262 | appending the target's term admits exactly the target in addition |
| Scheduling.JoinedTolerate | internal/broadcast/broadcast.go:264-299 | joined lists tolerate what either tolerates, in whichever order |
| Scheduling.DefaultsTolerate | internal/broadcast/broadcast.go:266-297 | exactly which taints a pod tolerates by default |
| Objects.Template.DeepCopy | internal/broadcast/broadcast.go:219 | a deep copy is equal and shares no map and no affinity with the original |
| WorkerJobs.BuildWorkerJob | internal/broadcast/broadcast.go:179-302 | on the heap: the Job is the one specified, part by part in the rows below, and all of it is newly allocated, so the template is untouched |
| WorkerJobs.TargetNode | internal/broadcast/broadcast.go:240-262 | whatever part of the affinity path is nil is created, everything present is kept, one term is added at the end |
| WorkerJobs.DeleteGenerated | internal/broadcast/broadcast.go:213-216 | exactly the four generated keys are removed |
| WorkerJobs.BuildLabels | internal/broadcast/broadcast.go:200-216 | a new label map with node, role and owner over the template's labels, without the generated keys |
| WorkerJobs.PodMetadata | internal/broadcast/broadcast.go:222-236 | new pod maps: the Job's entries over the pod template's |
| WorkerJobs.PodScheduling | internal/broadcast/broadcast.go:238-299 | affinity and tolerations worked out on a copy, with the template's own affinity unchanged |
| WorkerJobs.BuildAll | internal/broadcast/broadcast.go:151-155 | after building for all nodes each Job still is what its own node alone gives, and the template is unchanged |
| WorkerJobs.WorkerNameInjective | internal/broadcast/broadcast.go:180 | worker names tell nodes apart |
| WorkerJobs.WorkerPlacement | internal/broadcast/broadcast.go:240-262 | the worker may run on the nodes the template requires and on its target; only on its target when the template requires none |
| WorkerJobs.PodLabelsFollowJob | internal/broadcast/broadcast.go:222-230 | pod labels contain the Job's labels, neither has a generated key, and other pod template labels survive |
| WorkerJobs.WorkerTolerates | internal/broadcast/broadcast.go:264-299 | a worker tolerates a taint exactly when its template does, or it is not-ready or unreachable for NoExecute, or one of disk, memory and PID pressure and unschedulable for NoSchedule |
| WorkerJobs.WorkerLabelsByKey | internal/broadcast/broadcast.go:200-216 | label by label: node, role and owner name win over the template, the four generated ones are dropped, all others are the template's |
| WorkerJobs.PodMetadataByKey | internal/broadcast/broadcast.go:222-236 | label by label and annotation by annotation: the Job's where it has one, else the pod template's, none that Kubernetes generates |
| WorkerJobs.TemplateCarriesOver | internal/broadcast/broadcast.go:218-299 | whatever the template has of affinity, preferences included, is kept with the target's term behind its own; tolerations and copied fields are kept, only the selector is dropped |
| BroadcastJobs.NewDaemonJobJob | internal/controller/daemonjob.go:119-225 | names, labels and environment of the broadcast Job, with the Job and its pod template sharing one new label map |
| BroadcastJobs.NewDaemonCronJobJob | internal/controller/daemoncronjob.go:108-127 | the same for a DaemonCronJob; fixing the shared map twice does no harm |
| BroadcastJobs.DaemonCronJob.AsDaemonJob | internal/controller/daemoncronjob.go:49-65 | an equal worker template on a copy that shares nothing |
| BroadcastJobs.NewCronJob | internal/controller/daemoncronjob.go:129-155 | panics exactly when the template has no label map; otherwise CronJob labels, job template labels and the input map are one map with the specified contents, and nothing else of the input changes |
| BroadcastJobs.CommonLabelsAbsorbed | internal/controller/daemoncronjob.go:137-146 | copying the common labels and fixing them again changes nothing |
| BroadcastJobs.CronLabelsFixpoint | internal/controller/daemoncronjob.go:129-155 | a second CronJob() call writes the same labels |
| BroadcastJobs.SharedCronLabelsFixpoint | internal/controller/daemoncronjob.go:129-155 | also when the CronJob template and the worker template share their map |
| BroadcastJobs.FixedTwice | internal/controller/daemoncronjob.go:71-75 | fixing labels is idempotent |
| BroadcastJobs.FixCommonLabels | internal/controller/daemoncronjob.go:71-75 | in place: the DaemonJob's name goes, the DaemonCronJob's takes over |
| BroadcastJobs.WithoutDaemonJobName | internal/controller/daemoncronjob.go:114-117 | for every environment, the filter that drops the DaemonJob's name |
| BroadcastJobs.NamelessJoins | internal/controller/daemoncronjob.go:114-117 | the filter goes through joins, so all else stays in its order |
| BroadcastJobs.NamelessKeeps | internal/controller/daemoncronjob.go:114-117 | it leaves an environment without the name as it is |
| BroadcastJobs.JobLabelsByKey | internal/controller/daemonjob.go:77-84 | label by label: the common ones win over the template, the owner's name is under the key of its own kind, and a DaemonCronJob's has no DaemonJob name |
| BroadcastJobs.CronLabelsByKey | internal/controller/daemoncronjob.go:129-155 | label by label: the broadcast Job's, and the CronJob template's where these say nothing |
| BroadcastJobs.PlainLabels | internal/controller/daemonjob.go:77-117 | the labels of a ServiceAccount, exactly; those of a ClusterRoleBinding add the namespace |
| BroadcastJobs.BroadcastPodFindsOwner | internal/broadcast/broadcast.go:50-70 | whatever labels the user's template has, the broadcast pod loads a configuration that names exactly the object it was generated from |
| BroadcastJobs.LoadingFails | internal/broadcast/broadcast.go:50-73 | a broadcast pod loads nothing exactly when it has no namespace or its labels do not name its Job or the object it works for |
| Broadcast.CreateTakesItsKeyOnly | internal/broadcast/broadcast.go:157-172 | a create changes the verdict on its own key and on no other Job, which is why a dry-run foretells a later create |
| Broadcast.WorkerTemplate | internal/broadcast/broadcast.go:122-132 | Run's own translation of a DaemonCronJob takes metadata and spec of the Job template, not of the CronJob template around it, and shares its maps |
| Broadcast.LookupFollowsLabels | internal/broadcast/broadcast.go:107-133 | the object that is read is the one the workers are labelled for, in the configured namespace |
| Broadcast.ApiServer.Run | internal/broadcast/broadcast.go:101-176 | fails without a trace when the Get or the list fails or the object is not stored; otherwise the store and the result are those of the two phases over the matching nodes, with the template of the stored object of either kind |
| Broadcast.ApiServer.Apply | internal/broadcast/broadcast.go:146-176 | the two phases over the listed nodes; no node is a success that changes nothing |
| Broadcast.ApiServer.DryRunAll | internal/broadcast/broadcast.go:159-164 | passes exactly when every dry-run does, and stores nothing |
| Broadcast.ApiServer.CreateAll | internal/broadcast/broadcast.go:168-172 | stores the Jobs before the first failing create, and succeeds exactly when none fails |
| Broadcast.RunAddsPrefix | internal/broadcast/broadcast.go:151-176 | the store is unchanged when a dry-run fails; otherwise it gains a prefix of the Jobs, cut short by an outside fault only |
| Broadcast.RunIsAtomic | internal/broadcast/broadcast.go:151-176 | without outside faults: success exactly when every Job is admitted and no key is taken, then exactly one Job per node is added and nothing else changes; otherwise nothing changes |
| Broadcast.RunUnderFaults | internal/broadcast/broadcast.go:151-176 | under any faults: nothing is stored when a dry-run fails, otherwise exactly the Jobs before the first create that fails |
| Broadcast.CreatesFollowDryRuns | internal/broadcast/broadcast.go:157-172 | after passing dry-runs no create fails but by an outside fault |
| Broadcast.WorkerKeysDistinct | internal/broadcast/broadcast.go:180-187 | different nodes, different keys |
| Broadcast.RepeatedRunAddsNothing | internal/broadcast/broadcast.go:157-164 | a further Run of the same name that meets a served node adds nothing, whatever else has changed |
| CronJobSets.CronJobSet.NewCronJobForNode | internal/controller/daemoncronjobset.go:112-176 | on the heap: the CronJob is the one specified, part by part in the rows below, and the set is not changed |
| CronJobSets.FillTemplate | internal/controller/daemoncronjobset.go:132-174 | on the copied template: both label maps, nil or not, end up with the common labels over them, the affinity is replaced, tolerations are appended |
| CronJobSets.CronJobNameInjective | internal/controller/daemoncronjobset.go:49-51 | within a set names tell nodes apart |
| CronJobSets.CronJobNamesCollide | internal/controller/daemoncronjobset.go:49-51 | across sets, names are equal exactly when set and node names join to the same text |
| CronJobSets.CronJobPlacement | internal/controller/daemoncronjobset.go:150-167 | pods may run on the target only, whatever the template's affinity |
| CronJobSets.SameTaintsTolerated | internal/controller/daemoncronjobset.go:171-174 | from equal templates this builder and the worker builder tolerate the same taints |
| CronJobSets.CronJobTolerates | internal/controller/daemoncronjobset.go:63-96 | the pods tolerate a taint exactly when the template does, or it is one of the six, each for its effect |
| CronJobSets.CronJobByPart | internal/controller/daemoncronjobset.go:49-61 | name, namespace, and for CronJob, Job template and pod template label by label and the annotations of their own; target, schedule and copied fields |
| Selectors.ServiceAccountIsolation | internal/controller/api.go:189-207 | a ServiceAccount is selected by its owner and by nobody else |
| Selectors.ClusterRoleBindingIsolation | internal/controller/api.go:209-227 | a ClusterRoleBinding is selected by its kind, namespace and name and by nothing else, with no condition on the names |
| Selectors.BroadcastJobIsolation | internal/controller/api.go:80-88 | whose list finds a broadcast Job, exactly, user labels included |
| Selectors.BroadcastCronJobIsolation | internal/controller/api.go:90-98 | a broadcast CronJob is selected by its owner only, and by no set |
| Selectors.WorkerIsolation | internal/controller/api.go:110-137 | whose worker list finds a worker, exactly, user labels included; it is found under its node, and never as a broadcast |
| Selectors.SetChildIsolation | internal/controller/api.go:100-108 | a set's CronJob is selected by that set and that node only, and never as a broadcast |
| Selectors.BroadcastReachesItsWorkers | internal/controller/daemonjob.go:187-221 | whatever the template says, the pod of a generated broadcast Job builds workers that lie in its own namespace, are controlled by the Job with the name and uid in the pod's labels, and are found by the worker list of the object that generated the broadcast |
| Preview.GenerateDaemonJob | internal/daemonjobctl/generate.go:146-181 | the simulated Jobs are the workers Run builds for that configuration, each named after the generated broadcast Job and its node and controlled by that Job |
| Preview.GenerateDaemonCronJob | internal/daemonjobctl/generate.go:185-222 | likewise of the broadcast Job inside the generated CronJob, although CronJob() rewrites the labels first; panics exactly when there are none |
| Preview.GenerateDaemonCronJobSet | internal/daemonjobctl/generate.go:226-246 | the CronJobs are those the reconciler creates, under their names |
| Preview.PreviewStored | internal/daemonjobctl/generate.go:97-222 | the preview of a stored object of either kind simulates the workers of its Job template, named after and controlled by the broadcast Job of that kind, and panics exactly for a DaemonCronJob without labels |
| Preview.PreviewConfigIsLoaded | internal/daemonjobctl/generate.go:146-222 | the configuration the preview assumes is the one the pod of the generated broadcast Job loads, if the Job keeps its name |
| Preview.PreviewThenRun | internal/daemonjobctl/generate.go:146-222 | from one stored object, the Jobs Run adds with the same configuration on the same nodes are exactly the simulated ones, whatever fails on the way to success |
| Preview.SameJobsExactly | internal/broadcast/broadcast.go:179-216 | two configurations give a node the same Job exactly when broadcast name, namespace, uid and owner label agree, user labels included |
| SetStore.ChildrenAreListed | internal/controller/api.go:100-108 | the children of a set are exactly what its list finds |
| SetStore.DistinctNodes | internal/controller/daemoncronjobset.go:49-61 | children and their nodes correspond one to one |
| SetStore.ChildNodeIffKey | internal/controller/daemoncronjobset.go:49-51 | a node has a child exactly when the set owns the CronJob of that name |
| SetStore.DeletingShrinksDrift | internal/controller/daemoncronjobset_controller.go:116-127 | each stale child deleted takes one node, and no other, off the drift |
| SetStore.EnsuringGivesChild | internal/controller/api.go:241-247 | CreateOrUpdate gives the node its child and changes nothing when it has one |
| SetStore.EnsuredExactly | internal/controller/api.go:241-247 | in any store: it fails exactly when another owner controls the name, never changes a stored CronJob but to take control of an uncontrolled one, and touches no other name |
| SetStore.BuiltUnderItsKey | internal/controller/daemoncronjobset.go:49-51 | the CronJob built for a node is stored under its own namespace and name, which are the set's namespace and set name, node and suffix joined |
| SetReconciler.Reconciler.DeleteCronJobsOnMismatchedNode | internal/controller/daemoncronjobset_controller.go:103-130 | only stale children go; all of them unless the list or a delete fails, and then as many as went through before |
| SetReconciler.Reconciler.ApplyCronJobs | internal/controller/daemoncronjobset_controller.go:132-159 | the store is that of the names served so far; all names are served unless there is an error, and without an API fault the error is another owner's hold on the next name |
| SetReconciler.Reconciler.EnsureListed | internal/controller/daemoncronjobset_controller.go:149-156 | the create loop over the listed names, up to the first failing call |
| SetReconciler.Reconciler.UpdateStatus | internal/controller/daemoncronjobset_controller.go:161-197 | counts and conditions recorded for this set only, by the counts taken; nothing on failure |
| SetReconciler.Reconciler.RecordStatus | internal/controller/daemoncronjobset_controller.go:91-94 | called when every matching node has its CronJob: Available is true with OK exactly when the nodes with CronJobs are the matching ones, otherwise Degraded is true with "Too much cronjobs", and no verdict says "Too few cronjobs"; on failure nothing is recorded |
| SetReconciler.Reconciler.WriteCronJobs | internal/controller/daemoncronjobset_controller.go:82-89 | the effect of both phases on the CronJobs, however far each gets |
| SetReconciler.Reconciler.Reconcile | internal/controller/daemoncronjobset_controller.go:62-97 | nothing changes for a set that is gone or going; otherwise every write brings the set one node closer, foreign and kept CronJobs are untouched, without an error in either phase no drift is left, an error without faults means a taken name and the reverse, and the status written is true |
| SetReconciler.Reconciler.ReconcileSet | internal/controller/daemoncronjobset_controller.go:82-96 | the same for a live set: a failed delete phase is passed over, a failed create phase skips the status |
| SetReconciler.Reconciler.DeleteListed | internal/controller/daemoncronjobset_controller.go:116-127 | the delete loop over the listed CronJobs, up to the first failing delete |
| SetReconciler.BothPhases | internal/controller/daemoncronjobset_controller.go:82-89 | the drift falls by exactly the number of writes, however far each phase gets |
| SetReconciler.NothingRevived | internal/controller/daemoncronjobset_controller.go:82-89 | what the delete phase removed the create phase does not bring back |
| SetReconciler.ApplyContents | internal/controller/daemoncronjobset_controller.go:149-156 | every CronJob added is the one the builder makes for a matching node |
| SetReconciler.TakenDecides | internal/controller/api.go:242-247 | the create phase fails without a fault exactly on names another controller holds |
| SetReconciler.TakenByWhom | internal/controller/daemoncronjobset.go:49-51 | a name in other hands is held by something other than a set, or by another set whose names join to the same text |
| SetReconciler.CountsTell | internal/controller/daemoncronjobset_controller.go:175-194 | once every matching node has a child the counts agree exactly when the node sets do, and there are never too few |
| SetReconciler.CountedStatusSays | internal/controller/daemoncronjobset_controller.go:187-194 | for any counts and any earlier conditions: which verdict is true, with which reason and message |
| SetReconciler.FirstStatus | internal/controller/daemoncronjobset_controller.go:187-194 | a set that had none gets a status of exactly two conditions, by whether there are enough, too many or too few |
| SetReconciler.StatusIsTrue | internal/controller/daemoncronjobset_controller.go:187-194 | the same of the status as such, even after a delete phase that stopped halfway |
| SetReconciler.NoDriftMeansExact | internal/controller/daemoncronjobset_controller.go:62-97 | without drift there is exactly one CronJob of the right name per matching node |
| SetReconciler.NoDriftMeansNoWrite | internal/controller/daemoncronjobset_controller.go:62-97 | a second reconcile writes no CronJob |
| SetRuns.LevelTriggered | internal/controller/daemoncronjobset_controller.go:62-270 | in every state of every run that respects the three guards, each set not being deleted is queued or about to be, is being reconciled, or has its CronJobs on exactly its matching nodes and a status that says so |
| SetRuns.StepKeeps | internal/controller/daemoncronjobset_controller.go:62-270 | every guarded step keeps every set covered: on its way into the queue, or right, or sure that its reconcile will make it so or queue it again |
| SetRuns.SoundKept | internal/controller/daemoncronjobset_controller.go:62-270 | every step, guarded or not, keeps the CronJobs well made and each reconcile working on its set as it is, unless the set is owed another one |
| SetRuns.IdleMeansRight | internal/controller/daemoncronjobset_controller.go:62-270 | when nothing is queued, active or on its way, every such set has exactly its CronJobs and a status that says so |
| SetRuns.NodeStep | internal/controller/daemoncronjobset_controller.go:205-268 | no node event leaves a set behind |
| SetRuns.RelabelStep | internal/controller/daemoncronjobset_controller.go:210-257 | relabelling a terminating node leaves a set covered exactly when the set does not overlook it: it has a CronJob there, is queued anyhow, has still to create, or its counts will be news |
| SetRuns.LossStep | internal/controller/daemoncronjobset_controller.go:215-240 | a failed list in the event handler leaves a set covered exactly when the set is queued otherwise or has nothing to catch up on that its reconcile or status write will not bring up |
| SetRuns.FailStep | internal/controller/daemoncronjobset_controller.go:82-94 | a failing call leaves a set covered, in the delete phase exactly when the set is queued anyhow, no CronJob is left on a node that does not match, or the counts will be news to its status |
| SetRuns.OnNodeMeansChild | internal/controller/daemoncronjobset_controller.go:210-231 | the event of a terminating node reaches exactly the sets with a CronJob on it |
| SetRuns.RemovalIsTold | internal/controller/daemoncronjobset_controller.go:204 | a CronJob that disappears, by whatever hand, concerns a set only if it also queues it |
| SetRuns.DeliveryQueuesExactly | internal/controller/daemoncronjobset_controller.go:205-268 | an event queues exactly the set it names, or all sets there are, or those with a CronJob on the node |
| SetRuns.RestartStartsOver | internal/controller/daemoncronjobset_controller.go:200-204 | of a restarted controller nothing is left but one event for each set |
| SetRuns.FirstStatusIsNews | internal/controller/daemoncronjobset_controller.go:171-196 | the first status written to a new set is an event, whatever it says |
| SetRuns.TerminationIsFinal | internal/controller/daemoncronjobset_controller.go:62-80 | a set that is being deleted stays so until it is gone |
| SetRuns.LosingForeignNode | internal/controller/daemoncronjobset_controller.go:210-231 | losing a node the set has no CronJob on needs no event, wherever its reconcile stands |
| SetRuns.MismatchedIsStale | internal/controller/daemoncronjobset_controller.go:116-119 | with a current node list the loop picks exactly the stale children |
| SetForgetting.NeverForgetsExactly | internal/controller/daemoncronjobset_controller.go:62-270 | in any sound state, no guarded run ever forgets a set if and only if the set is covered |
| SetForgetting.TameExactly | internal/controller/daemoncronjobset_controller.go:82-84 | the three guards are exact: a step respects them if and only if no set can be forgotten after it |
| SetForgetting.RelabelledAtRest | internal/controller/daemoncronjobset_controller.go:210-231 | with nothing pending, a relabelled terminating node is served exactly when the set has a CronJob on it or does not match it now; otherwise the set is forgotten |
| SetForgetting.LostAtRest | internal/controller/daemoncronjobset_controller.go:236-240 | with nothing pending, a lost event of a relabelled node does no harm exactly when the node matches now if and only if it did before |
| SetForgetting.FailedDeleteExactly | internal/controller/daemoncronjobset_controller.go:82-196 | after a delete phase that fails, from any state in which every set is covered, the set can be forgotten if and only if nothing is queued for it, a CronJob is left on a node that does not match, and the status already says the counts of the next write |
| SetForgetting.FailedAtRest | internal/controller/daemoncronjobset_controller.go:82-196 | with nothing pending, a relabel followed by one failed delete phase never leaves a set forgotten, since the status write after it queues the set |
| SetForgetting.SecondFailureForgets | internal/controller/daemoncronjobset_controller.go:82-196 | from every such state in which a matching node ceases to match there is a guarded run through one failed delete phase to the next reconcile's, and if that fails too the set can be forgotten |
| SetForgetting.TerminatingNodeIsMissed | internal/controller/daemoncronjobset_controller.go:210-231 | an instance for every set, node and pair of labels |
| SetForgetting.LostEventIsMissed | internal/controller/daemoncronjobset_controller.go:236-240 | an instance for every set, node and pair of labels |
| SetForgetting.FailedDeletesAreForgotten | internal/controller/daemoncronjobset_controller.go:82-196 | an instance for every set, node and pair of labels, with two failed delete phases in a row |
| SetRefinement.ReconcileIsRun | internal/controller/daemoncronjobset_controller.go:62-97 | whatever calls fail after the Get, a reconcile is a run of the machine with the same effect on the CronJobs and the counts recorded; the set is queued again when it fails and has an event when the counts change; by guarded steps unless its delete phase failed |
| SetRefinement.ReconcileRefines | internal/controller/daemoncronjobset_controller.go:62-97 | the reconciler's own method, for all faults, does to CronJobs and status what some run of the machine does, and the machine has an event of the set whenever the status changed |
| SetRefinement.WritingCounts | internal/controller/daemoncronjobset_controller.go:175-196 | a status just written is up to date for its counts, and a write changes the status exactly when it was not up to date for them |
| SetRefinement.RightIsAvailable | internal/controller/daemoncronjobset_controller.go:187-194 | a set that is right in the machine's terms has Available true and both counts equal to the number of matching nodes |
| SetRefinement.QueuedCanBecomeRight | internal/controller/daemoncronjobset_controller.go:62-97 | from any state a queued set whose names are free comes to have exactly its CronJobs and a status that says so by the steps of its own reconcile |
| SetRefinement.ResyncCures | internal/controller/daemoncronjobset_controller.go:62-97 | from any state a set whose names are free, forgotten or not, can become right after a resync |
| SetConvergence.QuietSchedulesConverge | internal/controller/daemoncronjobset_controller.go:62-270 | with nodes and sets fixed and no failing call but those bound to fail because a reconcile is out of date, every schedule is over after a number of steps known from the state, and where it can go no further every set whose names nobody else holds has exactly its CronJobs and a status that says so |
| SetConvergence.StepFalls | internal/controller/daemoncronjobset_controller.go:62-270 | every such step lowers a measure that charges each write of a CronJob or status with the event and the reconciles it prompts |
| SetConvergence.ForeignDeleteTotals | internal/controller/daemoncronjobset_controller.go:116-127 | also a delete by an out-of-date list that hits a CronJob which another set made under the same name meanwhile |
| SetConvergence.ReportCosts | internal/controller/daemoncronjobset_controller.go:171-196 | a status write that changes something makes the status true, or its counts had been taken before others changed them, and then the next one will |
| SetConvergence.OverMeansBlocked | internal/controller/api.go:242-247 | where no step is left, a reconcile still active waits for a name that another owner holds on a node its set asks for |
| SetConvergence.UniverseExists | internal/controller/daemoncronjobset_controller.go:62-270 | the names the bound is reckoned with exist for every state |
| Finalizer.NoLeakedBinding | internal/controller/daemonjob_controller.go:76-143 | in every run a ClusterRoleBinding labelled for an object exists only while the object is there with the finalizer |
| Finalizer.GoneMeansUnbound | internal/controller/daemoncronjob_controller.go:68-136 | once the object is gone none of its bindings is left |
| Finalizer.DeletionIsFinal | internal/controller/api.go:261-275 | no step turns an object that is being deleted back into one that is not |
| Finalizer.NoneLingersAlongRun | internal/controller/api.go:261-275 | in every run an object that is being deleted is there only while somebody's finalizer holds it |
| Finalizer.UserWrites | internal/controller/api.go:261-275 | a reconcile that read the object before a user's write is refused; what each write leaves of the object |
| Finalizer.MissingBindingStops | internal/controller/daemonjob_controller.go:136-141 | a binding removed by somebody else makes the reconcile stop there, with the finalizer in place |
| Finalizer.InvKept | internal/controller/daemonjob_controller.go:76-208 | every step of a user or a reconcile keeps the invariant of every object |
| Finalizer.BindingAdded | internal/controller/daemonjob.go:91-109 | a new binding is found under its own object and no other |
| Finalizer.BindingNamesCollide | internal/controller/daemonjob.go:93 | two objects claim one binding name exactly when they are of one kind and their namespaces and names join to the same text |
| Finalizer.BoundExactly | internal/controller/daemonjob_controller.go:194-203 | CreateOrUpdate leaves the object with a binding of its own exactly when the name was free or it had one already |
| Finalizer.OwnMadeAlongRun | internal/controller/daemonjob.go:91-109 | in every run in which nobody else makes bindings, each binding is what a controller makes for some object, under that object's name and labels |
| Finalizer.UnboundExactly | internal/controller/daemonjob_controller.go:194-203 | after every such run CreateOrUpdate leaves an object without a binding exactly when a different object's binding holds the name, and that object is of its kind with a namespace and name that join to the same text |
| Finalizer.Reconciler.OnDelete | internal/controller/daemonjob_controller.go:128-143 | all bindings of the object go, unless a call fails, and then only some of them |
| Finalizer.Reconciler.DeleteListed | internal/controller/daemonjob_controller.go:136-141 | the delete loop, up to the first failing delete |
| Finalizer.Reconciler.Update | internal/controller/api.go:261-275 | a write is refused when the object is no longer the one that was read; one that takes the last finalizer from an object being deleted removes it |
| Finalizer.Reconciler.Begin | internal/controller/daemoncronjob_controller.go:68-90 | where the Get leads, for each state of the object |
| Finalizer.Reconciler.LetGo | internal/controller/daemoncronjob_controller.go:78-95 | an object being deleted: first the bindings, then the finalizer, and no finalizer is removed when a binding could not be |
| Finalizer.Reconciler.Hold | internal/controller/daemonjob_controller.go:106-118 | an object that stays: the finalizer is there before the binding is created |
| Finalizer.Reconciler.AddFinalizer | internal/controller/api.go:269-275 | the object is guarded afterwards, or unchanged on failure |
| Finalizer.Reconciler.RemoveFinalizer | internal/controller/api.go:261-267 | the object is gone, or stays only for somebody else's finalizer |
| Finalizer.Reconciler.ApplyBinding | internal/controller/daemonjob_controller.go:194-203 | the binding is created when its name is free; one that exists is left as it is |
| Finalizer.Reconciler.Reconcile | internal/controller/daemonjob_controller.go:76-126 | whatever fails it is a run of the machine; its outcome for the object and the bindings, with the exact condition for ending up bound; other objects unchanged; no error without a fault |
| WorkerCleanup.Cleaner.DeleteWorkerJobsOnNotExistNode | internal/controller/daemonjob_controller.go:145-169 | only the owner's workers on missing nodes go; all of them unless a call fails |
| WorkerCleanup.Cleaner.DeleteListed | internal/controller/daemoncronjob_controller.go:152-160 | the loop, with the number of deletes before a failing one |
| WorkerCleanup.OrphansExactly | internal/controller/daemonjob_controller.go:145-169 | exactly which Jobs a cleanup deletes: in the owner's namespace, labelled with its name, the worker role and a node not among the live ones |
| EndToEnd.CompleteMeansServed | internal/controller/daemonjob_controller.go:280-319 | when Complete is reported every node Run listed that has not left has a Complete worker the DaemonJob's list finds, if no cleanup in flight at the listing was out of date about it |
| EndToEnd.WorkerKeptExactly | internal/controller/daemonjob_controller.go:145-169 | with the name free, a staying node keeps its worker in every run if and only if no cleanup in flight would delete it |
| EndToEnd.CompleteIsTrueExactly | internal/controller/daemonjob_controller.go:280-319 | from the moment Run lists a node whose worker's name is free, Complete tells the truth about the node in every run in which it stays if and only if no cleanup in flight is out of date about it |
| EndToEnd.CompleteCanLie | internal/controller/daemonjob_controller.go:145-169 | from any state with such a cleanup there is a run in which Complete is reported and the staying node has no worker |
| EndToEnd.LateNodeIsLost | internal/controller/daemonjob_controller.go:111-113 | in particular when the DaemonJob's own cleanup listed the nodes before this one joined |
| EndToEnd.KeptAlongRun | internal/controller/daemonjob_controller.go:145-169 | the node's worker, and the truth of Complete about it, last along every run in which the node stays |
| EndToEnd.ProofShowsWorker | internal/controller/daemonjob_controller.go:283-297 | a worker list that proves completion had the node's worker on it |
| EndToEnd.WorkerIsBuilt | internal/broadcast/broadcast.go:179-199 | the worker the machine makes is the Job the builder makes, under that Job's own namespace and name and with its labels |
| EndToEnd.RacingCleanups | internal/controller/daemonjob_controller.go:155-166 | of two cleanups that mean to delete one Job the later fails and gives up the rest of its plan |
| EndToEnd.JobsEndOnce | internal/controller/daemonjob_controller.go:291-297 | a Job that is not over may end either way, and no step changes the outcome of one that is |
| BroadcastRefinement.RunRefines | internal/broadcast/broadcast.go:101-176 | Run's own method on the API server, for all faults of dry-runs and creates, stores what some run of the machine stores, with the same labels and verdict and no outcome invented |
| BroadcastRefinement.CleanupRefines | internal/controller/daemonjob_controller.go:145-169 | the cleanup's own method, for all faults, does to the Jobs what a run of the machine does |
| BroadcastRefinement.LeaverIsCleaned | internal/controller/daemonjob_controller.go:145-169 | once a node has left, the owner's next cleanup can delete its worker |

## Left out

- The real API server, client cache and garbage collector: replaced by the store above. Reads are never stale; with a stale cache a reconcile could re-create a binding after the object is gone.
- Label keys are constructors of a datatype instead of strings, and so are the well-known taint keys; all named keys are different strings in the source.
- Go slices are values, and what an affinity points to further down is one value behind one pointer. Label maps keep their identity.
- Security context, volumes, resources, images, history limits and other copied fields: one opaque `rest` field, or nothing.
- DaemonJobStatus.DaemonJob.CheckPods: what a pod's containers said at their end is one text for each pod; how it is put together from their statuses is not modelled.
- The branch of updateStatus for an unknown outcome of a Job cannot be taken, so it has no counterpart.
- Timestamps and observed generations of conditions.
- CronJobs of sets are assumed to be made by the controller only (`SetStore.WellMade`): nobody creates, relabels or adopts one by hand. Deleting from outside is modelled.
- Updates of CronJobs that fire, and resyncs of the watches, queue a set at any time: `SetRuns.Resync`.
- A set edited and edited back between Get and status write counts as unchanged in SetRuns, where the source's write is refused: there that is a failing call.
- A set re-created under the name of a deleted one shares its children by name; the difference in UIDs is covered by creates that may fail.
- Edits of a set's template do not reach existing CronJobs in the source either; the model keeps the stored object likewise.
- Back-off delays, worker counts and leader election: a reconcile may start whenever its key is queued.
- The finalizer is changed by the controllers only, and a restarted controller does not overlap with its predecessor.
- ServiceAccounts and Jobs in the finalizer protocol: their creation can fail, which is a reconcile that stops.
- In EndToEnd Run starts after its node list, and a failing dry-run is a Run that fails; the two phases themselves are in Broadcast.
- EndToEnd.WorkerKeptExactly: exact when the worker's name is free at the listing, as the dry-run requires; EndToEnd.CompleteIsTrueExactly likewise, and EndToEnd.CompleteMeansServed covers a taken name.
- In EndToEnd a broadcast is one Run: its Job has no retries, and is Complete only when Run succeeded.
- updateStatus of DaemonCronJob: existence checks only, no fold over workers.
- Decoding of manifests, output formats, skeletons, command line, metrics, hashing and reflection helpers.
