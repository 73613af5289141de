# Mount-pod reference protocol: a verified model

The driver serves every volume through one mount pod. The annotations of that pod, one
`reference key -> target` for each application that uses the volume, are a reference count kept on the
Kubernetes API server. Three kinds of actor change it: publish calls add references, unpublish calls
drop them and delete pods that have none left, and the reconciler drops dead references, deletes idle
pods, at once or after a delay, and brings crashed pods back. This project models that protocol in
Dafny and proves what holds in every interleaving of those actors, together with the parsers, the mount
table, the locks and the quota bookkeeping around it.

## How the model is built

| file | what it holds |
|---|---|
| `Text.dfy`, `Sets.dfy` | Go's `strings` functions and facts about them; sizes of sets |
| `MountCommand.dfy` | the mount command printed into a pod and parsed back from it |
| `TargetPath.dfy` | the parser of kubelet target paths |
| `Annotation.dfy` | reference keys, delay keys, the delayed-delete clock |
| `Pods.dfy`, `Store.dfy` | pods, their status, and the API server with RFC 6902 patches |
| `Reconcile.dfy` | `PodDriver.Run` and its handlers as a function of server, snapshot and surroundings |
| `StepProperties.dfy` | what one reconciler step keeps, clears and conserves |
| `Snapshot.dfy` | one whole `Run` on a stale snapshot |
| `Convergence.dfy` | how many steps an unused pod lasts, and why each step brings it closer to its end |
| `Protocol.dfy` | the state machine: calls, reconcilers fresh and late, kubelet and other clients |
| `Sanity.dfy` | what holds in every run whatsoever |
| `Safety.dfy` | the main invariant, and when recovery keeps it |
| `Workers.dfy` | how long a snapshot covers its pod; safety of all runs without overtaken recovery |
| `Publishers.dfy` | lost patches, what `JUmount` deletes, publish and unpublish among themselves |
| `Timers.dfy` | deadlines and resource replacement along whole runs |
| `Requests.dfy` | a whole `Run` as the sequence of its requests |
| `Draining.dfy` | convergence along whole runs |
| `Races.dfy` | what falls between the read and the replace of `AddRefOfMount` |
| `Stories.dfy` | runs that go wrong, action by action, for each hypothesis |
| `PodMount.dfy`, `PodDriver.dfy` | the methods themselves, against those functions |
| `Finalizers.dfy` | the in-place loop of `RemoveFinalizer` |
| `MountInfo.dfy` | the grouping loop over the mount table |
| `Locks.dfy` | `JLock` and the striped pod locks |
| `Controller.dfy` | concurrent controller calls over the quota table |

The state machine of `Protocol.dfy` has any number of targets and any number of pods. A call is at one of
ten points; a section under `JLock` is two steps, its read and its write, so that the reconciler, the
kubelet, evictions, foreign annotations and pod creation may fall in between. A call may end at any
point, by an error or because the driver dies. Patches may conflict, fail to arrive, or be refused by the
server.

The reconciler is there twice. `RunStep` is one whole `Run` from a fresh snapshot. A worker fetches a
snapshot, lists the application pods some time later, and then sends the requests of a `Run` one by one,
at any time, in any order and any number of times, while calls, other workers and other clients go on:
the remove patch, the deadline, the delete, the two halves of the deleted-pod handler, and the two halves
of the resource path of the error handler, before and after its wait. There is any number of workers, and
their snapshots may be of any age. Sent without interruption from a fresh snapshot, the requests of a
worker amount to `RunStep` (`Requests.RunIsItsRequests`).

SHA-256, `time.ParseDuration`, the date layout, the hash of a pod name, the node name and the map from
targets to volumes are constants without a value: nothing is known of them but what their types say (64
digits, a layout that reads back what it prints). No two targets in play share a reference key; that is
a hypothesis wherever it is used.

### Hypotheses of the run theorems

`Sanity.RunIsSane` and what rests on it (recovery, parsing of the timer texts, lost patches, what
`JUmount` deletes, deadlines) holds in every run. The safety theorem needs more, and each of these
conditions has a run in `Stories.dfy` that meets all the others and strands a live target:

- Between the snapshot of a recovery handler and its removal of the finalizer nobody creates the pod
  (`CreationIsStripped`), writes a reference to it (`StaleReleaseLosesReference`) or replaces it
  (`RecreationIsStripped`). `Safety.ReleaseKeepsExactly` and `Safety.RelieveKeepsExactly` say which
  references survive a handler that was overtaken.
- Between the halves of a recovery no publish call creates the pod (`CreateBetweenHalves`), and the driver
  does not die (`DeathBetweenHalves`, and `DeathDuringRelief` for the resource path).
  `Safety.RecoverKeepsExactly` says when a reference comes back.
- The resource path does not find its pod terminating (`EvictedBeforeRelief`).
- The last patch of the target was not lost (`PublishWithoutReference`).

Throughout:

- A reconciler lists the application pods no earlier than it fetches its mount pod, as
  `PodController.Reconcile` does. With `ENABLE_APISERVER_LIST_CACHE` set, the list may come from a cache
  of the API server and be older than the pod (pkg/juicefs/k8sclient/client.go, lines 200-203); then a
  live reference can be dropped, and nothing is claimed.
- Calls for one target do not overlap, and an application pod, once gone from the list, does not return.
- Mount pods carry no finalizer but the driver's. `StepProperties.RecoveryConserves` shows this to be
  exactly what recovery needs.
- Statting an unmounted target does not fail, so the ready handler only stacks binds on bound targets.

### Where the code does less than one would expect

- `AddRefOfMount` reports success when its patch is refused. Its reference is missing from the server
  exactly when the patch is not delivered, the pod is gone, or the pod has no annotation at all, unless a
  worker brings an old snapshot of the pod back while the call holds `JLock` (`Publishers.LostExactly`). The last case happens with two ordinary calls
  (`Stories.PublishWithoutReference`).
- The recovery handlers act on their snapshot. A reference written after it goes with the old pod, and
  one that was in it does not come back if another pod took the name (`Stories.StaleReleaseLosesReference`,
  `Stories.CreateBetweenHalves`). A late release also takes the finalizer from a pod that is not
  terminating (`Stories.RecreationIsStripped`).
- `JUmount` deletes by name. The pod it decided to delete has neither a reference nor a delay, but a pod
  created in between has both and is deleted (`Publishers.DeletesOnlyBare`, `Stories.DeleteHitsNewPod`).
- `Run` compares its snapshot with the server only if it has something to drop; a snapshot without
  references deletes whatever the server holds (`Snapshot.StaleDeleteExactly`), and equal counts do not
  show an exchange of references when a live target is among them (`Snapshot.CountsMissAnExchange`).
- A step that sees a live target does not always clear a deadline: it brings the old one back when it
  recreates the pod from its snapshot (`StepProperties.LiveTargetClearsDeadline` is exact,
  `Stories.DeadlineComesBack` is a run).
- `CreateVol` ignores a failing clean-up of the old quota and may leave two
  (`Controller.FailedCleanUpDuplicates`); it keeps one per path exactly where there was none to clean up.
- A pod that waits for resources is not erroneous, so the resource path is not taken for it
  (`StepProperties.WaitingForResourcesIsNotRelieved`), and a terminating pod that reports a resource
  error is never released (`Convergence.StarvedPodStays`); a publish call for it polls in vain
  (`Locks.WaitsInVain`).
- A volume id with a parenthesis or white space does not survive the round trip through the mount command.

## Model

| member | source | states |
|---|---|---|
| `Workers.RunsAreSafe` | pkg/driver/node.go:147-160 | in every state of every run in which no recovery handler is overtaken, a bound target whose application pod is listed, and whose last patch was not lost, has a mount pod that mounts its own volume, perhaps terminating, with finalizer and reference, or a handler is about to recreate such a pod with the reference |
| `Workers.SnapshotCovers` | pkg/controller/pod_controller.go:50-89 | as long as nobody creates, writes to or replaces the pod, a snapshot of any age has every reference of the pod and shows it terminating only if it is |
| `Workers.UnlessRenewed` | pkg/controller/pod_driver.go:76-131 | a step that does not create, write to or replace the pod adds no reference and no delay to it and does not bring it back upright |
| `Workers.RecoveryCompletes` | pkg/controller/pod_driver.go:159-319 | however far apart the halves of a recovery are, if no pod of that name is created in between, the pod comes back upright with the finalizer and, field by field, labels, annotations and spec of the snapshot; on the resource path every container has its command, no requests and no limits; no other pod changes |
| `Safety.CarefulRunsAreSafe` | pkg/driver/node.go:147-160 | the same safety for every run in which each removal of a finalizer finds a pod whose live references its snapshot has |
| `Safety.StepKeepsInv` | pkg/juicefs/mount/pod_mount.go:75-316 | each of the 31 kinds of step keeps the inductive invariant: finalizers on all pods, at most one recovery for each pod, protected references on the server or in the hands of that recovery, and in every map about to be written |
| `Safety.ReleaseKeepsExactly` | pkg/controller/pod_driver.go:257-276 | removing the finalizer with a snapshot of any age keeps a reference if and only if the pod is not terminating or the snapshot has it |
| `Safety.RelieveKeepsExactly` | pkg/controller/pod_driver.go:159-175 | taking a pod away on the resource path, with a snapshot of any age, keeps a reference, on the server or in the hands of the handler, if and only if the pod is not terminating, and it has no finalizer or the snapshot has the reference |
| `Safety.RecoverKeepsExactly` | pkg/controller/pod_driver.go:291-315 | the second half of a recovery brings a reference back if and only if no pod has the name, or one that has the reference |
| `Safety.LateKeeps` | pkg/controller/pod_driver.go:79-130 | every late request keeps every live reference under those conditions, whatever happened since its snapshot |
| `Safety.LateDropIsDead` | pkg/controller/pod_controller.go:52-77 | because the listing comes after the snapshot, no target that is live now is among the references a late `Run` drops |
| `Safety.LatePatchKeeps` | pkg/controller/pod_driver.go:79-115 | a remove patch and a deadline computed from an old snapshot and sent at any later time cost no live reference |
| `Safety.RunKeeps` | pkg/controller/pod_driver.go:76-131 | a whole step from a fresh snapshot, whichever handler it ends in, keeps every live reference in place |
| `Safety.ReadRefers` | pkg/juicefs/mount/pod_mount.go:295-309 | the map read and edited under `JLock` holds every protected reference of the pod |
| `Safety.PendingStaysCovering` | pkg/juicefs/mount/pod_mount.go:291-316 | whatever steps fall between that read and the replace, the map holds every protected reference when it is written |
| `Safety.AddRefAddsReference` | pkg/juicefs/mount/pod_mount.go:286-326 | when `AddRefOfMount` returns and its patch was not lost, the reference is on the server |
| `Protocol.PodsAreVolumes` | pkg/juicefs/mount/pod.go:39-41 | two targets have the same pod name if and only if they have the same volume |
| `Protocol.ListingDecides` | pkg/controller/mountinfo.go:52-64 | a target is live from the listing of its application pod until that pod is gone |
| `Requests.RunIsItsRequests` | pkg/controller/pod_driver.go:76-131 | the requests of a worker, sent without interruption from a fresh snapshot, have exactly the effect of the whole `Run` |
| `Sanity.RunIsSane` | pkg/driver/node.go:218-256 | in every run: only pods with our finalizers, a readable command and well-formed annotations, the pod named after a volume mounts that volume, on the server and in every snapshot, one holder of `JLock`, unmount before the reference goes, workers whose listing is no older than their snapshot |
| `Sanity.RunsRecover` | pkg/controller/pod_driver.go:257-319 | in every run a step on a terminating pod with references and no resource error brings it back upright, field by field with identical labels, annotations and spec, and the finalizer, and changes no other pod; the unparsable-command exit is never taken |
| `Sanity.NewPodIsMountPod` | pkg/juicefs/mount/pod.go:110-149 | a pod built by a publish call has the finalizer, a command that mounts its volume, the label, node, requests and limits asked for, and as annotations exactly its own reference and the delay, which parses |
| `Publishers.LostExactly` | pkg/juicefs/mount/pod_mount.go:291-315 | along every run, after `AddRefOfMount` its reference is on the server if and only if the replace was delivered and found a pod with an annotation, unless a worker brought an old snapshot back while the call held `JLock` |
| `Publishers.JoinsUprightPod` | pkg/juicefs/mount/pod_mount.go:213-223 | in every run a publish call goes on to add its reference only when the pod of its volume is there and not terminating |
| `Publishers.EffectiveRunsAreSafe` | pkg/driver/node.go:147-160 | if every replace takes effect, every bound target with a listed application pod keeps a pod of its volume with finalizer and reference, or has them in the hands of a recovery, throughout a careful run |
| `Publishers.DeletesOnlyBare` | pkg/juicefs/mount/pod_mount.go:121-149 | from the decision of `JUmount` to its delete, with any number of reconcilers at work, the pod is gone or has neither a reference nor a delay, unless a new one was created; the delay question is answered no without a write |
| `Publishers.ReferenceLasts` | pkg/juicefs/mount/pod_mount.go:96-149 | in every interleaving of publish and unpublish calls, without reconciler requests, a reference lasts until its own unpublish call removes it |
| `Publishers.WriteKeepsReference` | pkg/juicefs/mount/pod_mount.go:291-316 | no writer under `JLock` overwrites another target's reference |
| `Publishers.ReapsOnlyUnused` | pkg/juicefs/mount/pod_mount.go:121-149 | in those interleavings `JUmount` applies its delete only to a pod that is there and has neither a reference nor a delay at that instant |
| `Races.WriteAfterRuns` | pkg/juicefs/mount/pod_mount.go:291-316 | along any run, whatever falls between read and replace short of a new pod taking the name, an effective replace loses no reference that is on the server, and a live target is referenced afterwards if and only if it was before or is the call's own: what reappears is dead |
| `Races.NextRunCleansUp` | pkg/controller/pod_driver.go:79-109 | in every run a step that does not recreate the pod leaves exactly the live references, so that what reappeared goes |
| `Stories.PublishWithoutReference` | pkg/juicefs/mount/pod_mount.go:299-315 | an unpublish and a publish call, action by action: every patch is delivered, no other hypothesis is broken, and a live target ends up bound, unreferenced, on a pod being deleted |
| `Stories.StaleReleaseLosesReference` | pkg/controller/pod_driver.go:257-276 | action by action, all steps orderly: the target is referenced until a late release, the last step, takes its pod away, and nothing keeps the reference |
| `Stories.RecreationIsStripped` | pkg/controller/pod_driver.go:257-319 | action by action, all steps orderly: a reconciler recreates the pod, a late release takes the new pod's finalizer, and an eviction removes it with its references |
| `Stories.CreationIsStripped` | pkg/controller/pod_driver.go:257-276 | the same with a pod that a publish call created |
| `Stories.CreateBetweenHalves` | pkg/controller/pod_driver.go:258-315 | action by action: no handler is overtaken, all steps are orderly but the creation between the halves, and the old references do not come back |
| `Stories.DeathBetweenHalves` | pkg/controller/pod_driver.go:258-315 | action by action: no handler is overtaken, all steps are orderly but the death between the halves, and the references are gone |
| `Stories.EvictedBeforeRelief` | pkg/controller/pod_driver.go:161-175 | action by action: no handler is overtaken, all steps are orderly but the resource path that meets an evicted pod, fails half way and leaves no replacement |
| `Stories.DeathDuringRelief` | pkg/controller/pod_driver.go:171-205 | action by action: no handler is overtaken, all steps are orderly but the death during the wait of the resource path |
| `Stories.DeleteHitsNewPod` | pkg/juicefs/mount/pod_mount.go:121-149 | action by action: right before the last step, the delete of `JUmount`, the pod is upright with a reference and a delay, and that step marks it |
| `Stories.DeadlineComesBack` | pkg/controller/pod_driver.go:91-93 | action by action: the last step, a whole reconciler step, finds a live target on a pod with a deadline and recreates the pod with that deadline |
| `PodMount.AddRefInsertsOneKey` | pkg/juicefs/mount/pod_mount.go:286-326 | the read-and-replace equals inserting one reference and stopping the timer, if and only if the pod has an annotation |
| `PodMount.UmountUndoesAddRef` | pkg/juicefs/mount/pod_mount.go:75-162 | unpublish after publish restores the annotations up to the deadline, and deletes the pod exactly when nothing prefixed was there |
| `PodMount.PodMount.AddRef` | pkg/juicefs/mount/pod_mount.go:286-326 | the retry loop, with other clients changing the server at every conflict, has the effect of one insertion on the version its last attempt read |
| `PodMount.PodMount.DropRef` | pkg/juicefs/mount/pod_mount.go:96-119 | likewise for dropping the reference |
| `PodMount.PodMount.Umount` | pkg/juicefs/mount/pod_mount.go:75-162 | retries, both looks for a prefixed key and the delay question together drop one reference and delete an unreferenced pod |
| `PodMount.PodMount.DeleteMountPod` | pkg/juicefs/mount/pod_mount.go:121-149 | the waiting and arming answers of `ShouldDelay` are unreachable: the pod is deleted if and only if it has no prefixed key |
| `PodMount.PodMount.WaitUntilMount` | pkg/juicefs/mount/pod_mount.go:164-227 | creates a missing pod with the reference, which mounts the volume, adds the reference to a running pod, gives up on a terminating one, touches no pod of another volume |
| `Annotation.HasPrefixedKeyCovers` | pkg/juicefs/mount/pod.go:43-50 | `hasRef` holds whenever there is a reference or a delay key |
| `Annotation.ReferenceKey` | pkg/util/util.go:93-97 | reference keys are 63 characters with the prefix, never one of the delay keys |
| `Annotation.KeysAreDigests` | pkg/util/util.go:93-97 | two targets share a key if and only if the first 57 digits of their digests agree |
| `Annotation.DeadlineIsFloor` | pkg/util/util.go:203-245 | the written deadline is the floor to the second of now plus delay plus zone, and the pod expires exactly from then on |
| `Annotation.DeadlineBounds` | pkg/util/util.go:234-245 | in universal time less than a second early; a zone of whole seconds shifts the deadline by exactly itself |
| `StepProperties.StepKeepsLive` | pkg/controller/pod_driver.go:76-130 | a step on a fresh snapshot keeps a mount pod a mount pod and every reference to a live target |
| `StepProperties.StepLeavesOnlyLive` | pkg/controller/pod_driver.go:79-109 | unless the pod is recreated, exactly the live references are left |
| `StepProperties.StepKeepsTimer` | pkg/util/util.go:203-231 | a step keeps the timer consistent, and a running deadline does not move: the pod goes away or keeps it |
| `StepProperties.NewDeadline` | pkg/util/util.go:210-226 | a deadline that appears is the one `ShouldDelay` computed |
| `StepProperties.LiveTargetClearsDeadline` | pkg/controller/pod_driver.go:91-93 | from any state a step that sees a live target clears the deadline if and only if it is not empty and the pod is not recreated |
| `StepProperties.RecoveryConserves` | pkg/controller/pod_driver.go:257-319 | the deleted-pod handler yields an upright pod, field by field with the old labels, annotations and spec, and the finalizer, if and only if no foreign finalizer holds the old one, and changes no other pod |
| `StepProperties.UnparsableIsLost` | pkg/controller/pod_driver.go:280-284 | a terminating pod with an unparsable command vanishes with its references |
| `StepProperties.CrashedPodComesBack` | pkg/controller/pod_driver.go:212-234 | a crashed or completed pod in use is upright again after two steps, with its labels, spec, all other annotations and exactly its live references |
| `StepProperties.FailedPodComesBack` | pkg/controller/pod_driver.go:212-234 | a pod in use with a broken mount point that is failed, unknown, waiting for anything but its containers being created, or exited with an error, for another reason than resources, is marked by one step and back upright after two |
| `StepProperties.CompletedPodComesBack` | pkg/controller/pod_driver.go:140-146 | so is a pod in use whose phase is succeeded |
| `StepProperties.WorkingPodIsLeftAlone` | pkg/util/pod.go:40-55 | a pod in use that is pending or running, with every container started, being created or ended well, is not changed, broken mount point or not |
| `StepProperties.StarvedPodIsRelieved` | pkg/util/pod.go:57-90 | a pod in use that failed because something ran out is replaced by one without requests and limits if a container has requests, and is left alone otherwise |
| `StepProperties.StepKeepsTheRest` | pkg/controller/pod_driver.go:76-131 | a step changes nothing of a pod but references, deadline and whether it is terminating, unless it replaces the pod, which keeps labels, annotations, node and commands |
| `Pods.ResourceErrorMeans` | pkg/util/pod.go:57-74 | a pod counts as short of resources if and only if it failed with a reason that names it or could not be admitted for it, or there is no room for it |
| `StepProperties.HealthyPodIsLeftAlone` | pkg/controller/pod_driver.go:111-130 | a pod in use that is not crashed, with nothing to drop, is not changed |
| `StepProperties.StepSpendsResource` | pkg/controller/pod_driver.go:159-210 | no step adds requests; the resource path removes all requests and limits |
| `StepProperties.WaitingForResourcesIsNotRelieved` | pkg/util/pod.go:50-74 | an unschedulable pending pod has a resource error but does not reach the resource path |
| `Reconcile.FreshOutcome` | pkg/controller/pod_driver.go:76-131 | from a fresh snapshot the whole step over the server amounts to one decision about one pod, and succeeds if the pod has its finalizer |
| `Reconcile.RunFrame` | pkg/controller/pod_driver.go:76-131 | on any snapshot, no other pod is touched |
| `Reconcile.RelieveOfOurs` | pkg/controller/pod_driver.go:159-210 | the three requests of the resource path replace a pod, or take a terminating one away without a replacement |
| `Snapshot.StaleCheckIsExact` | pkg/controller/pod_driver.go:94-109 | with no live target and something to drop, equal counts and a successful patch mean the server held exactly the snapshot's references, and none is left |
| `Snapshot.StaleDeleteExactly` | pkg/controller/pod_driver.go:94-127 | the pod that an uninterrupted stale step deletes as idle is left without references if and only if the snapshot had one, or the server has none |
| `Snapshot.CountsMissAnExchange` | pkg/controller/pod_driver.go:100-106 | with a live target in the snapshot the comparison can pass on different references |
| `Draining.RunsConverge` | pkg/controller/pod_driver.go:91-130 | along any run, from a state in which no target of the pod is live, as long as no publish call and no late request touches the pod, it is gone after as many steps outside its delay window as its rank plus the delete requests in between, whatever evictions, unpublish calls, reports and annotations come |
| `Draining.StepDrains` | pkg/controller/pod_driver.go:237-319 | each kind of step keeps such a pod unused; a reconciler step outside the window lowers its rank, a delete request raises it by at most one, nothing else raises it |
| `Convergence.Converges` | pkg/controller/pod_driver.go:91-130 | once no target is live and nobody publishes, a pod is gone after `Rank` steps outside its delay window, whatever statuses, mount points and clock readings come |
| `Convergence.RankDecreases` | pkg/controller/pod_driver.go:237-319 | each such step lowers the rank, also the one that recreates a terminating pod with dead references |
| `Convergence.RankBound` | pkg/util/util.go:203-231 | the rank is at most three without a delay and four with one |
| `Convergence.WindowMeans` | pkg/util/util.go:203-231 | a step is in the delay window if and only if the pod is not terminating and has a delay and a deadline that parses and is not yet reached |
| `Convergence.BoundIsTight` | pkg/controller/pod_driver.go:237-319 | a terminating pod with a dead reference outlives two steps |
| `Convergence.StarvedPodStays` | pkg/controller/pod_driver.go:250-254 | a terminating pod that keeps reporting a resource error is never released |
| `Timers.TimersAreConsistent` | pkg/controller/pod_driver.go:91-128 | in every run both timer texts parse; as long as no untimely deadline is written to the pod from an old snapshot, a deadline implies a delay and no reference |
| `Timers.StepKeepsTimed` | pkg/juicefs/mount/pod_mount.go:307-309 | every kind of step but an untimely late deadline keeps that, on the server and in every snapshot |
| `Timers.LateDeadlineExactly` | pkg/util/util.go:203-231 | a deadline from an old snapshot keeps it if and only if the pod has a delay and no reference at that instant |
| `Timers.DeadlineLasts` | pkg/util/util.go:203-231 | along any run a deadline stays the same while its pod lasts, no publish call writes to that pod and no worker of that pod writes or drops its deadline |
| `Timers.NoEarlyDelete` | pkg/controller/pod_driver.go:111-127 | from the step that writes a deadline, a fresh one or a late one at an instant at which the pod has a delay and no reference, and under the same conditions, the idle branch does not delete before the floor of the arming instant plus delay plus zone |
| `Timers.RelievedOnce` | pkg/controller/pod_driver.go:159-210 | along any run the resource path, fresh or late, replaces a pod at most once until a publish call creates a new one or a worker brings a snapshot back that is older than the replacement |
| `PodDriver.PodDriver.Run` | pkg/controller/pod_driver.go:76-131 | loop, comparison, patch, timer and handler together do what the function says, for any snapshot |
| `PodDriver.PodDriver.Classify` | pkg/controller/pod_driver.go:77-89 | counts exactly the live references and collects exactly the dead ones, each once |
| `PodDriver.PodDriver.RelievePod` | pkg/controller/pod_driver.go:159-210 | the resource path with its wait loop has the effect of the function; the wait changes nothing |
| `PodDriver.PodDriver.SetPodsStatus` | pkg/controller/mountinfo.go:52-64 | exactly the listed uids are recorded, terminating or not, the last entry counting |
| `PodDriver.DroppedExactlyIfUnlisted` | pkg/controller/pod_driver.go:79-88 | a reference to a kubelet path is dropped if and only if no listed pod, terminating or not, has its uid |
| `PodDriver.GetAllRefKeys` | pkg/util/pod.go:211-219 | the loop collects exactly the references |
| `PodDriver.IsPodReady` | pkg/util/pod.go:30-38 | the counter is the number of true ready conditions |
| `PodDriver.ReadyMeansBoth` | pkg/util/pod.go:30-38 | with no condition type repeated, a pod is ready if and only if both its conditions are reported true |
| `PodDriver.DeleteResource` | pkg/util/pod.go:76-81 | the loop clears requests and limits of every container in place and changes nothing else |
| `Pods.NewMountPodParses` | pkg/util/pod.go:92-105 | the mount path and volume id of a new pod come back from its command |
| `Finalizers.Remove` | pkg/util/pod.go:107-119 | the loop with its step back ends, leaves the order-preserving filter in front, and writes only inside the old list |
| `Finalizers.WithoutIsFilter` | pkg/util/pod.go:107-119 | every element but the finalizer is kept in its place, each by itself |
| `Finalizers.WithoutTwice` | pkg/util/pod.go:107-119 | nothing is left to remove, and removing again changes nothing |
| `Pods.WithoutEmpties` | pkg/util/pod.go:107-119 | the list becomes empty if and only if it held nothing else |
| `Store.ApiServer.DelAnnotations` | pkg/util/pod.go:171-190 | remove operations applied one by one remove all the keys, or fail as a whole if one is missing or named twice |
| `MountCommand.RoundTrip` | pkg/util/util.go:115-125 | for every word as source and any options, parsing the quoted command gives back path and id if and only if the id is a plain path component without white space or parentheses |
| `MountCommand.ParseNeeds` | pkg/util/util.go:115-125 | the parser accepts a command if and only if its third word begins with the mount base and has a third path component, and returns these |
| `MountCommand.PrintedWords` | pkg/juicefs/mount/pod_mount.go:54-70 | the words of the command are the mount program, source, mount path and all options in order with the added one |
| `MountCommand.QuoteIsUndone` | pkg/juicefs/mount/pod.go:250-258 | removing the backslashes before parentheses gives back any text that was quoted |
| `MountCommand.QuoteUnchanged` | pkg/juicefs/mount/pod.go:250-258 | quoting changes a text if and only if it has a parenthesis, and adds no white space |
| `TargetPath.ParsesKubeletPath` | pkg/controller/mountinfo.go:207-233 | with the marker once, the volume name comes back, and the uid if and only if something precedes it |
| `TargetPath.NoUidWithoutUniqueMarker` | pkg/controller/mountinfo.go:207-211 | without the marker, or with it twice, there is no uid |
| `MountInfo.ResolveTargetItem` | pkg/controller/mountinfo.go:112-152 | one item for each matching mount point, each the item of its group, counts adding up to the matching lines, at most one for an exact path |
| `MountInfo.InconsistentExactly` | pkg/controller/mountinfo.go:130-144 | an item is inconsistent if and only if two lines of its mount point stand for different subpaths |
| `MountInfo.NormalisedExactly` | pkg/controller/mountinfo.go:130-131 | the subpath of a root is the text between its outer slashes, without the mark of a deleted directory at the end; it is unique and neither begins nor ends with a slash |
| `MountInfo.ItemMeans` | pkg/controller/mountinfo.go:132-144 | an item has the subpath of the first line of its mount point and counts its lines |
| `MountInfo.PointsExactly` | pkg/controller/mountinfo.go:114-128 | the matching mount points are those that begin with the path, or the path itself |
| `Locks.EveryScheduleEnds` | pkg/juicefs/mount/pod_mount.go:182-226 | with threads coming and pods evicted at any time and finitely many conflicts, threads make no more moves than there is work, no lock has two holders, and unless all threads are done one can move |
| `Locks.SomeThreadCanStep` | pkg/juicefs/mount/pod_mount.go:291-316 | in every state some unfinished thread is not blocked |
| `Locks.StepKeepsOneHolder` | pkg/juicefs/config/config.go:61-68 | every lock keeps at most one holder |
| `Locks.SectionsExclude` | pkg/juicefs/config/config.go:61-68 | however threads come and go, no two are under the pod lock for one pod, from the lock to the end of a publish call, a recovery or the error handler, and no two in a section under `JLock` |
| `Locks.DeleteStartsTheWait` | pkg/juicefs/mount/pod_mount.go:213-218 | after a delete by an unpublish call, the error handler or an eviction, a publish call for that pod with polls left polls once more |
| `Locks.HandlerEndsTheWait` | pkg/controller/pod_driver.go:257-288 | while a publish call polls under the pod lock for a terminating pod, the handler can remove the finalizer, and the next poll succeeds |
| `Locks.WaitsInVain` | pkg/controller/pod_driver.go:250-254 | if the handler would take the lock first, or its snapshot shows a resource error, then in any order of moves the pod stays terminating and the publish call makes all its polls and gives up |
| `Controller.NeverOverlap` | pkg/driver/controller.go:78-82 | in every interleaving the lock set is exactly the ids of the calls in flight, which are distinct |
| `Controller.QuotasStayConsistent` | pkg/driver/controller.go:357-389 | at most one quota for each path in every state; after success the size asked for, after delete none |
| `Controller.QuotaLasts` | pkg/driver/controller.go:82-123 | after a create with a size, an expand or a delete has succeeded and returned, its path has the one quota asked for, or none, in every later state until a call for that volume begins |
| `Controller.OthersAreLeftAlone` | pkg/juicefs/juicefs.go:226-255 | in every run, with whatever failures, the quotas of a path change only by a request of a call for that volume |
| `Controller.WhoChangesQuotas` | pkg/juicefs/juicefs.go:226-233 | only creates with a positive size, deletes and expands send such requests |
| `Controller.PutKeepsOnePerPathExactly` | pkg/juicefs/juicefs.go:226-233 | creating a quota keeps one per path if and only if the path has none |
| `Controller.FailedCleanUpDuplicates` | pkg/juicefs/juicefs.go:226-233 | an ignored clean-up failure leads to two quotas |
| `Controller.GetQuota` | pkg/juicefs/console.go:146-164 | the loop finds the last match, and nothing if and only if there is none |
| `Controller.LastMatchAnswers` | pkg/juicefs/console.go:146-164 | in any listing of the table that match is a quota of the path |
| `Controller.ObjLocks.TryAcquire` | pkg/util/util.go:151-159 | succeeds if and only if the id is free, and holds it then |

## Left out

- `Safety.RelieveKeepsExactly`: the first two requests of the resource path are one step; an eviction between them has the effect of one before them.
- The removal of finalizers during the wait of the resource path: everybody who creates pods takes the pod lock, which the handler holds, so it finds none.
- `Safety.LateDropIsDead`: assumes a listing no older than the snapshot; a listing from the API server's cache is not modelled.
- `checkBindAndMount`: a bind is a step that takes place or does not; the comparison of device numbers is not modelled.
- The unmount loop of `NodeUnpublishVolume` and the binds that `podReadyHandler` stacks on corrupted targets: a target is bound or not.
- `resolveTarget` beyond its grouping loop, and `targetItem.check`: file-system probes.
- `filepath.Join` for volume ids with a slash; the mount path of the process mounter.
- Shared mount pods per storage class: `GetUniqueId` is the arbitrary map from targets to volumes.
- `controllerService.vols`, quality of service, directories and snapshots: only their locks and quota effects are there.
- Namespaces, node selection, volumes, environment and cache directories of `NewMountPod`.
- The requeue time of `PodController.Reconcile` and the back-off of the polling reconciler.
- Transport, JSON encoding and JSON pointer escapes; date texts after year 9999.
- `Convergence.Converges`: has only status reports between the steps; everything else is in `Draining.RunsConverge`.
- `PodMount.PodMount.AddRef`: other clients change the server at conflicts only; all other interleavings are in `Protocol.dfy`.
- `PodMount.PodMount.DropRef`: likewise.
- `PodMount.PodMount.Umount`: not interrupted after the reference is gone; what happens then is in `Protocol.dfy`.
- `PodMount.PodMount.WaitUntilMount`: states the call without interruption and without the wait for the mount point; what happens between its rounds is in `Protocol.dfy`.
- `Timers.NoEarlyDelete`: is about the idle branch of `Run`; the error and pending handlers may delete a broken or completed pod earlier.
- `Locks.EveryScheduleEnds`: the wait for the mount point, the wait of the resource path and API calls inside a section are one step.
- The warm-up controller, charts, manifests and generated code.
