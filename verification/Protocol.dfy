/** The mount-pod reference protocol: any number of publish and unpublish calls, at most one at a
    time for each target, the reconciler, the kubelet and other clients, step by step.

    A section under `JLock` is two steps, its read and its write, so that everything that does not
    take `JLock` may fall in between.  The reconciler appears twice.  A step `RunStep` is a whole
    `Run` from a fresh snapshot without interruption.  A worker fetches a snapshot, lists the
    application pods some time later, and then sends the requests of a `Run` one by one, at any
    time, in any order and as often as it likes, however old its snapshot is by then.  The deleted-pod
    handler is two such requests, the release of the finalizer and the creation of the new pod, and
    the resource path of the error handler is two, taking the pod away and creating its replacement. */
module Protocol {
  import opened Text
  import opened Annotation
  import opened Pods
  import opened Store
  import opened Reconcile
  import TargetPath
  import MountCommand

  // --- names --------------------------------------------------------------------------------

  /** The node of the driver, and the volume behind each target: both arbitrary. */
  const NodeName: string
  const VolumeOf: string -> string

  /** `GeneratePodNameByVolumeId`. */
  function PodName(volumeId: string): string {
    "mosfs-" + NodeName + "-" + volumeId
  }

  function PodOf(target: string): string {
    PodName(VolumeOf(target))
  }

  /** Two targets have the same mount pod exactly if they have the same volume. */
  lemma PodsAreVolumes(t: string, u: string)
    ensures PodOf(t) == PodOf(u) <==> VolumeOf(t) == VolumeOf(u)
  {
    var n := |"mosfs-" + NodeName + "-"|;
    assert PodOf(t)[n..] == VolumeOf(t) && PodOf(u)[n..] == VolumeOf(u);
  }

  /** The pod mounts the volume of the target, at the place where it is looked for. */
  ghost predicate MountsVolumeOf(p: Pod, t: string) {
    var id := VolumeOf(t);
    '/' !in id && MountPathOf(p.spec) == Some((MountCommand.MountPath(id), id))
  }

  // --- state --------------------------------------------------------------------------------

  /** Where the call for a target stands. */
  datatype Call =
    | Ensure                                // publish: `waitUntilMount` looks for a usable pod
    | AddRef                                // publish: about to take `JLock` in `AddRefOfMount`
    | Replace(annotations: Annotations)     // publish: holds `JLock`, the new map is ready
    | Bind                                  // publish: `AddRefOfMount` returned without error
    | Unmount                               // unpublish: about to unmount the target
    | DropRef                               // unpublish: about to take `JLock` to drop the reference
    | Patch                                 // unpublish: holds `JLock`, saw the key
    | Check                                 // unpublish: about to look for references, unlocked
    | Reap                                  // unpublish: about to take `JLock` to delete the pod
    | Delete                                // unpublish: holds `JLock`, saw no prefixed key

  predicate HoldsJLock(c: Call) {
    c.Replace? || c.Patch? || c.Delete?
  }

  predicate Publishing(c: Call) {
    c.Ensure? || c.AddRef? || c.Replace? || c.Bind?
  }

  /** A reconciler that works from an old snapshot. */
  datatype Worker =
    | Fetched(name: string, cur: Pod)
    | Acting(name: string, cur: Pod, live: set<string>)    // `live` as of its own listing
    | Released(name: string, cur: Pod, relief: bool)       // took the pod away, about to recreate it

  datatype State = State(
    targets: set<string>,            // the targets in play
    pods: PodMap,
    calls: map<string, Call>,        // calls in progress, by target
    bound: set<string>,              // targets that are bind-mounted
    live: set<string>,               // targets whose application pod is listed
    seen: set<string>,               // targets whose application pod was listed at some time
    lost: set<string>,               // targets whose last annotation patch failed unnoticed
    workers: map<int, Worker>)

  predicate JLockFree(s: State) {
    forall t :: t in s.calls ==> !HoldsJLock(s.calls[t])
  }

  /** What a publish call brings along to create a mount pod. */
  datatype Request = Request(isCe: bool, source: string, options: seq<string>,
                             requests: map<string, string>, limits: map<string, string>, delay: string)

  datatype Action =
    | Listed(uid: string) | Gone(uid: string)
    | Publish(t: string) | Unpublish(t: string) | Return(t: string)
    | Create(t: string, request: Request) | Found(t: string)
    | Read(t: string) | Write(t: string, delivered: bool) | WriteConflict(t: string)
    | BindMount(t: string) | Unmounted(t: string)
    | ReadRef(t: string) | RemoveRef(t: string) | RemoveConflict(t: string)
    | CheckRef(t: string) | ReadReap(t: string) | ReapPod(t: string)
    | RunStep(name: string, env: Env)
    | Fetch(w: int, name: string) | ListApps(w: int) | Leave(w: int)
    | LatePrune(w: int) | LateArm(w: int, env: Env) | LateMark(w: int)
    | LateRelease(w: int) | LateRecover(w: int) | LateRelieve(w: int)
    | Report(name: string, status: Status) | Evict(name: string)
    | Annotate(name: string, key: string, value: string)

  function TargetsOf(s: State, uid: string): set<string> {
    set t | t in s.targets && TargetPath.PodUid(t) == uid
  }

  predicate At(s: State, t: string, c: Call) {
    t in s.calls && s.calls[t] == c
  }

  /** The setting was parsed: the source is a word, and a delay is a duration. */
  predicate ValidRequest(r: Request) {
    && r.source != "" && SpaceFree(r.source)
    && (r.delay != "" ==> ParseDuration(r.delay).Some?)
  }

  /** A step of the reconciler that may change the server. */
  predicate IsReconciler(a: Action) {
    a.RunStep? || IsLate(a)
  }

  predicate IsLate(a: Action) {
    a.LatePrune? || a.LateArm? || a.LateMark? || a.LateRelease? || a.LateRecover? || a.LateRelieve?
  }

  predicate IsWork(a: Action) {
    a.Fetch? || a.ListApps? || a.Leave? || IsLate(a)
  }

  /** A worker can take this step. */
  predicate CanWork(s: State, a: Action)
    requires IsWork(a)
  {
    if a.Fetch? then a.w !in s.workers && a.name in s.pods
    else a.w in s.workers && Ready(s.workers[a.w], a)
  }

  predicate Ready(w: Worker, a: Action)
    requires IsWork(a) && !a.Fetch?
  {
    match a
    case ListApps(_) => w.Fetched?
    case Leave(_) => true
    case LatePrune(_) => w.Acting?
    case LateArm(_, env) =>
      w.Acting? && IsIdle(w.cur, w.live) && ShouldDelay(w.cur.annotations, env.now, env.zone).Arm?
    case LateMark(_) => w.Acting?
    case LateRelease(_) => w.Acting? && w.cur.deleting && Releases(w.cur)
    case LateRecover(_) => w.Released?
    case LateRelieve(_) => w.Acting? && GetPodStatus(w.cur) == PodError && ResourcePath(w.cur)
  }

  predicate Enabled(s: State, a: Action) {
    if IsWork(a) then CanWork(s, a) else
    match a
    case Listed(uid) => TargetsOf(s, uid) !! s.seen
    case Gone(uid) => true
    case Publish(t) => t in s.seen && t !in s.calls
    case Unpublish(t) => t in s.targets && t !in s.calls
    case Return(t) => t in s.calls
    case Create(t, r) => At(s, t, Ensure) && ValidRequest(r) && '/' !in VolumeOf(t)
    case Found(t) => At(s, t, Ensure) && PodOf(t) in s.pods && !s.pods[PodOf(t)].deleting
    case Read(t) => At(s, t, AddRef) && JLockFree(s) && PodOf(t) in s.pods
    case Write(t, delivered) => t in s.calls && s.calls[t].Replace?
    case WriteConflict(t) => t in s.calls && s.calls[t].Replace?
    case BindMount(t) => At(s, t, Bind)
    case Unmounted(t) => At(s, t, Unmount)
    case ReadRef(t) => At(s, t, DropRef) && JLockFree(s) && PodOf(t) in s.pods
    case RemoveRef(t) => At(s, t, Patch)
    case RemoveConflict(t) => At(s, t, Patch)
    case CheckRef(t) => At(s, t, Check) && PodOf(t) in s.pods
    case ReadReap(t) => At(s, t, Reap) && JLockFree(s) && PodOf(t) in s.pods
    case ReapPod(t) => At(s, t, Delete)
    case RunStep(name, env) => name in s.pods
    case Report(name, status) => name in s.pods
    case Evict(name) => name in s.pods
    case Annotate(name, key, value) => name in s.pods && !(REFERENCE_PREFIX <= key)
  }

  /** The map that `AddRefOfMount` writes: the map it read, with the target and without a deadline. */
  function WithReference(a: Annotations, t: string): Annotations {
    a[ReferenceKey(t) := t] - {DELAY_AT_KEY}
  }

  function NewPod(t: string, r: Request): Pod
    requires '/' !in VolumeOf(t)
  {
    NewMountPod(r.isCe, r.source, VolumeOf(t), r.options, r.requests, r.limits, NodeName, t, r.delay)
  }

  /** What becomes of a worker; `err` is the answer to its request. */
  function Worked(w: Worker, a: Action, live: set<string>, err: Error): Option<Worker>
    requires IsWork(a) && !a.Fetch? && Ready(w, a)
  {
    if a.ListApps? then Some(Acting(w.name, w.cur, live))
    else if a.LatePrune? || a.LateArm? || a.LateMark? then Some(w)
    else if a.LateRelease? && err == Nil && Recovers(w.cur) then Some(Released(w.name, w.cur, false))
    else if a.LateRelieve? && err == Nil then Some(Released(w.name, w.cur, true))
    else None
  }

  /** The pod that a worker creates in the end: without its resources if it failed for want of them. */
  function Replacement(w: Worker): Pod
    requires w.Released?
  {
    if w.relief then Relieved(w.cur) else Recreated(w.cur)
  }

  /** The request that a worker sends. */
  function Sent(pods: PodMap, w: Worker, a: Action): Reply
    requires IsLate(a) && Ready(w, a)
  {
    match a
    case LatePrune(_) => RemoveAnnotations(pods, w.name, Dropped(w.cur.annotations, w.live))
    case LateArm(_, env) =>
      AddAnnotation(pods, w.name, DELAY_AT_KEY, ShouldDelay(w.cur.annotations, env.now, env.zone).deleteAt)
    case LateMark(_) => DeletePod(pods, w.name)
    case LateRelease(_) => Release(pods, w.name, w.cur)
    case LateRecover(_) => CreatePod(pods, w.name, Replacement(w))
    case LateRelieve(_) => Unseat(pods, w.name, w.cur)
  }

  // --- steps, part by part of the state ------------------------------------------------------

  /** The server after a step. */
  function PodsAfter(s: State, a: Action): PodMap
    requires Enabled(s, a)
  {
    if IsLate(a) then Sent(s.pods, s.workers[a.w], a).pods else
    match a
    case Create(t, r) => CreatePod(s.pods, PodOf(t), NewPod(t, r)).pods
    case Write(t, delivered) =>
      if delivered then ReplaceAnnotations(s.pods, PodOf(t), s.calls[t].annotations).pods else s.pods
    case RemoveRef(t) => RemoveAnnotations(s.pods, PodOf(t), {ReferenceKey(t)}).pods
    case ReapPod(t) => DeletePod(s.pods, PodOf(t)).pods
    case RunStep(name, env) => Fresh(s.pods, name, s.live, env).pods
    case Report(name, status) => s.pods[name := s.pods[name].(status := status)]
    case Evict(name) => DeletePod(s.pods, name).pods
    case Annotate(name, key, value) => AddAnnotation(s.pods, name, key, value).pods
    case _ => s.pods
  }

  /** The calls after a step. */
  function CallsAfter(s: State, a: Action): map<string, Call>
    requires Enabled(s, a)
  {
    match a
    case Publish(t) => s.calls[t := Ensure]
    case Unpublish(t) => s.calls[t := Unmount]
    case Return(t) => s.calls - {t}
    case Found(t) => s.calls[t := AddRef]
    case Read(t) =>
      var a := s.pods[PodOf(t)].annotations;
      s.calls[t := if ReferenceKey(t) in a then Bind else Replace(WithReference(a, t))]
    case Write(t, _) => s.calls[t := Bind]
    case WriteConflict(t) => s.calls[t := AddRef]
    case BindMount(t) => s.calls - {t}
    case Unmounted(t) => s.calls[t := DropRef]
    case ReadRef(t) => s.calls[t := if ReferenceKey(t) in s.pods[PodOf(t)].annotations then Patch else Check]
    case RemoveRef(t) =>
      if RemoveAnnotations(s.pods, PodOf(t), {ReferenceKey(t)}).err == Nil then s.calls[t := Check] else s.calls - {t}
    case RemoveConflict(t) => s.calls[t := DropRef]
    case CheckRef(t) =>
      if HasPrefixedKey(s.pods[PodOf(t)].annotations) then s.calls - {t} else s.calls[t := Reap]
    case ReadReap(t) =>
      if HasPrefixedKey(s.pods[PodOf(t)].annotations) then s.calls - {t} else s.calls[t := Delete]
    case ReapPod(t) => s.calls - {t}
    case _ => s.calls
  }

  function BoundAfter(s: State, a: Action): set<string> {
    match a
    case BindMount(t) => s.bound + {t}
    case Unmounted(t) => s.bound - {t}
    case _ => s.bound
  }

  function LiveAfter(s: State, a: Action): set<string> {
    match a
    case Listed(uid) => s.live + TargetsOf(s, uid)
    case Gone(uid) => s.live - TargetsOf(s, uid)
    case _ => s.live
  }

  function SeenAfter(s: State, a: Action): set<string> {
    if a.Listed? then s.seen + TargetsOf(s, a.uid) else s.seen
  }

  /** `AddRefOfMount` found its reference, or its replace took effect, or it did not. */
  function LostAfter(s: State, a: Action): set<string>
    requires Enabled(s, a)
  {
    match a
    case Read(t) => if ReferenceKey(t) in s.pods[PodOf(t)].annotations then s.lost - {t} else s.lost
    case Write(t, delivered) =>
      if delivered && ReplaceAnnotations(s.pods, PodOf(t), s.calls[t].annotations).err == Nil then s.lost - {t}
      else s.lost + {t}
    case _ => s.lost
  }

  function WorkersAfter(s: State, a: Action): map<int, Worker>
    requires IsWork(a) && CanWork(s, a)
  {
    if a.Fetch? then s.workers[a.w := Fetched(a.name, s.pods[a.name])]
    else
      var err := if IsLate(a) then Sent(s.pods, s.workers[a.w], a).err else Nil;
      match Worked(s.workers[a.w], a, s.live, err)
      case None => s.workers - {a.w}
      case Some(w) => s.workers[a.w := w]
  }

  function Step(s: State, a: Action): State
    requires Enabled(s, a)
  {
    State(s.targets, PodsAfter(s, a), CallsAfter(s, a), BoundAfter(s, a), LiveAfter(s, a), SeenAfter(s, a),
          LostAfter(s, a), if IsWork(a) then WorkersAfter(s, a) else s.workers)
  }

  /** A target is live from the listing of its application pod until that pod is gone, and no other
      target is affected. */
  lemma ListingDecides(s: State, uid: string, t: string)
    requires t in s.targets && Enabled(s, Listed(uid))
    ensures t in Step(s, Listed(uid)).live <==> t in s.live || TargetPath.PodUid(t) == uid
    ensures t in Step(s, Gone(uid)).live <==> t in s.live && TargetPath.PodUid(t) != uid
  {
    hide TargetPath.PodUid;
  }

  // --- runs ---------------------------------------------------------------------------------

  ghost predicate Init(s: State) {
    && Collisionless(s.targets)
    && (forall t :: t in s.targets ==> MountCommand.ValidVolumeId(VolumeOf(t)))
    && (forall n :: n in s.pods ==> MountPod(s.pods[n], s.seen) && TimerConsistent(s.pods[n].annotations))
    && (forall t :: t in s.targets && PodOf(t) in s.pods ==> MountsVolumeOf(s.pods[PodOf(t)], t))
    && s.calls == map[] && s.bound == {} && s.lost == {} && s.workers == map[]
    && s.live <= s.seen <= s.targets
  }

  ghost predicate IsRun(states: seq<State>, actions: seq<Action>) {
    && |states| == |actions| + 1
    && Init(states[0])
    && forall i :: 0 <= i < |actions| ==>
         Enabled(states[i], actions[i]) && states[i + 1] == Step(states[i], actions[i])
  }
}
