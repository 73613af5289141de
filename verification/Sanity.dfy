/** What holds in every run whatsoever: pods of this driver with well-formed annotations, one holder
    of `JLock`, unmounts before the reference goes, and workers whose listing is no older than their
    snapshot. */
module Sanity {
  import opened Annotation
  import opened Pods
  import opened Store
  import opened Reconcile
  import opened Protocol
  import StepProperties
  import MountCommand

  ghost predicate Setting(s: State) {
    && Collisionless(s.targets)
    && (forall t :: t in s.targets ==> MountCommand.ValidVolumeId(VolumeOf(t)))
    && s.live <= s.seen <= s.targets && s.bound <= s.seen
  }

  ghost predicate CallsInPlay(s: State) {
    forall t :: t in s.calls ==> t in s.targets && (Publishing(s.calls[t]) ==> t in s.seen)
  }

  ghost predicate SoundPods(pods: PodMap, targets: set<string>) {
    forall n :: n in pods ==> Sound(pods[n], targets)
  }

  ghost predicate OneHolder(s: State) {
    forall t, u :: t in s.calls && u in s.calls && HoldsJLock(s.calls[t]) && HoldsJLock(s.calls[u]) ==>
      t == u
  }

  ghost predicate UnboundFirst(s: State) {
    forall t :: t in s.calls && !Publishing(s.calls[t]) && !s.calls[t].Unmount? ==> t !in s.bound
  }

  /** The map a publish call is about to write. */
  ghost predicate PendingMap(a: Annotations, t: string, targets: set<string>) {
    WellFormed(a, targets) && DELAY_AT_KEY !in a && RefersTo(a, t)
  }

  ghost predicate PendingMaps(s: State) {
    forall t :: t in s.calls && s.calls[t].Replace? ==> PendingMap(s.calls[t].annotations, t, s.seen)
  }

  /** Any target of the snapshot that is live now was live when the worker listed the application
      pods, because the listing came after the snapshot. */
  ghost predicate Lags(w: Worker, live: set<string>) {
    w.Acting? ==> forall k :: IsReference(w.cur.annotations, k) ==>
      w.cur.annotations[k] in live ==> w.cur.annotations[k] in w.live
  }

  ghost predicate WorkersLag(s: State) {
    forall w :: w in s.workers ==> Sound(s.workers[w].cur, s.seen) && Lags(s.workers[w], s.live)
  }

  /** The pod named after a volume mounts that volume, on the server and in every snapshot. */
  ghost predicate ServesVolumes(s: State) {
    && (forall t :: t in s.targets && PodOf(t) in s.pods ==> MountsVolumeOf(s.pods[PodOf(t)], t))
    && (forall w, t :: w in s.workers && t in s.targets && s.workers[w].name == PodOf(t) ==>
          MountsVolumeOf(s.workers[w].cur, t))
  }

  ghost predicate Sane(s: State) {
    && Setting(s) && CallsInPlay(s) && SoundPods(s.pods, s.seen) && OneHolder(s) && UnboundFirst(s)
    && PendingMaps(s) && WorkersLag(s) && ServesVolumes(s)
  }

  lemma InitIsSane(s: State)
    requires Init(s)
    ensures Sane(s)
  {
    hide Ours, WellFormed, Collisionless, MountCommand.ValidVolumeId, PodOf, MountsVolumeOf;
  }

  // --- annotation maps ----------------------------------------------------------------------

  lemma InsertReference(a: Annotations, t: string, seen: set<string>, targets: set<string>)
    requires WellFormed(a, seen) && t in seen && seen <= targets && Collisionless(targets)
    ensures PendingMap(WithReference(a, t), t, seen)
    ensures forall u :: u in targets && RefersTo(a, u) ==> RefersTo(WithReference(a, t), u)
  {
    hide ReferenceKey;
    var b := WithReference(a, t);
    assert ReferenceKey(t) != DELAY_AT_KEY && ReferenceKey(t) != DELAY_TIME_KEY by { KeyShape(t); }
    forall u | u in targets && RefersTo(a, u) ensures RefersTo(b, u) {
      KeyShape(u);
    }
  }

  lemma KeyShape(t: string)
    ensures REFERENCE_PREFIX <= ReferenceKey(t)
    ensures ReferenceKey(t) != DELAY_TIME_KEY && ReferenceKey(t) != DELAY_AT_KEY
  {
  }

  /** In a well-formed map a present key of a target in play is the reference to it. */
  lemma KeyMeansReference(a: Annotations, t: string, seen: set<string>, targets: set<string>)
    requires WellFormed(a, seen) && t in targets && seen <= targets && Collisionless(targets)
    requires ReferenceKey(t) in a
    ensures RefersTo(a, t)
  {
    KeyShape(t);
  }

  lemma RemoveKeys(a: Annotations, keys: set<string>, targets: set<string>)
    requires WellFormed(a, targets)
    ensures WellFormed(a - keys, targets)
    ensures forall u :: ReferenceKey(u) !in keys && RefersTo(a, u) ==> RefersTo(a - keys, u)
  {
  }

  lemma WellFormedGrows(a: Annotations, targets: set<string>, more: set<string>)
    requires WellFormed(a, targets) && targets <= more
    ensures WellFormed(a, more)
  {
  }

  lemma NewPodIsMountPod(t: string, r: Request, targets: set<string>)
    requires t in targets && ValidRequest(r) && MountCommand.ValidVolumeId(VolumeOf(t))
    ensures MountPod(NewPod(t, r), targets)
    ensures var p := NewPod(t, r);
      && p.annotations.Keys == {ReferenceKey(t)} + (if r.delay == "" then {} else {DELAY_TIME_KEY})
      && RefersTo(p.annotations, t) && (r.delay != "" ==> p.annotations[DELAY_TIME_KEY] == r.delay)
      && p.labels == map["app.kubernetes.io/name" := "mosfs-mount"] && !p.deleting
      && |p.spec.containers| == 1 && p.spec.nodeName == NodeName && MountsVolumeOf(p, t)
      && p.spec.containers[0].requests == r.requests && p.spec.containers[0].limits == r.limits
  {
    hide MountPathOf, ReferenceKey, MountCommand.Print, MountCommand.Quote, MountCommand.MountPath;
    KeyShape(t);
    NewMountPodParses(r.isCe, r.source, VolumeOf(t), r.options, r.requests, r.limits, NodeName, t, r.delay);
  }

  lemma AnnotateKeeps(a: Annotations, key: string, value: string, targets: set<string>)
    requires WellFormed(a, targets) && !(REFERENCE_PREFIX <= key)
    ensures WellFormed(a[key := value], targets)
    ensures forall u :: RefersTo(a, u) ==> RefersTo(a[key := value], u)
  {
    hide ReferenceKey;
    forall u ensures ReferenceKey(u) != key {
      KeyShape(u);
    }
    assert REFERENCE_PREFIX <= DELAY_TIME_KEY && REFERENCE_PREFIX <= DELAY_AT_KEY;
  }

  lemma DeadlineIsWellFormed(a: Annotations, deleteAt: string, targets: set<string>)
    requires WellFormed(a, targets) && deleteAt != "" && ParseTime(deleteAt).Some?
    ensures WellFormed(a[DELAY_AT_KEY := deleteAt], targets)
    ensures forall u :: RefersTo(a, u) ==> RefersTo(a[DELAY_AT_KEY := deleteAt], u)
  {
    hide ReferenceKey, ParseTime;
    forall u ensures ReferenceKey(u) != DELAY_AT_KEY {
      KeyShape(u);
    }
  }

  lemma ReferencesAreSeen(a: Annotations, k: string, targets: set<string>)
    requires WellFormed(a, targets) && IsReference(a, k)
    ensures k in a && a[k] in targets
  {
    KeyShape(a[k]);
  }

  // --- pods ---------------------------------------------------------------------------------

  lemma RecreatedIsSound(cur: Pod, targets: set<string>)
    requires Sound(cur, targets)
    ensures MountPod(Recreated(cur), targets) && MountPod(Relieved(cur), targets)
  {
    hide WellFormed, MountPathOf;
    StepProperties.SpecsParse(cur);
  }

  /** No late request, however old its snapshot, spoils a pod. */
  lemma SentIsSound(pods: PodMap, w: Worker, a: Action, targets: set<string>)
    requires SoundPods(pods, targets) && Sound(w.cur, targets) && IsLate(a) && Ready(w, a)
    ensures SoundPods(Sent(pods, w, a).pods, targets)
  {
    hide WellFormed, MountPathOf, Dropped, ShouldDelay, Release, Unseat, Recreated, Relieved, IsIdle;
    hide IsResourceError, ResourcePath, GetPodStatus;
    RecreatedIsSound(w.cur, targets);
    ReleaseOfOurs(pods, w.name, w.cur);
    UnseatOfOurs(pods, w.name, w.cur);
    if w.name in pods {
      assert Sound(pods[w.name], targets);
      if a.LatePrune? {
        RemoveKeys(pods[w.name].annotations, Dropped(w.cur.annotations, w.live), targets);
      } else if a.LateArm? {
        ArmedIsWellFormed(pods[w.name].annotations, w.cur.annotations, a.env, targets);
      }
    }
  }

  lemma ArmedIsWellFormed(a: Annotations, past: Annotations, env: Env, targets: set<string>)
    requires WellFormed(a, targets) && ShouldDelay(past, env.now, env.zone).Arm?
    ensures WellFormed(a[DELAY_AT_KEY := ShouldDelay(past, env.now, env.zone).deleteAt], targets)
    ensures forall u :: RefersTo(a, u) ==>
      RefersTo(a[DELAY_AT_KEY := ShouldDelay(past, env.now, env.zone).deleteAt], u)
  {
    hide ReferenceKey, WellFormed;
    DeadlineIsFloor(past, env.now, env.zone, env.now, env.zone);
    DeadlineIsWellFormed(a, ShouldDelay(past, env.now, env.zone).deleteAt, targets);
  }

  lemma RunIsSound(pods: PodMap, name: string, live: set<string>, env: Env, targets: set<string>)
    requires SoundPods(pods, targets) && name in pods
    ensures SoundPods(Fresh(pods, name, live, env).pods, targets)
  {
    hide Ours, WellFormed, Outcome, Fresh;
    assert Sound(pods[name], targets);
    FreshOutcome(pods, name, live, env);
    StepProperties.StepKeepsSound(pods[name], live, env, targets);
  }

  lemma PodsStaySound(s: State, a: Action)
    requires Sane(s) && Enabled(s, a)
    ensures SoundPods(PodsAfter(s, a), s.seen)
  {
    hide PodOf, WellFormed, MountPathOf, Fresh, Sent, NewPod, Ready, MountCommand.ValidVolumeId, ReferenceKey;
    hide OneHolder, UnboundFirst, Collisionless, Lags;
    if IsLate(a) {
      SentIsSound(s.pods, s.workers[a.w], a, s.seen);
    } else if a.Create? {
      NewPodIsMountPod(a.t, a.request, s.seen);
    } else if a.RunStep? {
      RunIsSound(s.pods, a.name, s.live, a.env, s.seen);
    } else if a.Write? {
      assert PendingMap(s.calls[a.t].annotations, a.t, s.seen);
    } else if a.RemoveRef? && PodOf(a.t) in s.pods {
      RemoveKeys(s.pods[PodOf(a.t)].annotations, {ReferenceKey(a.t)}, s.seen);
    } else if a.Annotate? {
      AnnotateKeeps(s.pods[a.name].annotations, a.key, a.value, s.seen);
    }
  }

  // --- the other parts ----------------------------------------------------------------------

  lemma SettingStays(s: State, a: Action)
    requires Setting(s) && CallsInPlay(s) && Enabled(s, a)
    ensures Setting(Step(s, a))
  {
    hide PodOf, PodsAfter, CallsAfter, LostAfter, WorkersAfter, Ready, MountCommand.ValidVolumeId;
    hide Collisionless, TargetPath.PodUid, JLockFree, ValidRequest;
  }

  lemma CallsStayInPlay(s: State, a: Action)
    requires Setting(s) && CallsInPlay(s) && Enabled(s, a)
    ensures CallsInPlay(Step(s, a))
  {
    hide PodOf, PodsAfter, BoundAfter, LiveAfter, LostAfter, WorkersAfter, Ready, MountCommand.ValidVolumeId;
    hide Collisionless, HasPrefixedKey, RemoveAnnotations, ReferenceKey, WithReference, TargetsOf, JLockFree;
    hide ValidRequest;
  }

  lemma HolderStaysAlone(s: State, a: Action)
    requires OneHolder(s) && Enabled(s, a)
    ensures OneHolder(Step(s, a))
  {
    hide PodOf, PodsAfter, LostAfter, WorkersAfter, Ready, HasPrefixedKey, RemoveAnnotations, ReferenceKey;
    hide WithReference, TargetsOf, ValidRequest;
  }

  lemma UnboundStaysFirst(s: State, a: Action)
    requires UnboundFirst(s) && Enabled(s, a)
    ensures UnboundFirst(Step(s, a))
  {
    hide PodOf, PodsAfter, LostAfter, WorkersAfter, Ready, HasPrefixedKey, RemoveAnnotations, ReferenceKey;
    hide WithReference, TargetsOf, ValidRequest, JLockFree;
  }

  /** A call at `Replace` has just read the pod, or was there before. */
  lemma PendingStay(s: State, a: Action)
    requires Sane(s) && Enabled(s, a)
    ensures PendingMaps(Step(s, a))
  {
    hide PodOf, PodsAfter, LostAfter, WorkersAfter, Ready, HasPrefixedKey, RemoveAnnotations, ReferenceKey;
    hide WithReference, TargetsOf, ValidRequest, JLockFree, WellFormed, Ours, OneHolder, UnboundFirst, Lags;
    var s' := Step(s, a);
    if a.Read? {
      assert Sound(s.pods[PodOf(a.t)], s.seen);
      InsertReference(s.pods[PodOf(a.t)].annotations, a.t, s.seen, s.targets);
    }
    forall t | t in s.calls && s.calls[t].Replace? ensures PendingMap(s.calls[t].annotations, t, s'.seen) {
      WellFormedGrows(s.calls[t].annotations, s.seen, s'.seen);
    }
  }

  /** Listing only adds targets that nobody refers to yet. */
  lemma LagStays(s: State, a: Action, w: Worker)
    requires Sane(s) && Enabled(s, a) && Sound(w.cur, s.seen) && Lags(w, s.live)
    ensures Sound(w.cur, SeenAfter(s, a)) && Lags(w, LiveAfter(s, a))
  {
    hide WellFormed, Ours, IsReference, TargetPath.PodUid, Ready, PodOf, ValidRequest, JLockFree;
    hide SoundPods, CallsInPlay, OneHolder, UnboundFirst, PendingMaps, WorkersLag, Collisionless, MountCommand.ValidVolumeId;
    WellFormedGrows(w.cur.annotations, s.seen, SeenAfter(s, a));
    forall k | IsReference(w.cur.annotations, k)
      ensures k in w.cur.annotations && w.cur.annotations[k] in s.seen
    {
      ReferencesAreSeen(w.cur.annotations, k, s.seen);
    }
  }

  lemma WorkersStayBehind(s: State, a: Action)
    requires Sane(s) && Enabled(s, a)
    ensures WorkersLag(Step(s, a))
  {
    hide PodOf, PodsAfter, CallsAfter, BoundAfter, LostAfter, Sent, Ready, Sound, IsReference;
    hide TargetsOf, ValidRequest, JLockFree, OneHolder, UnboundFirst, PendingMaps, Setting, CallsInPlay;
    var s' := Step(s, a);
    forall w | w in s.workers ensures Sound(s.workers[w].cur, s'.seen) && Lags(s.workers[w], s'.live) {
      LagStays(s, a, s.workers[w]);
    }
    if a.Fetch? {
      LagStays(s, a, Fetched(a.name, s.pods[a.name]));
    }
  }

  // --- volumes ------------------------------------------------------------------------------

  lemma SameSpecMounts(p: Pod, q: Pod, t: string)
    requires MountPathOf(q.spec) == MountPathOf(p.spec) && MountsVolumeOf(p, t)
    ensures MountsVolumeOf(q, t)
  {
    hide MountPathOf, MountCommand.MountPath;
  }

  /** A late request leaves the command of a pod alone, or brings back that of its snapshot. */
  lemma SentMounts(pods: PodMap, w: Worker, a: Action, n: string)
    requires IsLate(a) && Ready(w, a) && AllOurs(w.cur.finalizers) && n in Sent(pods, w, a).pods
    ensures var q := Sent(pods, w, a).pods[n];
      || (n in pods && MountPathOf(q.spec) == MountPathOf(pods[n].spec))
      || (n == w.name && MountPathOf(q.spec) == MountPathOf(w.cur.spec))
  {
    hide MountPathOf, Dropped, ShouldDelay, Release, Unseat, WithoutResource, IsIdle, IsResourceError, ResourcePath;
    hide GetPodStatus, Releases;
    ReleaseOfOurs(pods, w.name, w.cur);
    UnseatOfOurs(pods, w.name, w.cur);
    StepProperties.SpecsParse(w.cur);
  }

  lemma RunMounts(pods: PodMap, name: string, live: set<string>, env: Env, n: string)
    requires name in pods && Ours(pods[name]) && n in Fresh(pods, name, live, env).pods
    ensures n in pods && MountPathOf(Fresh(pods, name, live, env).pods[n].spec) == MountPathOf(pods[n].spec)
  {
    hide Ours, MountPathOf, Fresh, IsResourceError, IsError, IsReady, ShouldDelay, Handled, WithoutResource;
    FreshOutcome(pods, name, live, env);
    StepProperties.SpecsParse(pods[name]);
  }

  lemma NewPodMounts(t: string, r: Request, u: string)
    requires ValidRequest(r) && MountCommand.ValidVolumeId(VolumeOf(u)) && PodOf(t) == PodOf(u)
    ensures '/' !in VolumeOf(t) && MountsVolumeOf(NewPod(t, r), u)
  {
    hide MountPathOf, ReferenceKey, MountCommand.Print, MountCommand.Quote, MountCommand.MountPath;
    PodsAreVolumes(t, u);
    NewMountPodParses(r.isCe, r.source, VolumeOf(t), r.options, r.requests, r.limits, NodeName, t, r.delay);
  }

  lemma PodStillMounts(s: State, a: Action, t: string)
    requires Sane(s) && Enabled(s, a) && t in s.targets && PodOf(t) in PodsAfter(s, a)
    ensures MountsVolumeOf(PodsAfter(s, a)[PodOf(t)], t)
  {
    hide PodOf, Fresh, Sent, NewPod, Ready, ReferenceKey, MountPathOf, MountCommand.MountPath, ValidRequest, JLockFree;
    hide OneHolder, UnboundFirst, PendingMaps, Lags, Collisionless, WellFormed, MountCommand.ValidVolumeId;
    var n := PodOf(t);
    var q := PodsAfter(s, a)[n];
    if IsLate(a) {
      SentMounts(s.pods, s.workers[a.w], a, n);
    } else if a.RunStep? {
      assert Sound(s.pods[a.name], s.seen);
      RunMounts(s.pods, a.name, s.live, a.env, n);
    } else if a.Create? && n !in s.pods {
      NewPodMounts(a.t, a.request, t);
    }
  }

  lemma VolumesStayServed(s: State, a: Action)
    requires Sane(s) && Enabled(s, a)
    ensures ServesVolumes(Step(s, a))
  {
    hide PodOf, PodsAfter, CallsAfter, LiveAfter, SeenAfter, BoundAfter, LostAfter, Sent, Ready, MountsVolumeOf;
    hide OneHolder, UnboundFirst, PendingMaps, WorkersLag, Setting, CallsInPlay, SoundPods, ValidRequest, JLockFree;
    forall t | t in s.targets && PodOf(t) in PodsAfter(s, a) ensures MountsVolumeOf(PodsAfter(s, a)[PodOf(t)], t) {
      PodStillMounts(s, a, t);
    }
  }

  lemma StepKeepsSane(s: State, a: Action)
    requires Sane(s) && Enabled(s, a)
    ensures Sane(Step(s, a))
  {
    hide ServesVolumes, Enabled, Setting, CallsInPlay, OneHolder, UnboundFirst, PendingMaps, WorkersLag, Ours, WellFormed;
    hide PodsAfter, CallsAfter, LiveAfter, BoundAfter, LostAfter, WorkersAfter, TargetsOf;
    SettingStays(s, a);
    CallsStayInPlay(s, a);
    HolderStaysAlone(s, a);
    UnboundStaysFirst(s, a);
    PendingStay(s, a);
    WorkersStayBehind(s, a);
    PodsStaySound(s, a);
    VolumesStayServed(s, a);
    forall n | n in PodsAfter(s, a) ensures Sound(PodsAfter(s, a)[n], SeenAfter(s, a)) {
      WellFormedGrows(PodsAfter(s, a)[n].annotations, s.seen, SeenAfter(s, a));
    }
  }

  lemma {:induction false} RunIsSane(states: seq<State>, actions: seq<Action>, i: nat)
    requires IsRun(states, actions) && i < |states|
    ensures Sane(states[i])
  {
    hide Sane, Init, Step, Enabled;
    if i == 0 {
      InitIsSane(states[0]);
    } else {
      RunIsSane(states, actions, i - 1);
      StepKeepsSane(states[i - 1], actions[i - 1]);
    }
  }

  /** In every run, one step on a terminating pod with references and without a resource error
      brings it back with the same labels, annotations and spec and with the finalizer: neither a
      foreign finalizer nor an unreadable command ever gets in the way. */
  lemma RunsRecover(states: seq<State>, actions: seq<Action>, i: nat, name: string, env: Env)
    requires IsRun(states, actions) && i < |states| && name in states[i].pods
    requires states[i].pods[name].deleting && !IsResourceError(states[i].pods[name].status)
    requires References(states[i].pods[name].annotations) != map[]
    ensures var p, r := states[i].pods[name], Fresh(states[i].pods, name, states[i].live, env);
      && r.err == Nil && SameElsewhere(states[i].pods, r.pods, name) && name in r.pods
      && var q := r.pods[name];
         && q.labels == p.labels && q.annotations == p.annotations && q.spec == p.spec
         && q.finalizers == [FINALIZER] && !q.deleting
  {
    hide IsRun, MountPathOf, WellFormed, IsResourceError, Fresh, ShouldDelay, Handled;
    RunIsSane(states, actions, i);
    assert Sound(states[i].pods[name], states[i].seen);
    FreshOutcome(states[i].pods, name, states[i].live, env);
  }
}
