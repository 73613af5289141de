/** The main invariant of the reference protocol: a bound target with a listed application pod
    keeps its mount pod, its finalizer and its reference, in every state of every run in which the
    recovery handlers do not act on outdated snapshots. */
module Safety {
  import opened Annotation
  import opened Pods
  import opened Store
  import opened Reconcile
  import opened Protocol
  import opened Sanity
  import StepProperties
  import MountCommand

  // --- statement ----------------------------------------------------------------------------

  /** The mount pod of `t` exists and refers to `t`. */
  ghost predicate Referenced(pods: PodMap, t: string) {
    PodOf(t) in pods && RefersTo(pods[PodOf(t)].annotations, t)
  }

  /** A recovery handler is between its halves, and about to bring the reference back. */
  ghost predicate Recovering(s: State, t: string) {
    exists w :: w in s.workers && Restores(s.workers[w], t)
  }

  predicate Restores(w: Worker, t: string) {
    w.Released? && w.name == PodOf(t) && RefersTo(w.cur.annotations, t)
  }

  ghost predicate Kept(s: State, t: string) {
    Referenced(s.pods, t) || Recovering(s, t)
  }

  /** `t` is bound, or about to be, its application pod is listed, and its last patch was not lost. */
  ghost predicate Protected(s: State, t: string) {
    t in s.live && t !in s.lost && (t in s.bound || At(s, t, Bind))
  }

  /** Every such target has a mount pod of its own volume, perhaps terminating, with finalizer and
      reference, or a handler is about to recreate such a pod with the reference. */
  ghost predicate Safe(s: State) {
    forall t :: t in s.bound && t in s.live && t !in s.lost ==> Holds(s, t)
  }

  ghost predicate Holds(s: State, t: string) {
    || (Referenced(s.pods, t) && FINALIZER in s.pods[PodOf(t)].finalizers && MountsVolumeOf(s.pods[PodOf(t)], t))
    || exists w :: w in s.workers && Restores(s.workers[w], t) && MountsVolumeOf(s.workers[w].cur, t)
  }

  // --- when recovery is safe ----------------------------------------------------------------

  /** The snapshot has every live reference of the pod. */
  ghost predicate Covers(cur: Pod, p: Pod, live: set<string>) {
    forall t :: t in live && RefersTo(p.annotations, t) ==> RefersTo(cur.annotations, t)
  }

  /** A handler is between its halves for this pod. */
  ghost predicate InRecovery(s: State, name: string) {
    exists w :: w in s.workers && s.workers[w].Released? && s.workers[w].name == name
  }

  /** The finalizer is removed from the terminating pod of the snapshot, the resource path finds a pod
      that nobody deleted, both snapshots have the live references; nobody creates the pod, and the
      driver does not die, between taking a pod away and creating its replacement. */
  ghost predicate Careful(s: State, a: Action)
    requires Enabled(s, a)
  {
    match a
    case LateRelease(w) =>
      var name := s.workers[w].name;
      name in s.pods ==> s.pods[name].deleting && Covers(s.workers[w].cur, s.pods[name], s.live)
    case LateRelieve(w) =>
      var name := s.workers[w].name;
      name in s.pods ==> !s.pods[name].deleting && Covers(s.workers[w].cur, s.pods[name], s.live)
    case Create(t, _) => PodOf(t) in s.pods || !InRecovery(s, PodOf(t))
    case Leave(w) => !s.workers[w].Released?
    case _ => true
  }

  // --- inductive invariant ------------------------------------------------------------------

  ghost predicate Upright(pods: PodMap) {
    forall n :: n in pods ==> pods[n].finalizers != []
  }

  /** Between the halves there is no pod, and only one handler. */
  ghost predicate OneRecovery(s: State) {
    && (forall w :: w in s.workers && s.workers[w].Released? ==> s.workers[w].name !in s.pods)
    && (forall w, v :: w in s.workers && v in s.workers && SameRecovery(s.workers[w], s.workers[v]) ==> w == v)
  }

  predicate SameRecovery(w: Worker, v: Worker) {
    w.Released? && v.Released? && w.name == v.name
  }

  ghost predicate KeepsReferences(s: State) {
    forall t :: Protected(s, t) ==> Kept(s, t)
  }

  /** The map a publish call is about to write holds every protected reference of that pod. */
  ghost predicate PendingCovers(s: State) {
    forall t, u :: t in s.calls && s.calls[t].Replace? && Protected(s, u) && PodOf(u) == PodOf(t) ==>
      RefersTo(s.calls[t].annotations, u)
  }

  ghost predicate Inv(s: State) {
    Sane(s) && Upright(s.pods) && OneRecovery(s) && KeepsReferences(s) && PendingCovers(s)
  }

  lemma InvIsSafe(s: State)
    requires Inv(s)
    ensures Safe(s)
  {
    hide WellFormed, MountPathOf, PodOf, RefersTo, PendingCovers, OneRecovery, MountsVolumeOf, Holds;
    forall t | t in s.bound && t in s.live && t !in s.lost ensures Holds(s, t) {
      assert Protected(s, t);
      KeptHolds(s, t);
    }
  }

  lemma KeptHolds(s: State, t: string)
    requires Sane(s) && Upright(s.pods) && t in s.targets && Kept(s, t)
    ensures Holds(s, t)
  {
    hide WellFormed, MountPathOf, PodOf, RefersTo, MountsVolumeOf, OneHolder, UnboundFirst, PendingMaps, Lags;
    if Referenced(s.pods, t) {
      assert Sound(s.pods[PodOf(t)], s.seen);
      assert s.pods[PodOf(t)].finalizers[0] == FINALIZER;
    } else {
      var w :| w in s.workers && Restores(s.workers[w], t);
    }
  }

  lemma InitIsInv(s: State)
    requires Init(s)
    ensures Inv(s)
  {
    hide Sane, Ours, WellFormed;
    InitIsSane(s);
  }

  // --- the server keeps live references -----------------------------------------------------

  /** No target that is live now is among the references a late `Run` drops. */
  lemma LateDropIsDead(s: State, w: int, t: string)
    requires Sane(s) && Enabled(s, LatePrune(w)) && t in s.live
    ensures ReferenceKey(t) !in Dropped(s.workers[w].cur.annotations, s.workers[w].live)
  {
    var a, live := s.workers[w].cur.annotations, s.workers[w].live;
    KeyShape(t);
    if ReferenceKey(t) in a {
      KeyMeansReference(a, t, s.seen, s.targets);
      assert IsReference(a, ReferenceKey(t));
      assert t in live;
    }
  }

  /** A remove patch from an old snapshot, and a deadline from one, cost no live reference. */
  lemma LatePatchKeeps(s: State, a: Action, t: string)
    requires Sane(s) && Enabled(s, a) && (a.LatePrune? || a.LateArm?)
    requires t in s.live && Referenced(s.pods, t)
    ensures Referenced(PodsAfter(s, a), t)
  {
    hide PodOf, WellFormed, Ours, ReferenceKey, Dropped, ShouldDelay, IsIdle;
    hide Setting, CallsInPlay, OneHolder, UnboundFirst, PendingMaps, WorkersLag;
    var w := s.workers[a.w];
    if w.name in s.pods {
      assert Sound(s.pods[w.name], s.seen);
      if a.LatePrune? {
        LateDropIsDead(s, a.w, t);
      } else {
        ArmedIsWellFormed(s.pods[w.name].annotations, w.cur.annotations, a.env, s.seen);
      }
    }
  }

  lemma RestoringParses(cur: Pod, t: string, targets: set<string>)
    requires Sound(cur, targets) && RefersTo(cur.annotations, t)
    ensures Recovers(cur)
  {
    assert ReferenceKey(t) in References(cur.annotations);
  }

  /** Which live references a release keeps, on the server or in the hands of its handler: all of
      them if the pod is not terminating, else those of the snapshot. */
  lemma ReleaseKeepsExactly(s: State, w: int, t: string)
    requires Sane(s) && Enabled(s, LateRelease(w))
    requires Referenced(s.pods, t) && PodOf(t) == s.workers[w].name && !Recovering(s, t)
    ensures Kept(Step(s, LateRelease(w)), t)
       <==> !s.pods[PodOf(t)].deleting || RefersTo(s.workers[w].cur.annotations, t)
  {
    hide PodOf, WellFormed, RefersTo, References, IsResourceError, Release, MountPathOf, Recovers;
    hide OneHolder, UnboundFirst, PendingMaps, Setting, CallsInPlay, Lags;
    var cur, s' := s.workers[w].cur, Step(s, LateRelease(w));
    assert Sound(cur, s.seen) && Sound(s.pods[PodOf(t)], s.seen);
    ReleaseOfOurs(s.pods, PodOf(t), cur);
    if RefersTo(cur.annotations, t) {
      RestoringParses(cur, t, s.seen);
      assert s.pods[PodOf(t)].deleting ==> w in s'.workers && Restores(s'.workers[w], t);
    }
  }

  /** Which references the resource path keeps when it takes a pod away: none of a terminating pod; all
      of a pod without finalizer, which it fails to touch; else those of the snapshot. */
  lemma RelieveKeepsExactly(s: State, w: int, t: string)
    requires Sane(s) && Enabled(s, LateRelieve(w))
    requires Referenced(s.pods, t) && PodOf(t) == s.workers[w].name && !Recovering(s, t)
    ensures Kept(Step(s, LateRelieve(w)), t)
       <==> !s.pods[PodOf(t)].deleting &&
            (s.pods[PodOf(t)].finalizers == [] || RefersTo(s.workers[w].cur.annotations, t))
  {
    hide PodOf, WellFormed, RefersTo, Unseat, MountPathOf, GetPodStatus, ResourcePath;
    hide OneHolder, UnboundFirst, PendingMaps, Setting, CallsInPlay, Lags;
    var cur, s' := s.workers[w].cur, Step(s, LateRelieve(w));
    assert Sound(cur, s.seen) && Sound(s.pods[PodOf(t)], s.seen);
    UnseatOfOurs(s.pods, PodOf(t), cur);
    if RefersTo(cur.annotations, t) && !s.pods[PodOf(t)].deleting && s.pods[PodOf(t)].finalizers != [] {
      assert w in s'.workers && Restores(s'.workers[w], t);
    }
  }

  /** The reference that a worker is about to bring back is there after its creation exactly if there
      was no pod of that name, or one that has the reference. */
  lemma RecoverKeepsExactly(s: State, w: int, t: string)
    requires Enabled(s, LateRecover(w)) && Restores(s.workers[w], t)
    requires forall v :: v in s.workers && Restores(s.workers[v], t) ==> v == w
    ensures Kept(Step(s, LateRecover(w)), t) <==> PodOf(t) !in s.pods || Referenced(s.pods, t)
  {
    hide PodOf, RefersTo, CallsAfter, BoundAfter, LiveAfter, SeenAfter, LostAfter;
    assert Replacement(s.workers[w]).annotations == s.workers[w].cur.annotations;
  }

  /** A late request touches no other pod. */
  lemma SentFrame(pods: PodMap, w: Worker, a: Action)
    requires IsLate(a) && Ready(w, a) && AllOurs(w.cur.finalizers)
    ensures SameElsewhere(pods, Sent(pods, w, a).pods, w.name)
  {
    hide Release, Unseat, Recreated, Relieved, ShouldDelay, IsIdle, GetPodStatus, ResourcePath, Releases, Dropped;
    ReleaseOfOurs(pods, w.name, w.cur);
    UnseatOfOurs(pods, w.name, w.cur);
  }

  /** Every careful late request keeps every live reference. */
  lemma LateKeeps(s: State, a: Action, t: string)
    requires Sane(s) && Upright(s.pods) && OneRecovery(s) && Enabled(s, a) && IsLate(a) && Careful(s, a)
    requires t in s.live && Referenced(s.pods, t)
    ensures Kept(Step(s, a), t)
  {
    hide PodOf, RefersTo, WellFormed, MountPathOf, Sane, Recovering, OneRecovery, Sent, Ready;
    hide CallsAfter, BoundAfter, LiveAfter, SeenAfter, LostAfter, WorkersAfter, Upright, Careful;
    SoundParts(s);
    var w := s.workers[a.w];
    if PodOf(t) != w.name {
      SentFrame(s.pods, w, a);
    } else if a.LatePrune? || a.LateArm? {
      LatePatchKeeps(s, a, t);
    } else if a.LateRelease? || a.LateRelieve? {
      LateRecoveryKeeps(s, a, t);
    } else {
      LateMarkKeeps(s.pods, w, a, t);
    }
  }

  lemma LateRecoveryKeeps(s: State, a: Action, t: string)
    requires Sane(s) && Upright(s.pods) && OneRecovery(s) && Enabled(s, a) && Careful(s, a)
    requires (a.LateRelease? || a.LateRelieve?) && PodOf(t) == s.workers[a.w].name
    requires t in s.live && Referenced(s.pods, t)
    ensures Kept(Step(s, a), t)
  {
    hide PodOf, RefersTo, Sane, Recovering, OneRecovery, Sent, Ready, Upright, InRecovery, Enabled;
    hide PodsAfter, CallsAfter, BoundAfter, LiveAfter, SeenAfter, LostAfter, WorkersAfter;
    NotYetRecovering(s, t);
    if a.LateRelease? {
      ReleaseKeepsExactly(s, a.w, t);
    } else {
      RelieveKeepsExactly(s, a.w, t);
    }
  }

  lemma LateMarkKeeps(pods: PodMap, w: Worker, a: Action, t: string)
    requires (a.LateMark? || a.LateRecover?) && Ready(w, a) && Upright(pods) && Referenced(pods, t)
    ensures Referenced(Sent(pods, w, a).pods, t) || PodOf(t) != w.name
  {
    hide PodOf, RefersTo;
  }

  lemma MarkKeeps(pods: PodMap, name: string, t: string)
    requires Upright(pods) && Referenced(pods, t)
    ensures Referenced(DeletePod(pods, name).pods, t)
  {
    hide PodOf, RefersTo;
  }

  lemma SoundParts(s: State)
    requires Sane(s)
    ensures SoundPods(s.pods, s.seen)
    ensures forall w :: w in s.workers ==> Sound(s.workers[w].cur, s.seen)
  {
    hide Ours, WellFormed, Lags;
  }

  lemma NotYetRecovering(s: State, t: string)
    requires OneRecovery(s) && PodOf(t) in s.pods
    ensures !Recovering(s, t)
  {
  }

  lemma RunKeeps(s: State, a: Action, t: string)
    requires Sane(s) && Upright(s.pods) && Enabled(s, a) && a.RunStep?
    requires t in s.live && Referenced(s.pods, t)
    ensures Referenced(PodsAfter(s, a), t)
  {
    hide PodOf, RefersTo, Ours, WellFormed, Outcome, Fresh, Sane;
    SoundParts(s);
    assert MountPod(s.pods[a.name], s.seen);
    FreshOutcome(s.pods, a.name, s.live, a.env);
    StepProperties.StepKeepsLive(s.pods[a.name], s.live, a.env, s.seen);
  }

  lemma RemoveKeepsOthers(s: State, t: string, u: string)
    requires Sane(s) && t in s.targets && u in s.targets && u != t && Referenced(s.pods, u)
    ensures Referenced(RemoveAnnotations(s.pods, PodOf(t), {ReferenceKey(t)}).pods, u)
  {
    hide PodOf, Sound, ReferenceKey, OneHolder, UnboundFirst, PendingMaps, WorkersLag;
  }

  // --- parts of the invariant ---------------------------------------------------------------

  lemma ReleaseStaysUpright(s: State, a: Action)
    requires Sane(s) && Upright(s.pods) && Enabled(s, a) && a.LateRelease? && Careful(s, a)
    ensures Upright(PodsAfter(s, a))
  {
    hide PodOf, WellFormed, MountPathOf, Release, Covers, InRecovery, Sane, Releases, Recovers;
    SoundParts(s);
    ReleaseOfOurs(s.pods, s.workers[a.w].name, s.workers[a.w].cur);
  }

  lemma LateStaysUpright(s: State, a: Action)
    requires Sane(s) && Upright(s.pods) && Enabled(s, a) && IsLate(a) && Careful(s, a)
    ensures Upright(PodsAfter(s, a))
  {
    hide PodOf, WellFormed, MountPathOf, Unseat, Careful, Sane, Ready, Dropped, ShouldDelay;
    if a.LateRelease? {
      ReleaseStaysUpright(s, a);
    } else {
      SoundParts(s);
      UnseatOfOurs(s.pods, s.workers[a.w].name, s.workers[a.w].cur);
    }
  }

  lemma RunStaysUpright(s: State, name: string, env: Env)
    requires Sane(s) && Upright(s.pods) && name in s.pods
    ensures Upright(Fresh(s.pods, name, s.live, env).pods)
  {
    hide Ours, WellFormed, Fresh, Outcome, Sane;
    SoundParts(s);
    var p := s.pods[name];
    assert MountPod(p, s.seen);
    FreshOutcome(s.pods, name, s.live, env);
    StepProperties.StepKeepsLive(p, s.live, env, s.seen);
  }

  lemma StaysUpright(s: State, a: Action)
    requires Sane(s) && Upright(s.pods) && Enabled(s, a) && (IsLate(a) ==> Careful(s, a))
    ensures Upright(PodsAfter(s, a))
  {
    hide PodOf, Fresh, Sent, NewPod, ReferenceKey, Careful, Sane, Ready, ValidRequest, JLockFree;
    if IsLate(a) {
      LateStaysUpright(s, a);
    } else if a.RunStep? {
      RunStaysUpright(s, a.name, a.env);
    } else if a.Create? {
      NewPodHasFinalizer(a.t, a.request);
    }
  }

  lemma NewPodHasFinalizer(t: string, r: Request)
    requires '/' !in VolumeOf(t)
    ensures NewPod(t, r).finalizers == [FINALIZER]
  {
    hide ReferenceKey, MountCommand.Print, MountCommand.Quote, MountCommand.MountPath;
  }

  /** Pods only appear by a publish call or at the end of a recovery. */
  lemma PodsAppear(s: State, a: Action, n: string)
    requires Sane(s) && Enabled(s, a) && n in PodsAfter(s, a) && n !in s.pods
    ensures a.Create? || a.LateRecover?
    ensures a.Create? ==> n == PodOf(a.t)
    ensures a.LateRecover? ==> a.w in s.workers && s.workers[a.w].Released? && n == s.workers[a.w].name
  {
    hide PodOf, WellFormed, MountPathOf, Fresh, Release, Unseat, NewPod, ReferenceKey, Sane, Outcome;
    hide GetPodStatus, ResourcePath, IsIdle, ShouldDelay, Releases, Dropped, ValidRequest, JLockFree;
    SoundParts(s);
    if IsLate(a) {
      var w := s.workers[a.w];
      ReleaseOfOurs(s.pods, w.name, w.cur);
      UnseatOfOurs(s.pods, w.name, w.cur);
    } else if a.RunStep? {
      assert Sound(s.pods[a.name], s.seen);
      FreshOutcome(s.pods, a.name, s.live, a.env);
    }
  }

  /** A worker between its halves was there before, or has just taken a pod away. */
  lemma ReleasedBefore(s: State, a: Action, w: int)
    requires Sane(s) && Enabled(s, a) && Careful(s, a)
    requires w in Step(s, a).workers && Step(s, a).workers[w].Released?
    ensures w in s.workers && Step(s, a).workers[w].name == s.workers[w].name
    ensures s.workers[w].Released? ==> !(a.LateRecover? && a.w == w)
    ensures !s.workers[w].Released? ==>
      (a == LateRelease(w) || a == LateRelieve(w))
      && s.workers[w].name in s.pods && s.workers[w].name !in PodsAfter(s, a)
  {
    hide PodOf, WellFormed, MountPathOf, Fresh, Release, Unseat, ReferenceKey, Sane, Outcome, Covers;
    hide CallsAfter, BoundAfter, LiveAfter, SeenAfter, LostAfter, IsResourceError, Recovers, GetPodStatus;
    hide ResourcePath, IsIdle, ShouldDelay, Releases, InRecovery;
    SoundParts(s);
    if a.LateRelease? || a.LateRelieve? {
      var v := s.workers[a.w];
      ReleaseOfOurs(s.pods, v.name, v.cur);
      UnseatOfOurs(s.pods, v.name, v.cur);
    }
  }

  lemma RecoveryStaysAlone(s: State, a: Action)
    requires Inv(s) && Enabled(s, a) && Careful(s, a)
    ensures OneRecovery(Step(s, a))
  {
    hide PodOf, Sane, Upright, KeepsReferences, PendingCovers, PodsAfter, CallsAfter, BoundAfter, LiveAfter;
    hide SeenAfter, LostAfter, WorkersAfter, Enabled, Covers;
    var s' := Step(s, a);
    forall w | w in s'.workers && s'.workers[w].Released? ensures s'.workers[w].name !in s'.pods {
      ReleasedBefore(s, a, w);
      if s'.workers[w].name in s'.pods {
        PodsAppear(s, a, s'.workers[w].name);
      }
    }
    forall w, v | w in s'.workers && v in s'.workers && SameRecovery(s'.workers[w], s'.workers[v])
      ensures w == v
    {
      ReleasedBefore(s, a, w);
      ReleasedBefore(s, a, v);
    }
  }

  /** Only a publish call that found or wrote its reference becomes protected. */
  lemma ProtectedBefore(s: State, a: Action, t: string)
    requires Sane(s) && Enabled(s, a) && Protected(Step(s, a), t) && !Protected(s, t)
    ensures (a.Read? || a.Write?) && a.t == t && At(Step(s, a), t, Bind)
  {
    hide PodOf, PodsAfter, WorkersAfter, Ready, HasPrefixedKey, RemoveAnnotations, ReplaceAnnotations;
    hide ReferenceKey, WithReference, TargetPath.PodUid, ValidRequest, JLockFree, OneHolder, SoundPods;
    hide PendingMaps, WorkersLag, Collisionless, MountCommand.ValidVolumeId;
  }

  /** `AddRefOfMount` returned and its patch was not lost: the reference is there. */
  lemma AddRefAddsReference(s: State, a: Action)
    requires Sane(s) && Enabled(s, a) && (a.Read? || a.Write?)
    requires At(Step(s, a), a.t, Bind) && a.t !in Step(s, a).lost
    ensures Referenced(Step(s, a).pods, a.t)
  {
    hide PodOf, WellFormed, Ours, Collisionless, WithReference, ReferenceKey, JLockFree;
    hide OneHolder, UnboundFirst, WorkersLag;
    if a.Read? {
      assert Sound(s.pods[PodOf(a.t)], s.seen);
      KeyMeansReference(s.pods[PodOf(a.t)].annotations, a.t, s.seen, s.targets);
    }
  }

  /** A worker between its halves stays there unless it recovers or leaves. */
  lemma RecoveringStays(s: State, a: Action, t: string)
    requires Enabled(s, a) && Careful(s, a) && OneRecovery(s) && Recovering(s, t)
    ensures Kept(Step(s, a), t)
  {
    hide PodOf, RefersTo, References, MountPathOf, Covers, InRecovery, CallsAfter, BoundAfter, LiveAfter;
    hide SeenAfter, LostAfter, ShouldDelay, IsIdle, Releases, Recovers, ResourcePath, GetPodStatus;
    hide Release, Unseat, Fresh, NewPod, ReferenceKey, Dropped;
    var s' := Step(s, a);
    var w :| w in s.workers && Restores(s.workers[w], t);
    if a.LateRecover? && a.w == w {
      assert s'.pods[PodOf(t)] == Replacement(s.workers[w]);
    } else {
      assert w in s'.workers && Restores(s'.workers[w], t);
    }
  }

  /** The sections under `JLock` keep a protected reference. */
  lemma CallKeeps(s: State, a: Action, t: string)
    requires Inv(s) && Enabled(s, a) && (a.Write? || a.RemoveRef?) && Protected(s, t) && Referenced(s.pods, t)
    ensures Referenced(PodsAfter(s, a), t)
  {
    hide PodOf, RefersTo, ReferenceKey, SoundPods, OneHolder, PendingMaps, WorkersLag, OneRecovery, Upright;
    hide KeepsReferences, RemoveAnnotations, Collisionless, MountCommand.ValidVolumeId;
    if a.RemoveRef? {
      assert a.t != t;
      RemoveKeepsOthers(s, a.t, t);
    }
  }

  /** So do the kubelet, other clients and the requests by pod name of the calls. */
  lemma ClientKeeps(s: State, a: Action, t: string)
    requires Inv(s) && Enabled(s, a) && Referenced(s.pods, t)
    requires a.Create? || a.ReapPod? || a.Evict? || a.Report? || a.Annotate?
    ensures Referenced(PodsAfter(s, a), t)
  {
    hide PodOf, RefersTo, NewPod, ValidRequest, DeletePod, Sane, Upright, OneRecovery, KeepsReferences;
    hide PendingCovers, WellFormed, Ours;
    if a.ReapPod? {
      MarkKeeps(s.pods, PodOf(a.t), t);
    } else if a.Evict? {
      MarkKeeps(s.pods, a.name, t);
    } else if a.Annotate? {
      SoundParts(s);
      AnnotateKeeps(s.pods[a.name].annotations, a.key, a.value, s.seen);
    }
  }

  lemma ReferencedStays(s: State, a: Action, t: string)
    requires Inv(s) && Enabled(s, a) && Careful(s, a) && Protected(s, t) && Referenced(s.pods, t)
    ensures Kept(Step(s, a), t)
  {
    hide PodOf, RefersTo, Careful, Fresh, Sent, NewPod, ReferenceKey, Recovering, Enabled, Referenced;
    hide CallsAfter, BoundAfter, LiveAfter, SeenAfter, LostAfter, WorkersAfter;
    hide Sane, Upright, OneRecovery, KeepsReferences, PendingCovers;
    hide DeletePod, CreatePod, ReplaceAnnotations, RemoveAnnotations, AddAnnotation;
    if IsLate(a) {
      LateKeeps(s, a, t);
    } else if a.RunStep? {
      RunKeeps(s, a, t);
    } else if a.Write? || a.RemoveRef? {
      CallKeeps(s, a, t);
    } else if a.Create? || a.ReapPod? || a.Evict? || a.Report? || a.Annotate? {
      ClientKeeps(s, a, t);
    } else {
      assert PodsAfter(s, a) == s.pods;
    }
  }

  lemma ReferencesStay(s: State, a: Action)
    requires Inv(s) && Enabled(s, a) && Careful(s, a)
    ensures KeepsReferences(Step(s, a))
  {
    hide Sane, Upright, OneRecovery, PendingCovers, Protected, Step, Enabled, Referenced, Recovering;
    hide PodOf, Careful;
    forall t | Protected(Step(s, a), t) ensures Kept(Step(s, a), t) {
      if !Protected(s, t) {
        ProtectedBefore(s, a, t);
        NewlyReferenced(s, a);
      } else if Recovering(s, t) {
        RecoveringStays(s, a, t);
      } else {
        ReferencedStays(s, a, t);
      }
    }
  }

  lemma NewlyReferenced(s: State, a: Action)
    requires Sane(s) && Enabled(s, a) && (a.Read? || a.Write?)
    requires At(Step(s, a), a.t, Bind) && Protected(Step(s, a), a.t)
    ensures Kept(Step(s, a), a.t)
  {
    hide Sane, Step, Enabled, Referenced, Recovering;
    AddRefAddsReference(s, a);
  }

  /** A call at `Replace` was there before, with the same map, and nobody else writes; or it has just
      read the pod. */
  lemma PendingBefore(s: State, a: Action, t: string)
    requires OneHolder(s) && Enabled(s, a) && t in CallsAfter(s, a) && CallsAfter(s, a)[t].Replace?
    ensures a == Read(t) ||
      (t in s.calls && s.calls[t] == CallsAfter(s, a)[t] && !a.Read? && !a.Write?)
    ensures a == Read(t) ==> CallsAfter(s, a)[t].annotations == WithReference(s.pods[PodOf(t)].annotations, t)
  {
    hide PodOf, WithReference, ReferenceKey, HasPrefixedKey, RemoveAnnotations, Ready, ValidRequest, TargetsOf;
  }

  lemma StillCovered(s: State, a: Action, t: string, u: string)
    requires Inv(s) && Enabled(s, a)
    requires t in CallsAfter(s, a) && CallsAfter(s, a)[t].Replace?
    requires Protected(Step(s, a), u) && PodOf(u) == PodOf(t)
    ensures RefersTo(CallsAfter(s, a)[t].annotations, u)
  {
    hide PodOf, RefersTo, WithReference, Enabled, Protected, PodsAfter, CallsAfter, BoundAfter, LiveAfter;
    hide SeenAfter, LostAfter, WorkersAfter;
    hide Sane, Upright, OneRecovery, KeepsReferences, PendingCovers;
    HolderIsUnique(s);
    PendingBefore(s, a, t);
    if !Protected(s, u) {
      ProtectedBefore(s, a, u);
    }
    if a == Read(t) {
      ReadRefers(s, t, u);
    } else {
      PendingRefers(s, t, u);
    }
  }

  /** The map read and edited under `JLock` holds every protected reference of the pod, and no other
      call becomes protected before it is written. */
  lemma PendingStaysCovering(s: State, a: Action)
    requires Inv(s) && Enabled(s, a)
    ensures PendingCovers(Step(s, a))
  {
    hide PodOf, RefersTo, PodsAfter, CallsAfter, LiveAfter, BoundAfter, LostAfter, SeenAfter, WorkersAfter;
    hide Sane, Upright, OneRecovery, KeepsReferences, Protected, Enabled;
    forall t, u | t in CallsAfter(s, a) && CallsAfter(s, a)[t].Replace? && Protected(Step(s, a), u) && PodOf(u) == PodOf(t)
      ensures RefersTo(CallsAfter(s, a)[t].annotations, u)
    {
      StillCovered(s, a, t, u);
    }
  }

  lemma HolderIsUnique(s: State)
    requires Sane(s)
    ensures OneHolder(s)
  {
  }

  lemma PendingRefers(s: State, t: string, u: string)
    requires PendingCovers(s) && t in s.calls && s.calls[t].Replace? && Protected(s, u) && PodOf(u) == PodOf(t)
    ensures RefersTo(s.calls[t].annotations, u)
  {
  }

  lemma ReadRefers(s: State, t: string, u: string)
    requires Inv(s) && Enabled(s, Read(t)) && Protected(s, u) && PodOf(u) == PodOf(t)
    ensures RefersTo(WithReference(s.pods[PodOf(t)].annotations, t), u)
  {
    hide PodOf, RefersTo, WithReference, ReferenceKey, Upright, Ours, WellFormed, JLockFree;
    hide OneHolder, UnboundFirst, PendingMaps, WorkersLag, PendingCovers, Collisionless;
    NotYetRecovering(s, u);
    assert Sound(s.pods[PodOf(t)], s.seen);
    InsertReference(s.pods[PodOf(t)].annotations, t, s.seen, s.targets);
  }

  // --- all steps, all runs ------------------------------------------------------------------

  lemma StepKeepsInv(s: State, a: Action)
    requires Inv(s) && Enabled(s, a) && Careful(s, a)
    ensures Inv(Step(s, a))
  {
    hide Sane, Enabled, Careful, OneRecovery, KeepsReferences, PendingCovers, Upright;
    hide PodsAfter, CallsAfter, BoundAfter, LiveAfter, SeenAfter, LostAfter, WorkersAfter;
    StepKeepsSane(s, a);
    StaysUpright(s, a);
    RecoveryStaysAlone(s, a);
    ReferencesStay(s, a);
    PendingStaysCovering(s, a);
  }

  ghost predicate CarefulRun(states: seq<State>, actions: seq<Action>) {
    IsRun(states, actions) && forall i :: 0 <= i < |actions| ==> Careful(states[i], actions[i])
  }

  lemma {:induction false} RunKeepsInv(states: seq<State>, actions: seq<Action>, i: nat)
    requires CarefulRun(states, actions) && i < |states|
    ensures Inv(states[i])
  {
    hide Inv, Init, Step, Enabled, Careful;
    if i == 0 {
      InitIsInv(states[0]);
    } else {
      RunKeepsInv(states, actions, i - 1);
      StepKeepsInv(states[i - 1], actions[i - 1]);
    }
  }

  /** Every state of every careful run is safe. */
  lemma CarefulRunsAreSafe(states: seq<State>, actions: seq<Action>)
    requires CarefulRun(states, actions)
    ensures forall i :: 0 <= i < |states| ==> Safe(states[i])
  {
    hide Inv, Init, Step, Enabled, Safe, CarefulRun;
    forall i | 0 <= i < |states| ensures Safe(states[i]) {
      RunKeepsInv(states, actions, i);
      InvIsSafe(states[i]);
    }
  }
}
