/** Publish and unpublish: when `AddRefOfMount` adds its reference, how long that reference lasts, and
    which pods `JUmount` deletes. */
module Publishers {
  import opened Annotation
  import opened Pods
  import opened Store
  import opened Reconcile
  import opened Protocol
  import opened Sanity
  import opened Safety
  import opened Workers
  import StepProperties

  // --- lost patches -------------------------------------------------------------------------

  ghost predicate AtReplace(s: State, t: string) {
    t in s.calls && s.calls[t].Replace?
  }

  lemma WriteDecides(s: State, t: string, delivered: bool)
    requires Sane(s) && Enabled(s, Write(t, delivered))
    ensures Referenced(PodsAfter(s, Write(t, delivered)), t)
       <==> Effective(s, Write(t, delivered)) || Referenced(s.pods, t)
  {
    hide PodOf, RefersTo, Setting, CallsInPlay, SoundPods, OneHolder, UnboundFirst, WorkersLag, WellFormed;
  }

  /** The only call at `Replace` is the one that holds `JLock`. */
  lemma OthersDoNotWrite(s: State, a: Action, t: string)
    requires Sane(s) && Enabled(s, a) && t in s.calls && HoldsJLock(s.calls[t]) && (a.Write? || a.Create?)
    ensures a.Write? ==> a.t == t
    ensures a.Create? ==> a.t != t && a.t in s.targets && t in s.targets && ReferenceKey(a.t) != ReferenceKey(t)
  {
    hide PodOf, SoundPods, UnboundFirst, WorkersLag, PendingMaps, ReferenceKey, ValidRequest;
  }

  lemma NewPodRefersTo(t: string, r: Request, u: string)
    requires '/' !in VolumeOf(t) && ReferenceKey(u) != ReferenceKey(t)
    ensures !RefersTo(NewPod(t, r).annotations, u)
  {
    hide ReferenceKey, MountCommand.Print, MountCommand.Quote, MountCommand.MountPath;
    KeyShape(u);
  }

  /** While a publish call holds `JLock`, nobody else adds its reference, but for a worker that brings
      it back from an old snapshot. */
  lemma StaysUnreferenced(s: State, a: Action, t: string)
    requires Sane(s) && Enabled(s, a) && AtReplace(s, t) && !Referenced(s.pods, t)
    requires !(a.Write? && a.t == t) && !LatePlants(s, a, PodOf(t))
    ensures !Referenced(PodsAfter(s, a), t)
  {
    hide PodOf, RefersTo, Sane, Fresh, Sent, NewPod, ReferenceKey, Ready, StepProperties.Replaces, JLockFree;
    hide ValidRequest, RemoveAnnotations, ReplaceAnnotations, AddAnnotation, DeletePod;
    var name := PodOf(t);
    if a.Write? || a.Create? {
      OthersDoNotWrite(s, a, t);
      if a.Create? {
        NewPodRefersTo(a.t, a.request, t);
      }
    } else if a.RunStep? && a.name == name {
      RunStaysUnreferenced(s, a, t);
    } else if name in PodsAfter(s, a) {
      UnlessRenewed(s, a, name);
    }
  }

  lemma RunStaysUnreferenced(s: State, a: Action, t: string)
    requires Sane(s) && Enabled(s, a) && a.RunStep? && a.name == PodOf(t) && !Referenced(s.pods, t)
    ensures !Referenced(PodsAfter(s, a), t)
  {
    hide PodOf, RefersTo, Sane, Fresh, MountPathOf, WellFormed, Handled, IsResourceError, ShouldDelay;
    SoundParts(s);
    var p := s.pods[a.name];
    assert Sound(p, s.seen);
    FreshOutcome(s.pods, a.name, s.live, a.env);
    StepProperties.HandledOnlyDrops(p.annotations, p.deleting, s.live, a.env);
  }

  lemma ReadFindsNone(s: State, t: string)
    requires Sane(s) && Enabled(s, Read(t)) && AtReplace(Step(s, Read(t)), t)
    ensures !Referenced(PodsAfter(s, Read(t)), t)
  {
    hide PodOf, ReferenceKey, WithReference, SoundPods, OneHolder, UnboundFirst, WorkersLag, PendingMaps;
  }

  lemma {:induction false} HolderIsUnreferenced(states: seq<State>, actions: seq<Action>, i: nat, j: nat, t: string)
    requires IsRun(states, actions) && i < j < |states| && actions[i] == Read(t)
    requires forall k :: i < k <= j ==> AtReplace(states[k], t)
    requires forall k :: i < k < j ==> !LatePlants(states[k], actions[k], PodOf(t))
    ensures !Referenced(states[j].pods, t)
    decreases j
  {
    hide Step, Enabled, Referenced, LatePlants;
    var s, a := states[j - 1], actions[j - 1];
    assert Enabled(s, a) && states[j] == Step(s, a);
    RunIsSane(states, actions, j - 1);
    StepPods(s, a);
    if j == i + 1 {
      ReadFindsNone(s, t);
    } else {
      HolderIsUnreferenced(states, actions, i, j - 1, t);
      assert AtReplace(s, t) && AtReplace(states[j], t) && !LatePlants(s, a, PodOf(t));
      WriteLeaves(s, a, t);
      StaysUnreferenced(s, a, t);
    }
  }

  lemma WriteLeaves(s: State, a: Action, t: string)
    requires Enabled(s, a) && AtReplace(Step(s, a), t)
    ensures !(a.Write? && a.t == t)
  {
    hide PodsAfter, BoundAfter, LiveAfter, SeenAfter, LostAfter, WorkersAfter, PodOf, ReferenceKey;
  }

  /** `AddRefOfMount` reports success in any case.  Afterwards its reference is on the server exactly
      when the replace was delivered and found a pod with an annotation, unless a worker brought an
      old snapshot of the pod back while the call held `JLock`. */
  lemma LostExactly(states: seq<State>, actions: seq<Action>, i: nat, j: nat, t: string, delivered: bool)
    requires IsRun(states, actions) && i < j < |actions|
    requires actions[i] == Read(t) && actions[j] == Write(t, delivered)
    requires forall k :: i < k <= j ==> AtReplace(states[k], t)
    requires forall k :: i < k < j ==> !LatePlants(states[k], actions[k], PodOf(t))
    ensures Referenced(states[j + 1].pods, t)
       <==> delivered && PodOf(t) in states[j].pods && states[j].pods[PodOf(t)].annotations != map[]
    ensures t in states[j + 1].lost <==> !Referenced(states[j + 1].pods, t)
  {
    hide Enabled, Referenced, LatePlants, PodOf, CallsAfter, PodsAfter, BoundAfter, LiveAfter, SeenAfter;
    HolderIsUnreferenced(states, actions, i, j, t);
    RunIsSane(states, actions, j);
    assert states[j + 1] == Step(states[j], actions[j]);
    WriteDecides(states[j], t, delivered);
  }

  lemma LostByWriteOnly(s: State, a: Action, t: string)
    requires Enabled(s, a) && t !in s.lost
    ensures t in LostAfter(s, a) <==> a.Write? && a.t == t && !Effective(s, a)
  {
    hide PodOf, ReferenceKey, JLockFree, TargetsOf, Ready, ValidRequest;
  }

  lemma {:induction false} NothingLost(states: seq<State>, actions: seq<Action>, i: nat)
    requires IsRun(states, actions) && i < |states|
    requires forall k :: 0 <= k < |actions| && actions[k].Write? ==> Effective(states[k], actions[k])
    ensures states[i].lost == {}
  {
    hide Enabled, Effective, PodsAfter, CallsAfter, BoundAfter, LiveAfter, SeenAfter, LostAfter, WorkersAfter;
    if i > 0 {
      NothingLost(states, actions, i - 1);
      var s, a := states[i - 1], actions[i - 1];
      assert Enabled(s, a) && states[i] == Step(s, a);
      forall t ensures t !in LostAfter(s, a) {
        LostByWriteOnly(s, a, t);
      }
    }
  }

  /** If every write takes effect and no recovery handler is overtaken, every bound target with a listed
      application pod keeps its pod, the finalizer and its reference throughout the run, but for the
      moment in which a handler recreates the pod. */
  lemma EffectiveRunsAreSafe(states: seq<State>, actions: seq<Action>, i: nat, t: string)
    requires CarefulRun(states, actions) && i < |states|
    requires forall k :: 0 <= k < |actions| && actions[k].Write? ==> Effective(states[k], actions[k])
    requires t in states[i].bound && t in states[i].live
    ensures Holds(states[i], t)
  {
    hide CarefulRun, IsRun, Holds;
    NothingLost(states, actions, i) by { CarefulIsRun(states, actions); }
    CarefulRunsAreSafe(states, actions);
    assert Safe(states[i]);
  }

  lemma CarefulIsRun(states: seq<State>, actions: seq<Action>)
    requires CarefulRun(states, actions)
    ensures IsRun(states, actions)
  {
    hide Careful;
  }

  /** A publish call goes on to `AddRefOfMount` only on a pod of its own volume that is there and not
      terminating. */
  lemma JoinsUprightPod(states: seq<State>, actions: seq<Action>, i: nat, t: string)
    requires IsRun(states, actions) && i < |actions| && t in states[i].targets
    requires At(states[i], t, Ensure) && At(states[i + 1], t, AddRef)
    ensures PodOf(t) in states[i].pods && !states[i].pods[PodOf(t)].deleting
    ensures MountsVolumeOf(states[i].pods[PodOf(t)], t)
  {
    hide PodOf, Init, Sane, Step, Enabled, MountsVolumeOf;
    RunIsSane(states, actions, i);
    assert Enabled(states[i], actions[i]) && states[i + 1] == Step(states[i], actions[i]);
    OnlyFoundJoins(states[i], actions[i], t);
    ServesItsVolume(states[i], t);
  }

  lemma OnlyFoundJoins(s: State, a: Action, t: string)
    requires Enabled(s, a) && At(s, t, Ensure) && At(Step(s, a), t, AddRef)
    ensures PodOf(t) in s.pods && !s.pods[PodOf(t)].deleting
  {
    hide PodOf, PodsAfter, BoundAfter, LiveAfter, SeenAfter, LostAfter, WorkersAfter, ReferenceKey, WithReference;
    hide HasPrefixedKey, RemoveAnnotations, Ready, ValidRequest, TargetsOf, JLockFree;
  }

  lemma ServesItsVolume(s: State, t: string)
    requires Sane(s) && t in s.targets && PodOf(t) in s.pods
    ensures MountsVolumeOf(s.pods[PodOf(t)], t)
  {
    hide PodOf, MountsVolumeOf, Setting, CallsInPlay, SoundPods, OneHolder, UnboundFirst, PendingMaps, WorkersLag;
  }

  // --- what JUmount deletes -----------------------------------------------------------------

  /** No reference and no delay. */
  predicate Bare(a: Annotations) {
    References(a) == map[] && DELAY_TIME_KEY !in a
  }

  lemma DropsStayBare(p: Pod, q: Pod)
    requires Bare(p.annotations) && StepProperties.OnlyDrops(p, q)
    ensures Bare(q.annotations)
  {
    ReferencesOnlyDrop(p, q);
  }

  lemma ReferencesOnlyDrop(p: Pod, q: Pod)
    requires StepProperties.OnlyDrops(p, q)
    ensures References(q.annotations).Keys <= References(p.annotations).Keys
  {
    forall k | k in References(q.annotations) ensures k in References(p.annotations) {
      assert RefersTo(q.annotations, q.annotations[k]);
    }
  }

  lemma BareIsNotDelayed(a: Annotations, now: int, zone: int)
    requires Bare(a)
    ensures ShouldDelay(a, now, zone) == Expired
  {
  }

  lemma RunStaysBare(s: State, a: Action)
    requires Sane(s) && Enabled(s, a) && a.RunStep? && Bare(s.pods[a.name].annotations)
    requires a.name in PodsAfter(s, a)
    ensures Bare(PodsAfter(s, a)[a.name].annotations)
  {
    hide PodOf, RefersTo, Sane, Fresh, MountPathOf, WellFormed, Handled, IsResourceError, ShouldDelay, Bare;
    SoundParts(s);
    var p := s.pods[a.name];
    assert Sound(p, s.seen);
    FreshOutcome(s.pods, a.name, s.live, a.env);
    StepProperties.HandledOnlyDrops(p.annotations, p.deleting, s.live, a.env);
    DropsStayBare(p, p.(annotations := Handled(p.annotations, p.deleting, s.live, a.env)));
  }

  /** While `JUmount` holds `JLock` to delete a pod, whatever the reconciler and others do, that pod
      gets neither a reference nor a delay, unless it is a new one. */
  lemma StaysBare(s: State, a: Action, t: string)
    requires Sane(s) && Enabled(s, a) && At(s, t, Delete) && !PlantsPod(s, a, PodOf(t))
    requires PodOf(t) in s.pods ==> Bare(s.pods[PodOf(t)].annotations)
    requires PodOf(t) in PodsAfter(s, a)
    ensures Bare(PodsAfter(s, a)[PodOf(t)].annotations)
  {
    hide PodOf, RefersTo, Sane, Fresh, Sent, NewPod, ReferenceKey, Ready, StepProperties.Replaces, JLockFree;
    hide ValidRequest, RemoveAnnotations, ReplaceAnnotations, AddAnnotation, DeletePod, Bare;
    var name := PodOf(t);
    if a.Write? {
      OthersDoNotWrite(s, a, t);
    } else if a.RunStep? && a.name == name {
      RunStaysBare(s, a);
    } else {
      UnlessRenewed(s, a, name);
      DropsStayBare(s.pods[name], PodsAfter(s, a)[name]);
    }
  }

  lemma DecisionIsBare(s: State, t: string)
    requires Enabled(s, ReadReap(t)) && At(Step(s, ReadReap(t)), t, Delete)
    ensures PodsAfter(s, ReadReap(t)) == s.pods && PodOf(t) in s.pods && Bare(s.pods[PodOf(t)].annotations)
  {
    hide PodOf, HasPrefixedKey;
    HasPrefixedKeyCovers(s.pods[PodOf(t)].annotations);
  }

  /** From the decision of `JUmount` to its delete, with any number of reconcilers at work, the pod is
      gone or has neither a reference nor a delay, unless a new pod was created in between; the
      question whether to delay is answered no, without a write. */
  lemma {:induction false} DeletesOnlyBare(states: seq<State>, actions: seq<Action>, i: nat, j: nat, t: string,
                                           now: int, zone: int)
    requires IsRun(states, actions) && i < j < |states| && actions[i] == ReadReap(t)
    requires forall k :: i < k <= j ==> At(states[k], t, Delete)
    requires forall k :: i < k < j ==> !PlantsPod(states[k], actions[k], PodOf(t))
    ensures PodOf(t) in states[j].pods ==>
      var a := states[j].pods[PodOf(t)].annotations;
      Bare(a) && ShouldDelay(a, now, zone) == Expired
    decreases j
  {
    hide Step, Enabled, PlantsPod, PodOf, Bare, ShouldDelay, Init, Sane;
    var s, a := states[j - 1], actions[j - 1];
    assert Enabled(s, a) && states[j] == Step(s, a);
    RunIsSane(states, actions, j - 1);
    StepPods(s, a);
    if j == i + 1 {
      DecisionIsBare(s, t);
    } else {
      DeletesOnlyBare(states, actions, i, j - 1, t, now, zone);
      assert At(s, t, Delete) && !PlantsPod(s, a, PodOf(t));
      if PodOf(t) in states[j].pods {
        StaysBare(s, a, t);
      }
    }
    if PodOf(t) in states[j].pods {
      BareIsNotDelayed(states[j].pods[PodOf(t)].annotations, now, zone);
    }
  }

  // --- without the reconciler ---------------------------------------------------------------

  /** The map about to be written misses no reference of the pod. */
  ghost predicate Complete(a: Annotations, pods: PodMap, t: string, targets: set<string>) {
    && PodOf(t) in pods
    && forall u :: u in targets && Referenced(pods, u) && PodOf(u) == PodOf(t) ==> RefersTo(a, u)
  }

  /** Holds throughout a run without reconciler steps: pending writes miss no reference, and a pod
      about to be reaped has no prefixed annotation. */
  ghost predicate Quiet(s: State) {
    && Upright(s.pods)
    && (forall t :: AtReplace(s, t) ==> Complete(s.calls[t].annotations, s.pods, t, s.targets))
    && (forall t :: At(s, t, Delete) ==>
          PodOf(t) in s.pods && !HasPrefixedKey(s.pods[PodOf(t)].annotations))
  }

  /** The server changes, but every pod stays, and none gets a new prefixed annotation. */
  ghost predicate Settles(pods: PodMap, pods': PodMap) {
    && (forall n :: n in pods ==>
          && n in pods'
          && (HasPrefixedKey(pods'[n].annotations) ==> HasPrefixedKey(pods[n].annotations))
          && (forall u :: RefersTo(pods'[n].annotations, u) <==> RefersTo(pods[n].annotations, u)))
  }

  lemma MarkSettles(pods: PodMap, name: string)
    requires Upright(pods)
    ensures Settles(pods, DeletePod(pods, name).pods)
  {
    hide RefersTo, HasPrefixedKey;
  }

  lemma AnnotateSettles(pods: PodMap, name: string, key: string, value: string)
    requires name in pods && !(REFERENCE_PREFIX <= key)
    ensures Settles(pods, AddAnnotation(pods, name, key, value).pods)
  {
    hide ReferenceKey;
    forall u ensures ReferenceKey(u) != key {
      KeyShape(u);
    }
  }

  lemma CreateSettles(pods: PodMap, name: string, pod: Pod)
    ensures Settles(pods, CreatePod(pods, name, pod).pods)
  {
    hide RefersTo, HasPrefixedKey;
  }

  lemma ReportSettles(pods: PodMap, name: string, status: Status)
    requires name in pods
    ensures Settles(pods, pods[name := pods[name].(status := status)])
  {
    hide RefersTo, HasPrefixedKey;
  }

  lemma SameSettles(pods: PodMap)
    ensures Settles(pods, pods)
  {
  }

  /** Every step but the two patches under `JLock` and those of the reconciler leaves every reference in
      its place. */
  lemma StepSettles(s: State, a: Action)
    requires Upright(s.pods) && Enabled(s, a) && !IsReconciler(a) && !a.Write? && !a.RemoveRef?
    ensures Settles(s.pods, PodsAfter(s, a))
  {
    hide PodOf, NewPod, ReferenceKey, Settles, CreatePod, DeletePod, AddAnnotation, Ready, Upright;
    hide Fresh, Sent, ReplaceAnnotations, RemoveAnnotations, ValidRequest, JLockFree;
    if a.Create? {
      CreateSettles(s.pods, PodOf(a.t), NewPod(a.t, a.request));
    } else if a.ReapPod? {
      MarkSettles(s.pods, PodOf(a.t));
    } else if a.Report? {
      ReportSettles(s.pods, a.name, a.status);
    } else if a.Evict? {
      MarkSettles(s.pods, a.name);
    } else if a.Annotate? {
      AnnotateSettles(s.pods, a.name, a.key, a.value);
    } else {
      SameSettles(s.pods);
    }
  }

  lemma SettledIsComplete(a: Annotations, pods: PodMap, pods': PodMap, t: string, targets: set<string>)
    requires Complete(a, pods, t, targets) && Settles(pods, pods')
    ensures Complete(a, pods', t, targets)
  {
    hide PodOf, RefersTo, HasPrefixedKey;
  }

  /** A call that is at `Replace` was there, or has just read the pod. */
  lemma StaysComplete(s: State, a: Action, t: string)
    requires Sane(s) && Quiet(s) && Enabled(s, a) && !IsReconciler(a) && AtReplace(Step(s, a), t)
    ensures Complete(CallsAfter(s, a)[t].annotations, PodsAfter(s, a), t, s.targets)
  {
    hide PodOf, RefersTo, Sane, Settles, Complete, Upright, HasPrefixedKey, ReferenceKey, WithReference, Ready;
    hide PodsAfter, BoundAfter, LiveAfter, SeenAfter, LostAfter, WorkersAfter, RemoveAnnotations, ValidRequest;
    HolderIsUnique(s);
    if a.Read? && a.t == t {
      ReadIsComplete(s, t);
    } else {
      assert AtReplace(s, t) && s.calls[t] == CallsAfter(s, a)[t];
      assert !a.Write? && !a.RemoveRef?;
      StepSettles(s, a);
      SettledIsComplete(s.calls[t].annotations, s.pods, PodsAfter(s, a), t, s.targets);
    }
  }

  lemma ReadIsComplete(s: State, t: string)
    requires Sane(s) && Enabled(s, Read(t)) && AtReplace(Step(s, Read(t)), t)
    ensures Complete(CallsAfter(s, Read(t))[t].annotations, PodsAfter(s, Read(t)), t, s.targets)
  {
    hide PodOf, RefersTo, ReferenceKey, WithReference, Ours, WellFormed, Collisionless, JLockFree;
    hide OneHolder, UnboundFirst, WorkersLag, PendingMaps, PendingMap;
    assert Sound(s.pods[PodOf(t)], s.seen);
    InsertReference(s.pods[PodOf(t)].annotations, t, s.seen, s.targets);
  }

  lemma StaysUnprefixed(s: State, a: Action, t: string)
    requires Sane(s) && Quiet(s) && Enabled(s, a) && !IsReconciler(a) && At(Step(s, a), t, Delete)
    ensures PodOf(t) in PodsAfter(s, a) && !HasPrefixedKey(PodsAfter(s, a)[PodOf(t)].annotations)
  {
    hide PodOf, Sane, Complete, Upright, HasPrefixedKey, ReferenceKey, WithReference, Ready;
    hide PodsAfter, BoundAfter, LiveAfter, SeenAfter, LostAfter, WorkersAfter, RemoveAnnotations, ValidRequest;
    HolderIsUnique(s);
    assert !a.Write? && !a.RemoveRef?;
    StepSettles(s, a);
  }

  lemma StepKeepsQuiet(s: State, a: Action)
    requires Sane(s) && Quiet(s) && Enabled(s, a) && !IsReconciler(a)
    ensures Quiet(Step(s, a))
  {
    hide PodOf, Sane, Complete, Upright, HasPrefixedKey, Enabled, At;
    hide PodsAfter, CallsAfter, BoundAfter, LiveAfter, SeenAfter, LostAfter, WorkersAfter;
    StaysUpright(s, a);
    var s' := Step(s, a);
    forall t | AtReplace(s', t) ensures Complete(s'.calls[t].annotations, s'.pods, t, s'.targets) {
      StaysComplete(s, a, t);
    }
    forall t | At(s', t, Delete)
      ensures PodOf(t) in s'.pods && !HasPrefixedKey(s'.pods[PodOf(t)].annotations)
    {
      StaysUnprefixed(s, a, t);
    }
  }

  lemma {:induction false} RunIsQuiet(states: seq<State>, actions: seq<Action>, i: nat)
    requires IsRun(states, actions) && i < |states|
    requires forall k :: 0 <= k < |actions| ==> !IsReconciler(actions[k])
    ensures Sane(states[i]) && Quiet(states[i])
  {
    hide Sane, Step, Enabled, Sound, HasPrefixedKey;
    RunIsSane(states, actions, i);
    if i > 0 {
      RunIsQuiet(states, actions, i - 1);
      StepKeepsQuiet(states[i - 1], actions[i - 1]);
    }
  }

  // --- a reference lasts --------------------------------------------------------------------

  lemma SettledKeepsReference(pods: PodMap, pods': PodMap, t: string)
    requires Settles(pods, pods') && Referenced(pods, t)
    ensures Referenced(pods', t)
  {
    hide PodOf, RefersTo, HasPrefixedKey;
  }

  lemma WriteKeepsReference(s: State, a: Action, t: string)
    requires Sane(s) && Quiet(s) && Enabled(s, a) && (a.Write? || (a.RemoveRef? && a.t != t))
    requires t in s.targets && Referenced(s.pods, t)
    ensures Referenced(PodsAfter(s, a), t)
  {
    hide PodOf, RefersTo, ReferenceKey, HasPrefixedKey, SoundPods, OneHolder, UnboundFirst, PendingMaps, WorkersLag;
    hide RemoveAnnotations;
    if a.RemoveRef? {
      RemoveKeepsOthers(s, a.t, t);
    } else {
      assert AtReplace(s, a.t);
    }
  }

  lemma StepKeepsReference(s: State, a: Action, t: string)
    requires Sane(s) && Quiet(s) && Enabled(s, a)
    requires !IsReconciler(a) && a != RemoveRef(t)
    requires t in s.targets && Referenced(s.pods, t)
    ensures Referenced(PodsAfter(s, a), t)
  {
    hide Sane, PodOf, Referenced, PodsAfter, Settles, Upright, Complete, HasPrefixedKey, Enabled;
    if a.Write? || a.RemoveRef? {
      WriteKeepsReference(s, a, t);
    } else {
      StepSettles(s, a);
      SettledKeepsReference(s.pods, PodsAfter(s, a), t);
    }
  }

  /** In every interleaving of publish and unpublish calls, with whatever the kubelet and other
      clients do, a reference lasts until its own unpublish call removes it. */
  lemma {:induction false} ReferenceLasts(states: seq<State>, actions: seq<Action>, i: nat, j: nat, t: string)
    requires IsRun(states, actions) && i <= j < |states|
    requires forall k :: 0 <= k < |actions| ==> !IsReconciler(actions[k])
    requires t in states[0].targets && Referenced(states[i].pods, t)
    requires forall k :: i <= k < j ==> actions[k] != RemoveRef(t)
    ensures Referenced(states[j].pods, t)
    decreases j
  {
    hide Sane, Quiet, Step, Enabled, Referenced;
    if i < j {
      var s, a := states[j - 1], actions[j - 1];
      assert Enabled(s, a) && states[j] == Step(s, a);
      ReferenceLasts(states, actions, i, j - 1, t);
      RunIsQuiet(states, actions, j - 1);
      TargetsAreFixed(states, actions, j - 1);
      StepKeepsReference(s, a, t);
      StepPods(s, a);
    }
  }

  lemma {:induction false} TargetsAreFixed(states: seq<State>, actions: seq<Action>, i: nat)
    requires IsRun(states, actions) && i < |states|
    ensures states[i].targets == states[0].targets
  {
    hide Enabled, Init, PodsAfter, CallsAfter, BoundAfter, LiveAfter, SeenAfter, LostAfter, WorkersAfter;
    if i > 0 {
      TargetsAreFixed(states, actions, i - 1);
      assert states[i] == Step(states[i - 1], actions[i - 1]);
    }
  }

  /** There, `JUmount` deletes only a pod without references and without a delay: its own question
      whether to delay would be answered no, without a write. */
  lemma ReapsOnlyUnused(states: seq<State>, actions: seq<Action>, i: nat, now: int, zone: int)
    requires IsRun(states, actions) && i < |actions| && actions[i].ReapPod?
    requires forall k :: 0 <= k < |actions| ==> !IsReconciler(actions[k])
    ensures PodOf(actions[i].t) in states[i].pods
    ensures var a := states[i].pods[PodOf(actions[i].t)].annotations;
      Bare(a) && ShouldDelay(a, now, zone) == Expired
  {
    hide PodOf, Sane, Step, HasPrefixedKey, Upright, Complete, Init, ShouldDelay, Quiet, Enabled;
    RunIsQuiet(states, actions, i);
    assert Enabled(states[i], actions[i]);
    ReapIsBare(states[i], actions[i]);
    BareIsNotDelayed(states[i].pods[PodOf(actions[i].t)].annotations, now, zone);
  }

  lemma ReapIsBare(s: State, a: Action)
    requires Quiet(s) && Enabled(s, a) && a.ReapPod?
    ensures PodOf(a.t) in s.pods && Bare(s.pods[PodOf(a.t)].annotations)
  {
    hide PodOf, HasPrefixedKey, Upright, Complete;
    HasPrefixedKeyCovers(s.pods[PodOf(a.t)].annotations);
  }
}
