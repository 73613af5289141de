/** Workers and their snapshots: how long a snapshot covers its pod, and safety of every run in
    which no recovery handler was overtaken. */
module Workers {
  import opened Annotation
  import opened Pods
  import opened Store
  import opened Reconcile
  import opened Protocol
  import opened Sanity
  import opened Safety
  import opened StepProperties

  // --- one step -----------------------------------------------------------------------------

  /** The replace of a publish call takes effect. */
  predicate Effective(s: State, a: Action) {
    a.Write? && a.delivered && PodOf(a.t) in s.pods && s.pods[PodOf(a.t)].annotations != map[]
  }

  /** The step creates the pod, writes a reference to it, or replaces it by a new one. */
  predicate Renews(s: State, a: Action, name: string)
    requires Enabled(s, a)
  {
    || (a.Create? && PodOf(a.t) == name && name !in s.pods)
    || (Effective(s, a) && PodOf(a.t) == name)
    || (a.RunStep? && a.name == name && Replaces(s.pods[name], s.live, a.env))
    || (a.LateRecover? && s.workers[a.w].name == name && name !in s.pods)
  }

  /** A pod comes into being: by a publish call that found none, or from the snapshot of a worker. */
  predicate PlantsPod(s: State, a: Action, name: string)
    requires Enabled(s, a)
  {
    || (a.Create? && PodOf(a.t) == name && name !in s.pods)
    || LatePlants(s, a, name)
  }

  predicate LatePlants(s: State, a: Action, name: string)
    requires Enabled(s, a)
  {
    a.LateRecover? && s.workers[a.w].name == name && name !in s.pods
  }

  lemma SentOnlyDrops(pods: PodMap, w: Worker, a: Action)
    requires IsLate(a) && Ready(w, a) && AllOurs(w.cur.finalizers)
    requires w.name in Sent(pods, w, a).pods && (a.LateRecover? ==> w.name in pods)
    ensures w.name in pods && OnlyDrops(pods[w.name], Sent(pods, w, a).pods[w.name])
  {
    hide Release, Unseat, Replacement, ShouldDelay, IsIdle, Releases, Dropped, ReferenceKey, GetPodStatus, ResourcePath;
    ReleaseOfOurs(pods, w.name, w.cur);
    UnseatOfOurs(pods, w.name, w.cur);
    forall t ensures ReferenceKey(t) != DELAY_AT_KEY {
      KeyIsNoDelay(t);
    }
  }

  lemma ForeignKeyDropsNothing(a: Annotations, key: string, value: string)
    requires !(REFERENCE_PREFIX <= key)
    ensures forall t :: RefersTo(a[key := value], t) ==> RefersTo(a, t)
    ensures DELAY_TIME_KEY in a[key := value] ==> DELAY_TIME_KEY in a
  {
    hide ReferenceKey;
    assert REFERENCE_PREFIX <= DELAY_TIME_KEY;
    forall t ensures ReferenceKey(t) != key {
      KeyShape(t);
    }
  }

  lemma LateUnlessRenewed(s: State, a: Action, name: string)
    requires Sane(s) && Enabled(s, a) && IsLate(a) && !Renews(s, a, name) && name in PodsAfter(s, a)
    ensures name in s.pods && OnlyDrops(s.pods[name], PodsAfter(s, a)[name])
  {
    hide PodOf, RefersTo, Sane, Sent, Ready, Replaces, MountPathOf, WellFormed;
    SoundParts(s);
    var w := s.workers[a.w];
    if w.name == name {
      SentOnlyDrops(s.pods, w, a);
    } else {
      SentFrame(s.pods, w, a);
    }
  }

  lemma RunUnlessRenewed(s: State, a: Action, name: string)
    requires Sane(s) && Enabled(s, a) && a.RunStep? && !Renews(s, a, name) && name in PodsAfter(s, a)
    ensures name in s.pods && OnlyDrops(s.pods[name], PodsAfter(s, a)[name])
  {
    hide PodOf, RefersTo, Sane, Fresh, Replaces, MountPathOf, WellFormed, Outcome;
    SoundParts(s);
    assert Sound(s.pods[a.name], s.seen);
    FreshOutcome(s.pods, a.name, s.live, a.env);
    if a.name == name {
      StepOnlyDrops(s.pods[name], s.live, a.env);
    }
  }

  /** A pod that a step does not renew was there before, and nothing is added to it. */
  lemma UnlessRenewed(s: State, a: Action, name: string)
    requires Sane(s) && Enabled(s, a) && !Renews(s, a, name) && name in PodsAfter(s, a)
    ensures name in s.pods && OnlyDrops(s.pods[name], PodsAfter(s, a)[name])
  {
    hide PodOf, RefersTo, Sane, Fresh, Sent, NewPod, ReferenceKey, Ready, Replaces, ValidRequest, JLockFree;
    hide RemoveAnnotations;
    if IsLate(a) {
      LateUnlessRenewed(s, a, name);
    } else if a.RunStep? {
      RunUnlessRenewed(s, a, name);
    } else if a.RemoveRef? {
      RemoveOnlyDrops(s.pods, PodOf(a.t), {ReferenceKey(a.t)}, name);
    } else if a.Annotate? {
      ForeignKeyDropsNothing(s.pods[a.name].annotations, a.key, a.value);
    }
  }

  lemma RemoveOnlyDrops(pods: PodMap, name: string, keys: set<string>, n: string)
    requires n in RemoveAnnotations(pods, name, keys).pods
    ensures n in pods && OnlyDrops(pods[n], RemoveAnnotations(pods, name, keys).pods[n])
  {
    hide ReferenceKey;
  }

  // --- runs ---------------------------------------------------------------------------------

  /** Worker `w` took its snapshot in step `i` and has been at work until state `j`. */
  ghost predicate AtWork(states: seq<State>, actions: seq<Action>, i: int, j: int, w: int) {
    && 0 <= i < j < |states| && |states| == |actions| + 1 && actions[i].Fetch? && actions[i].w == w
    && forall k :: i < k <= j ==> w in states[k].workers
  }

  lemma WorkerStays(s: State, a: Action, w: int)
    requires Enabled(s, a) && w in s.workers && w in Step(s, a).workers
    ensures Step(s, a).workers[w].name == s.workers[w].name && Step(s, a).workers[w].cur == s.workers[w].cur
    ensures s.workers[w].Released? ==> Step(s, a).workers[w] == s.workers[w]
  {
    hide PodsAfter, CallsAfter, LiveAfter, SeenAfter, BoundAfter, LostAfter, Sent, PodOf;
    hide IsIdle, ShouldDelay, Releases, Recovers, GetPodStatus, ResourcePath, ValidRequest, JLockFree;
  }

  lemma WorkerStarts(s: State, a: Action, w: int)
    requires Enabled(s, a) && w !in s.workers && w in Step(s, a).workers
    ensures a.Fetch? && a.w == w
  {
    hide PodsAfter, CallsAfter, LiveAfter, SeenAfter, BoundAfter, LostAfter, Sent, PodOf;
    hide IsIdle, ShouldDelay, Releases, Recovers, GetPodStatus, ResourcePath, ValidRequest, JLockFree;
  }

  /** Every worker once took its snapshot. */
  lemma {:induction false} FetchedSomeTime(states: seq<State>, actions: seq<Action>, j: nat, w: int)
    returns (i: nat)
    requires IsRun(states, actions) && j < |states| && w in states[j].workers
    ensures AtWork(states, actions, i, j, w)
  {
    hide Step, Enabled;
    assert j > 0;
    assert Enabled(states[j - 1], actions[j - 1]) && states[j] == Step(states[j - 1], actions[j - 1]);
    if w in states[j - 1].workers {
      i := FetchedSomeTime(states, actions, j - 1, w);
    } else {
      WorkerStarts(states[j - 1], actions[j - 1], w);
      i := j - 1;
    }
  }

  /** A worker keeps the snapshot it took. */
  lemma {:induction false} SnapshotIs(states: seq<State>, actions: seq<Action>, i: nat, j: nat, w: int)
    requires IsRun(states, actions) && AtWork(states, actions, i, j, w)
    ensures actions[i].name in states[i].pods && states[i + 1].pods == states[i].pods
    ensures states[j].workers[w].name == actions[i].name
    ensures states[j].workers[w].cur == states[i].pods[actions[i].name]
    decreases j
  {
    hide Step, Enabled;
    var s, a := states[j - 1], actions[j - 1];
    assert Enabled(s, a) && states[j] == Step(s, a);
    if j == i + 1 {
      FetchStarts(s, a);
    } else {
      assert AtWork(states, actions, i, j - 1, w);
      SnapshotIs(states, actions, i, j - 1, w);
      WorkerStays(s, a, w);
    }
  }

  /** As long as its pod is not renewed, a snapshot has every reference of the pod, and shows it
      terminating only if it still is. */
  lemma {:induction false} SnapshotCovers(states: seq<State>, actions: seq<Action>, i: nat, j: nat, w: int)
    requires IsRun(states, actions) && AtWork(states, actions, i, j, w)
    requires forall k :: i < k < j ==> !Renews(states[k], actions[k], actions[i].name)
    ensures var name := states[j].workers[w].name;
      name == actions[i].name &&
      (name in states[j].pods ==> OnlyDrops(states[j].workers[w].cur, states[j].pods[name]))
    decreases j
  {
    hide Step, Enabled, OnlyDrops, Renews, Init, Sane;
    SnapshotIs(states, actions, i, j, w);
    DropsNothing(states[j].workers[w].cur);
    if i + 1 < j {
      var name := actions[i].name;
      var s, a := states[j - 1], actions[j - 1];
      assert Enabled(s, a) && states[j] == Step(s, a);
      assert AtWork(states, actions, i, j - 1, w);
      SnapshotIs(states, actions, i, j - 1, w);
      SnapshotCovers(states, actions, i, j - 1, w);
      RunIsSane(states, actions, j - 1);
      if name in states[j].pods {
        assert !Renews(s, a, name);
        assert states[j].pods == PodsAfter(s, a) by { StepPods(s, a); }
        UnlessRenewed(s, a, name);
        DropsTwice(states[j].workers[w].cur, s.pods[name], states[j].pods[name]);
      }
    }
  }

  lemma DropsNothing(p: Pod)
    ensures OnlyDrops(p, p)
  {
  }

  lemma DropsTwice(p: Pod, q: Pod, r: Pod)
    requires OnlyDrops(p, q) && OnlyDrops(q, r)
    ensures OnlyDrops(p, r)
  {
  }

  lemma StepPods(s: State, a: Action)
    requires Enabled(s, a)
    ensures Step(s, a).pods == PodsAfter(s, a)
  {
    hide PodsAfter, CallsAfter, LiveAfter, SeenAfter, BoundAfter, LostAfter, WorkersAfter, Enabled;
  }

  lemma FetchStarts(s: State, a: Action)
    requires Enabled(s, a) && a.Fetch?
    ensures a.name in s.pods && Step(s, a).pods == s.pods
    ensures a.w in Step(s, a).workers && Step(s, a).workers[a.w] == Fetched(a.name, s.pods[a.name])
  {
    hide CallsAfter, LiveAfter, SeenAfter, BoundAfter, LostAfter, PodOf;
  }

  // --- between the halves -------------------------------------------------------------------

  /** The first half of a recovery that is not overtaken leaves no pod. */
  lemma RemovesPod(s: State, a: Action)
    requires Sane(s) && Enabled(s, a) && RemovesFinalizer(a) && a.w in Step(s, a).workers
    requires var name := s.workers[a.w].name; a.LateRelease? && name in s.pods ==> s.pods[name].deleting
    ensures s.workers[a.w].name !in PodsAfter(s, a)
    ensures Step(s, a).workers[a.w] == Released(s.workers[a.w].name, s.workers[a.w].cur, a.LateRelieve?)
  {
    hide PodOf, Sane, WellFormed, MountPathOf, Release, Unseat, Releases, GetPodStatus, ResourcePath, Recovers;
    hide CallsAfter, BoundAfter, LiveAfter, SeenAfter, LostAfter;
    SoundParts(s);
    var name := s.workers[a.w].name;
    if name in s.pods {
      assert Sound(s.pods[name], s.seen);
    }
    ReleaseOfOurs(s.pods, name, s.workers[a.w].cur);
    UnseatOfOurs(s.pods, name, s.workers[a.w].cur);
  }

  lemma StaysGone(s: State, a: Action, name: string)
    requires Sane(s) && Enabled(s, a) && name !in s.pods && !PlantsPod(s, a, name)
    ensures name !in PodsAfter(s, a)
  {
    hide Sane, Enabled, PodsAfter;
    if name in PodsAfter(s, a) {
      PodsAppear(s, a, name);
    }
  }

  /** Step `i` is the first half of a recovery by worker `w`, of a terminating pod if it is the
      deleted-pod handler, and the worker has been at it until state `j`. */
  ghost predicate HalfWay(states: seq<State>, actions: seq<Action>, i: nat, j: nat, w: int)
    requires IsRun(states, actions) && i < j < |states|
  {
    && RemovesFinalizer(actions[i]) && actions[i].w == w
    && (var name := states[i].workers[w].name;
        actions[i].LateRelease? && name in states[i].pods ==> states[i].pods[name].deleting)
    && forall k :: i < k <= j ==> w in states[k].workers
  }

  lemma {:induction false} GoneBetweenHalves(states: seq<State>, actions: seq<Action>, i: nat, j: nat, w: int)
    requires IsRun(states, actions) && i < j < |states| && HalfWay(states, actions, i, j, w)
    requires forall k :: i < k < j ==> !PlantsPod(states[k], actions[k], states[i].workers[w].name)
    ensures states[i].workers[w].name !in states[j].pods
    ensures states[j].workers[w]
         == Released(states[i].workers[w].name, states[i].workers[w].cur, actions[i].LateRelieve?)
    decreases j
  {
    hide Step, PlantsPod, Sane, Init, Ready;
    var s, a := states[j - 1], actions[j - 1];
    assert Enabled(s, a) && states[j] == Step(s, a);
    RunIsSane(states, actions, j - 1);
    StepPods(s, a);
    if j == i + 1 {
      RemovesPod(s, a);
    } else {
      assert HalfWay(states, actions, i, j - 1, w);
      GoneBetweenHalves(states, actions, i, j - 1, w);
      WorkerStays(s, a, w);
      assert !PlantsPod(s, a, states[i].workers[w].name);
      StaysGone(s, a, states[i].workers[w].name);
    }
  }

  lemma RecoverPlants(s: State, a: Action)
    requires Enabled(s, a) && a.LateRecover? && s.workers[a.w].name !in s.pods
    ensures s.workers[a.w].Released?
    ensures Step(s, a).pods == s.pods[s.workers[a.w].name := Replacement(s.workers[a.w])]
  {
    hide CallsAfter, BoundAfter, LiveAfter, SeenAfter, LostAfter, WorkersAfter, PodOf, Replacement;
  }

  /** However far apart the halves of a recovery are, and whatever happens in between short of another
      pod being created, the pod comes back with the labels, annotations and spec of the snapshot, on
      the resource path without its resources. */
  lemma RecoveryCompletes(states: seq<State>, actions: seq<Action>, i: nat, j: nat, w: int)
    requires IsRun(states, actions) && i < j < |actions| && HalfWay(states, actions, i, j, w)
    requires actions[j] == LateRecover(w)
    requires forall k :: i < k < j ==> !PlantsPod(states[k], actions[k], states[i].workers[w].name)
    ensures var name, cur, pods := states[i].workers[w].name, states[i].workers[w].cur, states[j + 1].pods;
      && SameElsewhere(states[j].pods, pods, name) && name in pods
      && (if actions[i].LateRelieve? then AgainUnbounded(cur, pods[name]) else Again(cur, pods[name]))
  {
    hide Step, PlantsPod, Sane, Init, Enabled, Recreated, Relieved, HalfWay, Again, AgainUnbounded;
    HalfWayStarts(states, actions, i, j, w);
    ReplacementsAre(states[i].workers[w].cur);
    GoneBetweenHalves(states, actions, i, j, w);
    assert Enabled(states[j], actions[j]) && states[j + 1] == Step(states[j], actions[j]);
    RecoverPlants(states[j], actions[j]);
  }

  lemma HalfWayStarts(states: seq<State>, actions: seq<Action>, i: nat, j: nat, w: int)
    requires IsRun(states, actions) && i < j < |states| && HalfWay(states, actions, i, j, w)
    ensures RemovesFinalizer(actions[i]) && actions[i].w == w && w in states[i].workers
  {
    assert Enabled(states[i], actions[i]);
  }

  // --- safety -------------------------------------------------------------------------------

  /** No handler that removes a finalizer was overtaken: between its snapshot and that request nobody
      created the pod, wrote a reference to it or replaced it. */
  ghost predicate NeverOvertaken(states: seq<State>, actions: seq<Action>)
    requires IsRun(states, actions)
  {
    forall i, j, k :: 0 <= i < k < j < |actions| && RemovesFinalizer(actions[j])
                      && AtWork(states, actions, i, j, actions[j].w) ==>
      !Renews(states[k], actions[k], actions[i].name)
  }

  predicate RemovesFinalizer(a: Action) {
    a.LateRelease? || a.LateRelieve?
  }

  /** Nobody creates a pod, and the driver does not die, between the halves of the deleted-pod
      handler; the resource path finds no terminating pod. */
  ghost predicate Orderly(s: State, a: Action)
    requires Enabled(s, a)
  {
    && (a.Create? ==> PodOf(a.t) in s.pods || !InRecovery(s, PodOf(a.t)))
    && (a.Leave? ==> !s.workers[a.w].Released?)
    && (a.LateRelieve? ==> s.workers[a.w].name in s.pods ==> !s.pods[s.workers[a.w].name].deleting)
  }

  lemma NeverOvertakenIsCareful(states: seq<State>, actions: seq<Action>, j: nat)
    requires IsRun(states, actions) && NeverOvertaken(states, actions) && j < |actions|
    requires Orderly(states[j], actions[j])
    ensures Careful(states[j], actions[j])
  {
    hide Step, RefersTo, PodOf, InRecovery, Renews, AtWork, Releases, GetPodStatus, ResourcePath;
    var s, a := states[j], actions[j];
    assert Enabled(s, a);
    if RemovesFinalizer(a) {
      var i := FetchedSomeTime(states, actions, j, a.w);
      AtWorkBounds(states, actions, i, j, a.w);
      SnapshotCovers(states, actions, i, j, a.w);
    }
  }

  lemma AtWorkBounds(states: seq<State>, actions: seq<Action>, i: int, j: int, w: int)
    requires AtWork(states, actions, i, j, w)
    ensures 0 <= i < j < |states| && |states| == |actions| + 1 && actions[i].Fetch?
  {
  }

  /** Main result: if no recovery handler was overtaken, every state of the run is safe, with any
      number of workers acting on snapshots of any age. */
  lemma RunsAreSafe(states: seq<State>, actions: seq<Action>)
    requires IsRun(states, actions) && NeverOvertaken(states, actions)
    requires forall j :: 0 <= j < |actions| ==> Orderly(states[j], actions[j])
    ensures forall j :: 0 <= j < |states| ==> Safe(states[j])
  {
    hide Step, Enabled, Safe, NeverOvertaken, Orderly, Careful;
    forall j | 0 <= j < |actions| ensures Careful(states[j], actions[j]) {
      NeverOvertakenIsCareful(states, actions, j);
    }
    CarefulRunsAreSafe(states, actions);
  }
}
