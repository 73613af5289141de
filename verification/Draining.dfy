/** Unused mount pods go away, along whole runs: reconciler steps, evictions, unpublish calls, status
    reports and everything else that is not a publish call or a late request for the same pod. */
module Draining {
  import opened Annotation
  import opened Pods
  import opened Store
  import opened Reconcile
  import opened Protocol
  import opened Sanity
  import opened Safety
  import opened Workers
  import Convergence

  /** A publish call creates the pod or writes to it, or a worker acts on it from an old snapshot. */
  predicate Disturbs(s: State, a: Action, name: string)
    requires Enabled(s, a)
  {
    || PlantsPod(s, a, name)
    || (Effective(s, a) && PodOf(a.t) == name)
    || (IsLate(a) && s.workers[a.w].name == name)
  }

  /** A delete request for the pod: an eviction, or the end of an unpublish call. */
  predicate Marks(a: Action, name: string) {
    (a.Evict? && a.name == name) || (a.ReapPod? && PodOf(a.t) == name)
  }

  /** A reconciler step on the pod outside its delay window. */
  predicate Reconciles(s: State, a: Action, name: string) {
    a.RunStep? && a.name == name && name in s.pods && !Convergence.InWindow(s.pods[name], a.env)
  }

  /** The step is not held up by a resource error. */
  predicate Unhindered(s: State, a: Action, name: string) {
    a.RunStep? && a.name == name && name in s.pods ==> !IsResourceError(s.pods[name].status)
  }

  // --- one step -----------------------------------------------------------------------------

  /** From `p` to `q` the pod stays unused and needs at most `more` steps more. */
  ghost predicate Drains(p: Pod, q: Pod, live: set<string>, more: int) {
    Convergence.Unused(q, live) && Convergence.Rank(q) <= Convergence.Rank(p) + more
  }

  lemma MarkDrains(p: Pod, live: set<string>)
    requires Convergence.Unused(p, live)
    ensures Drains(p, p.(deleting := true), live, 1)
  {
    hide MountPathOf, LiveKeys, References;
  }

  lemma RemoveDrains(p: Pod, t: string, live: set<string>)
    requires Convergence.Unused(p, live)
    ensures Drains(p, p.(annotations := p.annotations - {ReferenceKey(t)}), live, 0)
  {
    hide MountPathOf, ReferenceKey;
    KeyShape(t);
    var a, b := p.annotations, p.annotations - {ReferenceKey(t)};
    assert forall k :: k in LiveKeys(b, live) ==> k in LiveKeys(a, live);
    assert forall k :: k in References(b) ==> k in References(a);
  }

  lemma AnnotateDrains(p: Pod, key: string, value: string, live: set<string>)
    requires Convergence.Unused(p, live) && !(REFERENCE_PREFIX <= key)
    ensures Drains(p, p.(annotations := p.annotations[key := value]), live, 0)
  {
    hide MountPathOf, ReferenceKey;
    var a, b := p.annotations, p.annotations[key := value];
    assert REFERENCE_PREFIX <= DELAY_TIME_KEY && REFERENCE_PREFIX <= DELAY_AT_KEY;
    forall t ensures ReferenceKey(t) != key {
      KeyShape(t);
    }
    assert forall k :: k in LiveKeys(b, live) ==> k in LiveKeys(a, live);
    assert forall k :: k in References(b) ==> k in References(a);
  }

  /** Listed application pods are new, so no reference comes to life. */
  lemma StaysDead(s: State, a: Action, p: Pod)
    requires Sane(s) && Enabled(s, a) && WellFormed(p.annotations, s.seen) && LiveKeys(p.annotations, s.live) == {}
    ensures LiveKeys(p.annotations, LiveAfter(s, a)) == {}
  {
    hide WellFormed, ReferenceKey, TargetPath.PodUid, Ready, PodOf, ValidRequest, JLockFree;
    hide SoundPods, CallsInPlay, OneHolder, UnboundFirst, PendingMaps, WorkersLag, Collisionless;
    forall k | k in LiveKeys(p.annotations, LiveAfter(s, a)) ensures k in LiveKeys(p.annotations, s.live) {
      ReferencesAreSeen(p.annotations, k, s.seen);
    }
  }

  lemma RunDrains(s: State, a: Action, name: string)
    requires Sane(s) && Enabled(s, a) && a.RunStep? && name in s.pods && Convergence.Unused(s.pods[name], s.live)
    requires Unhindered(s, a, name) && name in PodsAfter(s, a)
    ensures Drains(s.pods[name], PodsAfter(s, a)[name], s.live, if Reconciles(s, a, name) then -1 else 0)
  {
    hide Sane, PodOf, Fresh, Outcome, MountPathOf, LiveKeys, Convergence.Rank, IsResourceError, ShouldDelay;
    if a.name == name {
      FreshOutcome(s.pods, name, s.live, a.env);
      Convergence.RankDecreases(s.pods[name], s.live, a.env);
    } else {
      FreshFrame(s.pods, a.name, s.live, a.env);
    }
  }

  lemma LateIsElsewhere(s: State, a: Action, name: string)
    requires Sane(s) && Enabled(s, a) && IsLate(a) && s.workers[a.w].name != name
    requires name in s.pods && name in PodsAfter(s, a)
    ensures PodsAfter(s, a)[name] == s.pods[name]
  {
    hide Sane, Sent, Ready, PodOf, MountPathOf, WellFormed;
    SoundParts(s);
    SentFrame(s.pods, s.workers[a.w], a);
  }

  /** Every other step leaves the pod alone, or takes a reference from it, annotates it, reports its
      status or marks it. */
  lemma OtherChanges(s: State, a: Action, name: string)
    requires Sane(s) && Enabled(s, a) && !a.RunStep? && !Disturbs(s, a, name)
    requires name in s.pods && name in PodsAfter(s, a)
    ensures var p, q := s.pods[name], PodsAfter(s, a)[name];
      || q == p
      || (Marks(a, name) && q == p.(deleting := true))
      || (a.RemoveRef? && q == p.(annotations := p.annotations - {ReferenceKey(a.t)}))
      || (a.Annotate? && !(REFERENCE_PREFIX <= a.key) && q == p.(annotations := p.annotations[a.key := a.value]))
      || (a.Report? && q == p.(status := a.status))
  {
    hide Sane, PodOf, Fresh, Sent, NewPod, ReferenceKey, Ready, ValidRequest, JLockFree;
    if IsLate(a) {
      LateIsElsewhere(s, a, name);
    }
  }

  lemma OtherDrains(s: State, a: Action, name: string)
    requires Sane(s) && Enabled(s, a) && !a.RunStep? && !Disturbs(s, a, name)
    requires name in s.pods && Convergence.Unused(s.pods[name], s.live) && name in PodsAfter(s, a)
    ensures Drains(s.pods[name], PodsAfter(s, a)[name], s.live, if Marks(a, name) then 1 else 0)
  {
    hide Sane, Enabled, PodsAfter, PodOf, MountPathOf, LiveKeys, References, ReferenceKey, Marks, Disturbs;
    OtherChanges(s, a, name);
    var p := s.pods[name];
    MarkDrains(p, s.live);
    if a.RemoveRef? {
      RemoveDrains(p, a.t, s.live);
    } else if a.Annotate? && !(REFERENCE_PREFIX <= a.key) {
      AnnotateDrains(p, a.key, a.value, s.live);
    }
  }

  lemma StepDrains(s: State, a: Action, name: string)
    requires Sane(s) && Enabled(s, a) && !Disturbs(s, a, name) && Unhindered(s, a, name)
    requires name in s.pods && Convergence.Unused(s.pods[name], s.live) && name in PodsAfter(s, a)
    ensures Drains(s.pods[name], PodsAfter(s, a)[name], LiveAfter(s, a),
                   (if Marks(a, name) then 1 else 0) - (if Reconciles(s, a, name) then 1 else 0))
  {
    hide Sane, Enabled, PodsAfter, LiveAfter, Disturbs, Unhindered, Convergence.Rank, LiveKeys, Ours, PodOf;
    hide Convergence.InWindow;
    if a.RunStep? {
      RunDrains(s, a, name);
    } else {
      OtherDrains(s, a, name);
    }
    PodsStaySound(s, a);
    StaysDead(s, a, PodsAfter(s, a)[name]);
  }

  // --- runs ---------------------------------------------------------------------------------

  /** Reconciler steps on the pod outside its delay window, from state `i` to state `j`. */
  ghost function Steps(states: seq<State>, actions: seq<Action>, i: nat, j: nat, name: string): nat
    requires j <= |actions| < |states|
  {
    if j <= i then 0
    else Steps(states, actions, i, j - 1, name) + (if Reconciles(states[j - 1], actions[j - 1], name) then 1 else 0)
  }

  /** Delete requests for the pod, from state `i` to state `j`. */
  ghost function Deletes(actions: seq<Action>, i: nat, j: nat, name: string): nat
    requires j <= |actions|
  {
    if j <= i then 0
    else Deletes(actions, i, j - 1, name) + (if Marks(actions[j - 1], name) then 1 else 0)
  }

  /** Between states `i` and `j` the pod is left to the reconciler, and no resource error is in its way. */
  ghost predicate LeftAlone(states: seq<State>, actions: seq<Action>, i: nat, j: nat, name: string)
    requires IsRun(states, actions) && j <= |actions|
  {
    forall k :: i <= k < j ==>
      !Disturbs(states[k], actions[k], name) && Unhindered(states[k], actions[k], name)
  }

  lemma {:induction false} RankIsUsedUp(states: seq<State>, actions: seq<Action>, i: nat, j: nat, name: string)
    requires IsRun(states, actions) && i <= j < |states| && LeftAlone(states, actions, i, j, name)
    requires name in states[i].pods && Convergence.Unused(states[i].pods[name], states[i].live)
    ensures name in states[j].pods ==>
      && Convergence.Unused(states[j].pods[name], states[j].live)
      && Convergence.Rank(states[j].pods[name]) + Steps(states, actions, i, j, name)
           <= Convergence.Rank(states[i].pods[name]) + Deletes(actions, i, j, name)
    decreases j
  {
    hide Step, Enabled, Disturbs, Unhindered, Sane, Init, Convergence.Unused, Convergence.Rank, Marks, Reconciles;
    if i < j {
      var s, a := states[j - 1], actions[j - 1];
      assert Enabled(s, a) && states[j] == Step(s, a) && !Disturbs(s, a, name) && Unhindered(s, a, name);
      assert LeftAlone(states, actions, i, j - 1, name);
      RankIsUsedUp(states, actions, i, j - 1, name);
      RunIsSane(states, actions, j - 1);
      StepParts(s, a);
      if name in states[j].pods {
        if name !in s.pods {
          StillGone(s, a, name);
        }
        StepDrains(s, a, name);
      }
    }
  }

  lemma StepParts(s: State, a: Action)
    requires Enabled(s, a)
    ensures Step(s, a).pods == PodsAfter(s, a) && Step(s, a).live == LiveAfter(s, a)
  {
    hide PodsAfter, CallsAfter, LiveAfter, SeenAfter, BoundAfter, LostAfter, WorkersAfter, Enabled;
  }

  lemma StillGone(s: State, a: Action, name: string)
    requires Sane(s) && Enabled(s, a) && !Disturbs(s, a, name) && name !in s.pods
    ensures name !in PodsAfter(s, a)
  {
    hide Sane, Enabled, PodsAfter, PlantsPod;
    StaysGone(s, a, name);
  }

  /** Convergence.  From a state in which no target of the pod is live, as long as no publish call and no
      late request touches it, the pod is gone after as many reconciler steps outside its delay window as
      its rank, and one more for every delete request in between, whatever else happens. */
  lemma RunsConverge(states: seq<State>, actions: seq<Action>, i: nat, j: nat, name: string)
    requires IsRun(states, actions) && i <= j < |states| && LeftAlone(states, actions, i, j, name)
    requires name in states[i].pods && Convergence.Unused(states[i].pods[name], states[i].live)
    requires Steps(states, actions, i, j, name)
          >= Convergence.Rank(states[i].pods[name]) + Deletes(actions, i, j, name)
    ensures name !in states[j].pods
  {
    hide IsRun, LeftAlone, Convergence.Unused, Convergence.Rank;
    RankIsUsedUp(states, actions, i, j, name);
    if name in states[j].pods {
      Convergence.RankBound(states[j].pods[name]);
    }
  }
}
