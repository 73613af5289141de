/** What may happen between the read and the replace of `AddRefOfMount`, along whole runs. */
module Races {
  import opened Annotation
  import opened Pods
  import opened Store
  import opened Reconcile
  import opened Protocol
  import opened Sanity
  import opened Safety
  import opened Workers
  import opened Publishers
  import StepProperties

  /** As far as `u` goes, the map that the call for `t` is about to write has what the server has, and
      besides that only what is dead. */
  ghost predicate Tracks(s: State, t: string, u: string)
    requires AtReplace(s, t)
  {
    && (Referenced(s.pods, u) ==> RefersTo(s.calls[t].annotations, u))
    && (RefersTo(s.calls[t].annotations, u) && u != t && u in s.live && PodOf(t) in s.pods ==> Referenced(s.pods, u))
  }

  lemma ReadTracks(s: State, t: string, u: string)
    requires Enabled(s, Read(t)) && AtReplace(Step(s, Read(t)), t) && PodOf(u) == PodOf(t)
    ensures Tracks(Step(s, Read(t)), t, u)
  {
    hide PodOf, ReferenceKey, JLockFree;
    KeyShape(u);
  }

  /** While the call holds `JLock`, nobody adds a reference to its pod, unless it is a new one. */
  lemma NobodyAdds(s: State, a: Action, t: string, u: string)
    requires Sane(s) && Enabled(s, a) && AtReplace(s, t) && PodOf(u) == PodOf(t)
    requires !(a.Write? && a.t == t) && !PlantsPod(s, a, PodOf(t))
    requires Referenced(PodsAfter(s, a), u)
    ensures Referenced(s.pods, u)
  {
    hide PodOf, RefersTo, Sane, Fresh, Sent, NewPod, ReferenceKey, Ready, StepProperties.Replaces, JLockFree;
    hide ValidRequest, RemoveAnnotations, ReplaceAnnotations, AddAnnotation, DeletePod;
    if a.Write? {
      OthersDoNotWrite(s, a, t);
    } else if a.RunStep? && a.name == PodOf(t) {
      if !Referenced(s.pods, u) {
        RunStaysUnreferenced(s, a, u);
      }
    } else {
      UnlessRenewed(s, a, PodOf(t));
    }
  }

  lemma RunKeepsIfThere(s: State, a: Action, u: string)
    requires Sane(s) && Enabled(s, a) && a.RunStep? && u in s.live && Referenced(s.pods, u)
    requires PodOf(u) in PodsAfter(s, a)
    ensures Referenced(PodsAfter(s, a), u)
  {
    hide PodOf, RefersTo, Sane, Fresh, Outcome, WellFormed, MountPathOf;
    SoundParts(s);
    assert Sound(s.pods[a.name], s.seen);
    FreshOutcome(s.pods, a.name, s.live, a.env);
    if a.name == PodOf(u) {
      StepProperties.StepKeepsLiveIfThere(s.pods[a.name], s.live, a.env, u);
    }
  }

  lemma LateKeepsIfThere(s: State, a: Action, u: string)
    requires Sane(s) && Enabled(s, a) && IsLate(a) && u in s.live && Referenced(s.pods, u)
    requires PodOf(u) in PodsAfter(s, a)
    ensures Referenced(PodsAfter(s, a), u)
  {
    hide PodOf, RefersTo, Sane, WellFormed, MountPathOf, Release, Unseat, Replacement, Ready;
    SoundParts(s);
    var w := s.workers[a.w];
    if a.LatePrune? || a.LateArm? {
      LatePatchKeeps(s, a, u);
    } else {
      ReleaseOfOurs(s.pods, w.name, w.cur);
      UnseatOfOurs(s.pods, w.name, w.cur);
    }
  }

  lemma ClientKeepsIfThere(s: State, a: Action, u: string)
    requires Sane(s) && Enabled(s, a) && (a.Create? || a.ReapPod? || a.Evict? || a.Report? || a.Annotate?)
    requires Referenced(s.pods, u) && PodOf(u) in PodsAfter(s, a)
    ensures Referenced(PodsAfter(s, a), u)
  {
    hide PodOf, RefersTo, Sane, NewPod, ValidRequest, Ours, WellFormed;
    if a.Annotate? {
      SoundParts(s);
      AnnotateKeeps(s.pods[a.name].annotations, a.key, a.value, s.seen);
    }
  }

  /** No step but a remove patch under `JLock` takes a live reference from a pod that is still there. */
  lemma LiveStaysIfThere(s: State, a: Action, u: string)
    requires Sane(s) && Enabled(s, a) && !a.Write? && !a.RemoveRef?
    requires u in s.live && Referenced(s.pods, u) && PodOf(u) in PodsAfter(s, a)
    ensures Referenced(PodsAfter(s, a), u)
  {
    hide PodOf, RefersTo, Sane, Fresh, Sent, NewPod, Enabled, ReferenceKey, Referenced;
    hide DeletePod, CreatePod, ReplaceAnnotations, RemoveAnnotations, AddAnnotation;
    if IsLate(a) {
      LateKeepsIfThere(s, a, u);
    } else if a.RunStep? {
      RunKeepsIfThere(s, a, u);
    } else if a.Create? || a.ReapPod? || a.Evict? || a.Report? || a.Annotate? {
      ClientKeepsIfThere(s, a, u);
    } else {
      assert PodsAfter(s, a) == s.pods;
    }
  }

  /** Application pods do not come back: a target that a map refers to is live only if it was. */
  lemma WasLive(s: State, a: Action, t: string, u: string)
    requires Sane(s) && Enabled(s, a) && AtReplace(s, t) && RefersTo(s.calls[t].annotations, u)
    requires u in LiveAfter(s, a)
    ensures u in s.live
  {
    hide PodOf, OneHolder, UnboundFirst, SoundPods, WorkersLag, Ready, ValidRequest, JLockFree, TargetPath.PodUid;
    hide Collisionless;
    var b := s.calls[t].annotations;
    assert PendingMap(b, t, s.seen);
    assert IsReference(b, ReferenceKey(u)) by { KeyShape(u); }
    ReferencesAreSeen(b, ReferenceKey(u), s.seen);
  }

  lemma HolderExcludes(s: State, a: Action, t: string)
    requires Sane(s) && Enabled(s, a) && AtReplace(s, t) && AtReplace(Step(s, a), t)
    ensures !a.Write? && !a.RemoveRef? && s.calls[t] == CallsAfter(s, a)[t]
  {
    hide PodOf, PodsAfter, BoundAfter, LiveAfter, SeenAfter, LostAfter, WorkersAfter, ReferenceKey, WithReference;
    hide SoundPods, UnboundFirst, PendingMaps, WorkersLag, Setting, CallsInPlay, Ready, ValidRequest;
    hide HasPrefixedKey, RemoveAnnotations, TargetsOf;
  }

  lemma StepTracks(s: State, a: Action, t: string, u: string)
    requires Sane(s) && Enabled(s, a) && AtReplace(s, t) && AtReplace(Step(s, a), t)
    requires Tracks(s, t, u) && PodOf(u) == PodOf(t) && !PlantsPod(s, a, PodOf(t))
    ensures Tracks(Step(s, a), t, u)
  {
    hide PodOf, RefersTo, Sane, Enabled, PodsAfter, CallsAfter, BoundAfter, LiveAfter, SeenAfter, LostAfter;
    hide WorkersAfter, PlantsPod;
    HolderExcludes(s, a, t);
    var b := s.calls[t].annotations;
    if Referenced(PodsAfter(s, a), u) {
      NobodyAdds(s, a, t, u);
    }
    if RefersTo(b, u) && u != t && u in LiveAfter(s, a) && PodOf(t) in PodsAfter(s, a) {
      WasLive(s, a, t, u);
      if PodOf(t) !in s.pods {
        StaysGone(s, a, PodOf(t));
      }
      LiveStaysIfThere(s, a, u);
    }
  }

  lemma {:induction false} HolderTracks(states: seq<State>, actions: seq<Action>, i: nat, j: nat, t: string, u: string)
    requires IsRun(states, actions) && i < j < |states| && actions[i] == Read(t) && PodOf(u) == PodOf(t)
    requires forall k :: i < k <= j ==> AtReplace(states[k], t)
    requires forall k :: i < k < j ==> !PlantsPod(states[k], actions[k], PodOf(t))
    ensures Tracks(states[j], t, u)
    decreases j
  {
    hide Step, Enabled, Tracks, PlantsPod, Sane, Init, PodOf, AtReplace;
    var s, a := states[j - 1], actions[j - 1];
    assert Enabled(s, a) && states[j] == Step(s, a) && AtReplace(states[j], t);
    RunIsSane(states, actions, j - 1);
    if j == i + 1 {
      ReadTracks(s, t, u);
    } else {
      HolderTracks(states, actions, i, j - 1, t, u);
      assert AtReplace(s, t) && !PlantsPod(s, a, PodOf(t));
      StepTracks(s, a, t, u);
    }
  }

  lemma WriteReplaces(s: State, a: Action, u: string)
    requires Enabled(s, a) && Effective(s, a) && PodOf(u) == PodOf(a.t)
    ensures AtReplace(s, a.t) && PodOf(a.t) in s.pods
    ensures Referenced(PodsAfter(s, a), u) <==> RefersTo(s.calls[a.t].annotations, u)
  {
    hide PodOf, RefersTo;
  }

  lemma HolderRefersToItself(s: State, t: string)
    requires Sane(s) && AtReplace(s, t)
    ensures RefersTo(s.calls[t].annotations, t)
  {
  }

  /** Replacing the whole map refines inserting one key.  Whatever happened since the read, with any
      number of reconcilers at work, short of a new pod taking the name: no reference that is on the
      server is lost, and a live target is referenced afterwards exactly if it was before or is the
      call's own.  What reappears is dead. */
  lemma WriteAfterRuns(states: seq<State>, actions: seq<Action>, i: nat, j: nat, t: string, u: string)
    requires IsRun(states, actions) && i < j < |actions| && actions[i] == Read(t)
    requires Effective(states[j], actions[j]) && actions[j].t == t && PodOf(u) == PodOf(t)
    requires forall k :: i < k <= j ==> AtReplace(states[k], t)
    requires forall k :: i < k < j ==> !PlantsPod(states[k], actions[k], PodOf(t))
    ensures Referenced(states[j].pods, u) ==> Referenced(states[j + 1].pods, u)
    ensures u in states[j].live ==>
      (Referenced(states[j + 1].pods, u) <==> Referenced(states[j].pods, u) || u == t)
  {
    hide Step, Enabled, PlantsPod, Sane, Init, PodOf, AtReplace, RefersTo, Referenced;
    var s, a := states[j], actions[j];
    assert Enabled(s, a) && states[j + 1] == Step(s, a) && AtReplace(s, t);
    RunIsSane(states, actions, j);
    HolderTracks(states, actions, i, j, t, u);
    WriteReplaces(s, a, u);
    HolderRefersToItself(s, t);
    StepPods(s, a);
  }

  /** In every run, a step that does not bring the pod back from its snapshot leaves exactly the live
      references: dead ones that a write brought back go with the next such step. */
  lemma NextRunCleansUp(states: seq<State>, actions: seq<Action>, k: nat, name: string, env: Env)
    requires IsRun(states, actions) && k < |actions| && actions[k] == RunStep(name, env) && name in states[k].pods
    requires !StepProperties.Replaces(states[k].pods[name], states[k].live, env) && name in states[k + 1].pods
    ensures References(states[k + 1].pods[name].annotations).Keys
         == LiveKeys(states[k].pods[name].annotations, states[k].live)
  {
    hide Step, Enabled, Sane, Init, StepProperties.Replaces, Outcome, Fresh, References, LiveKeys, PodOf;
    var s := states[k];
    assert Enabled(s, actions[k]) && states[k + 1] == Step(s, actions[k]);
    RunIsSane(states, actions, k);
    SoundParts(s);
    assert Sound(s.pods[name], s.seen);
    StepPods(s, actions[k]);
    FreshOutcome(s.pods, name, s.live, env);
    StepProperties.StepLeavesOnlyLive(s.pods[name], s.live, env);
  }
}
