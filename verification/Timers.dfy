/** Delete timers and resource replacement along whole runs. */
module Timers {
  import opened Text
  import opened Annotation
  import opened Pods
  import opened Store
  import opened Reconcile
  import opened Protocol
  import opened Sanity
  import opened Safety
  import opened Workers
  import StepProperties

  // --- the timer invariant ------------------------------------------------------------------

  /** The timer of the pod called `name` is consistent, on the server and in every snapshot. */
  ghost predicate TimedAt(s: State, name: string) {
    && (name in s.pods ==> TimerConsistent(s.pods[name].annotations))
    && forall w :: w in s.workers && s.workers[w].name == name ==> TimerConsistent(s.workers[w].cur.annotations)
  }

  /** A deadline from an old snapshot finds a pod with a delay and without references. */
  predicate Timely(s: State, a: Action, name: string)
    requires Enabled(s, a)
  {
    a.LateArm? && s.workers[a.w].name == name && name in s.pods ==>
      DELAY_TIME_KEY in s.pods[name].annotations && References(s.pods[name].annotations) == map[]
  }

  /** This is exactly when it leaves the timer consistent. */
  lemma LateDeadlineExactly(s: State, a: Action)
    requires Enabled(s, a) && a.LateArm? && s.workers[a.w].name in s.pods
    ensures TimerConsistent(PodsAfter(s, a)[s.workers[a.w].name].annotations)
       <==> Timely(s, a, s.workers[a.w].name)
  {
    hide PodOf, IsIdle, ShouldDelay, ReferenceKey;
    var w := s.workers[a.w];
    ArmedIsTimedExactly(s.pods[w.name].annotations,
                        ShouldDelay(w.cur.annotations, a.env.now, a.env.zone).deleteAt);
  }

  lemma ArmedIsTimedExactly(a: Annotations, deleteAt: string)
    ensures TimerConsistent(a[DELAY_AT_KEY := deleteAt]) <==> DELAY_TIME_KEY in a && References(a) == map[]
  {
    hide ReferenceKey;
    var b := a[DELAY_AT_KEY := deleteAt];
    KeyShape(deleteAt);
    if DELAY_AT_KEY in a {
      KeyShape(a[DELAY_AT_KEY]);
    }
    assert References(b) == References(a);
    assert References(b) == map[] <==> forall k :: k in b ==> k != ReferenceKey(b[k]) by {
      assert forall k :: k in b && k == ReferenceKey(b[k]) ==> k in References(b);
    }
  }

  lemma ReconcileKeepsTimed(s: State, a: Action)
    requires Sane(s) && Enabled(s, a) && a.RunStep? && TimerConsistent(s.pods[a.name].annotations)
    ensures a.name in PodsAfter(s, a) ==> TimerConsistent(PodsAfter(s, a)[a.name].annotations)
  {
    hide Fresh, Outcome, MountPathOf, WellFormed, TimerConsistent, Sane, PodOf;
    SoundParts(s);
    assert Sound(s.pods[a.name], s.seen);
    FreshOutcome(s.pods, a.name, s.live, a.env);
    StepProperties.StepKeepsTimer(s.pods[a.name], s.live, a.env);
  }

  lemma RemovingKeepsTimer(a: Annotations, keys: set<string>)
    requires TimerConsistent(a) && DELAY_TIME_KEY !in keys
    ensures TimerConsistent(a - keys)
  {
    hide ReferenceKey;
  }

  lemma DelayIsNotDropped(a: Annotations, live: set<string>)
    ensures DELAY_TIME_KEY !in Dropped(a, live)
  {
  }

  lemma NewPodIsTimed(t: string, r: Request)
    requires '/' !in VolumeOf(t)
    ensures TimerConsistent(NewPod(t, r).annotations)
  {
    hide ReferenceKey, MountCommand.Print, MountCommand.Quote, MountCommand.MountPath;
    KeyShape(t);
  }

  lemma AnnotateKeepsTimer(a: Annotations, key: string, value: string)
    requires TimerConsistent(a) && !(REFERENCE_PREFIX <= key)
    ensures TimerConsistent(a[key := value])
  {
    hide ReferenceKey;
    KeyShape(value);
    assert REFERENCE_PREFIX <= DELAY_TIME_KEY && REFERENCE_PREFIX <= DELAY_AT_KEY;
  }

  lemma PendingIsTimed(s: State, t: string)
    requires Sane(s) && t in s.calls && s.calls[t].Replace?
    ensures TimerConsistent(s.calls[t].annotations)
  {
  }

  lemma LateKeepsTimed(s: State, a: Action, name: string)
    requires Sane(s) && Enabled(s, a) && IsLate(a) && TimedAt(s, name) && Timely(s, a, name)
    requires name in PodsAfter(s, a)
    ensures TimerConsistent(PodsAfter(s, a)[name].annotations)
  {
    hide PodOf, TimerConsistent, Dropped, Sane, MountPathOf, WellFormed, Release, Unseat, Timely, IsIdle, ShouldDelay;
    hide Releases, GetPodStatus, ResourcePath;
    SoundParts(s);
    var w := s.workers[a.w];
    if w.name != name {
      SentFrame(s.pods, w, a);
    } else if a.LateArm? && name in s.pods {
      LateDeadlineExactly(s, a);
    } else if a.LatePrune? && name in s.pods {
      DelayIsNotDropped(w.cur.annotations, w.live);
      RemovingKeepsTimer(s.pods[name].annotations, Dropped(w.cur.annotations, w.live));
    } else {
      ReleaseOfOurs(s.pods, name, w.cur);
      UnseatOfOurs(s.pods, name, w.cur);
    }
  }

  lemma PodStaysTimed(s: State, a: Action, name: string)
    requires Sane(s) && Enabled(s, a) && TimedAt(s, name) && Timely(s, a, name)
    requires name in PodsAfter(s, a)
    ensures TimerConsistent(PodsAfter(s, a)[name].annotations)
  {
    hide PodOf, NewPod, ReferenceKey, Fresh, TimerConsistent, Sent, Sane, Timely, Ready, ValidRequest, JLockFree;
    if IsLate(a) {
      LateKeepsTimed(s, a, name);
    } else if a.RunStep? {
      if a.name == name {
        ReconcileKeepsTimed(s, a);
      } else {
        FreshFrame(s.pods, a.name, s.live, a.env);
      }
    } else if a.Create? {
      NewPodIsTimed(a.t, a.request);
    } else if a.Write? {
      PendingIsTimed(s, a.t);
    } else if a.RemoveRef? {
      KeyShape(a.t);
      if name in s.pods {
        RemovingKeepsTimer(s.pods[name].annotations, {ReferenceKey(a.t)});
      }
    } else if a.Annotate? {
      AnnotateKeepsTimer(s.pods[name].annotations, a.key, a.value);
    }
  }

  lemma SnapshotsStayTimed(s: State, a: Action, name: string, w: int)
    requires Enabled(s, a) && TimedAt(s, name) && w in Step(s, a).workers && Step(s, a).workers[w].name == name
    ensures TimerConsistent(Step(s, a).workers[w].cur.annotations)
  {
    hide Step, Enabled, TimerConsistent;
    if w in s.workers {
      WorkerStays(s, a, w);
    } else {
      WorkerStarts(s, a, w);
      FetchStarts(s, a);
    }
  }

  /** Every step but an untimely deadline keeps the timer of a pod consistent. */
  lemma StepKeepsTimed(s: State, a: Action, name: string)
    requires Sane(s) && Enabled(s, a) && TimedAt(s, name) && Timely(s, a, name)
    ensures TimedAt(Step(s, a), name)
  {
    hide Step, Enabled, Sane, Timely, TimerConsistent;
    StepPods(s, a);
    if name in PodsAfter(s, a) {
      PodStaysTimed(s, a, name);
    }
    forall w | w in Step(s, a).workers && Step(s, a).workers[w].name == name
      ensures TimerConsistent(Step(s, a).workers[w].cur.annotations)
    {
      SnapshotsStayTimed(s, a, name, w);
    }
  }

  lemma {:induction false} RunIsTimed(states: seq<State>, actions: seq<Action>, i: nat, name: string)
    requires IsRun(states, actions) && i < |states|
    requires forall k :: 0 <= k < i ==> Timely(states[k], actions[k], name)
    ensures TimedAt(states[i], name)
  {
    hide Step, Enabled, TimerConsistent, Timely, Sane, MountPod;
    if i > 0 {
      RunIsTimed(states, actions, i - 1, name);
      RunIsSane(states, actions, i - 1);
      StepKeepsTimed(states[i - 1], actions[i - 1], name);
    }
  }

  /** In every run the texts of delay and deadline parse: the error exits of `ShouldDelay` are never
      taken.  As long as no untimely deadline is written to the pod, a deadline belongs to a delay and
      to a pod without references. */
  lemma TimersAreConsistent(states: seq<State>, actions: seq<Action>, i: nat, name: string)
    requires IsRun(states, actions) && i < |states| && name in states[i].pods
    ensures var a := states[i].pods[name].annotations;
      && (DELAY_TIME_KEY in a ==> ParseDuration(a[DELAY_TIME_KEY]).Some?)
      && (DELAY_AT_KEY in a ==> ParseTime(a[DELAY_AT_KEY]).Some?)
      && ((forall k :: 0 <= k < i ==> Timely(states[k], actions[k], name)) ==>
            DELAY_AT_KEY in a ==> DELAY_TIME_KEY in a && References(a) == map[])
  {
    hide Init, Enabled, Step, ReferenceKey, Ours, ParseTime, Timely, Sane;
    RunIsSane(states, actions, i);
    SoundParts(states[i]);
    var a := states[i].pods[name].annotations;
    assert Sound(states[i].pods[name], states[i].seen);
    if forall k :: 0 <= k < i ==> Timely(states[k], actions[k], name) {
      RunIsTimed(states, actions, i, name);
      assert TimerConsistent(a);
      assert forall k :: k in References(a) ==> k in a && k == ReferenceKey(a[k]);
    }
  }

  // --- the deadline does not move -----------------------------------------------------------

  /** The pod is there, with this deadline and a consistent timer. */
  ghost predicate DueAt(pods: PodMap, name: string, deleteAt: string) {
    && name in pods && TimerConsistent(pods[name].annotations)
    && DELAY_AT_KEY in pods[name].annotations && pods[name].annotations[DELAY_AT_KEY] == deleteAt
  }

  /** A publish call writes to the pod, or a worker writes its deadline or drops it, from an old
      snapshot. */
  predicate Resets(s: State, a: Action, name: string)
    requires Enabled(s, a)
  {
    || (a.Write? && PodOf(a.t) == name)
    || (a.LateArm? && s.workers[a.w].name == name)
    || (a.LatePrune? && s.workers[a.w].name == name
        && DELAY_AT_KEY in Dropped(s.workers[a.w].cur.annotations, s.workers[a.w].live))
  }

  lemma RemovingKeepsDeadline(pods: PodMap, name: string, deleteAt: string, n: string, keys: set<string>)
    requires DueAt(pods, name, deleteAt) && (n == name ==> DELAY_AT_KEY !in keys && DELAY_TIME_KEY !in keys)
    ensures DueAt(RemoveAnnotations(pods, n, keys).pods, name, deleteAt)
  {
    hide TimerConsistent;
    if n in pods && n == name {
      RemovingKeepsTimer(pods[n].annotations, keys);
    }
  }

  lemma ReconcileKeepsDeadline(s: State, a: Action, name: string, deleteAt: string)
    requires Sane(s) && Enabled(s, a) && a.RunStep? && DueAt(s.pods, name, deleteAt)
    requires name in PodsAfter(s, a)
    ensures DueAt(PodsAfter(s, a), name, deleteAt)
  {
    hide Fresh, Outcome, MountPathOf, WellFormed, TimerConsistent, Sane, PodOf;
    SoundParts(s);
    assert Sound(s.pods[a.name], s.seen);
    FreshOutcome(s.pods, a.name, s.live, a.env);
    if a.name == name {
      StepProperties.StepKeepsTimer(s.pods[a.name], s.live, a.env);
    }
  }

  lemma LateKeepsDeadline(s: State, a: Action, name: string, deleteAt: string)
    requires Sane(s) && Enabled(s, a) && IsLate(a) && DueAt(s.pods, name, deleteAt) && !Resets(s, a, name)
    requires name in PodsAfter(s, a)
    ensures DueAt(PodsAfter(s, a), name, deleteAt)
  {
    hide PodOf, TimerConsistent, Dropped, Sane, MountPathOf, WellFormed, Release, Unseat, IsIdle, ShouldDelay;
    hide Releases, GetPodStatus, ResourcePath, RemoveAnnotations;
    SoundParts(s);
    var w := s.workers[a.w];
    if w.name != name {
      SentFrame(s.pods, w, a);
    } else {
      ReleaseOfOurs(s.pods, name, w.cur);
      UnseatOfOurs(s.pods, name, w.cur);
      if a.LatePrune? {
        DelayIsNotDropped(w.cur.annotations, w.live);
        RemovingKeepsDeadline(s.pods, name, deleteAt, name, Dropped(w.cur.annotations, w.live));
      }
    }
  }

  lemma StepKeepsDeadline(s: State, a: Action, name: string, deleteAt: string)
    requires Sane(s) && Enabled(s, a) && DueAt(s.pods, name, deleteAt) && !Resets(s, a, name)
    requires name in PodsAfter(s, a)
    ensures DueAt(PodsAfter(s, a), name, deleteAt)
  {
    hide Sane, PodOf, NewPod, ReferenceKey, Fresh, Sent, TimerConsistent, Ready, ValidRequest, JLockFree, Dropped;
    hide RemoveAnnotations;
    if IsLate(a) {
      LateKeepsDeadline(s, a, name, deleteAt);
    } else if a.RunStep? {
      ReconcileKeepsDeadline(s, a, name, deleteAt);
    } else if a.RemoveRef? {
      KeyShape(a.t);
      RemovingKeepsDeadline(s.pods, name, deleteAt, PodOf(a.t), {ReferenceKey(a.t)});
    } else if a.Annotate? {
      assert REFERENCE_PREFIX <= DELAY_AT_KEY;
      AnnotateKeepsTimer(s.pods[name].annotations, a.key, a.value);
    }
  }

  /** A deadline stays as it is while its pod lasts, no publish call writes to the pod and no worker
      resets the timer from an old snapshot. */
  lemma {:induction false} DeadlineLasts(states: seq<State>, actions: seq<Action>, i: nat, j: nat,
                                         name: string, deleteAt: string)
    requires IsRun(states, actions) && i <= j < |states|
    requires DueAt(states[i].pods, name, deleteAt)
    requires forall k :: i <= k <= j ==> name in states[k].pods
    requires forall k :: i <= k < j ==> !Resets(states[k], actions[k], name)
    ensures DueAt(states[j].pods, name, deleteAt)
    decreases j
  {
    hide Step, Enabled, Resets, DueAt, Sane, Init;
    if i < j {
      var s, a := states[j - 1], actions[j - 1];
      assert Enabled(s, a) && states[j] == Step(s, a);
      DeadlineLasts(states, actions, i, j - 1, name, deleteAt);
      RunIsSane(states, actions, j - 1);
      StepPods(s, a);
      StepKeepsDeadline(s, a, name, deleteAt);
    }
  }

  // --- no early delete ----------------------------------------------------------------------

  /** The reconciler starts the timer of the pod. */
  ghost predicate Arms(s: State, name: string, env: Env) {
    && name in s.pods && DELAY_TIME_KEY in s.pods[name].annotations
    && DELAY_AT_KEY !in s.pods[name].annotations
    && name in Fresh(s.pods, name, s.live, env).pods
    && DELAY_AT_KEY in Fresh(s.pods, name, s.live, env).pods[name].annotations
  }

  /** The idle branch of `Run` deletes the pod. */
  predicate IdleDeletes(s: State, name: string, env: Env) {
    && name in s.pods && IsIdle(s.pods[name], s.live)
    && ShouldDelay(s.pods[name].annotations, env.now, env.zone).Expired?
  }

  lemma ArmedDeadline(s: State, name: string, env: Env)
    requires Sane(s) && Arms(s, name, env)
    ensures ParseDuration(s.pods[name].annotations[DELAY_TIME_KEY]).Some?
    ensures
      var due := FloorToSecond(env.now + ParseDuration(s.pods[name].annotations[DELAY_TIME_KEY]).value + env.zone);
      var pods := Fresh(s.pods, name, s.live, env).pods;
      && ParseTime(pods[name].annotations[DELAY_AT_KEY]) == Some(due)
      && DueAt(pods, name, pods[name].annotations[DELAY_AT_KEY])
  {
    hide Fresh, Outcome, ShouldDelay, Ours, ParseTime, FloorToSecond, IsResourceError, Sane;
    SoundParts(s);
    var p := s.pods[name];
    assert Sound(p, s.seen);
    FreshOutcome(s.pods, name, s.live, env);
    StepProperties.NewDeadline(p, s.live, env);
    StepProperties.StepKeepsTimer(p, s.live, env);
    DeadlineIsFloor(p.annotations, env.now, env.zone, env.now, env.zone);
  }

  lemma ExpiredIsDue(a: Annotations, now: int, zone: int)
    requires DELAY_TIME_KEY in a && DELAY_AT_KEY in a && ParseTime(a[DELAY_AT_KEY]).Some?
    requires ShouldDelay(a, now, zone).Expired?
    ensures now >= ParseTime(a[DELAY_AT_KEY]).value
  {
  }

  /** The step, at the instant and in the zone of `env`, writes the deadline of the pod for this delay:
      a `Run` from a fresh snapshot, or a worker with an old one, at an instant at which the pod has a
      delay and no reference. */
  ghost predicate Starts(s: State, a: Action, name: string, env: Env, delay: string)
    requires Enabled(s, a)
  {
    || (a == RunStep(name, env) && Arms(s, name, env) && delay == s.pods[name].annotations[DELAY_TIME_KEY])
    || (a.LateArm? && a.env == env && s.workers[a.w].name == name && name in s.pods && Timely(s, a, name)
        && DELAY_TIME_KEY in s.workers[a.w].cur.annotations
        && delay == s.workers[a.w].cur.annotations[DELAY_TIME_KEY])
  }

  lemma LateArmedDeadline(s: State, a: Action)
    requires Enabled(s, a) && a.LateArm? && s.workers[a.w].name in s.pods && Timely(s, a, s.workers[a.w].name)
    requires DELAY_TIME_KEY in s.workers[a.w].cur.annotations
    ensures var w, env, pods := s.workers[a.w], a.env, PodsAfter(s, a);
      var d := ParseDuration(w.cur.annotations[DELAY_TIME_KEY]);
      && d.Some? && w.name in pods && DELAY_AT_KEY in pods[w.name].annotations
      && ParseTime(pods[w.name].annotations[DELAY_AT_KEY]) == Some(FloorToSecond(env.now + d.value + env.zone))
      && DueAt(pods, w.name, pods[w.name].annotations[DELAY_AT_KEY])
  {
    hide PodOf, IsIdle, ParseTime, FloorToSecond, TimerConsistent, Timely;
    LateDeadlineExactly(s, a);
    DeadlineIsFloor(s.workers[a.w].cur.annotations, a.env.now, a.env.zone, a.env.now, a.env.zone);
  }

  lemma StartedDeadline(s: State, a: Action, name: string, env: Env, delay: string)
    requires Sane(s) && Enabled(s, a) && Starts(s, a, name, env, delay)
    ensures ParseDuration(delay).Some?
    ensures var pods := PodsAfter(s, a);
      && name in pods && DELAY_AT_KEY in pods[name].annotations
      && DueAt(pods, name, pods[name].annotations[DELAY_AT_KEY])
      && ParseTime(pods[name].annotations[DELAY_AT_KEY])
           == Some(FloorToSecond(env.now + ParseDuration(delay).value + env.zone))
  {
    hide Sane, Fresh, ParseTime, FloorToSecond, DueAt, Timely, PodOf, Sent, Ready;
    if a.RunStep? {
      ArmedDeadline(s, name, env);
    } else {
      LateArmedDeadline(s, a);
    }
  }

  /** From the step that writes a deadline, the idle branch does not delete the pod before the floor of
      that instant plus the delay, plus the zone of the process, unless the pod went away or its timer
      was reset in between. */
  lemma NoEarlyDelete(states: seq<State>, actions: seq<Action>, i: nat, j: nat,
                      name: string, armed: Env, delay: string, later: Env)
    requires IsRun(states, actions) && i < j < |actions|
    requires Starts(states[i], actions[i], name, armed, delay)
    requires actions[j] == RunStep(name, later) && IdleDeletes(states[j], name, later)
    requires forall k :: i < k <= j ==> name in states[k].pods
    requires forall k :: i < k < j ==> !Resets(states[k], actions[k], name)
    ensures ParseDuration(delay).Some?
    ensures later.now >= FloorToSecond(armed.now + ParseDuration(delay).value + armed.zone)
  {
    hide Step, Enabled, Sane, Resets, FloorToSecond, IsIdle, ParseTime, ShouldDelay, Init, Fresh, TimerConsistent;
    hide Starts, PodsAfter;
    RunIsSane(states, actions, i);
    assert Enabled(states[i], actions[i]) && states[i + 1] == Step(states[i], actions[i]);
    StartedDeadline(states[i], actions[i], name, armed, delay);
    StepPods(states[i], actions[i]);
    var at := states[i + 1].pods[name].annotations[DELAY_AT_KEY];
    DeadlineLasts(states, actions, i + 1, j, name, at);
    DueHasDelay(states[j].pods[name].annotations);
    ExpiredIsDue(states[j].pods[name].annotations, later.now, later.zone);
  }

  lemma DueHasDelay(a: Annotations)
    requires TimerConsistent(a) && DELAY_AT_KEY in a
    ensures DELAY_TIME_KEY in a
  {
  }

  // --- resources ----------------------------------------------------------------------------

  predicate HasResources(pods: PodMap, name: string) {
    name in pods && HasResource(pods[name].spec)
  }

  /** The step takes the pod away, to replace it, because it failed for want of resources. */
  predicate Relieves(s: State, a: Action, name: string)
    requires Enabled(s, a)
  {
    || (a.RunStep? && a.name == name && StepProperties.Fires(s.pods[name], s.live, a.env))
    || (a.LateRelieve? && s.workers[a.w].name == name
        && name in s.pods && s.pods[name].finalizers != [] && !s.pods[name].deleting)
  }

  predicate CreatesFor(a: Action, name: string) {
    a.Create? && PodOf(a.t) == name
  }

  /** A worker brings the pod back with the spec of its snapshot, or finds the resources there. */
  predicate Replants(s: State, a: Action, name: string)
    requires Enabled(s, a)
  {
    && (a.LateRelieve? || (a.LateRecover? && !s.workers[a.w].relief))
    && s.workers[a.w].name == name
  }

  lemma ReconcileSpends(s: State, a: Action, name: string)
    requires Sane(s) && Enabled(s, a) && a.RunStep?
    ensures HasResources(PodsAfter(s, a), name) ==> HasResources(s.pods, name)
    ensures Relieves(s, a, name) ==> HasResources(s.pods, name) && !HasResources(PodsAfter(s, a), name)
  {
    hide Fresh, Outcome, Ours, WellFormed, HasResource, StepProperties.Fires, Sane, PodOf;
    SoundParts(s);
    assert Sound(s.pods[a.name], s.seen);
    FreshOutcome(s.pods, a.name, s.live, a.env);
    StepProperties.StepSpendsResource(s.pods[a.name], s.live, a.env);
  }

  lemma RelievedHasNone(cur: Pod)
    ensures !HasResource(Relieved(cur).spec)
  {
  }

  lemma LateSpends(s: State, a: Action, name: string)
    requires Sane(s) && Enabled(s, a) && IsLate(a)
    ensures Relieves(s, a, name) ==> HasResource(s.workers[a.w].cur.spec) && !HasResources(PodsAfter(s, a), name)
    ensures HasResources(PodsAfter(s, a), name) ==>
      HasResources(s.pods, name) || (Replants(s, a, name) && HasResource(s.workers[a.w].cur.spec))
  {
    hide PodOf, Dropped, Sane, MountPathOf, WellFormed, Release, Unseat, Relieved, IsIdle, ShouldDelay, HasResource;
    hide Releases, GetPodStatus, IsResourceError, RemoveAnnotations;
    SoundParts(s);
    var w := s.workers[a.w];
    RelievedHasNone(w.cur);
    if w.name != name {
      SentFrame(s.pods, w, a);
    } else {
      hide AddAnnotation;
      ReleaseOfOurs(s.pods, name, w.cur);
      UnseatOfOurs(s.pods, name, w.cur);
      if a.LatePrune? {
        PatchKeepsSpec(s.pods, name, Dropped(w.cur.annotations, w.live));
      } else if a.LateArm? {
        AddKeepsSpec(s.pods, name, DELAY_AT_KEY, ShouldDelay(w.cur.annotations, a.env.now, a.env.zone).deleteAt);
      }
    }
  }

  lemma PatchKeepsSpec(pods: PodMap, name: string, keys: set<string>)
    ensures HasResources(RemoveAnnotations(pods, name, keys).pods, name) ==> HasResources(pods, name)
  {
    hide HasResource;
  }

  lemma AddKeepsSpec(pods: PodMap, name: string, key: string, value: string)
    ensures HasResources(AddAnnotation(pods, name, key, value).pods, name) ==> HasResources(pods, name)
  {
    hide HasResource;
  }

  /** Resources only come from a publish call or an old snapshot; replacing the pod takes them away. */
  lemma StepSpends(s: State, a: Action, name: string)
    requires Sane(s) && Enabled(s, a) && !CreatesFor(a, name)
    ensures Relieves(s, a, name) ==> !HasResources(PodsAfter(s, a), name)
    ensures Relieves(s, a, name) ==>
      HasResources(s.pods, name) || (Replants(s, a, name) && HasResource(s.workers[a.w].cur.spec))
    ensures HasResources(PodsAfter(s, a), name) ==>
      HasResources(s.pods, name) || (Replants(s, a, name) && HasResource(s.workers[a.w].cur.spec))
  {
    hide Sane, PodOf, NewPod, ReferenceKey, Fresh, Sent, HasResource, StepProperties.Fires, Ready, ValidRequest, JLockFree;
    if a.RunStep? {
      ReconcileSpends(s, a, name);
    } else if IsLate(a) {
      LateSpends(s, a, name);
    }
  }

  /** Between steps `i` and `j` no publish call creates the pod, and no worker brings it back but with a
      snapshot taken after `i`. */
  ghost predicate SameLineage(states: seq<State>, actions: seq<Action>, i: nat, j: nat, name: string)
    requires IsRun(states, actions) && j < |actions|
  {
    && (forall k :: i < k <= j ==> !CreatesFor(actions[k], name))
    && (forall k :: i < k <= j && Replants(states[k], actions[k], name) ==>
          exists f :: i < f && AtWork(states, actions, f, k, actions[k].w))
  }

  lemma {:induction false} ResourcesStayGone(states: seq<State>, actions: seq<Action>, i: nat, j: nat, name: string)
    requires IsRun(states, actions) && i < j < |actions| && SameLineage(states, actions, i, j, name)
    requires !HasResources(states[i + 1].pods, name)
    ensures !HasResources(states[j].pods, name)
    ensures Replants(states[j], actions[j], name) ==> !HasResource(states[j].workers[actions[j].w].cur.spec)
    decreases j
  {
    hide Step, Enabled, CreatesFor, HasResource, Replants, AtWork, Init, Sane;
    if i + 1 < j {
      var s, a := states[j - 1], actions[j - 1];
      assert Enabled(s, a) && states[j] == Step(s, a);
      ResourcesStayGone(states, actions, i, j - 1, name);
      RunIsSane(states, actions, j - 1);
      StepSpends(s, a, name);
      StepPods(s, a);
    }
    if Replants(states[j], actions[j], name) {
      ReplantsName(states[j], actions[j], name);
      var w := actions[j].w;
      var f :| i < f && AtWork(states, actions, f, j, w);
      AtWorkBounds(states, actions, f, j, w);
      SnapshotIs(states, actions, f, j, w);
      if i + 1 < f {
        ResourcesStayGone(states, actions, i, f, name);
      }
    }
  }

  lemma ReplantsName(s: State, a: Action, name: string)
    requires Enabled(s, a) && Replants(s, a, name)
    ensures IsLate(a) && a.w in s.workers && s.workers[a.w].name == name
  {
  }

  /** A pod is replaced for want of resources at most once, until a publish call creates a new one or a
      worker brings an older snapshot back. */
  lemma RelievedOnce(states: seq<State>, actions: seq<Action>, i: nat, j: nat, name: string)
    requires IsRun(states, actions) && i < j < |actions| && SameLineage(states, actions, i, j, name)
    requires Relieves(states[i], actions[i], name)
    ensures !Relieves(states[j], actions[j], name)
  {
    hide Step, Enabled, HasResources, HasResource, Relieves, Replants, AtWork, Init, Sane;
    RunIsSane(states, actions, i);
    assert Enabled(states[i], actions[i]) && states[i + 1] == Step(states[i], actions[i]);
    RelievesDoesNotCreate(states[i], actions[i], name);
    StepSpends(states[i], actions[i], name);
    StepPods(states[i], actions[i]);
    ResourcesStayGone(states, actions, i, j, name);
    RunIsSane(states, actions, j);
    StepSpends(states[j], actions[j], name);
  }

  lemma RelievesDoesNotCreate(s: State, a: Action, name: string)
    requires Enabled(s, a) && Relieves(s, a, name)
    ensures !CreatesFor(a, name)
  {
  }
}
