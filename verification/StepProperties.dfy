/** What one reconciler step on a fresh snapshot keeps, clears and conserves. */
module StepProperties {
  import opened Text
  import opened Annotation
  import opened Pods
  import opened Store
  import opened Reconcile

  // --- references ---------------------------------------------------------------------------

  lemma HandledIsWellFormed(a: Annotations, deleting: bool, live: set<string>, env: Env, targets: set<string>)
    requires WellFormed(a, targets)
    ensures WellFormed(Handled(a, deleting, live, env), targets)
  {
    hide ReferenceKey;
    if LiveKeys(a, live) == {} && !deleting && ShouldDelay(a, env.now, env.zone).Arm? {
      DeadlineIsFloor(a, env.now, env.zone, env.now, env.zone);
    }
  }

  lemma HandledKeepsTimer(a: Annotations, deleting: bool, live: set<string>, env: Env)
    requires TimerConsistent(a)
    ensures
      var b := Handled(a, deleting, live, env);
      TimerConsistent(b) && (DELAY_AT_KEY in a ==> DELAY_AT_KEY in b && b[DELAY_AT_KEY] == a[DELAY_AT_KEY])
  {
    if LiveKeys(a, live) == {} && !deleting && ShouldDelay(a, env.now, env.zone).Arm? {
      assert forall k :: k in a && k == ReferenceKey(a[k]) ==> k in DeadKeys(a, live) by {
        assert forall k :: k in a && k == ReferenceKey(a[k]) && a[k] in live ==> k in LiveKeys(a, live);
      }
    }
    if DELAY_AT_KEY in a {
      assert LiveKeys(a, live) == {};
    }
  }

  /** A step keeps a mount pod a mount pod, and keeps every reference to a live target, whether the
      pod is left alone, marked, released or recreated. */
  lemma StepKeepsLive(p: Pod, live: set<string>, env: Env, targets: set<string>)
    requires MountPod(p, targets)
    ensures Outcome(p, live, env).Some? ==> MountPod(Outcome(p, live, env).value, targets)
    ensures forall t :: t in live && RefersTo(p.annotations, t) ==>
              Outcome(p, live, env).Some? && RefersTo(Outcome(p, live, env).value.annotations, t)
  {
    hide IsResourceError, MountPathOf, ShouldDelay, WellFormed, Handled;
    HandledIsWellFormed(p.annotations, p.deleting, live, env, targets);
    forall t | t in live && RefersTo(p.annotations, t)
      ensures RefersTo(Handled(p.annotations, p.deleting, live, env), t)
      ensures ReferenceKey(t) in References(p.annotations)
    {
      KeepsReference(p.annotations, p.deleting, live, env, t);
    }
    SpecsParse(p);
  }

  /** Without the finalizer a pod may vanish, but as long as it is there it keeps them too. */
  lemma StepKeepsLiveIfThere(p: Pod, live: set<string>, env: Env, t: string)
    requires Ours(p) && t in live && RefersTo(p.annotations, t) && Outcome(p, live, env).Some?
    ensures RefersTo(Outcome(p, live, env).value.annotations, t)
  {
    hide IsResourceError, MountPathOf, ShouldDelay, Handled;
    KeepsReference(p.annotations, p.deleting, live, env, t);
  }

  lemma StepKeepsSound(p: Pod, live: set<string>, env: Env, targets: set<string>)
    requires Sound(p, targets)
    ensures Outcome(p, live, env).Some? ==> Sound(Outcome(p, live, env).value, targets)
  {
    hide IsResourceError, MountPathOf, ShouldDelay, WellFormed, Handled;
    HandledIsWellFormed(p.annotations, p.deleting, live, env, targets);
    SpecsParse(p);
  }

  lemma SpecsParse(p: Pod)
    ensures MountPathOf(WithoutResource(p.spec)) == MountPathOf(p.spec)
    ensures AllOurs([FINALIZER])
  {
    hide MountCommand.Parse;
  }

  lemma KeepsReference(a: Annotations, deleting: bool, live: set<string>, env: Env, t: string)
    requires t in live && RefersTo(a, t)
    ensures RefersTo(Handled(a, deleting, live, env), t)
  {
    assert ReferenceKey(t) in LiveKeys(a, live);
  }

  /** Where no handler brings the pod back, a step leaves exactly the live references. */
  lemma StepLeavesOnlyLive(p: Pod, live: set<string>, env: Env)
    requires Ours(p)
    requires !Replaces(p, live, env) && Outcome(p, live, env).Some?
    ensures References(Outcome(p, live, env).value.annotations).Keys == LiveKeys(p.annotations, live)
  {
    hide IsResourceError, MountPathOf, ShouldDelay;
    HandledReferences(p.annotations, p.deleting, live, env);
  }

  lemma HandledReferences(a: Annotations, deleting: bool, live: set<string>, env: Env)
    ensures References(Handled(a, deleting, live, env)).Keys == LiveKeys(a, live)
  {
    hide ShouldDelay;
    var b := Handled(a, deleting, live, env);
    assert forall k :: k in b && k != DELAY_AT_KEY ==> k in a && b[k] == a[k];
    forall k | k in LiveKeys(a, live) ensures k in References(b) {
      assert k !in DeadKeys(a, live);
    }
  }

  /** The step ends in a new pod built from the snapshot. */
  predicate Replaces(p: Pod, live: set<string>, env: Env) {
    if p.deleting then !IsResourceError(p.status) && References(p.annotations) != map[]
    else Fires(p, live, env)
  }

  /** Nothing new is on the pod, and it does not stand up again. */
  ghost predicate OnlyDrops(p: Pod, q: Pod) {
    && (p.deleting ==> q.deleting)
    && (DELAY_TIME_KEY in q.annotations ==> DELAY_TIME_KEY in p.annotations)
    && forall t :: RefersTo(q.annotations, t) ==> RefersTo(p.annotations, t)
  }

  lemma StepOnlyDrops(p: Pod, live: set<string>, env: Env)
    requires Ours(p) && !Replaces(p, live, env) && Outcome(p, live, env).Some?
    ensures OnlyDrops(p, Outcome(p, live, env).value)
  {
    hide IsResourceError, MountPathOf, ShouldDelay, Handled, RefersTo;
    HandledOnlyDrops(p.annotations, p.deleting, live, env);
  }

  lemma HandledOnlyDrops(a: Annotations, deleting: bool, live: set<string>, env: Env)
    ensures forall t :: RefersTo(Handled(a, deleting, live, env), t) ==> RefersTo(a, t)
    ensures DELAY_TIME_KEY in Handled(a, deleting, live, env) ==> DELAY_TIME_KEY in a
  {
    hide ShouldDelay, ReferenceKey;
    forall t ensures ReferenceKey(t) != DELAY_AT_KEY {
      KeyIsNoDelay(t);
    }
  }

  lemma KeyIsNoDelay(t: string)
    ensures ReferenceKey(t) != DELAY_AT_KEY
  {
  }

  // --- the delete timer ---------------------------------------------------------------------

  /** A step keeps the timer consistent, and never moves a running deadline: the pod goes away or
      keeps it. */
  lemma StepKeepsTimer(p: Pod, live: set<string>, env: Env)
    requires Ours(p) && TimerConsistent(p.annotations)
    ensures match Outcome(p, live, env)
            case None => p.deleting || p.finalizers == []
            case Some(q) =>
              && TimerConsistent(q.annotations)
              && (DELAY_AT_KEY in p.annotations ==>
                    DELAY_AT_KEY in q.annotations
                    && q.annotations[DELAY_AT_KEY] == p.annotations[DELAY_AT_KEY])
  {
    hide IsResourceError, MountPathOf, ShouldDelay, TimerConsistent, Handled;
    HandledKeepsTimer(p.annotations, p.deleting, live, env);
  }

  /** A step that leaves a deadline where there was none wrote the one `ShouldDelay` asked for. */
  lemma NewDeadline(p: Pod, live: set<string>, env: Env)
    requires Ours(p)
    requires DELAY_AT_KEY !in p.annotations
    requires Outcome(p, live, env).Some? && DELAY_AT_KEY in Outcome(p, live, env).value.annotations
    ensures ShouldDelay(p.annotations, env.now, env.zone)
         == Arm(Outcome(p, live, env).value.annotations[DELAY_AT_KEY])
  {
    hide IsResourceError, MountPathOf, ShouldDelay, IsError, IsReady;
  }

  /** A step that sees a live target clears the deadline, from whatever state, exactly when the
      deadline is not the empty text and no handler recreates the pod from the old snapshot. */
  lemma LiveTargetClearsDeadline(p: Pod, live: set<string>, env: Env)
    requires Ours(p) && p.finalizers != []
    requires LiveKeys(p.annotations, live) != {} && DELAY_AT_KEY in p.annotations
    ensures Outcome(p, live, env).Some?
    ensures DELAY_AT_KEY !in Outcome(p, live, env).value.annotations
       <==> p.annotations[DELAY_AT_KEY] != "" && !Replaces(p, live, env)
  {
    hide IsResourceError, MountPathOf, ShouldDelay;
    var k :| k in LiveKeys(p.annotations, live);
    assert k in References(p.annotations);
  }

  // --- everything else ----------------------------------------------------------------------

  /** All annotations but references and the deadline are the same. */
  ghost predicate OthersStay(a: Annotations, b: Annotations) {
    forall k :: k != DELAY_AT_KEY && !IsReference(a, k) ==> (k in b <==> k in a) && (k in a ==> b[k] == a[k])
  }

  lemma HandledKeepsOthers(a: Annotations, deleting: bool, live: set<string>, env: Env)
    ensures OthersStay(a, Handled(a, deleting, live, env))
  {
    hide ShouldDelay, ReferenceKey;
  }

  /** A step that does not replace the pod changes only its references, its deadline and whether it is
      terminating; one that replaces it keeps labels, annotations, node and commands. */
  lemma StepKeepsTheRest(p: Pod, live: set<string>, env: Env)
    requires Ours(p) && Outcome(p, live, env).Some?
    ensures var q := Outcome(p, live, env).value;
      && (!Replaces(p, live, env) ==>
            q == p.(annotations := q.annotations, deleting := q.deleting) && OthersStay(p.annotations, q.annotations))
      && (Replaces(p, live, env) ==> if p.deleting then Again(p, q) else AgainUnbounded(p, q))
  {
    hide IsResourceError, IsError, IsReady, MountPathOf, ShouldDelay, Handled;
    HandledKeepsOthers(p.annotations, p.deleting, live, env);
  }

  // --- recovery -----------------------------------------------------------------------------

  /** `q` is `p` once more: upright, with its labels, its annotations and its spec, with the finalizer,
      and with nothing reported yet. */
  predicate Again(p: Pod, q: Pod) {
    && q.labels == p.labels && q.annotations == p.annotations && q.spec == p.spec
    && q.finalizers == [FINALIZER] && !q.deleting && q.status == Status(Pending, "", "", [], [])
  }

  /** The same, but no container asks for resources or limits any more. */
  predicate AgainUnbounded(p: Pod, q: Pod) {
    && q.labels == p.labels && q.annotations == p.annotations
    && q.finalizers == [FINALIZER] && !q.deleting && q.status == Status(Pending, "", "", [], [])
    && q.spec.nodeName == p.spec.nodeName && |q.spec.containers| == |p.spec.containers|
    && forall i :: 0 <= i < |p.spec.containers| ==>
         q.spec.containers[i] == Container(p.spec.containers[i].command, map[], map[])
  }

  lemma ReplacementsAre(cur: Pod)
    ensures Again(cur, Recreated(cur)) && AgainUnbounded(cur, Relieved(cur))
  {
  }

  /** One deleted-pod step brings a terminating pod back, with the same labels, annotations and spec
      and with the finalizer, exactly when no foreign finalizer holds the old one. */
  lemma RecoveryConserves(s: PodMap, name: string)
    requires name in s && s[name].deleting && Releases(s[name]) && Recovers(s[name])
    ensures var r := HandleDeleted(s, name, s[name]); r.err == Nil && name in r.pods
    ensures Again(s[name], HandleDeleted(s, name, s[name]).pods[name]) <==> AllOurs(s[name].finalizers)
    ensures SameElsewhere(s, HandleDeleted(s, name, s[name]).pods, name)
    ensures !HandleDeleted(s, name, s[name]).pods[name].deleting <==> AllOurs(s[name].finalizers)
  {
    hide IsResourceError, MountPathOf;
    WithoutEmpties(s[name].finalizers);
  }

  /** The mount process is gone: the pod completed, or failed for another reason than resources and
      its mount point is broken. */
  predicate Crashed(p: Pod, env: Env) {
    && !p.deleting
    && (if IsError(p.status) then !IsResourceError(p.status) && env.broken
        else !IsReady(p.status) && p.status.phase == Succeeded)
  }

  /** A crashed pod that is in use is back after two steps, upright, with the labels and the spec it
      had and exactly its live references, whatever status the kubelet reports in between short of a
      resource error. */
  lemma CrashedPodComesBack(p: Pod, live: set<string>, env: Env, status: Status, next: Env, targets: set<string>)
    requires MountPod(p, targets) && LiveKeys(p.annotations, live) != {}
    requires Crashed(p, env) && !IsResourceError(status)
    ensures Outcome(p, live, env).Some?
    ensures var q := Outcome(p, live, env).value.(status := status);
      && MountPod(q, targets) && Outcome(q, live, next).Some?
      && var r := Outcome(q, live, next).value;
         && !r.deleting && r.labels == p.labels && r.spec == p.spec && r.finalizers == [FINALIZER]
         && References(r.annotations).Keys == LiveKeys(p.annotations, live)
         && OthersStay(p.annotations, r.annotations)
  {
    hide IsResourceError, IsError, IsReady, MountPathOf, ShouldDelay, WellFormed, Handled;
    HandledKeepsOthers(p.annotations, p.deleting, live, env);
    var b := Handled(p.annotations, p.deleting, live, env);
    HandledIsWellFormed(p.annotations, p.deleting, live, env, targets);
    HandledReferences(p.annotations, p.deleting, live, env);
    var q := Outcome(p, live, env).value.(status := status);
    assert q == p.(annotations := b, deleting := true, status := status);
    assert References(b) != map[] by { assert References(b).Keys != {}; }
  }

  /** A pod in use that is not crashed, with nothing to drop, is left exactly as it is. */
  lemma HealthyPodIsLeftAlone(p: Pod, live: set<string>, env: Env)
    requires Ours(p)
    requires !p.deleting && !Crashed(p, env) && !Fires(p, live, env)
    requires LiveKeys(p.annotations, live) != {} && DeadKeys(p.annotations, live) == {}
    requires DELAY_AT_KEY !in p.annotations
    ensures Outcome(p, live, env) == Some(p)
  {
    hide IsResourceError, IsError, IsReady, MountPathOf, ShouldDelay;
    assert p.annotations - Dropped(p.annotations, live) == p.annotations;
    assert Handled(p.annotations, p.deleting, live, env) == p.annotations;
  }

  // --- recovery, by what the kubelet reports ------------------------------------------------

  /** A container that runs, is being created, or ended well. */
  predicate Working(c: ContainerState) {
    c == Started || c == WaitingFor("ContainerCreating") || c == Terminated(0)
  }

  /** A container that waits for another reason, or ended badly. */
  predicate Failing(c: ContainerState) {
    (c.WaitingFor? && c.reason != "ContainerCreating") || (c.Terminated? && c.exitCode != 0)
  }

  lemma ErrorMeans(st: Status)
    ensures IsError(st) <==>
      st.phase == Failed || st.phase == Unknown || exists i :: 0 <= i < |st.containers| && Failing(st.containers[i])
    ensures (forall i :: 0 <= i < |st.containers| ==> Working(st.containers[i])) <==>
      !exists i :: 0 <= i < |st.containers| && Failing(st.containers[i])
  {
    assert forall i :: 0 <= i < |st.containers| ==> (Working(st.containers[i]) <==> !Failing(st.containers[i]));
    if IsError(st) && st.phase != Failed && st.phase != Unknown {
      var i :| 0 <= i < |st.containers| &&
               (match st.containers[i]
                case WaitingFor(reason) => reason != "ContainerCreating"
                case Started => false
                case Terminated(code) => code != 0);
      assert Failing(st.containers[i]);
    }
  }

  /** A pod in use that is starting or running is left exactly as it is, whether or not its mount point
      is there yet. */
  lemma WorkingPodIsLeftAlone(p: Pod, live: set<string>, env: Env)
    requires Ours(p) && !p.deleting && (p.status.phase == Pending || p.status.phase == Running)
    requires forall i :: 0 <= i < |p.status.containers| ==> Working(p.status.containers[i])
    requires LiveKeys(p.annotations, live) != {} && DeadKeys(p.annotations, live) == {}
    requires DELAY_AT_KEY !in p.annotations
    ensures Outcome(p, live, env) == Some(p)
  {
    hide IsResourceError, IsError, IsReady, MountPathOf, ShouldDelay, Working;
    ErrorMeans(p.status);
    HealthyPodIsLeftAlone(p, live, env);
  }

  /** A pod in use that failed, for another reason than resources, and whose mount point is broken: one
      step marks it, and the second brings it back, upright, with its labels, its spec, all its other
      annotations and exactly its live references. */
  lemma FailedPodComesBack(p: Pod, live: set<string>, env: Env, status: Status, next: Env, targets: set<string>)
    requires MountPod(p, targets) && !p.deleting && LiveKeys(p.annotations, live) != {} && env.broken
    requires p.status.phase == Failed || p.status.phase == Unknown
          || exists i :: 0 <= i < |p.status.containers| && Failing(p.status.containers[i])
    requires !IsResourceError(p.status) && !IsResourceError(status)
    ensures Outcome(p, live, env).Some? && Outcome(p, live, env).value.deleting
    ensures var q := Outcome(p, live, env).value.(status := status);
      && MountPod(q, targets) && Outcome(q, live, next).Some?
      && var r := Outcome(q, live, next).value;
         && !r.deleting && r.labels == p.labels && r.spec == p.spec && r.finalizers == [FINALIZER]
         && References(r.annotations).Keys == LiveKeys(p.annotations, live)
         && OthersStay(p.annotations, r.annotations)
  {
    hide IsResourceError, IsError, IsReady, MountPathOf, ShouldDelay, Failing, WellFormed, References, OthersStay;
    hide LiveKeys, Handled;
    ErrorMeans(p.status);
    CrashedPodComesBack(p, live, env, status, next, targets);
  }

  /** So does a pod in use whose mount process ended well. */
  lemma CompletedPodComesBack(p: Pod, live: set<string>, env: Env, status: Status, next: Env, targets: set<string>)
    requires MountPod(p, targets) && !p.deleting && LiveKeys(p.annotations, live) != {}
    requires p.status.phase == Succeeded && p.status.conditions == []
    requires forall i :: 0 <= i < |p.status.containers| ==> Working(p.status.containers[i])
    requires !IsResourceError(status)
    ensures Outcome(p, live, env).Some? && Outcome(p, live, env).value.deleting
    ensures var q := Outcome(p, live, env).value.(status := status);
      && MountPod(q, targets) && Outcome(q, live, next).Some?
      && var r := Outcome(q, live, next).value;
         && !r.deleting && r.labels == p.labels && r.spec == p.spec && r.finalizers == [FINALIZER]
         && References(r.annotations).Keys == LiveKeys(p.annotations, live)
         && OthersStay(p.annotations, r.annotations)
  {
    hide IsResourceError, IsError, MountPathOf, ShouldDelay, Working, WellFormed, References, OthersStay;
    hide LiveKeys, Handled;
    ErrorMeans(p.status);
    CrashedPodComesBack(p, live, env, status, next, targets);
  }

  /** A terminating pod whose command cannot be parsed loses its references. */
  lemma UnparsableIsLost(s: PodMap, name: string)
    requires name in s && s[name].deleting && Releases(s[name]) && AllOurs(s[name].finalizers)
    requires MountPathOf(s[name].spec).None?
    ensures HandleDeleted(s, name, s[name]).pods == s - {name}
  {
    hide IsResourceError, MountPathOf;
    WithoutEmpties(s[name].finalizers);
  }

  // --- resources ----------------------------------------------------------------------------

  /** The step runs the resource path of the error handler. */
  predicate Fires(p: Pod, live: set<string>, env: Env) {
    && !p.deleting && p.finalizers != [] && IsError(p.status) && ResourcePath(p)
    && !(IsIdle(p, live) && ShouldDelay(p.annotations, env.now, env.zone).Expired?)
  }

  /** A pod that is only waiting for resources does not count as erroneous, so the resource path,
      which looks for exactly that condition, is not taken. */
  lemma WaitingForResourcesIsNotRelieved(p: Pod, live: set<string>, env: Env)
    requires p.status.phase == Pending && p.status.containers == []
    requires exists i :: 0 <= i < |p.status.conditions| && Unschedulable(p.status.conditions[i])
    ensures IsResourceError(p.status) && !Fires(p, live, env)
  {
    hide Unschedulable;
  }

  /** A pod in use that failed because something ran out: if a container asks for resources, one step
      replaces the pod by one that asks for none and has no limits; otherwise, limits or not, it is left
      as it is. */
  lemma StarvedPodIsRelieved(p: Pod, live: set<string>, env: Env, before: string, after: string)
    requires Ours(p) && p.finalizers != [] && !p.deleting
    requires p.status.phase == Failed && p.status.reason == before + "OutOf" + after
    requires LiveKeys(p.annotations, live) != {} && DeadKeys(p.annotations, live) == {}
    requires DELAY_AT_KEY !in p.annotations
    ensures Outcome(p, live, env).Some?
    ensures if exists i :: 0 <= i < |p.spec.containers| && p.spec.containers[i].requests != map[]
            then AgainUnbounded(p, Outcome(p, live, env).value) else Outcome(p, live, env) == Some(p)
  {
    hide MountPathOf, ShouldDelay, IsReady, IsResourceError, Within;
    assert Within(p.status.reason, "OutOf") by { ItIsWithin(before, "OutOf", after); }
    ResourceErrorMeans(p.status);
    assert Handled(p.annotations, p.deleting, live, env) == p.annotations;
  }

  lemma ItIsWithin(before: string, sub: string, after: string)
    ensures Within(before + sub + after, sub)
  {
  }

  predicate Unbounded(spec: Spec) {
    forall i :: 0 <= i < |spec.containers| ==>
      spec.containers[i].requests == map[] && spec.containers[i].limits == map[]
  }

  /** No step adds resources, and the resource path takes all of them away. */
  lemma StepSpendsResource(p: Pod, live: set<string>, env: Env)
    requires Ours(p)
    ensures Fires(p, live, env) ==> HasResource(p.spec)
    ensures Fires(p, live, env) ==>
              Outcome(p, live, env) == Some(Relieved(p)) && Unbounded(Relieved(p).spec)
    ensures Outcome(p, live, env).Some? && HasResource(Outcome(p, live, env).value.spec) ==>
              HasResource(p.spec) && !Fires(p, live, env)
  {
    hide IsResourceError, MountPathOf, ShouldDelay, Handled;
    assert Unbounded(WithoutResource(p.spec));
    assert !HasResource(WithoutResource(p.spec));
  }
}
