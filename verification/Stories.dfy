/** Runs that go wrong: references are lost, a new pod is deleted, a deadline comes back. */
module Stories {
  import opened Annotation
  import opened Pods
  import opened Reconcile
  import opened Protocol
  import opened Sanity
  import opened Safety
  import opened Workers
  import Publishers

  // --- runs, told step by step --------------------------------------------------------------

  /** A run with its last state at hand; every patch in it was delivered. */
  datatype Story = Story(states: seq<State>, actions: seq<Action>, end: State)

  ghost predicate Tells(y: Story, start: State) {
    && IsRun(y.states, y.actions) && y.states[0] == start && y.states[|y.actions|] == y.end
    && forall i :: 0 <= i < |y.actions| && y.actions[i].Write? ==> y.actions[i].delivered
  }

  lemma Begin(start: State) returns (y: Story)
    requires Init(start)
    ensures Tells(y, start) && y.end == start && y.actions == []
  {
    y := Story([start], [], start);
  }

  lemma Then(y: Story, start: State, a: Action) returns (y': Story)
    requires Tells(y, start) && Enabled(y.end, a) && (a.Write? ==> a.delivered)
    ensures Tells(y', start) && y'.end == Step(y.end, a)
    ensures y'.actions == y.actions + [a] && y'.states == y.states + [y'.end]
  {
    hide Enabled, Step, Init;
    y' := Story(y.states + [Step(y.end, a)], y.actions + [a], Step(y.end, a));
  }

  /** A publish call finds a usable pod. */
  lemma Join(y: Story, start: State, t: string) returns (y': Story)
    requires Tells(y, start) && t in y.end.seen && t !in y.end.calls
    requires PodOf(t) in y.end.pods && !y.end.pods[PodOf(t)].deleting
    ensures Tells(y', start) && y'.end == y.end.(calls := y.end.calls[t := AddRef])
    ensures y'.actions == y.actions + [Publish(t), Found(t)]
    ensures y.states <= y'.states
  {
    hide PodOf, Tells;
    y' := Then(y, start, Publish(t));
    y' := Then(y', start, Found(t));
  }

  /** `AddRefOfMount` writes a new reference. */
  lemma Refer(y: Story, start: State, t: string) returns (y': Story)
    requires Tells(y, start) && At(y.end, t, AddRef) && JLockFree(y.end) && PodOf(t) in y.end.pods
    requires y.end.pods[PodOf(t)].annotations != map[] && ReferenceKey(t) !in y.end.pods[PodOf(t)].annotations
    ensures Tells(y', start)
    ensures var p := y.end.pods[PodOf(t)];
      y'.end == y.end.(calls := y.end.calls[t := Bind], lost := y.end.lost - {t},
                       pods := y.end.pods[PodOf(t) := p.(annotations := WithReference(p.annotations, t))])
    ensures y'.actions == y.actions + [Read(t), Write(t, true)]
    ensures y.states <= y'.states
  {
    hide PodOf, ReferenceKey, Tells, WithReference;
    y' := Then(y, start, Read(t));
    y' := Then(y', start, Write(t, true));
  }

  /** It finds its reference there already. */
  lemma Recall(y: Story, start: State, t: string) returns (y': Story)
    requires Tells(y, start) && At(y.end, t, AddRef) && JLockFree(y.end) && PodOf(t) in y.end.pods
    requires ReferenceKey(t) in y.end.pods[PodOf(t)].annotations
    ensures Tells(y', start)
    ensures y'.end == y.end.(calls := y.end.calls[t := Bind], lost := y.end.lost - {t})
    ensures y'.actions == y.actions + [Read(t)]
    ensures y'.states == y.states + [y'.end]
  {
    hide PodOf, ReferenceKey, Tells, WithReference;
    y' := Then(y, start, Read(t));
  }

  /** Its patch fails unnoticed. */
  lemma Lose(y: Story, start: State, t: string) returns (y': Story)
    requires Tells(y, start) && At(y.end, t, AddRef) && JLockFree(y.end) && PodOf(t) in y.end.pods
    requires y.end.pods[PodOf(t)].annotations == map[]
    ensures Tells(y', start)
    ensures y'.end == y.end.(calls := y.end.calls[t := Bind], lost := y.end.lost + {t})
    ensures y'.actions == y.actions + [Read(t), Write(t, true)]
    ensures y.states <= y'.states
  {
    hide PodOf, ReferenceKey, Tells, WithReference;
    y' := Then(y, start, Read(t));
    y' := Then(y', start, Write(t, true));
  }

  lemma Mount(y: Story, start: State, t: string) returns (y': Story)
    requires Tells(y, start) && At(y.end, t, Bind)
    ensures Tells(y', start)
    ensures y'.end == y.end.(calls := y.end.calls - {t}, bound := y.end.bound + {t})
    ensures y'.actions == y.actions + [BindMount(t)]
    ensures y'.states == y.states + [y'.end]
  {
    hide PodOf, Tells;
    y' := Then(y, start, BindMount(t));
  }

  lemma Ask(y: Story, start: State, t: string) returns (y': Story)
    requires Tells(y, start) && t in y.end.seen && t !in y.end.calls
    ensures Tells(y', start) && y'.end == y.end.(calls := y.end.calls[t := Ensure])
    ensures y'.actions == y.actions + [Publish(t)]
    ensures y'.states == y.states + [y'.end]
  {
    hide PodOf, Tells;
    y' := Then(y, start, Publish(t));
  }

  /** A publish call creates the pod. */
  lemma Plant(y: Story, start: State, t: string, r: Request) returns (y': Story)
    requires Tells(y, start) && At(y.end, t, Ensure) && PodOf(t) !in y.end.pods
    requires ValidRequest(r) && '/' !in VolumeOf(t)
    ensures Tells(y', start) && y'.end == y.end.(pods := y.end.pods[PodOf(t) := NewPod(t, r)])
    ensures y'.actions == y.actions + [Create(t, r)]
    ensures y'.states == y.states + [y'.end]
  {
    hide PodOf, Tells, NewPod, ValidRequest;
    y' := Then(y, start, Create(t, r));
  }

  /** It finds the pod it created. */
  lemma Find(y: Story, start: State, t: string) returns (y': Story)
    requires Tells(y, start) && At(y.end, t, Ensure)
    requires PodOf(t) in y.end.pods && !y.end.pods[PodOf(t)].deleting
    ensures Tells(y', start) && y'.end == y.end.(calls := y.end.calls[t := AddRef])
    ensures y'.actions == y.actions + [Found(t)]
    ensures y'.states == y.states + [y'.end]
  {
    hide PodOf, Tells;
    y' := Then(y, start, Found(t));
  }

  lemma Mark(y: Story, start: State, name: string) returns (y': Story)
    requires Tells(y, start) && name in y.end.pods && y.end.pods[name].finalizers != []
    ensures Tells(y', start)
    ensures y'.end == y.end.(pods := y.end.pods[name := y.end.pods[name].(deleting := true)])
    ensures y'.actions == y.actions + [Evict(name)]
    ensures y'.states == y.states + [y'.end]
  {
    hide PodOf, Tells;
    y' := Then(y, start, Evict(name));
  }

  lemma Look(y: Story, start: State, w: int, name: string) returns (y': Story)
    requires Tells(y, start) && w !in y.end.workers && name in y.end.pods
    ensures Tells(y', start)
    ensures y'.end == y.end.(workers := y.end.workers[w := Fetched(name, y.end.pods[name])])
    ensures y'.actions == y.actions + [Fetch(w, name)]
    ensures y'.states == y.states + [y'.end]
  {
    hide PodOf, Tells, Ready, Sent, Worked;
    y' := Then(y, start, Fetch(w, name));
  }

  /** A worker takes a snapshot and lists the application pods. */
  lemma Observe(y: Story, start: State, w: int, name: string) returns (y': Story)
    requires Tells(y, start) && w !in y.end.workers && name in y.end.pods
    ensures Tells(y', start)
    ensures y'.end == y.end.(workers := y.end.workers[w := Acting(name, y.end.pods[name], y.end.live)])
    ensures y'.actions == y.actions + [Fetch(w, name), ListApps(w)]
    ensures y.states <= y'.states
  {
    hide PodOf, Tells, IsIdle, ShouldDelay, Releases, GetPodStatus, ResourcePath, Sent;
    y' := Look(y, start, w, name);
    y' := Then(y', start, ListApps(w));
  }

  /** The first half of the deleted-pod handler, on whatever pod has the name by now. */
  lemma LetGo(y: Story, start: State, w: int) returns (y': Story)
    requires Tells(y, start) && w in y.end.workers && y.end.workers[w].Acting?
    requires y.end.workers[w].cur.deleting && Releases(y.end.workers[w].cur) && AllOurs(y.end.workers[w].cur.finalizers)
    requires y.end.workers[w].name in y.end.pods && y.end.pods[y.end.workers[w].name].deleting
    requires y.end.pods[y.end.workers[w].name].finalizers != []
    ensures Tells(y', start)
    ensures var name, cur := y.end.workers[w].name, y.end.workers[w].cur;
      y'.end == y.end.(pods := y.end.pods - {name},
                       workers := if Recovers(cur) then y.end.workers[w := Released(name, cur, false)]
                                  else y.end.workers - {w})
    ensures y'.actions == y.actions + [LateRelease(w)]
    ensures y'.states == y.states + [y'.end]
  {
    hide PodOf, Tells, Releases, Recovers, Release;
    ReleaseOfOurs(y.end.pods, y.end.workers[w].name, y.end.workers[w].cur);
    y' := Then(y, start, LateRelease(w));
  }

  lemma SeeReference(y: Story, start: State, t: string) returns (y': Story)
    requires Tells(y, start) && JLockFree(y.end) && At(y.end, t, DropRef) && PodOf(t) in y.end.pods
    requires ReferenceKey(t) in y.end.pods[PodOf(t)].annotations
    ensures Tells(y', start) && y'.end == y.end.(calls := y.end.calls[t := Patch])
    ensures y'.actions == y.actions + [ReadRef(t)]
    ensures y'.states == y.states + [y'.end]
  {
    hide PodOf, ReferenceKey, Tells;
    y' := Then(y, start, ReadRef(t));
  }

  /** Unpublishing the only target of a pod, up to the point where its reference is gone. */
  lemma DropLastReference(y: Story, start: State, t: string) returns (y': Story)
    requires Tells(y, start) && JLockFree(y.end) && At(y.end, t, DropRef) && PodOf(t) in y.end.pods
    requires y.end.pods[PodOf(t)].annotations == map[ReferenceKey(t) := t]
    ensures Tells(y', start)
    ensures y'.end == y.end.(calls := y.end.calls[t := Check],
                             pods := y.end.pods[PodOf(t) := y.end.pods[PodOf(t)].(annotations := map[])])
    ensures y'.actions == y.actions + [ReadRef(t), RemoveRef(t)]
    ensures y.states <= y'.states
  {
    hide PodOf, ReferenceKey, Tells, JLockFree;
    assert map[ReferenceKey(t) := t] - {ReferenceKey(t)} == map[];
    y' := SeeReference(y, start, t);
    y' := Then(y', start, RemoveRef(t));
  }

  lemma Detach(y: Story, start: State, t: string) returns (y': Story)
    requires Tells(y, start) && t in y.end.targets && t !in y.end.calls
    ensures Tells(y', start)
    ensures y'.end == y.end.(calls := y.end.calls[t := DropRef], bound := y.end.bound - {t})
    ensures y'.actions == y.actions + [Unpublish(t), Unmounted(t)]
    ensures y.states <= y'.states
  {
    hide PodOf, Tells;
    y' := Then(y, start, Unpublish(t));
    y' := Then(y', start, Unmounted(t));
  }

  lemma Inspect(y: Story, start: State, t: string) returns (y': Story)
    requires Tells(y, start) && At(y.end, t, Check)
    requires PodOf(t) in y.end.pods && y.end.pods[PodOf(t)].annotations == map[]
    ensures Tells(y', start) && y'.end == y.end.(calls := y.end.calls[t := Protocol.Reap])
    ensures y'.actions == y.actions + [CheckRef(t)]
    ensures y'.states == y.states + [y'.end]
  {
    hide PodOf, Tells, JLockFree;
    assert !HasPrefixedKey(map[]);
    y' := Then(y, start, CheckRef(t));
  }

  /** The unpublish call finds a pod without annotations and decides to delete it. */
  lemma Decide(y: Story, start: State, t: string) returns (y': Story)
    requires Tells(y, start) && JLockFree(y.end) && At(y.end, t, Check)
    requires PodOf(t) in y.end.pods && y.end.pods[PodOf(t)].annotations == map[]
    ensures Tells(y', start) && y'.end == y.end.(calls := y.end.calls[t := Delete])
    ensures y'.actions == y.actions + [CheckRef(t), ReadReap(t)]
    ensures y.states <= y'.states
  {
    hide PodOf, Tells;
    assert !HasPrefixedKey(map[]);
    y' := Inspect(y, start, t);
    y' := Then(y', start, ReadReap(t));
  }

  lemma Reap(y: Story, start: State, t: string) returns (y': Story)
    requires Tells(y, start) && At(y.end, t, Delete)
    requires PodOf(t) in y.end.pods && y.end.pods[PodOf(t)].finalizers != []
    ensures Tells(y', start)
    ensures y'.end == y.end.(calls := y.end.calls - {t},
                             pods := y.end.pods[PodOf(t) := y.end.pods[PodOf(t)].(deleting := true)])
    ensures y'.actions == y.actions + [ReapPod(t)]
    ensures y'.states == y.states + [y'.end]
  {
    hide PodOf, Tells;
    y' := Then(y, start, ReapPod(t));
  }

  lemma OnlyCallIsFree(s: State, t: string)
    requires s.calls.Keys == {t} && !HoldsJLock(s.calls[t])
    ensures JLockFree(s)
  {
    assert forall u :: u in s.calls ==> u in s.calls.Keys;
  }

  lemma ValidIdIsPlain(id: string)
    requires MountCommand.ValidVolumeId(id)
    ensures '/' !in id
  {
  }

  /** A request of the deleted-pod handler that meets a pod which is not terminating. */
  lemma Strip(y: Story, start: State, w: int) returns (y': Story)
    requires Tells(y, start) && w in y.end.workers && y.end.workers[w].Acting?
    requires y.end.workers[w].cur.deleting && Releases(y.end.workers[w].cur) && AllOurs(y.end.workers[w].cur.finalizers)
    requires y.end.workers[w].name in y.end.pods && !y.end.pods[y.end.workers[w].name].deleting
    requires y.end.pods[y.end.workers[w].name].finalizers != []
    ensures Tells(y', start)
    ensures var name, cur := y.end.workers[w].name, y.end.workers[w].cur;
      y'.end == y.end.(pods := y.end.pods[name := y.end.pods[name].(finalizers := [])],
                       workers := if Recovers(cur) then y.end.workers[w := Released(name, cur, false)]
                                  else y.end.workers - {w})
    ensures y'.actions == y.actions + [LateRelease(w)]
    ensures y.states <= y'.states
  {
    hide PodOf, Tells, Releases, Recovers, Release;
    ReleaseOfOurs(y.end.pods, y.end.workers[w].name, y.end.workers[w].cur);
    y' := Then(y, start, LateRelease(w));
  }

  /** An eviction of a pod that has no finalizer. */
  lemma EvictBare(y: Story, start: State, name: string) returns (y': Story)
    requires Tells(y, start) && name in y.end.pods && y.end.pods[name].finalizers == []
    ensures Tells(y', start) && y'.end == y.end.(pods := y.end.pods - {name})
    ensures y'.actions == y.actions + [Evict(name)]
    ensures y.states <= y'.states
  {
    hide PodOf, Tells;
    y' := Then(y, start, Evict(name));
  }

  /** The second half finds a pod. */
  lemma TooLate(y: Story, start: State, w: int) returns (y': Story)
    requires Tells(y, start) && w in y.end.workers && y.end.workers[w].Released?
    requires y.end.workers[w].name in y.end.pods
    ensures Tells(y', start) && y'.end == y.end.(workers := y.end.workers - {w})
    ensures y'.actions == y.actions + [LateRecover(w)]
    ensures y'.states == y.states + [y'.end]
  {
    hide PodOf, Tells;
    y' := Then(y, start, LateRecover(w));
  }

  /** A reconciler step releases a terminating pod without references. */
  lemma Vanish(y: Story, start: State, name: string, env: Env) returns (y': Story)
    requires Tells(y, start) && name in y.end.pods && Ours(y.end.pods[name])
    requires y.end.pods[name].deleting && !IsResourceError(y.end.pods[name].status)
    requires References(y.end.pods[name].annotations) == map[]
    ensures Tells(y', start) && y'.end == y.end.(pods := y.end.pods - {name})
    ensures y'.actions == y.actions + [RunStep(name, env)]
    ensures y'.states == y.states + [y'.end]
  {
    hide PodOf, Tells, Fresh, Ours, IsResourceError, ShouldDelay, Handled, References;
    FreshOutcome(y.end.pods, name, y.end.live, env);
    y' := Then(y, start, RunStep(name, env));
  }

  /** A reconciler step recreates a terminating pod that has a reference. */
  lemma Return(y: Story, start: State, name: string, env: Env) returns (y': Story)
    requires Tells(y, start) && name in y.end.pods && Ours(y.end.pods[name])
    requires y.end.pods[name].deleting && !IsResourceError(y.end.pods[name].status)
    requires References(y.end.pods[name].annotations) != map[]
    ensures Tells(y', start)
    ensures y'.end == y.end.(pods := y.end.pods[name := Recreated(y.end.pods[name])])
    ensures y'.actions == y.actions + [RunStep(name, env)]
    ensures y'.states == y.states + [y'.end]
  {
    hide PodOf, Tells, Fresh, Ours, IsResourceError, ShouldDelay, Handled, References;
    FreshOutcome(y.end.pods, name, y.end.live, env);
    y' := Then(y, start, RunStep(name, env));
  }

  lemma Quit(y: Story, start: State, w: int) returns (y': Story)
    requires Tells(y, start) && w in y.end.workers
    ensures Tells(y', start) && y'.end == y.end.(workers := y.end.workers - {w})
    ensures y'.actions == y.actions + [Leave(w)]
    ensures y.states <= y'.states
  {
    hide PodOf, Tells;
    y' := Then(y, start, Leave(w));
  }

  // --- which hypothesis a run breaks --------------------------------------------------------

  /** Steps of these kinds are the only ones that may break `Orderly`. */
  predicate MayBeDisorderly(a: Action) {
    a.Create? || a.Leave? || a.LateRelieve?
  }

  lemma OthersAreOrderly(y: Story, start: State, k: nat)
    requires Tells(y, start) && k < |y.actions| && !MayBeDisorderly(y.actions[k])
    ensures Orderly(y.states[k], y.actions[k])
  {
    hide Enabled, Step, Init, InRecovery;
  }

  /** All steps are orderly but perhaps step `n`. */
  ghost predicate OrderlyBut(y: Story, start: State, n: int)
    requires Tells(y, start)
  {
    forall k :: 0 <= k < |y.actions| && k != n ==> Orderly(y.states[k], y.actions[k])
  }

  lemma OnlyOneIsDisorderly(y: Story, start: State, n: int)
    requires Tells(y, start) && forall k :: 0 <= k < |y.actions| && k != n ==> !MayBeDisorderly(y.actions[k])
    ensures OrderlyBut(y, start, n)
  {
    hide Enabled, Step, Init, Orderly, MayBeDisorderly;
    forall k | 0 <= k < |y.actions| && k != n ensures Tells(y, start) && Orderly(y.states[k], y.actions[k]) {
      OthersAreOrderly(y, start, k);
    }
  }

  predicate MayRenew(a: Action) {
    a.Create? || a.Write? || a.RunStep? || a.LateRecover?
  }

  /** With one snapshot, taken in step `f`, and nothing that may renew a pod between it and the removal
      of a finalizer, no recovery handler is overtaken. */
  lemma OneSnapshotIsNotOvertaken(y: Story, start: State, f: nat)
    requires Tells(y, start)
    requires forall i :: 0 <= i < |y.actions| && y.actions[i].Fetch? ==> i == f
    requires forall k, j :: f < k < j < |y.actions| && RemovesFinalizer(y.actions[j]) ==> !MayRenew(y.actions[k])
    ensures NeverOvertaken(y.states, y.actions)
  {
    hide Enabled, Step, Init, RemovesFinalizer;
    forall i, j, k | 0 <= i < k < j < |y.actions| && RemovesFinalizer(y.actions[j]) && IsWork(y.actions[j])
                     && AtWork(y.states, y.actions, i, j, y.actions[j].w)
      ensures Enabled(y.states[k], y.actions[k]) && !Renews(y.states[k], y.actions[k], y.actions[i].name)
    {
      NotRenewed(y.states[k], y.actions[k], y.actions[i].name);
    }
  }

  lemma NotRenewed(s: State, a: Action, name: string)
    requires Enabled(s, a) && !MayRenew(a)
    ensures !Renews(s, a, name)
  {
  }

  // --- the patch that is lost ---------------------------------------------------------------

  /** The only target of a pod is unpublished, up to the point where its reference is gone. */
  lemma Unreferenced(start: State, t: string) returns (y: Story)
    requires Init(start) && t in start.targets && PodOf(t) in start.pods
    requires start.pods[PodOf(t)].annotations == map[ReferenceKey(t) := t]
    ensures Tells(y, start) && y.actions == [Unpublish(t), Unmounted(t), ReadRef(t), RemoveRef(t)]
    ensures y.end == start.(calls := map[t := Check],
                            pods := start.pods[PodOf(t) := start.pods[PodOf(t)].(annotations := map[])])
  {
    hide PodOf, ReferenceKey, Tells, Step, Enabled, Collisionless, MountCommand.ValidVolumeId, MountPod;
    y := Begin(start);
    y := Detach(y, start, t);
    y := DropLastReference(y, start, t);
  }

  /** `t` is unpublished while `u` is published. */
  function Exchange(t: string, u: string): seq<Action> {
    [Unpublish(t), Unmounted(t), ReadRef(t), RemoveRef(t), Publish(u), Found(u), Read(u), Write(u, true),
     BindMount(u), CheckRef(t), ReadReap(t), ReapPod(t)]
  }

  lemma Exchanged(start: State, t: string, u: string) returns (y: Story)
    requires Init(start) && t in start.targets && u in start.live && t != u && PodOf(t) == PodOf(u)
    requires PodOf(t) in start.pods && !start.pods[PodOf(t)].deleting
    requires start.pods[PodOf(t)].annotations == map[ReferenceKey(t) := t]
    ensures Tells(y, start) && y.actions == Exchange(t, u)
    ensures y.end == start.(calls := map[], bound := {u}, lost := {u}, pods :=
      start.pods[PodOf(t) := start.pods[PodOf(t)].(annotations := map[], deleting := true)])
  {
    hide PodOf, ReferenceKey, Tells, Step, Enabled, Collisionless, MountCommand.ValidVolumeId, Sound;
    assert MountPod(start.pods[PodOf(t)], start.seen);
    y := Unreferenced(start, t);
    y := Join(y, start, u);
    y := Lose(y, start, u);
    y := Mount(y, start, u);
    y := Decide(y, start, t);
    y := Reap(y, start, t);
    assert y.end.calls == map[];
  }

  lemma ExchangeIsCalls(t: string, u: string)
    ensures forall k :: 0 <= k < |Exchange(t, u)| ==>
      !IsWork(Exchange(t, u)[k]) && !Exchange(t, u)[k].Create?
  {
  }

  /** Once `t`'s reference is gone the pod has no annotations, the replace for `u` fails, nobody notices,
      and although every patch was delivered `u` ends up bound without a reference, to a pod that `t`'s
      call then deletes. */
  lemma PublishWithoutReference(start: State, t: string, u: string) returns (y: Story)
    requires Init(start) && t in start.targets && u in start.live && t != u && PodOf(t) == PodOf(u)
    requires PodOf(t) in start.pods && !start.pods[PodOf(t)].deleting
    requires start.pods[PodOf(t)].annotations == map[ReferenceKey(t) := t]
    ensures Tells(y, start) && y.actions == Exchange(t, u)
    ensures u in y.end.bound && u in y.end.live && !Kept(y.end, u)
    ensures PodOf(u) in y.end.pods && y.end.pods[PodOf(u)].deleting
    ensures NeverOvertaken(y.states, y.actions) && OrderlyBut(y, start, -1)
  {
    hide PodOf, ReferenceKey, Tells, Step, Enabled, Collisionless, MountCommand.ValidVolumeId, Sound;
    hide NeverOvertaken, OrderlyBut, Exchange;
    y := Exchanged(start, t, u);
    ExchangeIsCalls(t, u);
    CallsAreOrderly(y, start);
  }

  /** Calls alone break none of the other hypotheses. */
  lemma CallsAreOrderly(y: Story, start: State)
    requires Tells(y, start)
    requires forall k :: 0 <= k < |y.actions| ==> !IsWork(y.actions[k]) && !y.actions[k].Create?
    ensures NeverOvertaken(y.states, y.actions) && OrderlyBut(y, start, -1)
  {
    hide Tells, Step, Enabled, NeverOvertaken, OrderlyBut;
    OnlyOneIsDisorderly(y, start, -1);
    OneSnapshotIsNotOvertaken(y, start, 0);
  }

  // --- a recovery that is overtaken ---------------------------------------------------------

  /** A live target is bound, its patch was not lost, and nothing keeps its reference. */
  ghost predicate Stranded(s: State, t: string) {
    t in s.bound && t in s.live && t !in s.lost && !Kept(s, t)
  }

  /** A publish call found the pod; then the pod is evicted, and a worker takes its snapshot. */
  lemma JoinedAndWatched(start: State, u: string, w: int) returns (y: Story)
    requires Init(start) && u in start.seen && PodOf(u) in start.pods && !start.pods[PodOf(u)].deleting
    ensures Tells(y, start)
    ensures y.actions == [Publish(u), Found(u), Evict(PodOf(u)), Fetch(w, PodOf(u)), ListApps(w)]
    ensures var p := start.pods[PodOf(u)].(deleting := true);
      y.end == start.(calls := map[u := AddRef], pods := start.pods[PodOf(u) := p],
                      workers := map[w := Acting(PodOf(u), p, start.live)])
  {
    hide PodOf, Tells, Step, Enabled, Sound, Collisionless, MountCommand.ValidVolumeId;
    assert MountPod(start.pods[PodOf(u)], start.seen);
    y := Begin(start);
    y := Join(y, start, u);
    y := Mark(y, start, PodOf(u));
    y := Observe(y, start, w, PodOf(u));
  }

  /** Overtaken by a write.  The pod has annotations but no references when a worker takes its snapshot,
      and is terminating.  Then `u` is published on it.  The worker removes the finalizer, recreates
      nothing because its snapshot shows no reference, and `u` is bound without a pod. */
  lemma StaleReleaseLosesReference(start: State, u: string, w: int) returns (y: Story)
    requires Init(start) && u in start.live && PodOf(u) in start.pods && !start.pods[PodOf(u)].deleting
    requires start.pods[PodOf(u)].annotations != map[] && References(start.pods[PodOf(u)].annotations) == map[]
    requires ReferenceKey(u) !in start.pods[PodOf(u)].annotations
    requires !IsResourceError(start.pods[PodOf(u)].status)
    ensures Tells(y, start) && Stranded(y.end, u) && OrderlyBut(y, start, -1)
    ensures y.actions == [Publish(u), Found(u), Evict(PodOf(u)), Fetch(w, PodOf(u)), ListApps(w), Read(u),
                          Write(u, true), BindMount(u), LateRelease(w)]
    ensures Referenced(y.states[8].pods, u)
  {
    hide PodOf, ReferenceKey, Tells, Step, Enabled, Collisionless, MountCommand.ValidVolumeId, WellFormed;
    hide IsResourceError, MountPathOf, References, WithReference, JLockFree, OrderlyBut;
    var name := PodOf(u);
    var p := start.pods[name];
    assert MountPod(p, start.seen) && p.finalizers[0] == FINALIZER;
    y := JoinedAndWatched(start, u, w);
    OnlyCallIsFree(y.end, u);
    y := Refer(y, start, u);
    y := Mount(y, start, u);
    var before := y;
    EndIsLast(y, start);
    WrittenRefers(p.annotations, u);
    y := LetGo(y, start, w);
    assert y.states[8] == before.end;
    OnlyOneIsDisorderly(y, start, -1);
  }

  lemma EndIsLast(y: Story, start: State)
    requires Tells(y, start)
    ensures |y.states| == |y.actions| + 1 && y.states[|y.actions|] == y.end
  {
  }

  lemma WrittenRefers(a: Annotations, t: string)
    ensures RefersTo(WithReference(a, t), t)
  {
    KeyShape(t);
  }

  /** `t` is published on a pod that refers to it already. */
  function Bound(t: string): seq<Action> {
    [Publish(t), Found(t), Read(t), BindMount(t)]
  }

  lemma BoundTarget(start: State, t: string) returns (y: Story)
    requires Init(start) && t in start.seen && PodOf(t) in start.pods && !start.pods[PodOf(t)].deleting
    requires RefersTo(start.pods[PodOf(t)].annotations, t)
    ensures Tells(y, start) && y.end == start.(bound := {t}) && y.actions == Bound(t)
  {
    hide PodOf, ReferenceKey, Tells, Step, Enabled, JLockFree, MountCommand.ValidVolumeId, MountPod, Collisionless;
    y := Begin(start);
    y := Join(y, start, t);
    OnlyCallIsFree(y.end, t);
    y := Recall(y, start, t);
    y := Mount(y, start, t);
    assert y.end.calls == map[];
  }

  /** The pod of `t` is evicted, and a worker takes its snapshot. */
  lemma Watched(start: State, t: string, w: int) returns (y: Story)
    requires Init(start) && t in start.seen && PodOf(t) in start.pods && !start.pods[PodOf(t)].deleting
    requires RefersTo(start.pods[PodOf(t)].annotations, t)
    ensures Tells(y, start) && y.actions == Bound(t) + [Evict(PodOf(t)), Fetch(w, PodOf(t)), ListApps(w)]
    ensures var p := start.pods[PodOf(t)].(deleting := true);
      y.end == start.(bound := {t}, pods := start.pods[PodOf(t) := p],
                      workers := map[w := Acting(PodOf(t), p, start.live)])
  {
    hide PodOf, RefersTo, Tells, Step, Enabled, Sound, Collisionless, MountCommand.ValidVolumeId, Bound;
    assert MountPod(start.pods[PodOf(t)], start.seen);
    y := BoundTarget(start, t);
    y := Mark(y, start, PodOf(t));
    y := Observe(y, start, w, PodOf(t));
  }

  lemma WatchedAndRecreated(start: State, t: string, w: int, env: Env) returns (y: Story)
    requires Init(start) && t in start.seen && PodOf(t) in start.pods && !start.pods[PodOf(t)].deleting
    requires RefersTo(start.pods[PodOf(t)].annotations, t) && !IsResourceError(start.pods[PodOf(t)].status)
    ensures Tells(y, start)
    ensures y.actions == Bound(t) + [Evict(PodOf(t)), Fetch(w, PodOf(t)), ListApps(w), RunStep(PodOf(t), env)]
    ensures var p := start.pods[PodOf(t)].(deleting := true);
      y.end == start.(bound := {t}, pods := start.pods[PodOf(t) := Recreated(p)],
                      workers := map[w := Acting(PodOf(t), p, start.live)])
  {
    hide PodOf, RefersTo, Tells, Step, Enabled, WellFormed, MountPathOf, Collisionless, MountCommand.ValidVolumeId;
    hide Bound, References, Recreated, IsResourceError;
    assert MountPod(start.pods[PodOf(t)], start.seen);
    y := Watched(start, t, w);
    RestoringParses(y.end.workers[w].cur, t, start.seen);
    y := Return(y, start, PodOf(t), env);
  }

  /** Overtaken by a replacement.  A worker takes its snapshot of a terminating pod, then another
      reconciler recreates the pod.  The worker takes the finalizer from the new pod and finds it in
      place when it comes to recreate it; the next eviction removes the pod with its references. */
  lemma RecreationIsStripped(start: State, t: string, w: int, env: Env) returns (y: Story)
    requires Init(start) && t in start.live && PodOf(t) in start.pods && !start.pods[PodOf(t)].deleting
    requires RefersTo(start.pods[PodOf(t)].annotations, t) && !IsResourceError(start.pods[PodOf(t)].status)
    ensures Tells(y, start) && Stranded(y.end, t) && OrderlyBut(y, start, -1)
    ensures y.actions == Bound(t) + [Evict(PodOf(t)), Fetch(w, PodOf(t)), ListApps(w), RunStep(PodOf(t), env),
                                     LateRelease(w), LateRecover(w), Evict(PodOf(t))]
  {
    hide PodOf, ReferenceKey, Tells, Step, Enabled, Collisionless, MountCommand.ValidVolumeId, WellFormed;
    hide IsResourceError, MountPathOf, RefersTo, OrderlyBut, References;
    var name := PodOf(t);
    var p := start.pods[name];
    assert MountPod(p, start.seen) && p.finalizers[0] == FINALIZER;
    y := WatchedAndRecreated(start, t, w, env);
    RestoringParses(y.end.workers[w].cur, t, start.seen);
    y := Strip(y, start, w);
    y := TooLate(y, start, w);
    y := EvictBare(y, start, name);
    OnlyOneIsDisorderly(y, start, -1);
  }

  /** A worker takes its snapshot of a terminating pod without references, another reconciler lets the
      pod go, and `u` is about to be published. */
  lemma SeenAndGone(start: State, u: string, w: int, env: Env) returns (y: Story)
    requires Init(start) && u in start.seen && PodOf(u) in start.pods
    requires References(start.pods[PodOf(u)].annotations) == map[]
    requires !IsResourceError(start.pods[PodOf(u)].status)
    ensures Tells(y, start)
    ensures y.actions == [Evict(PodOf(u)), Fetch(w, PodOf(u)), ListApps(w), RunStep(PodOf(u), env), Publish(u)]
    ensures y.end == start.(pods := start.pods - {PodOf(u)}, calls := map[u := Ensure],
      workers := map[w := Acting(PodOf(u), start.pods[PodOf(u)].(deleting := true), start.live)])
  {
    hide PodOf, Tells, Step, Enabled, Collisionless, MountCommand.ValidVolumeId, WellFormed;
    hide IsResourceError, MountPathOf, References;
    var name := PodOf(u);
    assert MountPod(start.pods[name], start.seen);
    y := Begin(start);
    y := Mark(y, start, name);
    y := Observe(y, start, w, name);
    y := Vanish(y, start, name, env);
    y := Ask(y, start, u);
    assert y.end.pods == start.pods - {name};
  }

  /** A publish call creates the pod and goes on to bind its target. */
  lemma Adopt(y: Story, start: State, u: string, r: Request) returns (y': Story)
    requires Tells(y, start) && y.end.calls == map[u := Ensure] && PodOf(u) !in y.end.pods
    requires ValidRequest(r) && '/' !in VolumeOf(u)
    ensures Tells(y', start) && y.states <= y'.states
    ensures y'.actions == y.actions + [Create(u, r), Found(u), Read(u), BindMount(u)]
    ensures y'.end == y.end.(pods := y.end.pods[PodOf(u) := NewPod(u, r)], calls := map[],
                             bound := y.end.bound + {u}, lost := y.end.lost - {u})
  {
    hide PodOf, ReferenceKey, Tells, Step, Enabled, NewPod, ValidRequest, JLockFree;
    NewPodRefers(u, r);
    y' := Plant(y, start, u, r);
    y' := Find(y', start, u);
    OnlyCallIsFree(y'.end, u);
    y' := Recall(y', start, u);
    y' := Mount(y', start, u);
    assert y'.end.calls == map[];
  }

  /** Overtaken by a creation.  After that `u` is published on a new pod.  The worker takes the finalizer
      from it, recreates nothing, and the next eviction removes the pod with its reference. */
  lemma CreationIsStripped(start: State, u: string, w: int, r: Request, env: Env) returns (y: Story)
    requires Init(start) && u in start.live && PodOf(u) in start.pods
    requires References(start.pods[PodOf(u)].annotations) == map[]
    requires !IsResourceError(start.pods[PodOf(u)].status) && ValidRequest(r)
    ensures Tells(y, start) && Stranded(y.end, u) && OrderlyBut(y, start, -1)
    ensures y.actions == [Evict(PodOf(u)), Fetch(w, PodOf(u)), ListApps(w), RunStep(PodOf(u), env), Publish(u)]
                         + [Create(u, r), Found(u), Read(u), BindMount(u), LateRelease(w), Evict(PodOf(u))]
  {
    hide PodOf, ReferenceKey, Tells, Step, Enabled, Collisionless, MountCommand.ValidVolumeId, WellFormed;
    hide IsResourceError, MountPathOf, RefersTo, OrderlyBut, References, NewPod, ValidRequest, JLockFree, Orderly;
    var name := PodOf(u);
    var p := start.pods[name];
    assert MountPod(p, start.seen) && p.finalizers[0] == FINALIZER;
    assert '/' !in VolumeOf(u) by { ValidIdIsPlain(VolumeOf(u)); }
    NewPodRefers(u, r);
    y := SeenAndGone(start, u, w, env);
    var before := y;
    EndIsLast(before, start);
    y := Adopt(y, start, u, r);
    y := Strip(y, start, w);
    y := EvictBare(y, start, name);
    assert y.states[5] == before.end && y.actions[5] == Create(u, r);
    CreateIsOrderly(y, start, 5);
    TwoAreLeft(y, start, 5, -1);
  }

  lemma NewPodRefers(t: string, r: Request)
    requires '/' !in VolumeOf(t)
    ensures ReferenceKey(t) in NewPod(t, r).annotations && !NewPod(t, r).deleting
    ensures NewPod(t, r).finalizers == [FINALIZER]
  {
    hide ReferenceKey, MountCommand.Print, MountCommand.Quote, MountCommand.MountPath;
  }

  lemma CreateIsOrderly(y: Story, start: State, k: nat)
    requires Tells(y, start) && k < |y.actions| && y.actions[k].Create?
    requires forall w :: w in y.states[k].workers ==> !y.states[k].workers[w].Released?
    ensures Orderly(y.states[k], y.actions[k])
  {
    hide Enabled, Step, Init, PodOf;
  }

  // --- a recovery that is cut in two --------------------------------------------------------

  /** The pod of `t` is evicted, and a worker removes the finalizer to recreate it. */
  function Halfway(t: string, w: int): seq<Action> {
    Bound(t) + [Evict(PodOf(t)), Fetch(w, PodOf(t)), ListApps(w), LateRelease(w)]
  }

  lemma HalfRecovered(start: State, t: string, w: int) returns (y: Story)
    requires Init(start) && t in start.seen && PodOf(t) in start.pods && !start.pods[PodOf(t)].deleting
    requires RefersTo(start.pods[PodOf(t)].annotations, t) && !IsResourceError(start.pods[PodOf(t)].status)
    ensures Tells(y, start) && y.actions == Halfway(t, w)
    ensures y.end == start.(bound := {t}, pods := start.pods - {PodOf(t)},
      workers := map[w := Released(PodOf(t), start.pods[PodOf(t)].(deleting := true), false)])
  {
    hide PodOf, ReferenceKey, Tells, Step, Enabled, WellFormed, Collisionless, MountCommand.ValidVolumeId;
    hide IsResourceError, MountPathOf, RefersTo, Bound;
    var name := PodOf(t);
    var p := start.pods[name];
    assert MountPod(p, start.seen) && p.finalizers[0] == FINALIZER;
    y := Watched(start, t, w);
    RestoringParses(y.end.workers[w].cur, t, start.seen);
    y := LetGo(y, start, w);
    assert y.end.pods == start.pods - {name};
    assert y.end.workers == map[w := Released(name, p.(deleting := true), false)];
  }

  /** Between the two halves of the handler a publish call for `u` creates the pod; the handler's own
      creation is then hidden as "already exists", and `t` is bound without a reference.  No handler was
      overtaken, and nothing else was out of order. */
  lemma CreateBetweenHalves(start: State, t: string, u: string, w: int, r: Request) returns (y: Story)
    requires Init(start) && t in start.live && u in start.seen && t != u && PodOf(t) == PodOf(u)
    requires PodOf(t) in start.pods && !start.pods[PodOf(t)].deleting
    requires RefersTo(start.pods[PodOf(t)].annotations, t)
    requires !IsResourceError(start.pods[PodOf(t)].status) && ValidRequest(r)
    ensures Tells(y, start) && Stranded(y.end, t)
    ensures y.actions == Halfway(t, w) + [Publish(u), Create(u, r), LateRecover(w)]
    ensures NeverOvertaken(y.states, y.actions) && OrderlyBut(y, start, 9)
  {
    hide PodOf, ReferenceKey, Tells, Step, Enabled, MountPod, NewPod, ValidRequest, IsResourceError;
    hide MountCommand.ValidVolumeId, NeverOvertaken, OrderlyBut;
    y := HalfRecovered(start, t, w);
    assert '/' !in VolumeOf(u) by { ValidIdIsPlain(VolumeOf(u)); }
    y := Ask(y, start, u);
    y := Plant(y, start, u, r);
    Publishers.NewPodRefersTo(u, r, t);
    y := TooLate(y, start, w);
    OnlyOneIsDisorderly(y, start, 9);
    OneSnapshotIsNotOvertaken(y, start, 5);
  }

  /** The driver dies between the two halves, and nobody knows of the pod any more. */
  lemma DeathBetweenHalves(start: State, t: string, w: int) returns (y: Story)
    requires Init(start) && t in start.live && PodOf(t) in start.pods && !start.pods[PodOf(t)].deleting
    requires RefersTo(start.pods[PodOf(t)].annotations, t) && !IsResourceError(start.pods[PodOf(t)].status)
    ensures Tells(y, start) && Stranded(y.end, t)
    ensures y.actions == Halfway(t, w) + [Leave(w)]
    ensures NeverOvertaken(y.states, y.actions) && OrderlyBut(y, start, 8)
  {
    hide PodOf, RefersTo, Tells, MountPod, IsResourceError, Collisionless, MountCommand.ValidVolumeId;
    hide NeverOvertaken, OrderlyBut, Step, Enabled;
    y := HalfRecovered(start, t, w);
    y := Quit(y, start, w);
    OnlyOneIsDisorderly(y, start, 8);
    OneSnapshotIsNotOvertaken(y, start, 5);
  }

  /** A worker sees a pod that failed for want of resources; before it acts, the pod is evicted.  The
      first request of the resource path takes the pod away, the second fails, and no replacement is
      created. */
  lemma EvictedBeforeRelief(start: State, t: string, w: int) returns (y: Story)
    requires Init(start) && t in start.live && PodOf(t) in start.pods && !start.pods[PodOf(t)].deleting
    requires RefersTo(start.pods[PodOf(t)].annotations, t)
    requires IsError(start.pods[PodOf(t)].status) && ResourcePath(start.pods[PodOf(t)])
    ensures Tells(y, start) && Stranded(y.end, t)
    ensures y.actions == Bound(t) + [Fetch(w, PodOf(t)), ListApps(w), Evict(PodOf(t)), LateRelieve(w)]
    ensures NeverOvertaken(y.states, y.actions) && OrderlyBut(y, start, 7)
  {
    hide PodOf, RefersTo, Tells, Step, Enabled, WellFormed, IsError, ResourcePath, MountPathOf, Collisionless;
    hide MountCommand.ValidVolumeId, NeverOvertaken, OrderlyBut;
    var name := PodOf(t);
    assert MountPod(start.pods[name], start.seen);
    y := BoundTarget(start, t);
    y := Observe(y, start, w, name);
    y := Mark(y, start, name);
    y := LoseToRelief(y, start, w);
    OnlyOneIsDisorderly(y, start, 7);
    OneSnapshotIsNotOvertaken(y, start, 4);
  }

  lemma LoseToRelief(y: Story, start: State, w: int) returns (y': Story)
    requires Tells(y, start) && w in y.end.workers && y.end.workers[w].Acting?
    requires var v := y.end.workers[w];
      && AllOurs(v.cur.finalizers) && !v.cur.deleting && IsError(v.cur.status) && ResourcePath(v.cur)
      && v.name in y.end.pods && y.end.pods[v.name].deleting && y.end.pods[v.name].finalizers != []
    ensures Tells(y', start)
    ensures y'.end == y.end.(pods := y.end.pods - {y.end.workers[w].name}, workers := y.end.workers - {w})
    ensures y'.actions == y.actions + [LateRelieve(w)]
    ensures y'.states == y.states + [y'.end]
  {
    hide PodOf, Tells, IsError, ResourcePath, Unseat;
    UnseatOfOurs(y.end.pods, y.end.workers[w].name, y.end.workers[w].cur);
    y' := Then(y, start, LateRelieve(w));
  }

  /** The driver dies while the resource path waits for the pod to go away. */
  lemma DeathDuringRelief(start: State, t: string, w: int) returns (y: Story)
    requires Init(start) && t in start.live && PodOf(t) in start.pods && !start.pods[PodOf(t)].deleting
    requires RefersTo(start.pods[PodOf(t)].annotations, t)
    requires IsError(start.pods[PodOf(t)].status) && ResourcePath(start.pods[PodOf(t)])
    ensures Tells(y, start) && Stranded(y.end, t)
    ensures y.actions == Bound(t) + [Fetch(w, PodOf(t)), ListApps(w), LateRelieve(w), Leave(w)]
    ensures NeverOvertaken(y.states, y.actions) && OrderlyBut(y, start, 7)
  {
    hide PodOf, RefersTo, Tells, Step, Enabled, WellFormed, IsError, ResourcePath, MountPathOf, Collisionless;
    hide MountCommand.ValidVolumeId, NeverOvertaken, OrderlyBut;
    var name := PodOf(t);
    assert MountPod(start.pods[name], start.seen);
    y := BoundTarget(start, t);
    y := Observe(y, start, w, name);
    var before := y;
    EndIsLast(before, start);
    y := TakeAway(y, start, w);
    y := Quit(y, start, w);
    assert y.states[6] == before.end && y.actions[6] == LateRelieve(w);
    ReliefIsOrderly(y, start, 6);
    TwoAreLeft(y, start, 6, 7);
    OneSnapshotIsNotOvertaken(y, start, 4);
  }

  lemma TakeAway(y: Story, start: State, w: int) returns (y': Story)
    requires Tells(y, start) && w in y.end.workers && y.end.workers[w].Acting?
    requires var v := y.end.workers[w];
      && AllOurs(v.cur.finalizers) && !v.cur.deleting && IsError(v.cur.status) && ResourcePath(v.cur)
      && v.name in y.end.pods && !y.end.pods[v.name].deleting && y.end.pods[v.name].finalizers != []
    ensures Tells(y', start)
    ensures var v := y.end.workers[w];
      y'.end == y.end.(pods := y.end.pods - {v.name}, workers := y.end.workers[w := Released(v.name, v.cur, true)])
    ensures y'.actions == y.actions + [LateRelieve(w)]
    ensures y'.states == y.states + [y'.end]
  {
    hide PodOf, Tells, IsError, ResourcePath, Unseat;
    UnseatOfOurs(y.end.pods, y.end.workers[w].name, y.end.workers[w].cur);
    y' := Then(y, start, LateRelieve(w));
  }

  lemma ReliefIsOrderly(y: Story, start: State, k: nat)
    requires Tells(y, start) && k < |y.actions| && y.actions[k].LateRelieve? && y.actions[k].w in y.states[k].workers
    requires var name := y.states[k].workers[y.actions[k].w].name;
      name in y.states[k].pods ==> !y.states[k].pods[name].deleting
    ensures Orderly(y.states[k], y.actions[k])
  {
    hide Enabled, Step, Init, PodOf;
  }

  lemma TwoAreLeft(y: Story, start: State, m: nat, n: int)
    requires Tells(y, start) && m < |y.actions| && Orderly(y.states[m], y.actions[m])
    requires forall k :: 0 <= k < |y.actions| && k != m && k != n ==> !MayBeDisorderly(y.actions[k])
    ensures OrderlyBut(y, start, n)
  {
    hide Enabled, Step, Init, Orderly, MayBeDisorderly;
    forall k | 0 <= k < |y.actions| && k != m && k != n
      ensures Tells(y, start) && Orderly(y.states[k], y.actions[k])
    {
      OthersAreOrderly(y, start, k);
    }
  }

  // --- the delete that hits a new pod -------------------------------------------------------

  /** `JUmount` for `t` has decided to delete an unused pod, and that pod vanishes. */
  lemma DecidedTooEarly(start: State, t: string, env: Env) returns (y: Story)
    requires Init(start) && t in start.targets && PodOf(t) in start.pods
    requires start.pods[PodOf(t)].annotations == map[ReferenceKey(t) := t]
    requires !IsResourceError(start.pods[PodOf(t)].status)
    ensures Tells(y, start)
    ensures y.actions == [Unpublish(t), Unmounted(t), ReadRef(t), RemoveRef(t), CheckRef(t), ReadReap(t),
                          Evict(PodOf(t)), RunStep(PodOf(t), env)]
    ensures y.end == start.(calls := map[t := Delete], pods := start.pods - {PodOf(t)})
  {
    hide PodOf, ReferenceKey, Tells, Step, Enabled, MountCommand.ValidVolumeId, Sound;
    hide IsResourceError, Collisionless, References;
    var name := PodOf(t);
    assert MountPod(start.pods[name], start.seen);
    y := Unreferenced(start, t);
    y := Decide(y, start, t);
    y := Mark(y, start, name);
    UnreferencedStaysSound(start.pods[name], start.seen);
    y := Vanish(y, start, name, env);
    assert y.end.pods == start.pods - {name};
  }

  /** `JUmount` for `t` has decided to delete an unused pod.  Before it does, that pod vanishes and a
      publish call for `u` creates a new one, with a delay.  The delete goes by name and hits the new
      pod, with its reference and its delay. */
  lemma DeleteHitsNewPod(start: State, t: string, u: string, r: Request, env: Env) returns (y: Story)
    requires Init(start) && t in start.targets && u in start.seen && t != u && PodOf(t) == PodOf(u)
    requires PodOf(t) in start.pods && start.pods[PodOf(t)].annotations == map[ReferenceKey(t) := t]
    requires !IsResourceError(start.pods[PodOf(t)].status) && ValidRequest(r) && r.delay != ""
    ensures Tells(y, start)
    ensures y.actions == [Unpublish(t), Unmounted(t), ReadRef(t), RemoveRef(t), CheckRef(t), ReadReap(t),
                          Evict(PodOf(t)), RunStep(PodOf(t), env), Publish(u), Create(u, r), ReapPod(t)]
    ensures var pods := y.states[10].pods;
      && PodOf(u) in pods && !pods[PodOf(u)].deleting
      && RefersTo(pods[PodOf(u)].annotations, u) && DELAY_TIME_KEY in pods[PodOf(u)].annotations
    ensures y.end.pods == y.states[10].pods[PodOf(u) := y.states[10].pods[PodOf(u)].(deleting := true)]
  {
    hide PodOf, ReferenceKey, Tells, Step, Enabled, NewPod, ValidRequest, MountCommand.ValidVolumeId, Sound;
    hide IsResourceError, Collisionless, References;
    y := DecidedTooEarly(start, t, env);
    assert '/' !in VolumeOf(u) by { ValidIdIsPlain(VolumeOf(u)); }
    y := Ask(y, start, u);
    y := Plant(y, start, u, r);
    NewPodIsDelayed(u, r);
    EndIsLast(y, start);
    y := Reap(y, start, t);
  }

  lemma UnreferencedStaysSound(p: Pod, targets: set<string>)
    requires MountPod(p, targets)
    ensures Ours(p.(annotations := map[], deleting := true)) && References(map[]) == map[]
  {
  }

  lemma NewPodIsDelayed(t: string, r: Request)
    requires '/' !in VolumeOf(t) && r.delay != ""
    ensures RefersTo(NewPod(t, r).annotations, t) && DELAY_TIME_KEY in NewPod(t, r).annotations
    ensures NewPod(t, r).finalizers != [] && !NewPod(t, r).deleting
  {
    hide ReferenceKey, MountCommand.Print, MountCommand.Quote, MountCommand.MountPath;
    KeyShape(t);
  }

  // --- the deadline that comes back ---------------------------------------------------------

  /** A worker takes its snapshot; then `u` gets its reference. */
  lemma WatchedAndReferred(start: State, u: string, w: int) returns (y: Story)
    requires Init(start) && u in start.seen && PodOf(u) in start.pods && !start.pods[PodOf(u)].deleting
    requires start.pods[PodOf(u)].annotations != map[] && ReferenceKey(u) !in start.pods[PodOf(u)].annotations
    ensures Tells(y, start)
    ensures y.actions == [Fetch(w, PodOf(u)), ListApps(w), Publish(u), Found(u), Read(u), Write(u, true)]
    ensures var p := start.pods[PodOf(u)];
      y.end == start.(calls := map[u := Bind], workers := map[w := Acting(PodOf(u), p, start.live)],
                      pods := start.pods[PodOf(u) := p.(annotations := WithReference(p.annotations, u))])
  {
    hide PodOf, ReferenceKey, Tells, Step, Enabled, MountCommand.ValidVolumeId, MountPod, Collisionless;
    hide WithReference, JLockFree;
    y := Begin(start);
    y := Observe(y, start, w, PodOf(u));
    y := Join(y, start, u);
    OnlyCallIsFree(y.end, u);
    y := Refer(y, start, u);
  }

  /** A worker sees an idle pod with a delay.  `u` is published on the pod, then the worker writes its
      deadline, and the pod is evicted.  The next reconciler step sees the live target, drops the
      deadline, and recreates the pod from the snapshot in which the deadline still is. */
  lemma DeadlineComesBack(start: State, u: string, w: int, armed: Env, env: Env) returns (y: Story)
    requires Init(start) && u in start.live && PodOf(u) in start.pods && !start.pods[PodOf(u)].deleting
    requires DELAY_TIME_KEY in start.pods[PodOf(u)].annotations && DELAY_AT_KEY !in start.pods[PodOf(u)].annotations
    requires References(start.pods[PodOf(u)].annotations) == map[]
    requires !IsResourceError(start.pods[PodOf(u)].status)
    ensures Tells(y, start)
    ensures y.actions == [Fetch(w, PodOf(u)), ListApps(w), Publish(u), Found(u), Read(u), Write(u, true),
                          LateArm(w, armed), Evict(PodOf(u)), RunStep(PodOf(u), env)]
    ensures u in y.states[8].live && Referenced(y.states[8].pods, u)
    ensures DELAY_AT_KEY in y.states[8].pods[PodOf(u)].annotations
    ensures y.end.pods == y.states[8].pods[PodOf(u) := Recreated(y.states[8].pods[PodOf(u)])]
  {
    hide PodOf, ReferenceKey, Tells, Step, Enabled, MountCommand.ValidVolumeId, WellFormed, Collisionless;
    hide IsResourceError, MountPathOf, WithReference, JLockFree, References, ShouldDelay, IsIdle, RefersTo;
    var name := PodOf(u);
    var p := start.pods[name];
    assert MountPod(p, start.seen);
    IdleWithDelayArms(p, start.live, armed, start.seen);
    UnreferencedKey(p.annotations, u, start.seen, start.targets);
    y := WatchedAndReferred(start, u, w);
    var deleteAt := ShouldDelay(p.annotations, armed.now, armed.zone).deleteAt;
    y := Arm(y, start, w, armed);
    y := Mark(y, start, name);
    DelayedReference(p.annotations, u, deleteAt);
    EndIsLast(y, start);
    y := Return(y, start, name, env);
  }

  lemma IdleWithDelayArms(p: Pod, live: set<string>, env: Env, targets: set<string>)
    requires Sound(p, targets) && !p.deleting && References(p.annotations) == map[]
    requires DELAY_TIME_KEY in p.annotations && DELAY_AT_KEY !in p.annotations
    ensures IsIdle(p, live) && ShouldDelay(p.annotations, env.now, env.zone).Arm?
  {
    assert forall k :: k in LiveKeys(p.annotations, live) ==> k in References(p.annotations);
  }

  lemma UnreferencedKey(a: Annotations, t: string, seen: set<string>, targets: set<string>)
    requires WellFormed(a, seen) && t in targets && seen <= targets && Collisionless(targets)
    requires References(a) == map[]
    ensures ReferenceKey(t) !in a
  {
    if ReferenceKey(t) in a {
      KeyIsReference(a, t, seen, targets);
    }
  }

  lemma KeyIsReference(a: Annotations, t: string, seen: set<string>, targets: set<string>)
    requires WellFormed(a, seen) && t in targets && seen <= targets && Collisionless(targets)
    requires ReferenceKey(t) in a
    ensures ReferenceKey(t) in References(a)
  {
    KeyMeansReference(a, t, seen, targets);
  }

  lemma Arm(y: Story, start: State, w: int, env: Env) returns (y': Story)
    requires Tells(y, start) && w in y.end.workers && y.end.workers[w].Acting?
    requires var v := y.end.workers[w];
      IsIdle(v.cur, v.live) && v.name in y.end.pods && ShouldDelay(v.cur.annotations, env.now, env.zone).Arm?
    ensures Tells(y', start)
    ensures var v := y.end.workers[w];
      var p := y.end.pods[v.name];
      y'.end == y.end.(pods := y.end.pods[v.name := p.(annotations :=
        p.annotations[DELAY_AT_KEY := ShouldDelay(v.cur.annotations, env.now, env.zone).deleteAt])])
    ensures y'.actions == y.actions + [LateArm(w, env)]
    ensures y'.states == y.states + [y'.end]
  {
    hide PodOf, Tells, IsIdle, ShouldDelay;
    y' := Then(y, start, LateArm(w, env));
    assert y'.end.workers == y.end.workers;
  }

  lemma DelayedReference(a: Annotations, t: string, deleteAt: string)
    ensures var b := WithReference(a, t)[DELAY_AT_KEY := deleteAt];
      RefersTo(b, t) && References(b) != map[]
  {
    KeyShape(t);
    var b := WithReference(a, t)[DELAY_AT_KEY := deleteAt];
    assert ReferenceKey(t) in References(b);
  }
}
