/** A whole `Run` from a fresh snapshot is the sequence of its requests: the two ways in which the
    reconciler appears in the state machine agree. */
module Requests {
  import opened Text
  import opened Annotation
  import opened Pods
  import opened Store
  import opened Reconcile
  import opened Protocol

  /** These actions can be performed one after the other. */
  ghost predicate CanPerform(s: State, actions: seq<Action>)
    decreases |actions|
  {
    actions == [] || (Enabled(s, actions[0]) && CanPerform(Step(s, actions[0]), actions[1..]))
  }

  ghost function Performed(s: State, actions: seq<Action>): State
    requires CanPerform(s, actions)
    decreases |actions|
  {
    if actions == [] then s else Performed(Step(s, actions[0]), actions[1..])
  }

  lemma {:induction false} PerformBoth(s: State, first: seq<Action>, second: seq<Action>)
    requires CanPerform(s, first) && CanPerform(Performed(s, first), second)
    ensures CanPerform(s, first + second) && Performed(s, first + second) == Performed(Performed(s, first), second)
    decreases |first|
  {
    hide Enabled, Step;
    if first == [] {
      assert first + second == second;
    } else {
      assert (first + second)[1..] == first[1..] + second;
      PerformBoth(Step(s, first[0]), first[1..], second);
    }
  }

  lemma PerformOne(s: State, a: Action)
    requires Enabled(s, a)
    ensures CanPerform(s, [a]) && Performed(s, [a]) == Step(s, a)
  {
    hide Enabled, Step;
    assert [a][1..] == [];
    assert CanPerform(Step(s, a), []) && Performed(Step(s, a), []) == Step(s, a);
  }

  lemma PerformTwo(s: State, a: Action, b: Action)
    requires Enabled(s, a) && Enabled(Step(s, a), b)
    ensures CanPerform(s, [a, b]) && Performed(s, [a, b]) == Step(Step(s, a), b)
  {
    hide Enabled, Step;
    PerformOne(s, a);
    PerformOne(Step(s, a), b);
    PerformBoth(s, [a], [b]);
    assert [a] + [b] == [a, b];
  }

  // --- what a `Run` sends -------------------------------------------------------------------

  /** The requests of the handlers, for a snapshot `p`. */
  function Handling(p: Pod, env: Env, w: int): seq<Action> {
    match GetPodStatus(p)
    case PodDeleted =>
      if IsResourceError(p.status) then [Leave(w)]
      else if References(p.annotations) == map[] then [LateRelease(w)]
      else [LateRelease(w), LateRecover(w)]
    case PodError =>
      if IsResourceError(p.status) then (if HasResource(p.spec) then [LateRelieve(w), LateRecover(w)] else [Leave(w)])
      else if env.broken then [LateMark(w), Leave(w)] else [Leave(w)]
    case PodReady => [Leave(w)]
    case PodPending => if p.status.phase == Succeeded then [LateMark(w), Leave(w)] else [Leave(w)]
  }

  function Pruning(p: Pod, live: set<string>, w: int): seq<Action> {
    if Dropped(p.annotations, live) == {} then [] else [LatePrune(w)]
  }

  function Arming(p: Pod, live: set<string>, env: Env, w: int): seq<Action> {
    if IsIdle(p, live) && ShouldDelay(p.annotations, env.now, env.zone).Arm? then [LateArm(w, env)] else []
  }

  /** All requests of a `Run`, from the snapshot on. */
  function Plan(name: string, p: Pod, live: set<string>, env: Env, w: int): seq<Action> {
    [Fetch(w, name), ListApps(w)] + Pruning(p, live, w) +
    (if IsIdle(p, live) && ShouldDelay(p.annotations, env.now, env.zone).Expired? then [LateMark(w), Leave(w)]
     else Arming(p, live, env, w) + Handling(p, env, w))
  }

  // --- one request at a time ----------------------------------------------------------------

  /** A step of a worker changes the server and the worker, nothing else. */
  lemma WorkDoes(s: State, a: Action)
    requires IsWork(a) && CanWork(s, a)
    ensures Enabled(s, a)
    ensures Step(s, a) == s.(pods := PodsAfter(s, a), workers := WorkersAfter(s, a))
    ensures PodsAfter(s, a) == if IsLate(a) then Sent(s.pods, s.workers[a.w], a).pods else s.pods
  {
    hide Sent, Ready, Worked;
  }

  lemma Observes(s: State, name: string, w: int)
    requires name in s.pods && w !in s.workers
    ensures CanPerform(s, [Fetch(w, name), ListApps(w)])
    ensures Performed(s, [Fetch(w, name), ListApps(w)])
         == s.(workers := s.workers[w := Acting(name, s.pods[name], s.live)])
  {
    hide Enabled, Step, PodsAfter, Sent;
    WorkDoes(s, Fetch(w, name));
    var s1 := Step(s, Fetch(w, name));
    WorkDoes(s1, ListApps(w));
    PerformTwo(s, Fetch(w, name), ListApps(w));
  }

  /** `s` with the worker at its snapshot `p`, and with the annotations `a` on the server. */
  ghost predicate Working(s: State, name: string, w: int, p: Pod, live: set<string>, a: Annotations) {
    && w in s.workers && s.workers[w] == Acting(name, p, live)
    && name in s.pods && s.pods[name] == p.(annotations := a)
  }

  lemma Prunes(s: State, name: string, w: int, p: Pod, live: set<string>)
    requires Working(s, name, w, p, live, p.annotations)
    ensures CanPerform(s, Pruning(p, live, w))
    ensures Performed(s, Pruning(p, live, w))
         == s.(pods := s.pods[name := p.(annotations := p.annotations - Dropped(p.annotations, live))])
  {
    hide Enabled, Step, PodsAfter;
    var drop := Dropped(p.annotations, live);
    if drop == {} {
      assert p.annotations - drop == p.annotations;
      assert s.pods[name := p] == s.pods;
    } else {
      WorkDoes(s, LatePrune(w));
      PerformOne(s, LatePrune(w));
      assert s.workers[w := s.workers[w]] == s.workers;
    }
  }

  lemma ArmsTimer(s: State, name: string, w: int, p: Pod, live: set<string>, env: Env, a: Annotations)
    requires Working(s, name, w, p, live, a)
    ensures CanPerform(s, Arming(p, live, env, w))
    ensures Performed(s, Arming(p, live, env, w)) ==
      if IsIdle(p, live) && ShouldDelay(p.annotations, env.now, env.zone).Arm?
      then s.(pods := s.pods[name := p.(annotations :=
        a[DELAY_AT_KEY := ShouldDelay(p.annotations, env.now, env.zone).deleteAt])])
      else s
  {
    hide Enabled, Step, PodsAfter, IsIdle, ShouldDelay;
    if IsIdle(p, live) && ShouldDelay(p.annotations, env.now, env.zone).Arm? {
      WorkDoes(s, LateArm(w, env));
      PerformOne(s, LateArm(w, env));
      assert s.workers[w := s.workers[w]] == s.workers;
    }
  }

  lemma Leaves(s: State, w: int)
    requires w in s.workers
    ensures CanPerform(s, [Leave(w)]) && Performed(s, [Leave(w)]) == s.(workers := s.workers - {w})
  {
    hide Enabled, Step, PodsAfter;
    WorkDoes(s, Leave(w));
    PerformOne(s, Leave(w));
  }

  lemma MarksAndLeaves(s: State, name: string, w: int, p: Pod, live: set<string>, a: Annotations)
    requires Working(s, name, w, p, live, a)
    ensures CanPerform(s, [LateMark(w), Leave(w)])
    ensures Performed(s, [LateMark(w), Leave(w)])
         == s.(pods := DeletePod(s.pods, name).pods, workers := s.workers - {w})
  {
    hide Enabled, Step, PodsAfter, DeletePod;
    WorkDoes(s, LateMark(w));
    var s1 := Step(s, LateMark(w));
    assert s1.workers == s.workers;
    WorkDoes(s1, Leave(w));
    PerformTwo(s, LateMark(w), Leave(w));
  }

  /** The two halves of a recovery, or the first alone if there is nothing to recover. */
  lemma Recovery(s: State, name: string, w: int, p: Pod, live: set<string>, a: Annotations)
    requires Working(s, name, w, p, live, a) && Ours(p) && p.finalizers != [] && p.deleting
    requires !IsResourceError(p.status)
    ensures var actions := if References(p.annotations) == map[] then [LateRelease(w)] else [LateRelease(w), LateRecover(w)];
      && CanPerform(s, actions)
      && Performed(s, actions) == s.(pods := HandleDeleted(s.pods, name, p).pods, workers := s.workers - {w})
  {
    hide Enabled, Step, PodsAfter, IsResourceError, MountPathOf, Release, References, Recreated;
    assert p.finalizers[0] == FINALIZER;
    ReleaseOfOurs(s.pods, name, p);
    WorkDoes(s, LateRelease(w));
    PerformOne(s, LateRelease(w));
    if References(p.annotations) != map[] {
      var s1 := Step(s, LateRelease(w));
      assert s1.workers == s.workers[w := Released(name, p, false)];
      WorkDoes(s1, LateRecover(w));
      PerformTwo(s, LateRelease(w), LateRecover(w));
      assert s.workers[w := Released(name, p, false)] - {w} == s.workers - {w};
    }
  }

  lemma Relief(s: State, name: string, w: int, p: Pod, live: set<string>, a: Annotations)
    requires Working(s, name, w, p, live, a) && Ours(p) && p.finalizers != [] && !p.deleting
    requires GetPodStatus(p) == PodError && ResourcePath(p)
    ensures CanPerform(s, [LateRelieve(w), LateRecover(w)])
    ensures Performed(s, [LateRelieve(w), LateRecover(w)])
         == s.(pods := Relieve(s.pods, name, p).pods, workers := s.workers - {w})
  {
    hide Enabled, Step, PodsAfter, ResourcePath, GetPodStatus, MountPathOf, Unseat, Relieved;
    UnseatOfOurs(s.pods, name, p);
    WorkDoes(s, LateRelieve(w));
    var s1 := Step(s, LateRelieve(w));
    assert s1.workers == s.workers[w := Released(name, p, true)];
    WorkDoes(s1, LateRecover(w));
    PerformTwo(s, LateRelieve(w), LateRecover(w));
    assert s.workers[w := Released(name, p, true)] - {w} == s.workers - {w};
  }

  /** The requests of the handler do what the handler does. */
  lemma Handles(s: State, name: string, w: int, p: Pod, live: set<string>, env: Env, a: Annotations)
    requires Working(s, name, w, p, live, a) && Ours(p) && p.finalizers != []
    ensures CanPerform(s, Handling(p, env, w))
    ensures Performed(s, Handling(p, env, w))
         == s.(pods := Handle(s.pods, name, p, env).pods, workers := s.workers - {w})
  {
    hide CanPerform, Performed, IsResourceError, IsError, IsReady, HasResource, References, HandleDeleted, Relieve;
    hide DeletePod, MountPathOf;
    Leaves(s, w);
    MarksAndLeaves(s, name, w, p, live, a);
    if p.deleting {
      if IsResourceError(p.status) {
        NothingDeleted(s.pods, name, p);
      } else {
        Recovery(s, name, w, p, live, a);
      }
    } else if IsError(p.status) && IsResourceError(p.status) && HasResource(p.spec) {
      Relief(s, name, w, p, live, a);
    }
  }

  lemma NothingDeleted(pods: PodMap, name: string, p: Pod)
    requires IsResourceError(p.status)
    ensures HandleDeleted(pods, name, p) == Reply(pods, Nil)
  {
  }

  /** A worker that takes a snapshot and sends the requests of its `Run`, without anything in between,
      does exactly what the step `RunStep` does. */
  lemma RunIsItsRequests(s: State, name: string, env: Env, w: int)
    requires name in s.pods && Ours(s.pods[name]) && s.pods[name].finalizers != [] && w !in s.workers
    ensures CanPerform(s, Plan(name, s.pods[name], s.live, env, w))
    ensures Performed(s, Plan(name, s.pods[name], s.live, env, w))
         == s.(pods := Fresh(s.pods, name, s.live, env).pods)
  {
    hide CanPerform, Performed, Step, Handle, Handled, IsIdle, ShouldDelay, Fresh, Dropped, DeletePod, Ours, Pruning;
    hide Arming, Handling;
    var p, live := s.pods[name], s.live;
    var pruned := p.annotations - Dropped(p.annotations, live);
    Observes(s, name, w);
    var s1 := s.(workers := s.workers[w := Acting(name, p, live)]);
    Prunes(s1, name, w, p, live);
    var s2 := s1.(pods := s.pods[name := p.(annotations := pruned)]);
    PerformBoth(s, [Fetch(w, name), ListApps(w)], Pruning(p, live, w));
    var start := [Fetch(w, name), ListApps(w)] + Pruning(p, live, w);
    FreshReduces(s.pods, name, live, env);
    assert s1.workers - {w} == s.workers;
    if IsIdle(p, live) && ShouldDelay(p.annotations, env.now, env.zone).Expired? {
      MarksAndLeaves(s2, name, w, p, live, pruned);
      PerformBoth(s, start, [LateMark(w), Leave(w)]);
      HandledIs(p, live, env);
    } else {
      ArmsTimer(s2, name, w, p, live, env, pruned);
      var b := Handled(p.annotations, p.deleting, live, env);
      HandledIs(p, live, env);
      var s3 := s1.(pods := s.pods[name := p.(annotations := b)]);
      assert Performed(s2, Arming(p, live, env, w)) == s3;
      Handles(s3, name, w, p, live, env, b);
      PerformBoth(s2, Arming(p, live, env, w), Handling(p, env, w));
      PerformBoth(s, start, Arming(p, live, env, w) + Handling(p, env, w));
    }
  }

  lemma HandledIs(p: Pod, live: set<string>, env: Env)
    ensures Handled(p.annotations, p.deleting, live, env) ==
      var pruned := p.annotations - Dropped(p.annotations, live);
      if IsIdle(p, live) && ShouldDelay(p.annotations, env.now, env.zone).Arm?
      then pruned[DELAY_AT_KEY := ShouldDelay(p.annotations, env.now, env.zone).deleteAt] else pruned
  {
    hide Dropped, ShouldDelay;
  }

  lemma RunDoes(s: State, a: Action)
    requires Enabled(s, a) && a.RunStep?
    ensures a.name in s.pods && Step(s, a) == s.(pods := Fresh(s.pods, a.name, s.live, a.env).pods)
  {
    hide Fresh;
  }

  /** In terms of steps. */
  lemma RunStepIsItsRequests(s: State, a: Action, w: int)
    requires Enabled(s, a) && a.RunStep? && a.name in s.pods
    requires Ours(s.pods[a.name]) && s.pods[a.name].finalizers != [] && w !in s.workers
    ensures CanPerform(s, Plan(a.name, s.pods[a.name], s.live, a.env, w))
    ensures Performed(s, Plan(a.name, s.pods[a.name], s.live, a.env, w)) == Step(s, a)
  {
    hide CanPerform, Performed, Plan, Step, Enabled, Fresh, Ours;
    RunDoes(s, a);
    RunIsItsRequests(s, a.name, a.env, w);
  }
}
