/** Unused mount pods go away: a bound on the number of reconciler steps. */
module Convergence {
  import opened Annotation
  import opened Pods
  import opened Store
  import opened Reconcile
  import StepProperties

  /** Steps that an unused pod may still need, not counting those inside its delay window. */
  function Rank(p: Pod): nat {
    if !p.deleting then Upright(p.annotations)
    else if References(p.annotations) != map[] then 1 + Upright(p.annotations)
    else 1
  }

  function Upright(a: Annotations): nat {
    if DELAY_TIME_KEY in a && DELAY_AT_KEY !in a then 3 else 2
  }

  /** At most three steps without a delay, at most four with one. */
  lemma RankBound(p: Pod)
    ensures 1 <= Rank(p) <= 4
    ensures DELAY_TIME_KEY !in p.annotations ==> Rank(p) <= 3
  {
  }

  /** The step falls into the delay window of the pod. */
  predicate InWindow(p: Pod, env: Env) {
    !p.deleting && ShouldDelay(p.annotations, env.now, env.zone).Waiting?
  }

  /** The window lasts from the step that wrote the deadline up to the deadline. */
  lemma WindowMeans(p: Pod, env: Env)
    ensures InWindow(p, env) <==>
      && !p.deleting && DELAY_TIME_KEY in p.annotations && DELAY_AT_KEY in p.annotations
      && ParseTime(p.annotations[DELAY_AT_KEY]).Some? && env.now < ParseTime(p.annotations[DELAY_AT_KEY]).value
  {
  }

  /** A pod with its finalizer that no live target uses. */
  predicate Unused(p: Pod, live: set<string>) {
    && Ours(p) && p.finalizers != []
    && LiveKeys(p.annotations, live) == {}
  }

  /** Every step outside the window brings an unused pod closer to its end; inside the window none
      takes it further away. */
  lemma RankDecreases(p: Pod, live: set<string>, env: Env)
    requires Unused(p, live) && !IsResourceError(p.status)
    ensures match Outcome(p, live, env)
            case None => !InWindow(p, env)
            case Some(q) => Unused(q, live) && Rank(q) + (if InWindow(p, env) then 0 else 1) <= Rank(p)
  {
    hide IsResourceError, MountPathOf, TimeAfterDelay, ParseTime;
    var b := Handled(p.annotations, p.deleting, live, env);
    assert AllOurs([FINALIZER]);
    assert LiveKeys(b, live) == {} && References(b) == map[] by {
      HandledIsUnreferenced(p.annotations, p.deleting, live, env);
    }
  }

  lemma HandledIsUnreferenced(a: Annotations, deleting: bool, live: set<string>, env: Env)
    requires LiveKeys(a, live) == {}
    ensures var b := Handled(a, deleting, live, env); LiveKeys(b, live) == {} && References(b) == map[]
  {
    hide Handled;
    var b := Handled(a, deleting, live, env);
    StepProperties.HandledReferences(a, deleting, live, env);
    assert LiveKeys(b, live) <= References(b).Keys;
  }

  /** What happens between two steps: the kubelet reports a status, and the clock moves. */
  datatype Tick = Tick(status: Status, env: Env)

  function Report(s: PodMap, name: string, status: Status): PodMap
    requires name in s
  {
    s[name := s[name].(status := status)]
  }

  /** Repeated reconciliation of one pod, each time from a fresh snapshot. */
  function Reconciled(s: PodMap, name: string, live: set<string>, ticks: seq<Tick>): PodMap
    decreases |ticks|
  {
    if ticks == [] || name !in s then s
    else
      Reconciled(Fresh(Report(s, name, ticks[0].status), name, live, ticks[0].env).pods,
                 name, live, ticks[1..])
  }

  /** The number of those steps outside the delay window. */
  function Counted(s: PodMap, name: string, live: set<string>, ticks: seq<Tick>): nat
    decreases |ticks|
  {
    if ticks == [] then 0
    else if name !in s then |ticks|
    else
      (if InWindow(s[name], ticks[0].env) then 0 else 1) +
      Counted(Fresh(Report(s, name, ticks[0].status), name, live, ticks[0].env).pods,
              name, live, ticks[1..])
  }

  lemma {:induction false} RankIsUsedUp(s: PodMap, name: string, live: set<string>, ticks: seq<Tick>)
    requires name in s && Unused(s[name], live)
    requires forall i :: 0 <= i < |ticks| ==> !IsResourceError(ticks[i].status)
    ensures var s' := Reconciled(s, name, live, ticks);
      name in s' ==> Rank(s'[name]) + Counted(s, name, live, ticks) <= Rank(s[name])
    decreases |ticks|
  {
    hide IsResourceError, MountPathOf, ShouldDelay, Fresh, Outcome, Unused;
    if ticks != [] {
      var s1 := Report(s, name, ticks[0].status);
      StatusDoesNotMatter(s[name], ticks[0], live);
      FreshStep(s1, name, live, ticks[0].env);
      var s2 := Fresh(s1, name, live, ticks[0].env).pods;
      if name in s2 {
        RankIsUsedUp(s2, name, live, ticks[1..]);
      }
    }
  }

  lemma StatusDoesNotMatter(p: Pod, tick: Tick, live: set<string>)
    ensures var q := p.(status := tick.status);
      && Rank(q) == Rank(p) && InWindow(q, tick.env) == InWindow(p, tick.env)
      && Unused(q, live) == Unused(p, live)
  {
  }

  lemma FreshStep(s: PodMap, name: string, live: set<string>, env: Env)
    requires name in s && Unused(s[name], live) && !IsResourceError(s[name].status)
    ensures var s' := Fresh(s, name, live, env).pods;
      name in s' ==>
        Unused(s'[name], live) && Rank(s'[name]) + (if InWindow(s[name], env) then 0 else 1) <= Rank(s[name])
  {
    hide IsResourceError, MountPathOf, ShouldDelay, Fresh, Outcome, Rank;
    FreshOutcome(s, name, live, env);
    RankDecreases(s[name], live, env);
  }

  /** Convergence.  Once no target is live and nobody publishes, a mount pod without resource errors
      is gone after `Rank` steps outside its delay window, in whatever order statuses, broken mount
      points and clock readings come. */
  lemma {:induction false} Converges(s: PodMap, name: string, live: set<string>, ticks: seq<Tick>)
    requires name in s && Unused(s[name], live)
    requires forall i :: 0 <= i < |ticks| ==> !IsResourceError(ticks[i].status)
    requires Counted(s, name, live, ticks) >= Rank(s[name])
    ensures name !in Reconciled(s, name, live, ticks)
  {
    hide IsResourceError, MountPathOf, ShouldDelay, Fresh, Outcome;
    RankIsUsedUp(s, name, live, ticks);
  }

  /** The bound is reached: a terminating pod with a dead reference, no delay and a healthy status is
      still there after two steps. */
  lemma BoundIsTight(s: PodMap, name: string, ticks: seq<Tick>)
    requires name in s && Unused(s[name], {}) && s[name].deleting
    requires References(s[name].annotations) != map[] && DELAY_TIME_KEY !in s[name].annotations
    requires |ticks| == 2 && ticks[0].status == FRESH && ticks[1].status == FRESH
    ensures name in Reconciled(s, name, {}, ticks)
  {
    hide MountPathOf, Fresh;
    var s1 := Report(s, name, FRESH);
    FreshOutcome(s1, name, {}, ticks[0].env);
    assert !IsResourceError(FRESH);
    var s2 := Fresh(s1, name, {}, ticks[0].env).pods;
    assert Reconciled(s, name, {}, ticks) == Reconciled(s2, name, {}, ticks[1..]);
    assert s2[name] == Recreated(s1[name]);
    var s3 := Report(s2, name, FRESH);
    FreshOutcome(s3, name, {}, ticks[1].env);
    var s4 := Fresh(s3, name, {}, ticks[1].env).pods;
    assert Reconciled(s2, name, {}, ticks[1..]) == Reconciled(s4, name, {}, ticks[1..][1..]);
  }

  lemma StarvedStep(s: PodMap, name: string, live: set<string>, env: Env)
    requires name in s && Ours(s[name])
    requires s[name].deleting && IsResourceError(s[name].status)
    ensures var s' := Fresh(s, name, live, env).pods;
      && name in s' && s'[name].deleting
      && s'[name].finalizers == s[name].finalizers && s'[name].spec == s[name].spec
  {
    hide IsResourceError, MountPathOf, ShouldDelay, Fresh, Handled;
    FreshOutcome(s, name, live, env);
  }

  /** The hypothesis on resource errors is needed: a terminating pod that keeps reporting one is never
      released, by any number of steps. */
  lemma {:induction false} StarvedPodStays(s: PodMap, name: string, live: set<string>, ticks: seq<Tick>)
    requires name in s && Ours(s[name])
    requires s[name].deleting
    requires forall i :: 0 <= i < |ticks| ==> IsResourceError(ticks[i].status)
    ensures name in Reconciled(s, name, live, ticks)
    decreases |ticks|
  {
    hide IsResourceError, MountPathOf, ShouldDelay, Fresh;
    if ticks != [] {
      var s1 := Report(s, name, ticks[0].status);
      StarvedStep(s1, name, live, ticks[0].env);
      StarvedPodStays(Fresh(s1, name, live, ticks[0].env).pods, name, live, ticks[1..]);
    }
  }
}
