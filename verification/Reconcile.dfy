/** One reconciler step, `PodDriver.Run` with its status handlers, as a function of the server's
    pods, the snapshot it was given, the live targets and the surroundings. */
module Reconcile {
  import opened Text
  import opened Annotation
  import opened Pods
  import opened Store

  /** The clock and zone of the process, and whether the mount point of an erroneous pod is gone. */
  datatype Env = Env(now: int, zone: int, broken: bool)

  /** The annotations `Run` decides to drop. */
  function Dropped(a: Annotations, live: set<string>): set<string> {
    DeadKeys(a, live) +
    (if LiveKeys(a, live) != {} && DELAY_AT_KEY in a && a[DELAY_AT_KEY] != ""
     then {DELAY_AT_KEY} else {})
  }

  /** Dropping them: only when there is something to drop, the snapshot is compared with the server
      by its number of references. */
  function Prune(s: PodMap, name: string, cur: Pod, live: set<string>): Reply {
    var drop := Dropped(cur.annotations, live);
    if drop == {} then Reply(s, Nil)
    else if name !in s then Reply(s, NotFound)
    else if |References(s[name].annotations)| != |References(cur.annotations)| then Reply(s, Conflict)
    else RemoveAnnotations(s, name, drop)
  }

  /** The replacement that both recovery handlers create. */
  function Recreated(cur: Pod): Pod {
    Pod(cur.labels, cur.annotations, [FINALIZER], false, cur.spec, FRESH)
  }

  /** The replacement of a pod that failed for want of resources. */
  function Relieved(cur: Pod): Pod {
    Recreated(cur).(spec := WithoutResource(cur.spec))
  }

  /** `RemoveFinalizer` on a snapshot; in `podDeletedHandler` this comes before the pod lock. */
  function Release(s: PodMap, name: string, cur: Pod): Reply {
    ReplaceFinalizers(s, name, Without(cur.finalizers, FINALIZER))
  }

  predicate ResourcePath(cur: Pod) {
    IsResourceError(cur.status) && HasResource(cur.spec)
  }

  /** The resource path of `podErrorHandler` up to its wait: the finalizer goes, then the pod. */
  function Unseat(s: PodMap, name: string, cur: Pod): Reply {
    var r := Release(s, name, cur);
    if r.err != Nil then r else DeletePod(r.pods, name)
  }

  /** The whole resource path: a replacement is created, unless one of the first two requests fails. */
  function Relieve(s: PodMap, name: string, cur: Pod): Reply {
    var r := Unseat(s, name, cur);
    if r.err != Nil then r else CreatePod(r.pods, name, Relieved(cur))
  }

  /** `podErrorHandler`. */
  function HandleError(s: PodMap, name: string, cur: Pod, env: Env): Reply {
    if IsResourceError(cur.status) then
      if HasResource(cur.spec) then Relieve(s, name, cur) else Reply(s, Nil)
    else if MountPathOf(cur.spec).None? then Reply(s, BadCommand)
    else if env.broken then DeletePod(s, name)
    else Reply(s, Nil)
  }

  /** `podDeletedHandler` acts on a pod that carries our finalizer and has no resource error. */
  predicate Releases(cur: Pod) {
    FINALIZER in cur.finalizers && !IsResourceError(cur.status)
  }

  /** It brings the pod back when it had references and its command can be parsed. */
  predicate Recovers(cur: Pod) {
    References(cur.annotations) != map[] && MountPathOf(cur.spec).Some?
  }

  /** Second half of `podDeletedHandler`, under the pod lock: the pod comes back. */
  function Recover(s: PodMap, name: string, cur: Pod): Reply {
    CreatePod(s, name, Recreated(cur))
  }

  /** `podDeletedHandler`. */
  function HandleDeleted(s: PodMap, name: string, cur: Pod): Reply {
    if !Releases(cur) then Reply(s, Nil)
    else
      var r := Release(s, name, cur);
      if r.err != Nil then r
      else if Recovers(cur) then Recover(r.pods, name, cur)
      else r
  }

  function Handle(s: PodMap, name: string, cur: Pod, env: Env): Reply {
    match GetPodStatus(cur)
    case PodDeleted => HandleDeleted(s, name, cur)
    case PodError => HandleError(s, name, cur, env)
    case PodReady => Reply(s, Nil)
    case PodPending => if cur.status.phase == Succeeded then DeletePod(s, name) else Reply(s, Nil)
  }

  /** `Run` reaches its idle branch: no live target, and not terminating. */
  predicate IsIdle(cur: Pod, live: set<string>) {
    LiveKeys(cur.annotations, live) == {} && !cur.deleting
  }

  /** `Run` on an arbitrary snapshot `cur` of the pod called `name`. */
  function Run(s: PodMap, name: string, cur: Pod, live: set<string>, env: Env): Reply {
    var r := Prune(s, name, cur, live);
    if r.err != Nil then r
    else if !IsIdle(cur, live) then Handle(r.pods, name, cur, env)
    else
      match ShouldDelay(cur.annotations, env.now, env.zone)
      case Expired => DeletePod(r.pods, name)
      case Waiting => Handle(r.pods, name, cur, env)
      case Arm(deleteAt) =>
        var w := AddAnnotation(r.pods, name, DELAY_AT_KEY, deleteAt);
        if w.err != Nil then w else Handle(w.pods, name, cur, env)
  }

  // --- frame --------------------------------------------------------------------------------

  /** Only the pod called `name` may differ. */
  ghost predicate SameElsewhere(s: PodMap, s': PodMap, name: string) {
    forall n :: n != name ==> (n in s <==> n in s') && (n in s ==> s'[n] == s[n])
  }

  lemma HandleFrame(s: PodMap, name: string, cur: Pod, env: Env)
    ensures SameElsewhere(s, Handle(s, name, cur, env).pods, name)
  {
    hide IsResourceError, IsError, IsReady, HasResource, MountPathOf, References, Without, Relieved, Recreated;
    hide Relieve, HandleDeleted, GetPodStatus;
    RelieveFrame(s, name, cur);
    HandleDeletedFrame(s, name, cur);
  }

  lemma RelieveFrame(s: PodMap, name: string, cur: Pod)
    ensures SameElsewhere(s, Relieve(s, name, cur).pods, name)
  {
    hide Without, Relieved;
  }

  lemma HandleDeletedFrame(s: PodMap, name: string, cur: Pod)
    ensures SameElsewhere(s, HandleDeleted(s, name, cur).pods, name)
  {
    hide Without, Releases, Recovers, Recreated;
  }

  lemma PruneFrame(s: PodMap, name: string, cur: Pod, live: set<string>)
    ensures SameElsewhere(s, Prune(s, name, cur, live).pods, name)
  {
  }

  /** `Run` touches no other pod, whatever its snapshot was. */
  lemma RunFrame(s: PodMap, name: string, cur: Pod, live: set<string>, env: Env)
    ensures SameElsewhere(s, Run(s, name, cur, live, env).pods, name)
  {
    var r := Prune(s, name, cur, live);
    PruneFrame(s, name, cur, live);
    if r.err == Nil {
      HandleFrame(r.pods, name, cur, env);
      if ShouldDelay(cur.annotations, env.now, env.zone).Arm? {
        var w := AddAnnotation(r.pods, name, DELAY_AT_KEY,
                               ShouldDelay(cur.annotations, env.now, env.zone).deleteAt);
        HandleFrame(w.pods, name, cur, env);
      }
    }
  }

  // --- one step on a fresh snapshot ---------------------------------------------------------

  /** A pod of this driver: no foreign finalizer, a finalizer as long as it is terminating, and a
      command that can be parsed. */
  predicate Ours(p: Pod) {
    && AllOurs(p.finalizers)
    && (p.deleting ==> p.finalizers != [])
    && MountPathOf(p.spec).Some?
  }

  /** What every pod of a run satisfies. */
  ghost predicate Sound(p: Pod, targets: set<string>) {
    Ours(p) && WellFormed(p.annotations, targets)
  }

  /** A mount pod that cannot vanish without its finalizer being removed first. */
  ghost predicate MountPod(p: Pod, targets: set<string>) {
    Sound(p, targets) && p.finalizers != []
  }

  /** `Run` from a fresh snapshot. */
  function Fresh(s: PodMap, name: string, live: set<string>, env: Env): Reply
    requires name in s
  {
    Run(s, name, s[name], live, env)
  }

  lemma FreshFrame(s: PodMap, name: string, live: set<string>, env: Env)
    requires name in s
    ensures SameElsewhere(s, Fresh(s, name, live, env).pods, name)
  {
    hide Run;
    RunFrame(s, name, s[name], live, env);
  }

  /** The annotations left on the server when `Run` comes to its handlers. */
  function Handled(a: Annotations, deleting: bool, live: set<string>, env: Env): Annotations {
    var pruned := a - Dropped(a, live);
    if LiveKeys(a, live) == {} && !deleting && ShouldDelay(a, env.now, env.zone).Arm?
    then pruned[DELAY_AT_KEY := ShouldDelay(a, env.now, env.zone).deleteAt]
    else pruned
  }

  /** A delete request on the pod itself: `None` when it is gone. */
  function Marked(p: Pod): Option<Pod> {
    if p.finalizers == [] then None else Some(p.(deleting := true))
  }

  /** The outcome of a step on a fresh snapshot, without the server in between: `None` when the pod
      is gone.  A pod without a finalizer goes at once, and is not relieved. */
  function Outcome(p: Pod, live: set<string>, env: Env): Option<Pod>
    requires Ours(p)
  {
    var left := p.(annotations := Handled(p.annotations, p.deleting, live, env));
    if IsIdle(p, live) && ShouldDelay(p.annotations, env.now, env.zone).Expired? then Marked(left)
    else
      match GetPodStatus(p)
      case PodDeleted =>
        if IsResourceError(p.status) then Some(left)
        else if References(p.annotations) == map[] then None
        else Some(Recreated(p))
      case PodError =>
        if IsResourceError(p.status) then
          Some(if HasResource(p.spec) && p.finalizers != [] then Relieved(p) else left)
        else if env.broken then Marked(left)
        else Some(left)
      case PodReady => Some(left)
      case PodPending => if p.status.phase == Succeeded then Marked(left) else Some(left)
  }

  lemma PruneFresh(s: PodMap, name: string, live: set<string>)
    requires name in s
    ensures Prune(s, name, s[name], live)
         == Reply(s[name := s[name].(annotations := s[name].annotations - Dropped(s[name].annotations, live))], Nil)
  {
    var a := s[name].annotations;
    if Dropped(a, live) == {} {
      assert a - Dropped(a, live) == a;
      assert s[name := s[name].(annotations := a)] == s;
    }
  }

  /** From a fresh snapshot the comparison passes, so `Run` is its handler, or its delete, on the
      pruned pod. */
  lemma FreshReduces(s: PodMap, name: string, live: set<string>, env: Env)
    requires name in s
    ensures
      var p := s[name];
      var s1 := s[name := p.(annotations := Handled(p.annotations, p.deleting, live, env))];
      Fresh(s, name, live, env) ==
        if IsIdle(p, live) && ShouldDelay(p.annotations, env.now, env.zone).Expired?
        then DeletePod(s1, name) else Handle(s1, name, p, env)
  {
    PruneFresh(s, name, live);
    var p := s[name];
    var pruned := s[name := p.(annotations := p.annotations - Dropped(p.annotations, live))];
    assert pruned == Prune(s, name, p, live).pods;
    if IsIdle(p, live) && ShouldDelay(p.annotations, env.now, env.zone).Arm? {
      var at := ShouldDelay(p.annotations, env.now, env.zone).deleteAt;
      assert AddAnnotation(pruned, name, DELAY_AT_KEY, at).pods
          == s[name := p.(annotations := Handled(p.annotations, p.deleting, live, env))];
    }
  }

  function With(s: PodMap, name: string, p: Option<Pod>): PodMap {
    match p case None => s - {name} case Some(q) => s[name := q]
  }

  /** A step on a fresh snapshot does to the pod what `Outcome` says; it succeeds if the pod has its
      finalizer. */
  lemma FreshOutcome(s: PodMap, name: string, live: set<string>, env: Env)
    requires name in s && Ours(s[name])
    ensures Fresh(s, name, live, env).pods == With(s, name, Outcome(s[name], live, env))
    ensures s[name].finalizers != [] ==> Fresh(s, name, live, env).err == Nil
  {
    hide IsResourceError, IsError, IsReady, HasResource, MountPathOf, Handled, ShouldDelay, Handle;
    var p := s[name];
    var left := p.(annotations := Handled(p.annotations, p.deleting, live, env));
    FreshReduces(s, name, live, env);
    HandleFresh(s, name, left, p, env);
    assert s[name := left] - {name} == s - {name};
  }

  lemma HandleFresh(s: PodMap, name: string, left: Pod, p: Pod, env: Env)
    requires name in s && Ours(p) && left == p.(annotations := left.annotations)
    ensures p.finalizers != [] ==> Handle(s[name := left], name, p, env).err == Nil
    ensures Handle(s[name := left], name, p, env).pods == With(s, name,
      match GetPodStatus(p)
      case PodDeleted =>
        if IsResourceError(p.status) then Some(left)
        else if References(p.annotations) == map[] then None
        else Some(Recreated(p))
      case PodError =>
        if IsResourceError(p.status) then
          Some(if HasResource(p.spec) && p.finalizers != [] then Relieved(p) else left)
        else if env.broken then Marked(left)
        else Some(left)
      case PodReady => Some(left)
      case PodPending => if p.status.phase == Succeeded then Marked(left) else Some(left))
  {
    hide IsResourceError, IsError, IsReady, HasResource, MountPathOf, References, Release;
    ReleaseOfOurs(s[name := left], name, p);
    assert p.finalizers != [] ==> p.finalizers[0] == FINALIZER;
    assert s[name := left] - {name} == s - {name};
  }

  /** Removing the finalizer: a terminating pod goes, any other pod is left without finalizers. */
  lemma ReleaseOfOurs(s: PodMap, name: string, cur: Pod)
    requires AllOurs(cur.finalizers)
    ensures Release(s, name, cur) ==
      if name !in s then Reply(s, NotFound)
      else if s[name].finalizers == [] then Reply(s, Invalid)
      else if s[name].deleting then Reply(s - {name}, Nil)
      else Reply(s[name := s[name].(finalizers := [])], Nil)
  {
    WithoutEmpties(cur.finalizers);
  }

  /** The first two requests take away a pod that has its finalizer.  A terminating one is gone after
      the first of them, so the second fails. */
  lemma UnseatOfOurs(s: PodMap, name: string, cur: Pod)
    requires AllOurs(cur.finalizers)
    ensures Unseat(s, name, cur) ==
      if name !in s then Reply(s, NotFound)
      else if s[name].finalizers == [] then Reply(s, Invalid)
      else Reply(s - {name}, if s[name].deleting then NotFound else Nil)
  {
    hide Release;
    ReleaseOfOurs(s, name, cur);
    if name in s {
      assert s[name := s[name].(finalizers := [])] - {name} == s - {name};
    }
  }

  /** The resource path replaces a pod that has its finalizer and is not terminating.  A terminating
      pod is lost without a replacement. */
  lemma RelieveOfOurs(s: PodMap, name: string, cur: Pod)
    requires AllOurs(cur.finalizers)
    ensures Relieve(s, name, cur) ==
      if name !in s then Reply(s, NotFound)
      else if s[name].finalizers == [] then Reply(s, Invalid)
      else if s[name].deleting then Reply(s - {name}, NotFound)
      else Reply(s[name := Relieved(cur)], Nil)
  {
    hide Unseat, Relieved;
    UnseatOfOurs(s, name, cur);
    if name in s {
      assert (s - {name})[name := Relieved(cur)] == s[name := Relieved(cur)];
    }
  }
}
