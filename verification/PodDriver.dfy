/** `PodDriver.Run` and its handlers as they change the server, against the function `Reconcile.Run`. */
module PodDriver {
  import opened TargetPath
  import opened Annotation
  import opened Pods
  import opened Store
  import opened Reconcile
  import Finalizers
  import Sets

  datatype AppPod = AppPod(uid: string, deleting: bool)

  /** The loop of `GetAllRefKeys`. */
  method GetAllRefKeys(a: Annotations) returns (annos: Annotations)
    ensures annos == References(a)
  {
    annos := map[];
    var keys := a.Keys;
    while keys != {}
      invariant keys <= a.Keys
      invariant annos == map k | k in a && k !in keys && k == ReferenceKey(a[k]) :: a[k]
    {
      var k :| k in keys;
      keys := keys - {k};
      if k == ReferenceKey(a[k]) {
        annos := annos[k := a[k]];
      }
    }
  }

  /** The loop of `IsPodReady`. */
  method IsPodReady(st: Status) returns (ready: bool)
    ensures ready == IsReady(st)
  {
    var conditionsTrue := 0;
    for i := 0 to |st.conditions|
      invariant conditionsTrue == ReadyConditions(st.conditions[..i])
    {
      assert st.conditions[..i + 1][..i] == st.conditions[..i];
      if CountsAsReady(st.conditions[i]) {
        conditionsTrue := conditionsTrue + 1;
      }
    }
    assert st.conditions[..|st.conditions|] == st.conditions;
    ready := conditionsTrue == 2;
  }

  /** If no condition type is reported twice, as the API promises, a pod is ready exactly when both
      of its ready conditions are true. */
  lemma ReadyMeansBoth(cs: seq<Condition>)
    requires forall i, j :: 0 <= i < j < |cs| ==> cs[i].kind != cs[j].kind
    ensures ReadyConditions(cs) == 2 <==> Holds(cs, "ContainersReady") && Holds(cs, "Ready")
  {
    hide ReadyKinds, Holds;
    CountIsSize(cs);
    KindsHold(cs, "ContainersReady");
    KindsHold(cs, "Ready");
    BothOfTwo(ReadyKinds(cs), "ContainersReady", "Ready");
  }

  lemma KindsHold(cs: seq<Condition>, kind: string)
    requires kind == "ContainersReady" || kind == "Ready"
    ensures kind in ReadyKinds(cs) <==> Holds(cs, kind)
    ensures ReadyKinds(cs) <= {"ContainersReady", "Ready"}
  {
    if Holds(cs, kind) {
      var i :| 0 <= i < |cs| && cs[i].kind == kind && cs[i].status == "True";
      assert cs[i] in cs && CountsAsReady(cs[i]);
    }
  }

  lemma BothOfTwo(s: set<string>, a: string, b: string)
    requires s <= {a, b} && a != b
    ensures |s| == 2 <==> a in s && b in s
  {
    assert |{a, b}| == 2;
    if |s| == 2 {
      Sets.SubsetOfSameSize(s, {a, b});
    }
    assert a in s && b in s ==> s == {a, b};
  }

  /** The condition of this type is reported true. */
  predicate Holds(cs: seq<Condition>, kind: string) {
    exists i :: 0 <= i < |cs| && cs[i].kind == kind && cs[i].status == "True"
  }

  function ReadyKinds(cs: seq<Condition>): set<string> {
    set c | c in cs && CountsAsReady(c) :: c.kind
  }

  lemma {:induction false} CountIsSize(cs: seq<Condition>)
    requires forall i, j :: 0 <= i < j < |cs| ==> cs[i].kind != cs[j].kind
    ensures ReadyConditions(cs) == |ReadyKinds(cs)|
  {
    if cs != [] {
      var front, last := cs[..|cs| - 1], cs[|cs| - 1];
      CountIsSize(front);
      assert forall c :: c in cs <==> c in front || c == last;
      assert ReadyKinds(cs) == ReadyKinds(front) + (if CountsAsReady(last) then {last.kind} else {});
      assert last.kind !in ReadyKinds(front);
    }
  }

  /** The loop of `DeleteResourceOfPod`, in place on the containers, which the replacement shares with
      the snapshot. */
  method DeleteResource(containers: array<Container>)
    modifies containers
    ensures forall nodeName :: Spec(containers[..], nodeName) == WithoutResource(Spec(old(containers[..]), nodeName))
  {
    for i := 0 to containers.Length
      invariant forall k :: 0 <= k < i ==> containers[k] == old(containers[k]).(requests := map[], limits := map[])
      invariant forall k :: i <= k < containers.Length ==> containers[k] == old(containers[k])
    {
      containers[i] := containers[i].(requests := map[], limits := map[]);
    }
    assert containers[..] == WithoutResource(Spec(old(containers[..]), "")).containers;
  }

  class PodDriver {
    const server: ApiServer
    var deletedPods: map<string, bool>

    constructor (server: ApiServer)
      ensures this.server == server && deletedPods == map[]
    {
      this.server := server;
      deletedPods := map[];
    }

    /** `setPodsStatus`: every listed uid is recorded, terminating or not; the last entry counts. */
    method SetPodsStatus(pods: seq<AppPod>)
      modifies this
      ensures deletedPods.Keys == set p | p in pods :: p.uid
      ensures forall i :: 0 <= i < |pods| && (forall j :: i < j < |pods| ==> pods[j].uid != pods[i].uid) ==>
        pods[i].uid in deletedPods && deletedPods[pods[i].uid] == pods[i].deleting
    {
      deletedPods := map[];
      for n := 0 to |pods|
        invariant deletedPods.Keys == set i | 0 <= i < n :: pods[i].uid
        invariant forall i :: 0 <= i < n && (forall j :: i < j < n ==> pods[j].uid != pods[i].uid) ==>
          pods[i].uid in deletedPods && deletedPods[pods[i].uid] == pods[i].deleting
      {
        deletedPods := deletedPods[pods[n].uid := pods[n].deleting];
      }
    }

    /** The first loop of `Run`: counts the live references and collects the dead ones. */
    method Classify(a: Annotations) returns (existTargets: nat, delAnnotations: seq<string>)
      ensures existTargets == |LiveKeys(a, LiveTargets(a, deletedPods.Keys))|
      ensures (set k | k in delAnnotations) == DeadKeys(a, LiveTargets(a, deletedPods.Keys))
      ensures Distinct(delAnnotations)
    {
      hide PodUid, ReferenceKey, LiveTargets, LiveKeys, DeadKeys, Distinct, Tallied;
      existTargets, delAnnotations := 0, [];
      ghost var live := LiveTargets(a, deletedPods.Keys);
      ghost var liveKeys, deadKeys := LiveKeys(a, live), DeadKeys(a, live);
      var keys := a.Keys;
      KeysOf(a, live);
      TallyNone(liveKeys, deadKeys, keys);
      while keys != {}
        invariant keys <= a.Keys && Tallied(existTargets, delAnnotations, liveKeys, deadKeys, keys)
      {
        var k :| k in keys;
        LivenessOf(a, k, deletedPods.Keys);
        TallyOne(existTargets, delAnnotations, liveKeys, deadKeys, keys, k);
        keys := keys - {k};
        if k == ReferenceKey(a[k]) {
          if PodUid(a[k]) !in deletedPods {
            delAnnotations := delAnnotations + [k];
          } else {
            existTargets := existTargets + 1;
          }
        }
      }
      TallyAll(existTargets, delAnnotations, liveKeys, deadKeys);
    }

    /** The wait of the resource path: as long as the old pod is there, its finalizers but ours are
        written again, which changes nothing. */
    method AwaitRemoval(name: string)
      requires name in server.pods ==>
        server.pods[name].finalizers != [] && FINALIZER !in server.pods[name].finalizers
      modifies server
      ensures server.pods == old(server.pods)
    {
      for i := 0 to 30
        invariant server.pods == old(server.pods)
      {
        if name !in server.pods {
          break;
        }
        ghost var p := server.pods[name];
        Finalizers.WithoutNone(p.finalizers, FINALIZER);
        var _ := server.PutFinalizers(name, Without(server.pods[name].finalizers, FINALIZER));
        assert server.pods == old(server.pods)[name := p] == old(server.pods);
      }
    }

    /** The resource path of `podErrorHandler`, with its wait for the old pod to go away. */
    method RelievePod(name: string, cur: Pod) returns (err: Error)
      modifies server
      ensures Reply(server.pods, err) == Relieve(old(server.pods), name, cur)
    {
      hide MountPathOf, IsResourceError, IsError, HasResource, Without, Relieved;
      err := server.PutFinalizers(name, Without(cur.finalizers, FINALIZER));
      if err != Nil {
        return;
      }
      err := server.Delete(name);
      if err != Nil {
        return;
      }
      Finalizers.WithoutTwice(cur.finalizers, FINALIZER);
      AwaitRemoval(name);
      err := server.Create(name, Relieved(cur));
    }

    /** `podErrorHandler`. */
    method HandleErrorPod(name: string, cur: Pod, env: Env) returns (err: Error)
      modifies server
      ensures Reply(server.pods, err) == HandleError(old(server.pods), name, cur, env)
    {
      hide MountPathOf, IsResourceError, HasResource, Relieve;
      if IsResourceError(cur.status) {
        if HasResource(cur.spec) {
          err := RelievePod(name, cur);
        } else {
          err := Nil;
        }
      } else if MountPathOf(cur.spec).None? {
        err := BadCommand;
      } else if env.broken {
        err := server.Delete(name);
      } else {
        err := Nil;
      }
    }

    /** `podDeletedHandler`; its wait before the pod is created again sends no request. */
    method HandleDeletedPod(name: string, cur: Pod) returns (err: Error)
      modifies server
      ensures Reply(server.pods, err) == HandleDeleted(old(server.pods), name, cur)
    {
      hide MountPathOf, IsResourceError;
      if FINALIZER !in cur.finalizers || IsResourceError(cur.status) {
        return Nil;
      }
      err := server.PutFinalizers(name, Without(cur.finalizers, FINALIZER));
      if err != Nil {
        return;
      }
      var targets := GetAllRefKeys(cur.annotations);
      if targets == map[] || MountPathOf(cur.spec).None? {
        return Nil;
      }
      err := server.Create(name, Recreated(cur));
    }

    method HandlePod(name: string, cur: Pod, env: Env) returns (err: Error)
      modifies server
      ensures Reply(server.pods, err) == Handle(old(server.pods), name, cur, env)
    {
      hide HandleError, HandleDeleted, IsError, IsReady;
      match GetPodStatus(cur) {
        case PodDeleted => err := HandleDeletedPod(name, cur);
        case PodError => err := HandleErrorPod(name, cur, env);
        case PodReady => err := Nil;
        case PodPending =>
          if cur.status.phase == Succeeded {
            err := server.Delete(name);
          } else {
            err := Nil;
          }
      }
    }

    method PrunePod(name: string, cur: Pod) returns (existTargets: nat, err: Error)
      modifies server
      ensures existTargets == |LiveKeys(cur.annotations, LiveTargets(cur.annotations, deletedPods.Keys))|
      ensures Reply(server.pods, err)
           == Prune(old(server.pods), name, cur, LiveTargets(cur.annotations, deletedPods.Keys))
    {
      hide PodUid, LiveTargets, ReferenceKey, LiveKeys, DeadKeys, Distinct, Dropped, References;
      var a := cur.annotations;
      ghost var live := LiveTargets(a, deletedPods.Keys);
      var delAnnotations;
      existTargets, delAnnotations := Classify(a);
      PatchIsDropped(a, live, existTargets, delAnnotations);
      if existTargets != 0 && DELAY_AT_KEY in a && a[DELAY_AT_KEY] != "" {
        delAnnotations := delAnnotations + [DELAY_AT_KEY];
      }
      err := Nil;
      if delAnnotations != [] {
        if name !in server.pods {
          return existTargets, NotFound;
        }
        var latest := GetAllRefKeys(server.pods[name].annotations);
        var known := GetAllRefKeys(a);
        if |latest| != |known| {
          return existTargets, Conflict;
        }
        err := server.DelAnnotations(name, delAnnotations);
      }
    }

    /** `Run` on any snapshot: the loop, the comparison, the timer and the handler together do what
        the function says, with the targets whose uid is recorded taken for live. */
    method Run(name: string, cur: Pod, env: Env) returns (err: Error)
      modifies server
      ensures Reply(server.pods, err)
           == Reconcile.Run(old(server.pods), name, cur, LiveTargets(cur.annotations, deletedPods.Keys), env)
    {
      hide PodUid, LiveTargets, Handle, Prune, ShouldDelay, LiveKeys;
      var existTargets;
      existTargets, err := PrunePod(name, cur);
      if err != Nil {
        return;
      }
      if existTargets == 0 && !cur.deleting {
        match ShouldDelay(cur.annotations, env.now, env.zone) {
          case Expired =>
            err := server.Delete(name);
            return;
          case Waiting =>
          case Arm(deleteAt) =>
            err := server.MergeAnnotation(name, DELAY_AT_KEY, deleteAt);
            if err != Nil {
              return;
            }
        }
      }
      err := HandlePod(name, cur, env);
    }
  }

  /** `n` live keys and the dead keys on the list are done, `keys` are still to come. */
  ghost predicate Tallied(n: nat, dead: seq<string>, liveKeys: set<string>, deadKeys: set<string>, keys: set<string>) {
    && n == |liveKeys - keys| && Distinct(dead)
    && forall k :: k in dead <==> k in deadKeys && k !in keys
  }

  lemma TallyNone(liveKeys: set<string>, deadKeys: set<string>, keys: set<string>)
    requires liveKeys <= keys && deadKeys <= keys
    ensures Tallied(0, [], liveKeys, deadKeys, keys)
  {
    assert liveKeys - keys == {};
  }

  lemma TallyOne(n: nat, dead: seq<string>, liveKeys: set<string>, deadKeys: set<string>, keys: set<string>, k: string)
    requires Tallied(n, dead, liveKeys, deadKeys, keys) && k in keys
    ensures k !in liveKeys && k !in deadKeys ==> Tallied(n, dead, liveKeys, deadKeys, keys - {k})
    ensures k in liveKeys && k !in deadKeys ==> Tallied(n + 1, dead, liveKeys, deadKeys, keys - {k})
    ensures k !in liveKeys && k in deadKeys ==> Tallied(n, dead + [k], liveKeys, deadKeys, keys - {k})
  {
    assert liveKeys - (keys - {k}) == (liveKeys - keys) + (if k in liveKeys then {k} else {});
    OneMoreIsDistinct(dead, k);
  }

  lemma TallyAll(n: nat, dead: seq<string>, liveKeys: set<string>, deadKeys: set<string>)
    requires Tallied(n, dead, liveKeys, deadKeys, {})
    ensures n == |liveKeys| && Distinct(dead) && (set k | k in dead) == deadKeys
  {
    assert liveKeys - {} == liveKeys;
  }

  lemma OneMoreIsDistinct(keys: seq<string>, k: string)
    requires Distinct(keys) && k !in keys
    ensures Distinct(keys + [k])
  {
  }

  lemma DelayIsNotDead(a: Annotations, live: set<string>)
    ensures DELAY_AT_KEY !in DeadKeys(a, live)
  {
  }

  /** The keys of the patch: the dead references, and the deadline if a target is live. */
  function PatchKeys(a: Annotations, existTargets: nat, dead: seq<string>): seq<string> {
    if existTargets != 0 && DELAY_AT_KEY in a && a[DELAY_AT_KEY] != "" then dead + [DELAY_AT_KEY] else dead
  }

  lemma PatchIsDropped(a: Annotations, live: set<string>, existTargets: nat, dead: seq<string>)
    requires existTargets == |LiveKeys(a, live)| && Distinct(dead) && (set k | k in dead) == DeadKeys(a, live)
    ensures var keys := PatchKeys(a, existTargets, dead);
      Distinct(keys) && (set k | k in keys) == Dropped(a, live) && (keys == [] <==> Dropped(a, live) == {})
  {
    hide ReferenceKey, LiveKeys, DeadKeys;
    var keys := PatchKeys(a, existTargets, dead);
    DelayIsNotDead(a, live);
    assert DELAY_AT_KEY !in dead by {
      assert DELAY_AT_KEY in dead ==> DELAY_AT_KEY in set k | k in dead;
    }
    OneMoreIsDistinct(dead, DELAY_AT_KEY);
    assert forall k :: k in keys <==> k in Dropped(a, live);
    assert keys != [] ==> keys[0] in Dropped(a, live);
  }

  lemma KeysOf(a: Annotations, live: set<string>)
    ensures LiveKeys(a, live) <= a.Keys && DeadKeys(a, live) <= a.Keys
  {
  }

  lemma LivenessOf(a: Annotations, k: string, listed: set<string>)
    requires k in a
    ensures a[k] in LiveTargets(a, listed) <==> PodUid(a[k]) in listed
    ensures k in LiveKeys(a, LiveTargets(a, listed)) <==> k == ReferenceKey(a[k]) && PodUid(a[k]) in listed
    ensures k in DeadKeys(a, LiveTargets(a, listed)) <==> k == ReferenceKey(a[k]) && PodUid(a[k]) !in listed
  {
    hide PodUid;
  }

  /** A reference to a kubelet path is dropped exactly when no pod with its uid is listed; a pod that
      is only terminating is still listed. */
  lemma DroppedExactlyIfUnlisted(root: string, uid: string, marker: string, pv: string, rest: string,
                                 a: Annotations, pods: seq<AppPod>)
    requires marker == CSI_DIRECTORY && root != ""
    requires uid != "" && '/' !in uid && '/' !in pv
    requires OccursOnlyAt(Kubelet(root, uid, marker, pv, rest), marker, |root| + |uid| + 2)
    requires RefersTo(a, Kubelet(root, uid, marker, pv, rest))
    ensures var t := Kubelet(root, uid, marker, pv, rest);
      var dead := DeadKeys(a, LiveTargets(a, set p | p in pods :: p.uid));
      ReferenceKey(t) in dead <==> forall i :: 0 <= i < |pods| ==> pods[i].uid != uid
  {
    hide PodUid, ReferenceKey, Kubelet, OccursOnlyAt;
    var t := Kubelet(root, uid, marker, pv, rest);
    ParsesKubeletPath(root, uid, marker, pv, rest);
    var listed := set p | p in pods :: p.uid;
    LivenessOf(a, ReferenceKey(t), listed);
    assert uid in listed <==> exists i :: 0 <= i < |pods| && pods[i].uid == uid;
  }
}
