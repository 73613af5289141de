/** `AddRefOfMount`, `JUmount` and `waitUntilMount` against the API server.  Whenever a patch meets a
    conflict, other clients have left some other version of the server behind; apart from that the
    calls are not interrupted.  All interleavings of their sections are the subject of `Protocol`. */
module PodMount {
  import opened Annotation
  import opened Store
  import opened Protocol
  import opened Sanity

  /** The effect of `AddRefOfMount`: a failing patch is not reported. */
  function AddRefOfMount(s: PodMap, name: string, t: string): Reply {
    if name !in s then Reply(s, NotFound)
    else if ReferenceKey(t) in s[name].annotations then Reply(s, Nil)
    else ReplaceAnnotations(s, name, WithReference(s[name].annotations, t)).(err := Nil)
  }

  /** The section of `JUmount` that drops the reference. */
  function DropRefOfMount(s: PodMap, name: string, t: string): Reply {
    if name !in s then Reply(s, NotFound)
    else if ReferenceKey(t) !in s[name].annotations then Reply(s, Nil)
    else RemoveAnnotations(s, name, {ReferenceKey(t)})
  }

  /** The effect of `JUmount` on a pod that it found: drop the reference, then delete the pod if no
      prefixed key is left. */
  function JUmount(s: PodMap, name: string, t: string): Reply {
    var r := DropRefOfMount(s, name, t);
    if r.err != Nil then r
    else if HasPrefixedKey(r.pods[name].annotations) then r
    else DeletePod(r.pods, name)
  }

  /** The server as attempt `k` finds it: `versions` are left behind by the conflicts. */
  function Version(s: PodMap, versions: seq<PodMap>, k: nat): PodMap
    requires k <= |versions|
  {
    if k == 0 then s else versions[k - 1]
  }

  /** Replacing the whole annotation map amounts to inserting one reference and stopping the timer,
      and it does so exactly when the pod has an annotation to begin with. */
  lemma AddRefInsertsOneKey(s: PodMap, name: string, t: string, targets: set<string>)
    requires name in s && WellFormed(s[name].annotations, targets)
    requires t in targets && Collisionless(targets)
    ensures var r := AddRefOfMount(s, name, t);
      && r.err == Nil && name in r.pods
      && (RefersTo(r.pods[name].annotations, t) <==> s[name].annotations != map[])
      && (s[name].annotations != map[] ==>
            References(r.pods[name].annotations) == References(s[name].annotations)[ReferenceKey(t) := t])
      && (ReferenceKey(t) !in s[name].annotations ==>
            s[name].annotations != map[] ==> DELAY_AT_KEY !in r.pods[name].annotations)
  {
    hide ReferenceKey, WellFormed;
    var a := s[name].annotations;
    KeyShape(t);
    if ReferenceKey(t) in a {
      KeyMeansReference(a, t, targets, targets);
    } else {
      var b := WithReference(a, t);
      assert forall k :: k in b && k != ReferenceKey(t) ==> k in a && b[k] == a[k];
      assert forall u :: ReferenceKey(u) != DELAY_AT_KEY by {
        forall u ensures ReferenceKey(u) != DELAY_AT_KEY { KeyShape(u); }
      }
      assert References(b) == References(a)[ReferenceKey(t) := t];
    }
  }

  /** Unpublishing right after publishing gives the old references back; the pod is deleted exactly
      when nothing prefixed was there before. */
  lemma UmountUndoesAddRef(s: PodMap, name: string, t: string, targets: set<string>)
    requires name in s && WellFormed(s[name].annotations, targets)
    requires t in targets && Collisionless(targets)
    requires s[name].annotations != map[] && ReferenceKey(t) !in s[name].annotations
    requires s[name].finalizers != [] && !s[name].deleting
    ensures var r := JUmount(AddRefOfMount(s, name, t).pods, name, t);
      && r.err == Nil && name in r.pods
      && r.pods[name].annotations == s[name].annotations - {DELAY_AT_KEY}
      && (r.pods[name].deleting <==> !HasPrefixedKey(s[name].annotations - {DELAY_AT_KEY}))
  {
    hide ReferenceKey, WellFormed, HasPrefixedKey;
    KeyShape(t);
    var a := s[name].annotations;
    assert WithReference(a, t) - {ReferenceKey(t)} == a - {DELAY_AT_KEY};
  }

  class PodMount {
    const server: ApiServer

    constructor (server: ApiServer)
      ensures this.server == server
    {
      this.server := server;
    }

    /** However many conflicts there are, the call has the effect of one insertion on the version that
        its last attempt read, and an attempt is the last unless its patch meets a conflict. */
    method AddRef(name: string, t: string, versions: seq<PodMap>) returns (err: Error, tries: nat)
      modifies server
      ensures tries <= |versions|
      ensures Reply(server.pods, err) == AddRefOfMount(Version(old(server.pods), versions, tries), name, t)
      ensures forall k :: 0 <= k < tries ==>
        var s := Version(old(server.pods), versions, k);
        name in s && ReferenceKey(t) !in s[name].annotations
    {
      hide ReferenceKey;
      var key := ReferenceKey(t);
      tries := 0;
      while true
        invariant tries <= |versions| && server.pods == Version(old(server.pods), versions, tries)
        invariant forall k :: 0 <= k < tries ==>
          var s := Version(old(server.pods), versions, k);
          name in s && key !in s[name].annotations
        decreases |versions| - tries
      {
        if name !in server.pods {
          return NotFound, tries;
        }
        if key in server.pods[name].annotations {
          return Nil, tries;
        }
        var a := server.pods[name].annotations[key := t];
        a := a - {DELAY_AT_KEY};
        if tries == |versions| {
          var _ := server.PutAnnotations(name, a);
          return Nil, tries;
        }
        server.pods := versions[tries];
        tries := tries + 1;
      }
    }

    /** Likewise for the section that drops the reference. */
    method DropRef(name: string, t: string, versions: seq<PodMap>) returns (err: Error, tries: nat)
      modifies server
      ensures tries <= |versions|
      ensures Reply(server.pods, err) == DropRefOfMount(Version(old(server.pods), versions, tries), name, t)
      ensures forall k :: 0 <= k < tries ==>
        var s := Version(old(server.pods), versions, k);
        name in s && ReferenceKey(t) in s[name].annotations
    {
      hide ReferenceKey;
      var key := ReferenceKey(t);
      tries := 0;
      while true
        invariant tries <= |versions| && server.pods == Version(old(server.pods), versions, tries)
        invariant forall k :: 0 <= k < tries ==>
          var s := Version(old(server.pods), versions, k);
          name in s && key in s[name].annotations
        decreases |versions| - tries
      {
        if name !in server.pods {
          return NotFound, tries;
        }
        if key !in server.pods[name].annotations {
          return Nil, tries;
        }
        if tries == |versions| {
          assert (set k | k in [key]) == {key};
          err := server.DelAnnotations(name, [key]);
          return;
        }
        server.pods := versions[tries];
        tries := tries + 1;
      }
    }

    /** `JUmount` with both of its looks for a prefixed key.  The question whether to delay is asked,
        but the answer never is to wait or to write. */
    method Umount(name: string, t: string, versions: seq<PodMap>, now: int, zone: int)
      returns (err: Error, tries: nat)
      modifies server
      ensures tries <= |versions|
      ensures name !in old(server.pods) ==> err == Nil && server.pods == old(server.pods)
      ensures name in old(server.pods) ==>
        Reply(server.pods, err) == JUmount(Version(old(server.pods), versions, tries), name, t)
    {
      hide ReferenceKey, HasPrefixedKey, ShouldDelay;
      if name !in server.pods {
        return Nil, 0;
      }
      err, tries := DropRef(name, t, versions);
      if err != Nil {
        return;
      }
      if HasPrefixedKey(server.pods[name].annotations) {
        return;
      }
      err := DeleteMountPod(name, now, zone);
    }

    /** The closure `deleteMountPod`. */
    method DeleteMountPod(name: string, now: int, zone: int) returns (err: Error)
      modifies server
      ensures Reply(server.pods, err) ==
        if name in old(server.pods) && HasPrefixedKey(old(server.pods)[name].annotations)
        then Reply(old(server.pods), Nil) else DeletePod(old(server.pods), name)
    {
      if name !in server.pods {
        return NotFound;
      }
      if HasPrefixedKey(server.pods[name].annotations) {
        return Nil;
      }
      HasPrefixedKeyCovers(server.pods[name].annotations);
      match ShouldDelay(server.pods[name].annotations, now, zone) {
        case Expired => err := server.Delete(name);
        case Waiting => assert false;
        case Arm(_) => assert false;
      }
    }

    /** With nobody else around, `waitUntilMount` creates a missing pod, adds its reference to a
        running one, and gives up on a terminating one; a wrong pod is never touched. */
    method WaitUntilMount(t: string, r: Request, rounds: nat) returns (err: Error)
      requires '/' !in VolumeOf(t)
      modifies server
      ensures PodOf(t) in old(server.pods) && old(server.pods[PodOf(t)].deleting) ==>
        server.pods == old(server.pods) && err != Nil
      ensures rounds >= 1 && PodOf(t) in old(server.pods) && !old(server.pods[PodOf(t)].deleting) ==>
        Reply(server.pods, err) == AddRefOfMount(old(server.pods), PodOf(t), t)
      ensures rounds >= 2 && PodOf(t) !in old(server.pods) ==>
        server.pods == old(server.pods)[PodOf(t) := NewPod(t, r)] && err == Nil
      ensures Reconcile.SameElsewhere(old(server.pods), server.pods, PodOf(t))
      ensures forall u :: VolumeOf(u) != VolumeOf(t) && PodOf(u) in old(server.pods) ==>
        PodOf(u) in server.pods && server.pods[PodOf(u)] == old(server.pods)[PodOf(u)]
      ensures rounds >= 2 && PodOf(t) !in old(server.pods) ==>
        ValidRequest(r) && MountCommand.ValidVolumeId(VolumeOf(t)) ==> MountsVolumeOf(server.pods[PodOf(t)], t)
    {
      hide PodOf, NewPod, ReferenceKey, MountsVolumeOf, ValidRequest, MountCommand.ValidVolumeId;
      var name := PodOf(t);
      NewPodRefers(t, r);
      OtherVolumesOtherPods(t);
      if ValidRequest(r) && MountCommand.ValidVolumeId(VolumeOf(t)) {
        NewPodMounts(t, r, t);
      }
      for i := 0 to rounds
        invariant name in old(server.pods) ==> server.pods == old(server.pods)
        invariant i > 0 && name in old(server.pods) ==> old(server.pods[name].deleting)
        invariant i == 0 ==> server.pods == old(server.pods)
        invariant name !in old(server.pods) && i > 0 ==> i == 1 && server.pods == old(server.pods)[name := NewPod(t, r)]
      {
        if name !in server.pods {
          err := server.Create(name, NewPod(t, r));
        } else if !server.pods[name].deleting {
          var tries;
          err, tries := AddRef(name, t, []);
          return;
        }
      }
      err := Invalid;
    }
  }

  lemma OtherVolumesOtherPods(t: string)
    ensures forall u :: VolumeOf(u) != VolumeOf(t) ==> PodOf(u) != PodOf(t)
  {
    hide PodOf;
    forall u ensures VolumeOf(u) != VolumeOf(t) ==> PodOf(u) != PodOf(t) {
      PodsAreVolumes(u, t);
    }
  }

  lemma NewPodRefers(t: string, r: Request)
    requires '/' !in VolumeOf(t)
    ensures ReferenceKey(t) in NewPod(t, r).annotations && !NewPod(t, r).deleting
  {
    hide ReferenceKey, MountCommand.Print, MountCommand.Quote, MountCommand.MountPath;
  }
}
