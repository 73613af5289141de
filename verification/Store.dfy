/** The pods kept by the Kubernetes API server, with the effect of each client call.  JSON patches
    follow RFC 6902: a remove (section 4.2) needs its key, a replace (section 4.3) needs its path,
    and a patch that fails has no effect at all (section 5).  An empty annotation map and an empty
    finalizer list are not part of a serialised pod, so their paths do not exist. */
module Store {
  import opened Annotation
  import opened Pods

  type PodMap = map<string, Pod>

  datatype Error = Nil | NotFound | Conflict | Invalid | BadCommand

  datatype Reply = Reply(pods: PodMap, err: Error)

  /** A delete marks a pod while finalizers remain and removes it otherwise. */
  function DeletePod(s: PodMap, name: string): Reply {
    if name !in s then Reply(s, NotFound)
    else if s[name].finalizers == [] then Reply(s - {name}, Nil)
    else Reply(s[name := s[name].(deleting := true)], Nil)
  }

  /** The client hides that the pod exists already. */
  function CreatePod(s: PodMap, name: string, pod: Pod): Reply {
    Reply(if name in s then s else s[name := pod], Nil)
  }

  /** `DelPodAnnotation`: one remove operation for each key. */
  function RemoveAnnotations(s: PodMap, name: string, keys: set<string>): Reply {
    if name !in s then Reply(s, NotFound)
    else if !(keys <= s[name].annotations.Keys) then Reply(s, Invalid)
    else Reply(s[name := s[name].(annotations := s[name].annotations - keys)], Nil)
  }

  /** No operation of a patch names the same key as another. */
  predicate Distinct(keys: seq<string>) {
    forall i, j :: 0 <= i < j < |keys| ==> keys[i] != keys[j]
  }

  /** `ReplacePodAnnotation`: the whole map in one replace operation. */
  function ReplaceAnnotations(s: PodMap, name: string, a: Annotations): Reply {
    if name !in s then Reply(s, NotFound)
    else if s[name].annotations == map[] then Reply(s, Invalid)
    else Reply(s[name := s[name].(annotations := a)], Nil)
  }

  /** `AddPodAnnotation`: a merge patch of one annotation. */
  function AddAnnotation(s: PodMap, name: string, key: string, value: string): Reply {
    if name !in s then Reply(s, NotFound)
    else Reply(s[name := s[name].(annotations := s[name].annotations[key := value])], Nil)
  }

  /** The patch of `RemoveFinalizer`; a terminating pod goes away with its last finalizer. */
  function ReplaceFinalizers(s: PodMap, name: string, f: seq<string>): Reply {
    if name !in s then Reply(s, NotFound)
    else if s[name].finalizers == [] then Reply(s, Invalid)
    else if s[name].deleting && f == [] then Reply(s - {name}, Nil)
    else Reply(s[name := s[name].(finalizers := f)], Nil)
  }

  /** The server as an object shared by the driver's threads. */
  class ApiServer {
    var pods: PodMap

    constructor (pods: PodMap)
      ensures this.pods == pods
    {
      this.pods := pods;
    }

    method Delete(name: string) returns (err: Error)
      modifies this
      ensures Reply(pods, err) == DeletePod(old(pods), name)
    {
      if name !in pods {
        return NotFound;
      }
      if pods[name].finalizers == [] {
        pods := pods - {name};
      } else {
        pods := pods[name := pods[name].(deleting := true)];
      }
      return Nil;
    }

    method Create(name: string, pod: Pod) returns (err: Error)
      modifies this
      ensures Reply(pods, err) == CreatePod(old(pods), name, pod)
    {
      if name !in pods {
        pods := pods[name := pod];
      }
      return Nil;
    }

    /** The remove operations of one patch, one after the other on a copy.  They fail as a whole if a
        key is missing, also one that an earlier operation of the same patch removed. */
    method DelAnnotations(name: string, keys: seq<string>) returns (err: Error)
      modifies this
      ensures Distinct(keys) ==> Reply(pods, err) == RemoveAnnotations(old(pods), name, set k | k in keys)
      ensures !Distinct(keys) ==> err != Nil && pods == old(pods)
    {
      if name !in pods {
        return NotFound;
      }
      var a := pods[name].annotations;
      ghost var was := a;
      for i := 0 to |keys|
        invariant Distinct(keys[..i]) && (set k | k in keys[..i]) <= was.Keys
        invariant a == was - set k | k in keys[..i]
      {
        if keys[i] !in a {
          assert keys[i] in keys[..i] || keys[i] !in was;
          return Invalid;
        }
        assert keys[..i + 1] == keys[..i] + [keys[i]];
        a := a - {keys[i]};
      }
      assert keys[..|keys|] == keys;
      pods := pods[name := pods[name].(annotations := a)];
      return Nil;
    }

    method PutAnnotations(name: string, a: Annotations) returns (err: Error)
      modifies this
      ensures Reply(pods, err) == ReplaceAnnotations(old(pods), name, a)
    {
      if name !in pods {
        return NotFound;
      }
      if pods[name].annotations == map[] {
        return Invalid;
      }
      pods := pods[name := pods[name].(annotations := a)];
      return Nil;
    }

    method MergeAnnotation(name: string, key: string, value: string) returns (err: Error)
      modifies this
      ensures Reply(pods, err) == AddAnnotation(old(pods), name, key, value)
    {
      if name !in pods {
        return NotFound;
      }
      pods := pods[name := pods[name].(annotations := pods[name].annotations[key := value])];
      return Nil;
    }

    method PutFinalizers(name: string, f: seq<string>) returns (err: Error)
      modifies this
      ensures Reply(pods, err) == ReplaceFinalizers(old(pods), name, f)
    {
      if name !in pods {
        return NotFound;
      }
      if pods[name].finalizers == [] {
        return Invalid;
      }
      if pods[name].deleting && f == [] {
        pods := pods - {name};
      } else {
        pods := pods[name := pods[name].(finalizers := f)];
      }
      return Nil;
    }
  }
}
