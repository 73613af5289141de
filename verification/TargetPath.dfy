/** The parser of kubelet target paths, `root/uid/volumes/kubernetes.io~csi/pv/rest`. */
module TargetPath {
  import opened Text

  const CSI_DIRECTORY := "volumes/kubernetes.io~csi"

  /** `getPodUid`. */
  function PodUid(target: string): string {
    var pair := Split(target, CSI_DIRECTORY);
    if |pair| != 2 then ""
    else
      var podDir := TrimSuffix(pair[0], "/");
      var index := LastIndexOf(podDir, '/');
      if index <= 0 then "" else podDir[index + 1..]
  }

  /** `getPVName`. */
  function PvName(target: string): string {
    var pair := Split(target, CSI_DIRECTORY);
    if |pair| != 2 then ""
    else
      var pvName := TrimPrefix(pair[1], "/");
      match Index(pvName, "/")
      case None => ""
      case Some(index) => if index == 0 then "" else pvName[..index]
  }

  /** A kubelet path built from its parts. */
  function Kubelet(root: string, uid: string, marker: string, pv: string, rest: string): string {
    (root + "/" + uid + "/") + marker + ("/" + pv + "/" + rest)
  }

  ghost predicate OccursOnlyAt(s: string, sep: string, i: int) {
    OccursAt(s, sep, i) && forall j :: OccursAt(s, sep, j) ==> j == i
  }

  lemma SplitAtUnique(a: string, sep: string, b: string)
    requires sep != "" && OccursOnlyAt(a + sep + b, sep, |a|)
    ensures Split(a + sep + b, sep) == [a, b]
  {
    var s := a + sep + b;
    SplitHead(s, sep, |a|);
    assert s[..|a|] == a && s[|a| + |sep|..] == b;
    forall j | OccursAt(b, sep, j) ensures OccursAt(s, sep, |a| + |sep| + j) {
      assert s[|a| + |sep| + j..|a| + |sep| + j + |sep|] == b[j..j + |sep|];
    }
    SplitWhole(b, sep);
  }

  lemma {:induction false} LastComponent(root: string, uid: string)
    requires '/' !in uid
    ensures LastIndexOf(root + "/" + uid, '/') == |root|
  {
    var s := root + "/" + uid;
    if uid != "" {
      var n := |uid| - 1;
      assert s[|s| - 1] == uid[n] && uid[n] in uid;
      assert s[..|s| - 1] == root + "/" + uid[..n];
      LastComponent(root, uid[..n]);
    }
  }

  lemma FirstComponent(pv: string, rest: string)
    requires '/' !in pv
    ensures Index(pv + "/" + rest, "/") == Some(|pv|)
  {
    var s := pv + "/" + rest;
    assert s[|pv|..|pv| + 1] == "/";
    assert forall j :: 0 <= j < |pv| ==> s[j] == pv[j];
    IndexFirst(s, "/", |pv|);
    var i := Index(s, "/").value;
    assert s[i..i + 1][0] == s[i];
  }

  lemma UidOfPair(target: string, root: string, uid: string, after: string)
    requires '/' !in uid
    requires Split(target, CSI_DIRECTORY) == [root + "/" + uid + "/", after]
    ensures PodUid(target) == if root == "" then "" else uid
  {
    hide Split;
    var before, podDir := root + "/" + uid + "/", root + "/" + uid;
    assert before[|before| - 1..] == "/" && before[..|before| - 1] == podDir;
    LastComponent(root, uid);
    assert podDir[|root| + 1..] == uid;
  }

  lemma PvOfPair(target: string, before: string, pv: string, rest: string)
    requires '/' !in pv
    requires Split(target, CSI_DIRECTORY) == [before, "/" + pv + "/" + rest]
    ensures PvName(target) == pv
  {
    hide Split;
    var after := "/" + pv + "/" + rest;
    assert after[1..] == pv + "/" + rest;
    FirstComponent(pv, rest);
    assert (pv + "/" + rest)[..|pv|] == pv;
  }

  /** On a path that holds the CSI marker once, the volume name comes back, and the uid exactly when
      the part before it is not empty. */
  lemma ParsesKubeletPath(root: string, uid: string, marker: string, pv: string, rest: string)
    requires marker == CSI_DIRECTORY
    requires uid != "" && '/' !in uid && '/' !in pv
    requires OccursOnlyAt(Kubelet(root, uid, marker, pv, rest), marker, |root| + |uid| + 2)
    ensures PodUid(Kubelet(root, uid, marker, pv, rest)) == (if root == "" then "" else uid)
    ensures PvName(Kubelet(root, uid, marker, pv, rest)) == pv
  {
    hide PodUid, PvName, Split;
    var before, after := root + "/" + uid + "/", "/" + pv + "/" + rest;
    var target := Kubelet(root, uid, marker, pv, rest);
    SplitAtUnique(before, marker, after);
    UidOfPair(target, root, uid, after);
    PvOfPair(target, before, pv, rest);
  }

  /** A path that does not hold the marker, or holds it again after its first occurrence, has no
      uid: `Run` takes a reference to such a target for dead unless the empty uid is listed. */
  lemma NoUidWithoutUniqueMarker(target: string, marker: string)
    requires marker == CSI_DIRECTORY
    requires match Index(target, marker)
             case None => true
             case Some(i) => Index(target[i + |marker|..], marker).Some?
    ensures PodUid(target) == ""
  {
    match Index(target, marker) {
      case None =>
      case Some(i) =>
        var rest := target[i + |marker|..];
        assert |Split(rest, marker)| >= 2;
    }
  }
}
