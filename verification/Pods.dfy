/** Pods as the driver sees them, and its decisions about their status. */
module Pods {
  import opened Text
  import opened Annotation
  import MountCommand

  const FINALIZER := "szsandstone.com/mosfsfinalizer"

  datatype Phase = Pending | Running | Succeeded | Failed | Unknown
  datatype Condition = Condition(kind: string, status: string, reason: string, message: string)
  datatype ContainerState = WaitingFor(reason: string) | Started | Terminated(exitCode: int)
  datatype Status = Status(phase: Phase, reason: string, message: string,
                           conditions: seq<Condition>, containers: seq<ContainerState>)

  datatype Container = Container(command: seq<string>,
                                 requests: map<string, string>, limits: map<string, string>)
  datatype Spec = Spec(containers: seq<Container>, nodeName: string)

  datatype Pod = Pod(labels: map<string, string>, annotations: Annotations,
                     finalizers: seq<string>, deleting: bool, spec: Spec, status: Status)

  const FRESH := Status(Pending, "", "", [], [])

  // --- status -------------------------------------------------------------------------------

  predicate CountsAsReady(c: Condition) {
    c.status == "True" && (c.kind == "ContainersReady" || c.kind == "Ready")
  }

  function ReadyConditions(cs: seq<Condition>): nat {
    if cs == [] then 0
    else ReadyConditions(cs[..|cs| - 1]) + (if CountsAsReady(cs[|cs| - 1]) then 1 else 0)
  }

  /** `IsPodReady`. */
  predicate IsReady(st: Status) {
    ReadyConditions(st.conditions) == 2
  }

  /** `IsPodError`. */
  predicate IsError(st: Status) {
    || st.phase == Failed || st.phase == Unknown
    || exists i :: 0 <= i < |st.containers| &&
                   (match st.containers[i]
                    case WaitingFor(reason) => reason != "ContainerCreating"
                    case Started => false
                    case Terminated(code) => code != 0)
  }

  predicate Contains(s: string, sep: string) {
    Index(s, sep).Some?
  }

  predicate Unschedulable(c: Condition) {
    && c.status == "False" && c.kind == "PodScheduled" && c.reason == "Unschedulable"
    && (Contains(c.message, "Insufficient cpu") || Contains(c.message, "Insufficient memory"))
  }

  /** `IsPodResourceError`. */
  predicate IsResourceError(st: Status) {
    || (st.phase == Failed &&
        (Contains(st.reason, "OutOf") ||
         (st.reason == "UnexpectedAdmissionError" && Contains(st.message, "to reclaim resources"))))
    || exists i :: 0 <= i < |st.conditions| && Unschedulable(st.conditions[i])
  }

  /** The text has `sub` somewhere in it. */
  ghost predicate Within(s: string, sub: string) {
    exists before, after :: s == before + sub + after
  }

  lemma ContainsMeans(s: string, sub: string)
    ensures Contains(s, sub) <==> Within(s, sub)
  {
    if Contains(s, sub) {
      var i := Index(s, sub).value;
      assert s == s[..i] + sub + s[i + |sub|..];
    }
    if Within(s, sub) {
      var before, after :| s == before + sub + after;
      assert OccursAt(s, sub, |before|);
      IndexFirst(s, sub, |before|);
    }
  }

  /** A condition that says the pod cannot be scheduled for want of processors or memory. */
  ghost predicate NoRoom(c: Condition) {
    && c.kind == "PodScheduled" && c.status == "False" && c.reason == "Unschedulable"
    && (Within(c.message, "Insufficient cpu") || Within(c.message, "Insufficient memory"))
  }

  /** A pod is taken to lack resources if it failed and the reason names something it is out of, or the
      kubelet could not reclaim resources for it, or there is no room for it. */
  lemma ResourceErrorMeans(st: Status)
    ensures IsResourceError(st) <==>
      || (st.phase == Failed && Within(st.reason, "OutOf"))
      || (st.phase == Failed && st.reason == "UnexpectedAdmissionError" && Within(st.message, "to reclaim resources"))
      || exists i :: 0 <= i < |st.conditions| && NoRoom(st.conditions[i])
  {
    hide Contains, Within;
    ContainsMeans(st.reason, "OutOf");
    ContainsMeans(st.message, "to reclaim resources");
    forall i | 0 <= i < |st.conditions| ensures Unschedulable(st.conditions[i]) <==> NoRoom(st.conditions[i]) {
      ContainsMeans(st.conditions[i].message, "Insufficient cpu");
      ContainsMeans(st.conditions[i].message, "Insufficient memory");
    }
  }

  datatype PodStatus = PodReady | PodError | PodDeleted | PodPending

  /** `getPodStatus`. */
  function GetPodStatus(p: Pod): PodStatus {
    if p.deleting then PodDeleted
    else if IsError(p.status) then PodError
    else if IsReady(p.status) then PodReady
    else PodPending
  }

  // --- spec ---------------------------------------------------------------------------------

  /** `IsPodHasResource`: only the requests count. */
  predicate HasResource(spec: Spec) {
    exists i :: 0 <= i < |spec.containers| && spec.containers[i].requests != map[]
  }

  /** `DeleteResourceOfPod` on a spec. */
  function WithoutResource(spec: Spec): Spec {
    spec.(containers := seq(|spec.containers|, i requires 0 <= i < |spec.containers| =>
                                spec.containers[i].(requests := map[], limits := map[])))
  }

  /** `GetMountPathOfPod`. */
  function MountPathOf(spec: Spec): Option<(string, string)> {
    if spec.containers == [] || |spec.containers[0].command| < 3 then None
    else MountCommand.Parse(spec.containers[0].command[2])
  }

  /** What `NewMountPod` puts into the pod of a volume, after `waitUntilMount` added its target and
      the delete delay, if one is set. */
  function NewMountPod(isCe: bool, source: string, id: string, options: seq<string>,
                       requests: map<string, string>, limits: map<string, string>,
                       nodeName: string, target: string, delay: string): Pod
    requires '/' !in id
  {
    var cmd := MountCommand.Print(isCe, source, MountCommand.MountPath(id), options);
    var annotations := map[ReferenceKey(target) := target];
    Pod(map["app.kubernetes.io/name" := "mosfs-mount"],
        if delay == "" then annotations else annotations[DELAY_TIME_KEY := delay],
        [FINALIZER], false,
        Spec([Container(["sh", "-c", MountCommand.Quote(cmd)], requests, limits)], nodeName),
        FRESH)
  }

  /** A new mount pod always holds a command that the reconciler can parse back. */
  lemma NewMountPodParses(isCe: bool, source: string, id: string, options: seq<string>,
                          requests: map<string, string>, limits: map<string, string>,
                          nodeName: string, target: string, delay: string)
    requires source != "" && SpaceFree(source) && MountCommand.ValidVolumeId(id)
    ensures MountPathOf(NewMountPod(isCe, source, id, options, requests, limits, nodeName, target, delay).spec)
         == Some((MountCommand.MountPath(id), id))
  {
    MountCommand.RoundTrip(isCe, source, id, options);
  }

  // --- finalizers ---------------------------------------------------------------------------

  /** The list without any occurrence of `f`, in the same order. */
  function Without(s: seq<string>, f: string): seq<string> {
    if s == [] then []
    else
      var front := Without(s[..|s| - 1], f);
      if s[|s| - 1] == f then front else front + [s[|s| - 1]]
  }

  /** No other finalizer is on the list than ours. */
  predicate AllOurs(s: seq<string>) {
    forall i :: 0 <= i < |s| ==> s[i] == FINALIZER
  }

  lemma {:induction false} WithoutEmpties(s: seq<string>)
    ensures Without(s, FINALIZER) == [] <==> AllOurs(s)
  {
    if s != [] {
      WithoutEmpties(s[..|s| - 1]);
      assert forall i :: 0 <= i < |s| ==> s[i] == (s[..|s| - 1] + [s[|s| - 1]])[i];
    }
  }
}
