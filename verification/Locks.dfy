/** The locks of the driver: `JLock` and 1024 striped pod locks.  Any number of publish calls,
    unpublish calls and reconciler handlers, which come at any time, at the granularity of their
    critical sections and polls, with evictions at any time. */
module Locks {

  const STRIPES := 1024

  /** The hash of a pod name: arbitrary. */
  const Hash: string -> nat

  /** `GetPodLock`. */
  function Stripe(pod: string): nat {
    Hash(pod) % STRIPES
  }

  datatype Point =
    // publish: it polls while the pod is terminating, under the pod lock
    | PubWantPod | PubPoll | PubWantJ | PubHoldJ | PubReady
    // unpublish
    | UnpWantJ | UnpHoldJ | UnpWantJ2 | UnpHoldJ2
    // deleted-pod handler: the finalizer goes before the lock is taken
    | DelRelease | DelWantPod | DelPoll
    // error handler
    | ErrWantPod | ErrHoldPod
    // a deleted-pod handler that would take the lock first
    | AltWantPod | AltHoldPod
    | Done

  /** A thread works on one pod.  `conflicts`: how often the server will still answer its patches with
      a conflict; `polls`: how often it will still look whether the old pod is gone; `starved`: its
      snapshot shows a resource error. */
  datatype Thread = Thread(pod: string, at: Point, conflicts: nat, polls: nat, starved: bool)

  /** `terminating`: pods that still carry the finalizer. */
  datatype State = State(threads: seq<Thread>, terminating: set<string>)

  predicate WantsPod(p: Point) {
    p.PubWantPod? || p.DelWantPod? || p.ErrWantPod? || p.AltWantPod?
  }

  predicate HoldsPod(p: Point) {
    p.PubPoll? || p.PubWantJ? || p.PubHoldJ? || p.PubReady? || p.DelPoll? || p.ErrHoldPod? || p.AltHoldPod?
  }

  predicate WantsJ(p: Point) {
    p.PubWantJ? || p.UnpWantJ? || p.UnpWantJ2?
  }

  predicate HoldsJ(p: Point) {
    p.PubHoldJ? || p.UnpHoldJ? || p.UnpHoldJ2?
  }

  predicate PodFree(s: State, pod: string) {
    forall k :: 0 <= k < |s.threads| && HoldsPod(s.threads[k].at) ==> Stripe(s.threads[k].pod) != Stripe(pod)
  }

  predicate JFree(s: State) {
    forall k :: 0 <= k < |s.threads| ==> !HoldsJ(s.threads[k].at)
  }

  /** What happens next.  `conflict`: the server answers with a conflict; `choice`: the thread deletes
      the pod, or the handler finds a reference and goes on to recreate the pod. */
  datatype Move =
    | Go(thread: nat, conflict: bool, choice: bool)
    | Evict(pod: string)
    | Arrive(newcomer: Thread)

  predicate Enabled(s: State, m: Move) {
    match m
    case Go(i, _, _) =>
      && i < |s.threads|
      && var t := s.threads[i];
         && (WantsPod(t.at) ==> PodFree(s, t.pod))
         && (WantsJ(t.at) ==> JFree(s))
         && !t.at.Done?
    case Evict(_) => true
    case Arrive(t) => t.at.PubWantPod? || t.at.UnpWantJ? || t.at.DelRelease? || t.at.ErrWantPod?
  }

  /** A thread that can move on does so: a conflict sends a section under `JLock` back to its start,
      a poll that finds the pod terminating is repeated, or the last one. */
  function Next(t: Thread, terminating: bool, conflict: bool, choice: bool): Thread {
    match t.at
    case PubWantPod => t.(at := PubPoll)
    case PubPoll =>
      if !terminating then t.(at := PubWantJ)
      else if t.polls > 0 then t.(polls := t.polls - 1) else t.(at := Done)
    case PubWantJ => t.(at := PubHoldJ)
    case PubHoldJ =>
      if conflict && t.conflicts > 0 then t.(at := PubWantJ, conflicts := t.conflicts - 1)
      else t.(at := PubReady)
    case PubReady => t.(at := Done)
    case UnpWantJ => t.(at := UnpHoldJ)
    case UnpHoldJ =>
      if conflict && t.conflicts > 0 then t.(at := UnpWantJ, conflicts := t.conflicts - 1)
      else t.(at := UnpWantJ2)
    case UnpWantJ2 => t.(at := UnpHoldJ2)
    case UnpHoldJ2 => t.(at := Done)
    case DelRelease => t.(at := if t.starved || !choice then Done else DelWantPod)
    case DelWantPod => t.(at := DelPoll)
    case DelPoll => if terminating && t.polls > 0 then t.(polls := t.polls - 1) else t.(at := Done)
    case ErrWantPod => t.(at := ErrHoldPod)
    case ErrHoldPod => t.(at := Done)
    case AltWantPod => t.(at := AltHoldPod)
    case AltHoldPod => t.(at := Done)
    case Done => t
  }

  /** The pods that are terminating after the move of thread `t`. */
  function Marked(terminating: set<string>, t: Thread, choice: bool): set<string> {
    if (t.at.UnpHoldJ2? || t.at.ErrHoldPod?) && choice then terminating + {t.pod}
    else if (t.at.DelRelease? && !t.starved) || t.at.AltHoldPod? then terminating - {t.pod}
    else terminating
  }

  function Step(s: State, m: Move): State
    requires Enabled(s, m)
  {
    match m
    case Go(i, conflict, choice) =>
      var t := s.threads[i];
      State(s.threads[i := Next(t, t.pod in s.terminating, conflict, choice)], Marked(s.terminating, t, choice))
    case Evict(pod) => s.(terminating := s.terminating + {pod})
    case Arrive(t) => s.(threads := s.threads + [t])
  }

  // --- invariant ----------------------------------------------------------------------------

  predicate SamePodLock(t: Thread, u: Thread) {
    HoldsPod(t.at) && HoldsPod(u.at) && Stripe(t.pod) == Stripe(u.pod)
  }

  /** Every lock has at most one holder. */
  ghost predicate OneHolder(s: State) {
    forall j, k :: 0 <= j < |s.threads| && 0 <= k < |s.threads| && j != k ==>
      && !SamePodLock(s.threads[j], s.threads[k])
      && !(HoldsJ(s.threads[j].at) && HoldsJ(s.threads[k].at))
  }

  lemma StepKeepsOneHolder(s: State, m: Move)
    requires OneHolder(s) && Enabled(s, m)
    ensures OneHolder(Step(s, m))
  {
    hide Stripe;
    var s' := Step(s, m);
    if m.Go? {
      var t, t' := s.threads[m.thread], s'.threads[m.thread];
      assert HoldsPod(t'.at) ==> HoldsPod(t.at) || PodFree(s, t.pod);
      assert HoldsJ(t'.at) ==> JFree(s);
      forall k | 0 <= k < |s'.threads| && k != m.thread
        ensures !SamePodLock(t', s'.threads[k]) && !(HoldsJ(t'.at) && HoldsJ(s'.threads[k].at))
      {
        assert s'.threads[k] == s.threads[k];
        assert !SamePodLock(t, s.threads[k]);
      }
    }
  }

  // --- progress -----------------------------------------------------------------------------

  predicate AllDone(s: State) {
    forall k :: 0 <= k < |s.threads| ==> s.threads[k].at.Done?
  }

  /** A thread that holds `JLock` waits for nothing; without one, whoever wants it gets it; without
      those, a pod-lock holder is only polling. */
  lemma SomeThreadCanStep(s: State) returns (i: nat)
    requires !AllDone(s)
    ensures Enabled(s, Go(i, false, false))
  {
    if !JFree(s) {
      i :| 0 <= i < |s.threads| && HoldsJ(s.threads[i].at);
    } else if k :| 0 <= k < |s.threads| && WantsJ(s.threads[k].at) {
      i := k;
    } else if k :| 0 <= k < |s.threads| && HoldsPod(s.threads[k].at) {
      i := k;
    } else {
      i :| 0 <= i < |s.threads| && !s.threads[i].at.Done?;
    }
  }

  // --- termination --------------------------------------------------------------------------

  /** Moves a thread may still make. */
  function Rank(t: Thread): nat {
    if t.at.Done? then 0 else
    2 * t.conflicts + t.polls +
    match t.at
    case PubWantPod => 5 case PubPoll => 4 case PubWantJ => 3 case PubHoldJ => 2 case PubReady => 1
    case UnpWantJ => 4 case UnpHoldJ => 3 case UnpWantJ2 => 2 case UnpHoldJ2 => 1
    case DelRelease => 3 case DelWantPod => 2 case DelPoll => 1
    case ErrWantPod => 2 case ErrHoldPod => 1
    case AltWantPod => 2 case AltHoldPod => 1
  }

  function Work(threads: seq<Thread>): nat {
    if threads == [] then 0 else Work(threads[..|threads| - 1]) + Rank(threads[|threads| - 1])
  }

  lemma {:induction false} WorkOfUpdate(threads: seq<Thread>, i: nat, t: Thread)
    requires i < |threads|
    ensures Work(threads[i := t]) + Rank(threads[i]) == Work(threads) + Rank(t)
  {
    var n := |threads| - 1;
    if i == n {
      assert threads[i := t][..n] == threads[..n];
    } else {
      assert threads[i := t][..n] == threads[..n][i := t];
      WorkOfUpdate(threads[..n], i, t);
    }
  }

  lemma NextUsesUpWork(t: Thread, terminating: bool, conflict: bool, choice: bool)
    requires !t.at.Done?
    ensures Rank(Next(t, terminating, conflict, choice)) < Rank(t)
  {
  }

  /** The moves of threads in a schedule. */
  function Steps(moves: seq<Move>): nat {
    if moves == [] then 0 else (if moves[0].Go? then 1 else 0) + Steps(moves[1..])
  }

  /** The work that newcomers bring. */
  function Brought(moves: seq<Move>): nat {
    if moves == [] then 0 else (if moves[0].Arrive? then Rank(moves[0].newcomer) else 0) + Brought(moves[1..])
  }

  lemma StepUsesUpWork(s: State, m: Move)
    requires Enabled(s, m)
    ensures (if m.Go? then 1 else 0) + Work(Step(s, m).threads)
         <= Work(s.threads) + (if m.Arrive? then Rank(m.newcomer) else 0)
  {
    hide Rank;
    match m
    case Go(i, conflict, choice) =>
      var t := s.threads[i];
      NextUsesUpWork(t, t.pod in s.terminating, conflict, choice);
      WorkOfUpdate(s.threads, i, Next(t, t.pod in s.terminating, conflict, choice));
    case Evict(_) =>
    case Arrive(t) =>
      assert (s.threads + [t])[..|s.threads|] == s.threads;
  }

  /** The schedule can be carried out from `s`. */
  ghost predicate Schedule(s: State, moves: seq<Move>)
    decreases |moves|
  {
    moves == [] || (Enabled(s, moves[0]) && Schedule(Step(s, moves[0]), moves[1..]))
  }

  ghost function After(s: State, moves: seq<Move>): State
    requires Schedule(s, moves)
    decreases |moves|
  {
    if moves == [] then s else After(Step(s, moves[0]), moves[1..])
  }

  /** No deadlock and no endless run: whoever comes and whatever is evicted, with finitely many conflicts
      threads make no more moves than there is work, every lock has one holder, and while not every
      thread has finished one of them can move. */
  lemma {:induction false} EveryScheduleEnds(s: State, moves: seq<Move>)
    requires OneHolder(s) && Schedule(s, moves)
    ensures OneHolder(After(s, moves))
    ensures Steps(moves) + Work(After(s, moves).threads) <= Work(s.threads) + Brought(moves)
    ensures AllDone(After(s, moves)) || exists i :: Enabled(After(s, moves), Go(i, false, false))
    decreases |moves|
  {
    hide OneHolder, Enabled, Step, Rank, Work;
    if moves == [] {
      if !AllDone(s) {
        var i := SomeThreadCanStep(s);
      }
    } else {
      StepKeepsOneHolder(s, moves[0]);
      StepUsesUpWork(s, moves[0]);
      EveryScheduleEnds(Step(s, moves[0]), moves[1..]);
    }
  }

  // --- what the locks are for ---------------------------------------------------------------

  /** From taking the pod lock to the end, a publish call, a recovery and the error handler. */
  predicate UnderPodLock(p: Point) {
    p in {PubPoll, PubWantJ, PubHoldJ, PubReady, DelPoll, ErrHoldPod}
  }

  /** However threads come and go, two of them are never at these points for the same pod, and never at
      the same time in one of the three sections under `JLock`. */
  lemma SectionsExclude(s: State, moves: seq<Move>, j: nat, k: nat)
    requires OneHolder(s) && Schedule(s, moves)
    requires j < |After(s, moves).threads| && k < |After(s, moves).threads| && j != k
    ensures var t, u := After(s, moves).threads[j], After(s, moves).threads[k];
      && (UnderPodLock(t.at) && UnderPodLock(u.at) ==> t.pod != u.pod)
      && (t.at in {PubHoldJ, UnpHoldJ, UnpHoldJ2} ==> u.at !in {PubHoldJ, UnpHoldJ, UnpHoldJ2})
  {
    EveryScheduleEnds(s, moves);
    var t, u := After(s, moves).threads[j], After(s, moves).threads[k];
    assert !SamePodLock(t, u) && !(HoldsJ(t.at) && HoldsJ(u.at));
  }

  /** After a delete by an unpublish call, the error handler or an eviction, a publish call for that pod
      that has polls left polls once more. */
  lemma DeleteStartsTheWait(s: State, m: Move, p: nat)
    requires Enabled(s, m) && p < |s.threads| && s.threads[p].at.PubPoll? && s.threads[p].polls > 0
    requires match m
             case Go(i, _, choice) =>
               choice && (s.threads[i].at.UnpHoldJ2? || s.threads[i].at.ErrHoldPod?) && s.threads[i].pod == s.threads[p].pod
             case Evict(pod) => pod == s.threads[p].pod
             case Arrive(_) => false
    ensures Enabled(Step(s, m), Go(p, false, false))
    ensures Step(Step(s, m), Go(p, false, false)).threads[p] == s.threads[p].(polls := s.threads[p].polls - 1)
  {
  }

  // --- why the finalizer goes first ---------------------------------------------------------

  /** A publish call polls for a terminating pod and holds its lock.  The handler of that pod can move
      all the same, and then the next poll succeeds, even if it is the last one. */
  lemma HandlerEndsTheWait(s: State, p: nat, h: nat, choice: bool)
    requires p < |s.threads| && h < |s.threads|
    requires s.threads[p].at.PubPoll? && s.threads[h].at.DelRelease? && s.threads[p].pod == s.threads[h].pod
    requires !s.threads[h].starved
    ensures Enabled(s, Go(h, false, choice))
    ensures var s' := Step(s, Go(h, false, choice));
      && Enabled(s', Go(p, false, false))
      && Step(s', Go(p, false, false)).threads[p] == s.threads[p].(at := PubWantJ)
  {
  }

  /** A handler of the pod that is of no help: it would take the lock first, or its snapshot shows a
      resource error, whether or not it has run. */
  predicate OfNoHelp(h: Thread, pod: string) {
    || (h.at.AltWantPod? && h.pod == pod)
    || (h.starved && (h.at.DelRelease? || h.at.Done?))
  }

  /** The moves of the first thread. */
  function Turns(moves: seq<Move>): nat {
    if moves == [] then 0 else (if moves[0].Go? && moves[0].thread == 0 then 1 else 0) + Turns(moves[1..])
  }

  /** With such a handler the publish call polls in vain: whatever the order, the pod stays terminating,
      and the call makes exactly as many polls as it has, and gives up. */
  lemma {:induction false} WaitsInVain(s: State, moves: seq<Move>)
    requires |s.threads| == 2 && s.threads[0].at.PubPoll? && s.threads[0].pod in s.terminating
    requires OfNoHelp(s.threads[1], s.threads[0].pod)
    requires Schedule(s, moves) && (forall k :: 0 <= k < |moves| ==> moves[k].Go?)
    requires Turns(moves) <= s.threads[0].polls
    ensures var s' := After(s, moves);
      && |s'.threads| == 2 && s'.terminating == s.terminating && OfNoHelp(s'.threads[1], s.threads[0].pod)
      && s'.threads[0] == s.threads[0].(polls := s.threads[0].polls - Turns(moves))
      && (Turns(moves) == s.threads[0].polls ==>
            Enabled(s', Go(0, false, false)) && Step(s', Go(0, false, false)).threads[0].at.Done?)
    decreases |moves|
  {
    hide Stripe;
    if moves != [] {
      assert HoldsPod(s.threads[0].at);
      assert s.threads[1].at.AltWantPod? ==> !PodFree(s, s.threads[1].pod);
      var m, s' := moves[0], Step(s, moves[0]);
      assert forall k :: 0 <= k < |moves[1..]| ==> moves[1..][k] == moves[k + 1];
      if m.thread == 0 {
        assert s'.threads == [Next(s.threads[0], true, m.conflict, m.choice), s.threads[1]];
      } else {
        assert s'.threads == [s.threads[0], s.threads[1].(at := Done)];
      }
      WaitsInVain(s', moves[1..]);
    }
  }
}
