/** `Run` on a stale snapshot: what its comparison of reference counts is worth. */
module Snapshot {
  import opened Annotation
  import opened Pods
  import opened Store
  import opened Reconcile
  import Sets

  lemma SizeOfKeys(a: Annotations)
    ensures |a| == |a.Keys|
  {
  }

  /** Equal numbers of references, and the keys of one map all present in the other, leave no room
      for a difference. */
  lemma CountsDecide(a: Annotations, b: Annotations, live: set<string>, targets: set<string>)
    requires Collisionless(targets) && WellFormed(a, targets) && WellFormed(b, targets)
    requires LiveKeys(a, live) == {} && DeadKeys(a, live) <= b.Keys
    requires |References(a)| == |References(b)|
    ensures References(b) == References(a)
    ensures References(b).Keys == DeadKeys(a, live)
  {
    var dead := DeadKeys(a, live);
    assert References(a).Keys == dead by {
      forall k | k in References(a) ensures k in dead {
        assert k !in LiveKeys(a, live);
      }
    }
    forall k | k in dead ensures k in References(b) && b[k] == a[k] {
      assert k == ReferenceKey(a[k]);
      assert k == ReferenceKey(b[k]) && b[k] in targets && a[k] in targets;
    }
    SizeOfKeys(References(a));
    SizeOfKeys(References(b));
    Sets.SubsetOfSameSize(dead, References(b).Keys);
  }

  lemma DroppedAreGone(b: Annotations, drop: set<string>)
    requires References(b).Keys <= drop
    ensures References(b - drop) == map[]
  {
    var c := b - drop;
    assert forall k :: k in References(c) ==> k in References(b);
  }

  /** The check is exact.  With no live target in the snapshot and something to drop, a successful
      prune means that the server held exactly the references of the snapshot, however old that
      snapshot is, and that none is left. */
  lemma StaleCheckIsExact(s: PodMap, name: string, cur: Pod, live: set<string>, targets: set<string>)
    requires name in s && Collisionless(targets)
    requires WellFormed(s[name].annotations, targets) && WellFormed(cur.annotations, targets)
    requires LiveKeys(cur.annotations, live) == {} && DeadKeys(cur.annotations, live) != {}
    requires Prune(s, name, cur, live).err == Nil
    ensures References(s[name].annotations) == References(cur.annotations)
    ensures name in Prune(s, name, cur, live).pods
    ensures References(Prune(s, name, cur, live).pods[name].annotations) == map[]
  {
    hide WellFormed, LiveKeys, DeadKeys, References;
    CountsDecide(cur.annotations, s[name].annotations, live, targets);
    DroppedAreGone(s[name].annotations, Dropped(cur.annotations, live));
  }

  /** If comparison, patch and delete are not interrupted, the pod that a stale `Run` deletes as idle is
      left without references exactly if its snapshot had a reference, or the server has none: a
      snapshot without references is never compared, and what was added since goes with the pod. */
  lemma StaleDeleteExactly(s: PodMap, name: string, cur: Pod, live: set<string>, env: Env,
                           targets: set<string>)
    requires name in s && s[name].finalizers != [] && Collisionless(targets)
    requires WellFormed(s[name].annotations, targets) && WellFormed(cur.annotations, targets)
    requires IsIdle(cur, live) && ShouldDelay(cur.annotations, env.now, env.zone).Expired?
    requires Run(s, name, cur, live, env).err == Nil
    ensures var pods := Run(s, name, cur, live, env).pods;
      && name in pods && pods[name].deleting
      && (References(pods[name].annotations) == map[]
          <==> References(cur.annotations) != map[] || References(s[name].annotations) == map[])
  {
    hide ShouldDelay, WellFormed, ReferenceKey;
    var a := cur.annotations;
    if References(a) == map[] {
      assert forall k :: k in a && k == ReferenceKey(a[k]) ==> k in References(a);
      assert Dropped(a, live) == {};
    } else {
      var k :| k in References(a);
      assert k in LiveKeys(a, live) || k in DeadKeys(a, live);
      StaleCheckIsExact(s, name, cur, live, targets);
    }
  }

  /** With a live target in the snapshot equal counts do not mean equal references: a snapshot of
      `u` and `dead` passes against a server holding `t` and `dead`. */
  lemma CountsMissAnExchange(t: string, u: string, dead: string, p: Pod)
    requires Collisionless({t, u, dead}) && |{t, u, dead}| == 3
    requires p.annotations == map[ReferenceKey(t) := t, ReferenceKey(dead) := dead]
    ensures
      var cur := p.(annotations := map[ReferenceKey(u) := u, ReferenceKey(dead) := dead]);
      && Prune(map["pod" := p], "pod", cur, {t, u}).err == Nil
      && References(p.annotations) != References(cur.annotations)
  {
    hide WellFormed;
    var a, b := map[ReferenceKey(u) := u, ReferenceKey(dead) := dead], p.annotations;
    assert t != u && t != dead && u != dead by {
      assert t == u ==> {t, u, dead} == {t, dead};
      assert t == dead ==> {t, u, dead} == {t, u};
      assert u == dead ==> {t, u, dead} == {t, u};
    }
    TwoReferences(u, dead);
    TwoReferences(t, dead);
    assert Dropped(a, {t, u}) == {ReferenceKey(dead)};
    assert ReferenceKey(t) in b && ReferenceKey(t) !in a;
  }

  lemma TwoReferences(x: string, y: string)
    requires ReferenceKey(x) != ReferenceKey(y)
    ensures var a := map[ReferenceKey(x) := x, ReferenceKey(y) := y];
      References(a) == a && |a| == 2
  {
    var a := map[ReferenceKey(x) := x, ReferenceKey(y) := y];
    assert a.Keys == {ReferenceKey(x), ReferenceKey(y)};
  }
}
