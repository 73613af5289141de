/** Concurrent controller calls, guarded by `ObjLocks`, over the quota table of the console. */
module Controller {
  import opened Text

  // --- the lock set -------------------------------------------------------------------------

  /** The lock set after a lock operation on an id; the calls below use the same two. */
  function Locked(locks: set<string>, id: string): set<string> {
    locks + {id}
  }

  function Unlocked(locks: set<string>, id: string): set<string> {
    locks - {id}
  }

  class ObjLocks {
    var locks: set<string>

    constructor ()
      ensures locks == {}
    {
      locks := {};
    }

    method TryAcquire(id: string) returns (acquired: bool)
      modifies this
      ensures acquired == (id !in old(locks))
      ensures locks == Locked(old(locks), id)
    {
      if id in locks {
        return false;
      }
      locks := locks + {id};
      return true;
    }

    method Release(id: string)
      modifies this
      ensures locks == Unlocked(old(locks), id)
    {
      locks := locks - {id};
    }
  }

  // --- the console --------------------------------------------------------------------------

  datatype Quota = Quota(path: string, size: int)

  /** The quotas of one file system, by the id the console gave them. */
  type Table = map<int, Quota>

  /** The loop of `GetQuota` over the console's listing: the last match wins. */
  method GetQuota(listing: seq<(int, Quota)>, path: string) returns (found: Option<nat>)
    ensures found.None? <==> forall i :: 0 <= i < |listing| ==> listing[i].1.path != path
    ensures found.Some? ==>
      && found.value < |listing| && listing[found.value].1.path == path
      && forall i :: found.value < i < |listing| ==> listing[i].1.path != path
  {
    found := None;
    for i := 0 to |listing|
      invariant found.None? <==> forall k :: 0 <= k < i ==> listing[k].1.path != path
      invariant found.Some? ==>
        && found.value < i && listing[found.value].1.path == path
        && forall k :: found.value < k < i ==> listing[k].1.path != path
    {
      if listing[i].1.path == path {
        found := Some(i);
      }
    }
  }

  /** What `GetQuota` may answer: nothing exactly when no quota has the path. */
  predicate Answers(table: Table, path: string, found: Option<int>) {
    match found
    case None => forall q :: q in table ==> table[q].path != path
    case Some(q) => q in table && table[q].path == path
  }

  /** The last match in any listing of the table is such an answer. */
  lemma LastMatchAnswers(table: Table, listing: seq<(int, Quota)>, path: string, found: Option<nat>)
    requires forall q, v :: (q, v) in listing <==> q in table && table[q] == v
    requires found.None? <==> forall i :: 0 <= i < |listing| ==> listing[i].1.path != path
    requires found.Some? ==> found.value < |listing| && listing[found.value].1.path == path
    ensures Answers(table, path, if found.None? then None else Some(listing[found.value].0))
  {
    if found.None? {
      forall q | q in table ensures table[q].path != path {
        assert (q, table[q]) in listing;
      }
    } else {
      var pair := listing[found.value];
      assert (pair.0, pair.1) in listing;
    }
  }

  // --- calls in flight ----------------------------------------------------------------------

  datatype Op = CreateVolume(size: int) | DeleteVolume | ExpandVolume(size: int) | Snapshot

  datatype Stage =
    | Started
    | Found(quota: Option<int>)    // the console answered `GetQuota`
    | Cleaned                      // create: the old quota, if any, was to be deleted
    | Done(ok: bool)

  datatype Rpc = Rpc(id: string, op: Op, stage: Stage)

  datatype State = State(rpcs: map<int, Rpc>, locks: set<string>, table: Table)

  /** One console request or one lock operation of call `r`. */
  datatype Action =
    | Begin(r: int, id: string, op: Op)      // `TryAcquire`
    | Get(r: int, found: Option<int>)        // list the quotas
    | Erase(r: int)                          // create: delete the quota found
    | EraseFails(r: int)                     // create: `DeleteQuota` fails, which is ignored
    | Put(r: int, q: int)                    // create a quota, the console picks the id
    | Drop(r: int)                           // delete: delete the quota found
    | Update(r: int)                         // expand: resize the quota found
    | Skip(r: int)                           // nothing to do with quotas
    | Fail(r: int)                           // an error exit
    | End(r: int)                            // `Release`

  /** The quota path of a volume. */
  function Path(id: string): (path: string)
    ensures |path| == 1 + |id| && path[0] == '/' && path[1..] == id
  {
    "/" + id
  }

  predicate At(s: State, r: int, stage: Stage) {
    r in s.rpcs && s.rpcs[r].stage == stage
  }

  /** `CreateVol` replaces the quota only for a positive size. */
  predicate SetsQuota(op: Op) {
    op.CreateVolume? && op.size > 0
  }

  predicate Enabled(s: State, a: Action) {
    match a
    case Begin(r, id, op) => r !in s.rpcs
    case Get(r, found) =>
      At(s, r, Started) && (SetsQuota(s.rpcs[r].op) || s.rpcs[r].op.DeleteVolume? || s.rpcs[r].op.ExpandVolume?)
      && Answers(s.table, Path(s.rpcs[r].id), found)
    case Erase(r) => r in s.rpcs && s.rpcs[r].stage.Found? && SetsQuota(s.rpcs[r].op)
    case EraseFails(r) => r in s.rpcs && (s.rpcs[r].stage.Found? || s.rpcs[r].stage.Started?) && SetsQuota(s.rpcs[r].op)
    case Put(r, q) =>
      && r in s.rpcs && q !in s.table
      && ((s.rpcs[r].stage.Cleaned? && SetsQuota(s.rpcs[r].op)) || (At(s, r, Found(None)) && s.rpcs[r].op.ExpandVolume?))
    case Drop(r) => r in s.rpcs && s.rpcs[r].stage.Found? && s.rpcs[r].op.DeleteVolume?
    case Update(r) => r in s.rpcs && s.rpcs[r].stage.Found? && s.rpcs[r].stage.quota.Some? && s.rpcs[r].op.ExpandVolume?
    case Skip(r) =>
      At(s, r, Started) && (s.rpcs[r].op.Snapshot? || (s.rpcs[r].op.CreateVolume? && !SetsQuota(s.rpcs[r].op)))
    case Fail(r) => r in s.rpcs
    case End(r) => r in s.rpcs && s.rpcs[r].stage.Done?
  }

  function Goto(s: State, r: int, stage: Stage): State
    requires r in s.rpcs
  {
    s.(rpcs := s.rpcs[r := s.rpcs[r].(stage := stage)])
  }

  function Without(table: Table, found: Option<int>): Table {
    match found case None => table case Some(q) => table - {q}
  }

  function Step(s: State, a: Action): State
    requires Enabled(s, a)
  {
    match a
    case Begin(r, id, op) =>
      if id in s.locks then s
      else s.(locks := Locked(s.locks, id), rpcs := s.rpcs[r := Rpc(id, op, Started)])
    case Get(r, found) => Goto(s, r, Found(found))
    case Erase(r) => Goto(s, r, Cleaned).(table := Without(s.table, s.rpcs[r].stage.quota))
    case EraseFails(r) => Goto(s, r, Cleaned)
    case Put(r, q) =>
      Goto(s, r, Done(true)).(table := s.table[q := Quota(Path(s.rpcs[r].id), s.rpcs[r].op.size)])
    case Drop(r) => Goto(s, r, Done(true)).(table := Without(s.table, s.rpcs[r].stage.quota))
    case Update(r) =>
      var q := s.rpcs[r].stage.quota.value;
      Goto(s, r, Done(true)).(table :=
        if q in s.table then s.table[q := s.table[q].(size := s.rpcs[r].op.size)] else s.table)
    case Skip(r) => Goto(s, r, Done(true))
    case Fail(r) => Goto(s, r, Done(false))
    case End(r) => s.(locks := Unlocked(s.locks, s.rpcs[r].id), rpcs := s.rpcs - {r})
  }

  ghost predicate Init(s: State) {
    s.rpcs == map[] && s.locks == {} && OnePerPath(s.table)
  }

  ghost predicate IsRun(states: seq<State>, actions: seq<Action>) {
    && |states| == |actions| + 1 && Init(states[0])
    && forall i :: 0 <= i < |actions| ==>
         Enabled(states[i], actions[i]) && states[i + 1] == Step(states[i], actions[i])
  }

  // --- mutual exclusion ---------------------------------------------------------------------

  /** The lock set is exactly the ids of the calls in flight, and no two of them share an id. */
  ghost predicate Exclusive(s: State) {
    && (forall id :: id in s.locks <==> exists r :: r in s.rpcs && s.rpcs[r].id == id)
    && (forall r, r' :: r in s.rpcs && r' in s.rpcs && s.rpcs[r].id == s.rpcs[r'].id ==> r == r')
  }

  lemma MovingKeepsExclusive(s: State, r: int, stage: Stage, table: Table)
    requires Exclusive(s) && r in s.rpcs
    ensures Exclusive(Goto(s, r, stage).(table := table))
  {
    var s' := Goto(s, r, stage).(table := table);
    assert forall k :: k in s.rpcs ==> k in s'.rpcs && s'.rpcs[k].id == s.rpcs[k].id;
    forall id ensures id in s'.locks <==> exists k :: k in s'.rpcs && s'.rpcs[k].id == id {
      if k :| k in s.rpcs && s.rpcs[k].id == id {
        assert k in s'.rpcs && s'.rpcs[k].id == id;
      }
    }
  }

  lemma BeginKeepsExclusive(s: State, r: int, id: string, op: Op)
    requires Exclusive(s) && r !in s.rpcs && id !in s.locks
    ensures Exclusive(s.(locks := s.locks + {id}, rpcs := s.rpcs[r := Rpc(id, op, Started)]))
  {
    var rpcs := s.rpcs[r := Rpc(id, op, Started)];
    forall i ensures i in s.locks + {id} <==> exists k :: k in rpcs && rpcs[k].id == i {
      if i == id {
        assert r in rpcs && rpcs[r].id == i;
      } else if i in s.locks {
        var k :| k in s.rpcs && s.rpcs[k].id == i;
        assert k in rpcs && rpcs[k].id == i;
      }
    }
  }

  lemma EndKeepsExclusive(s: State, r: int)
    requires Exclusive(s) && r in s.rpcs
    ensures Exclusive(s.(locks := s.locks - {s.rpcs[r].id}, rpcs := s.rpcs - {r}))
  {
    var rpcs := s.rpcs - {r};
    forall i ensures i in s.locks - {s.rpcs[r].id} <==> exists k :: k in rpcs && rpcs[k].id == i {
      if i in s.locks - {s.rpcs[r].id} {
        var k :| k in s.rpcs && s.rpcs[k].id == i;
        assert k in rpcs && rpcs[k].id == i;
      }
    }
  }

  lemma StepKeepsExclusive(s: State, a: Action)
    requires Exclusive(s) && Enabled(s, a)
    ensures Exclusive(Step(s, a))
  {
    hide Exclusive;
    var s' := Step(s, a);
    match a
    case Begin(r, id, op) => if id !in s.locks { BeginKeepsExclusive(s, r, id, op); }
    case End(r) => EndKeepsExclusive(s, r);
    case _ => MovingKeepsExclusive(s, a.r, s'.rpcs[a.r].stage, s'.table);
  }

  /** In every interleaving, with whatever failures, operations on one volume never overlap. */
  lemma {:induction false} NeverOverlap(states: seq<State>, actions: seq<Action>, i: nat)
    requires IsRun(states, actions) && i < |states|
    ensures Exclusive(states[i])
  {
    hide Step, Enabled;
    if i > 0 {
      NeverOverlap(states, actions, i - 1);
      StepKeepsExclusive(states[i - 1], actions[i - 1]);
    }
  }

  // --- quotas -------------------------------------------------------------------------------

  ghost predicate OnePerPath(table: Table) {
    forall q, q' :: q in table && q' in table && table[q].path == table[q'].path ==> q == q'
  }

  ghost predicate NoQuota(table: Table, path: string) {
    forall q :: q in table ==> table[q].path != path
  }

  /** The quota of the path, and it has this size. */
  ghost predicate QuotaIs(table: Table, path: string, size: int) {
    exists q :: q in table && table[q] == Quota(path, size)
  }

  /** What a call knows about its path at its stage; at the end, that it did what was asked. */
  ghost predicate Knows(rpc: Rpc, table: Table) {
    match rpc.stage
    case Started => true
    case Found(found) => Answers(table, Path(rpc.id), found)
    case Cleaned => NoQuota(table, Path(rpc.id))
    case Done(ok) =>
      ok ==>
        && (SetsQuota(rpc.op) || rpc.op.ExpandVolume? ==> QuotaIs(table, Path(rpc.id), rpc.op.size))
        && (rpc.op.DeleteVolume? ==> NoQuota(table, Path(rpc.id)))
  }

  ghost predicate Consistent(s: State) {
    && Exclusive(s) && OnePerPath(s.table)
    && forall r :: r in s.rpcs ==> Knows(s.rpcs[r], s.table)
  }

  /** Two tables agree on every path but this one. */
  ghost predicate AgreeElsewhere(table: Table, table': Table, path: string) {
    forall q, v: Quota :: v.path != path ==>
      ((q in table && table[q] == v) <==> (q in table' && table'[q] == v))
  }

  lemma OthersKeepKnowing(rpc: Rpc, table: Table, table': Table, path: string)
    requires Knows(rpc, table) && AgreeElsewhere(table, table', path) && Path(rpc.id) != path
    ensures Knows(rpc, table')
  {
    hide Path;
    var p := Path(rpc.id);
    assert forall q, size :: (q in table && table[q] == Quota(p, size)) <==> (q in table' && table'[q] == Quota(p, size));
    forall q | q in table' && table'[q].path == p ensures q in table && table[q].path == p {
      assert table'[q] == Quota(p, table'[q].size);
    }
    forall q | q in table && table[q].path == p ensures q in table' && table'[q].path == p {
      assert table[q] == Quota(p, table[q].size);
    }
    if QuotaIs(table, p, if rpc.op.CreateVolume? || rpc.op.ExpandVolume? then rpc.op.size else 0) {
      var q :| q in table && table[q] == Quota(p, if rpc.op.CreateVolume? || rpc.op.ExpandVolume? then rpc.op.size else 0);
      assert q in table' && table'[q] == table[q];
    }
  }

  /** A call that only touches its own path, and knows what it should afterwards, leaves the whole
      state consistent. */
  lemma OwnPathKeepsConsistent(s: State, r: int, stage: Stage, table: Table)
    requires Consistent(s) && r in s.rpcs && OnePerPath(table)
    requires AgreeElsewhere(s.table, table, Path(s.rpcs[r].id))
    requires Knows(s.rpcs[r].(stage := stage), table)
    ensures Consistent(Goto(s, r, stage).(table := table))
  {
    hide Knows, OnePerPath, AgreeElsewhere;
    MovingKeepsExclusive(s, r, stage, table);
    forall k | k in s.rpcs && k != r ensures Knows(s.rpcs[k], table) {
      assert Path(s.rpcs[k].id) != Path(s.rpcs[r].id) by {
        assert Path(s.rpcs[k].id)[1..] == s.rpcs[k].id && Path(s.rpcs[r].id)[1..] == s.rpcs[r].id;
      }
      OthersKeepKnowing(s.rpcs[k], s.table, table, Path(s.rpcs[r].id));
    }
  }

  lemma RemovedIsGone(table: Table, path: string, found: Option<int>)
    requires OnePerPath(table) && Answers(table, path, found)
    ensures var t := Without(table, found);
      OnePerPath(t) && NoQuota(t, path) && AgreeElsewhere(table, t, path)
  {
  }

  lemma AddedIsThere(table: Table, path: string, size: int, q: int)
    requires OnePerPath(table) && NoQuota(table, path) && q !in table
    ensures var t := table[q := Quota(path, size)];
      OnePerPath(t) && QuotaIs(t, path, size) && AgreeElsewhere(table, t, path)
  {
    var t := table[q := Quota(path, size)];
    assert q in t && t[q] == Quota(path, size);
  }

  lemma ResizedIsThere(table: Table, path: string, size: int, q: int)
    requires OnePerPath(table) && q in table && table[q].path == path
    ensures var t := table[q := table[q].(size := size)];
      OnePerPath(t) && QuotaIs(t, path, size) && AgreeElsewhere(table, t, path)
  {
    var t := table[q := table[q].(size := size)];
    assert q in t && t[q] == Quota(path, size);
  }

  /** An ignored failure of the clean-up does no harm where there is nothing to clean up. */
  ghost predicate Harmless(s: State, a: Action)
    requires Enabled(s, a)
  {
    a.EraseFails? ==> NoQuota(s.table, Path(s.rpcs[a.r].id))
  }

  lemma StepKeepsConsistent(s: State, a: Action)
    requires Consistent(s) && Enabled(s, a) && Harmless(s, a)
    ensures Consistent(Step(s, a))
  {
    hide OnePerPath, AgreeElsewhere, Path, QuotaIs, Exclusive;
    StepKeepsExclusive(s, a);
    if !a.Begin? && !a.End? {
      var rpc, s' := s.rpcs[a.r], Step(s, a);
      assert Knows(rpc, s.table);
      if a.Erase? || a.Drop? {
        RemovedIsGone(s.table, Path(rpc.id), rpc.stage.quota);
      } else if a.Put? {
        AddedIsThere(s.table, Path(rpc.id), rpc.op.size, a.q);
      } else if a.Update? {
        ResizedIsThere(s.table, Path(rpc.id), rpc.op.size, rpc.stage.quota.value);
      } else {
        SameAgrees(s.table, Path(rpc.id));
      }
      OwnPathKeepsConsistent(s, a.r, s'.rpcs[a.r].stage, s'.table);
    }
  }

  lemma SameAgrees(table: Table, path: string)
    ensures AgreeElsewhere(table, table, path)
  {
  }

  /** As long as no clean-up of an existing quota fails unnoticed, every state of every run has at most
      one quota for each path, and each call that succeeded finds what it asked for: its size after
      a create or an expand, nothing after a delete. */
  lemma {:induction false} QuotasStayConsistent(states: seq<State>, actions: seq<Action>, i: nat)
    requires IsRun(states, actions) && i < |states|
    requires forall k :: 0 <= k < |actions| ==> Harmless(states[k], actions[k])
    ensures Consistent(states[i])
  {
    hide Step, Enabled, Knows, OnePerPath, Harmless;
    if i > 0 {
      QuotasStayConsistent(states, actions, i - 1);
      StepKeepsConsistent(states[i - 1], actions[i - 1]);
    }
  }

  // --- after the calls have returned --------------------------------------------------------

  /** The request of a call that changes quotas. */
  predicate ChangesQuota(a: Action) {
    a.Put? || a.Erase? || a.Drop? || a.Update?
  }

  /** The quotas of this path are the same in both tables. */
  ghost predicate SameAt(table: Table, table': Table, path: string) {
    forall q, v: Quota :: v.path == path ==>
      ((q in table && table[q] == v) <==> (q in table' && table'[q] == v))
  }

  /** Every call that asked for the quota of its path knows the right one. */
  ghost predicate Oriented(s: State) {
    && Exclusive(s)
    && forall r :: r in s.rpcs && s.rpcs[r].stage.Found? ==>
         Answers(s.table, Path(s.rpcs[r].id), s.rpcs[r].stage.quota)
  }

  /** A step changes quotas only of the path of its own call, and only by one of these requests. */
  lemma StepLeavesOthers(s: State, a: Action, path: string)
    requires Oriented(s) && Enabled(s, a)
    requires !(ChangesQuota(a) && Path(s.rpcs[a.r].id) == path)
    ensures SameAt(s.table, Step(s, a).table, path)
  {
    hide Path, Exclusive;
  }

  lemma NoneIsNew(table: Table, table': Table, path: string)
    requires SameAt(table, table', path)
    ensures forall q :: q in table' && table'[q].path == path ==> q in table && table[q] == table'[q]
  {
    forall q | q in table' && table'[q].path == path ensures q in table && table[q] == table'[q] {
      assert table'[q] == Quota(path, table'[q].size);
    }
  }

  lemma SameAnswers(table: Table, table': Table, path: string, found: Option<int>)
    requires SameAt(table, table', path) && Answers(table, path, found)
    ensures Answers(table', path, found)
  {
    NoneIsNew(table, table', path);
    if found.Some? {
      assert table[found.value] == Quota(path, table[found.value].size);
    }
  }

  lemma StepKeepsOriented(s: State, a: Action)
    requires Oriented(s) && Enabled(s, a)
    ensures Oriented(Step(s, a))
  {
    hide Path, SameAt, Answers;
    StepKeepsExclusive(s, a);
    var s' := Step(s, a);
    forall r | r in s'.rpcs && s'.rpcs[r].stage.Found?
      ensures Answers(s'.table, Path(s'.rpcs[r].id), s'.rpcs[r].stage.quota)
    {
      if a.Get? && a.r == r {
        GetAnswers(s, a);
      } else {
        assert r in s.rpcs && s.rpcs[r] == s'.rpcs[r];
        if ChangesQuota(a) {
          assert a.r != r;
          PathsDiffer(s.rpcs[a.r].id, s.rpcs[r].id);
        }
        StepLeavesOthers(s, a, Path(s.rpcs[r].id));
        SameAnswers(s.table, s'.table, Path(s.rpcs[r].id), s.rpcs[r].stage.quota);
      }
    }
  }

  lemma GetAnswers(s: State, a: Action)
    requires Enabled(s, a) && a.Get?
    ensures a.r in s.rpcs && Step(s, a).table == s.table
    ensures Answers(s.table, Path(s.rpcs[a.r].id), a.found)
  {
    hide Path, Answers;
  }

  lemma PathsDiffer(id: string, id': string)
    ensures Path(id) == Path(id') <==> id == id'
  {
    assert Path(id)[1..] == id && Path(id')[1..] == id';
  }

  lemma {:induction false} RunIsOriented(states: seq<State>, actions: seq<Action>, i: nat)
    requires IsRun(states, actions) && i < |states|
    ensures Oriented(states[i])
  {
    hide Step, Enabled;
    if i > 0 {
      RunIsOriented(states, actions, i - 1);
      StepKeepsOriented(states[i - 1], actions[i - 1]);
    }
  }

  /** In every run, with whatever failures, the quotas of a path change only by a request of a call for
      the volume of that path; in particular a call that returns leaves them as they are. */
  lemma OthersAreLeftAlone(states: seq<State>, actions: seq<Action>, i: nat, path: string)
    requires IsRun(states, actions) && i < |actions|
    requires !(ChangesQuota(actions[i]) && Path(states[i].rpcs[actions[i].r].id) == path)
    ensures SameAt(states[i].table, states[i + 1].table, path)
  {
    hide Oriented, SameAt, Path, Init;
    RunIsOriented(states, actions, i);
    assert Enabled(states[i], actions[i]) && states[i + 1] == Step(states[i], actions[i]);
    StepLeavesOthers(states[i], actions[i], path);
  }

  /** Only these requests of these calls change quotas: a create with a positive size, a delete and an
      expand; a create without a size and a snapshot change none. */
  lemma WhoChangesQuotas(s: State, a: Action)
    requires Enabled(s, a) && ChangesQuota(a)
    ensures var op := s.rpcs[a.r].op;
      && (a.Erase? ==> op.CreateVolume? && op.size > 0)
      && (a.Put? ==> (op.CreateVolume? && op.size > 0) || op.ExpandVolume?)
      && (a.Drop? ==> op.DeleteVolume?) && (a.Update? ==> op.ExpandVolume?)
  {
  }

  /** What a call that succeeded promises of its path. */
  ghost predicate Promise(op: Op, table: Table, path: string) {
    && (op.CreateVolume? && op.size > 0 ==> QuotaIs(table, path, op.size))
    && (op.ExpandVolume? ==> QuotaIs(table, path, op.size))
    && (op.DeleteVolume? ==> NoQuota(table, path))
  }

  lemma PromiseStays(op: Op, table: Table, table': Table, path: string)
    requires SameAt(table, table', path) && Promise(op, table, path)
    ensures Promise(op, table', path)
  {
    if (op.CreateVolume? && op.size > 0) || op.ExpandVolume? {
      var q :| q in table && table[q] == Quota(path, op.size);
      assert q in table' && table'[q] == Quota(path, op.size);
    }
    NoneIsNew(table, table', path);
  }

  lemma ReturnKeepsPromise(s: State, r: int)
    requires Consistent(s) && Enabled(s, End(r)) && s.rpcs[r].stage == Done(true)
    ensures var id, op, s' := s.rpcs[r].id, s.rpcs[r].op, Step(s, End(r));
      Promise(op, s'.table, Path(id)) && id !in s'.locks
  {
    hide Path, Exclusive, OnePerPath, QuotaIs, NoQuota;
    assert Knows(s.rpcs[r], s.table);
  }

  /** A volume without a call in flight, and without a new one, has no request of its own. */
  lemma IdleStays(s: State, a: Action, id: string)
    requires Exclusive(s) && Enabled(s, a) && id !in s.locks && !(a.Begin? && a.id == id)
    ensures id !in Step(s, a).locks
    ensures ChangesQuota(a) ==> Path(s.rpcs[a.r].id) != Path(id)
  {
    if ChangesQuota(a) {
      PathsDiffer(s.rpcs[a.r].id, id);
    }
  }

  lemma {:induction false} PromiseLasts(states: seq<State>, actions: seq<Action>, i: nat, j: nat, r: int)
    requires IsRun(states, actions) && i < j < |states|
    requires forall k :: 0 <= k < |actions| ==> Harmless(states[k], actions[k])
    requires actions[i] == End(r) && states[i].rpcs[r].stage == Done(true)
    requires forall k :: i < k < j ==> !(actions[k].Begin? && actions[k].id == states[i].rpcs[r].id)
    ensures var id := states[i].rpcs[r].id;
      Promise(states[i].rpcs[r].op, states[j].table, Path(id)) && id !in states[j].locks
    decreases j
  {
    hide Step, Path, Promise, Consistent, Harmless, Exclusive, Init, SameAt;
    var s, a := states[j - 1], actions[j - 1];
    assert Enabled(s, a) && states[j] == Step(s, a);
    if j == i + 1 {
      QuotasStayConsistent(states, actions, i);
      ReturnKeepsPromise(s, r);
    } else {
      var id, op := states[i].rpcs[r].id, states[i].rpcs[r].op;
      PromiseLasts(states, actions, i, j - 1, r);
      NeverOverlap(states, actions, j - 1);
      IdleStays(s, a, id);
      OthersAreLeftAlone(states, actions, j - 1, Path(id));
      PromiseStays(op, s.table, states[j].table, Path(id));
    }
  }

  /** After a call has succeeded and returned, its quota has the size asked for, or is gone, in every
      later state, whatever calls for other volumes do, until a call for the same volume begins; and it
      is the only quota of its path. */
  lemma QuotaLasts(states: seq<State>, actions: seq<Action>, i: nat, j: nat, r: int)
    requires IsRun(states, actions) && i < j < |states|
    requires forall k :: 0 <= k < |actions| ==> Harmless(states[k], actions[k])
    requires actions[i] == End(r) && states[i].rpcs[r].stage == Done(true)
    requires forall k :: i < k < j ==> !(actions[k].Begin? && actions[k].id == states[i].rpcs[r].id)
    ensures var id, op, table := states[i].rpcs[r].id, states[i].rpcs[r].op, states[j].table;
      && (op.CreateVolume? && op.size > 0 ==> QuotaIs(table, Path(id), op.size))
      && (op.ExpandVolume? ==> QuotaIs(table, Path(id), op.size))
      && (op.DeleteVolume? ==> NoQuota(table, Path(id)))
      && OnePerPath(table)
  {
    hide Step, Enabled, Path, Harmless, Exclusive, Init, QuotaIs, NoQuota, OnePerPath, Knows;
    PromiseLasts(states, actions, i, j, r);
    QuotasStayConsistent(states, actions, j);
  }

  // --- failing clean-ups --------------------------------------------------------------------

  /** Creating a quota keeps one per path exactly when the path has none: the clean-up whose failure
      is ignored is what everything rests on. */
  lemma PutKeepsOnePerPathExactly(s: State, r: int, q: int)
    requires OnePerPath(s.table) && Enabled(s, Put(r, q))
    ensures OnePerPath(Step(s, Put(r, q)).table) <==> NoQuota(s.table, Path(s.rpcs[r].id))
  {
    var t := Step(s, Put(r, q)).table;
    assert q in t && t[q].path == Path(s.rpcs[r].id);
    if !NoQuota(s.table, Path(s.rpcs[r].id)) {
      var k :| k in s.table && s.table[k].path == Path(s.rpcs[r].id);
      assert k in t && t[k] == s.table[k];
    } else {
      AddedIsThere(s.table, Path(s.rpcs[r].id), s.rpcs[r].op.size, q);
    }
  }

  /** With such a failure a volume created again has two quotas. */
  lemma FailedCleanUpDuplicates(s: State, r: int, id: string, size: int, q: int)
    requires Init(s) && size > 0 && q !in s.table && !NoQuota(s.table, Path(id))
    ensures Enabled(s, Begin(r, id, CreateVolume(size)))
    ensures var s1 := Step(s, Begin(r, id, CreateVolume(size)));
      && Enabled(s1, EraseFails(r))
      && var s2 := Step(s1, EraseFails(r));
         Enabled(s2, Put(r, q)) && !OnePerPath(Step(s2, Put(r, q)).table)
  {
    hide OnePerPath, NoQuota, Path;
    var s1 := Step(s, Begin(r, id, CreateVolume(size)));
    var s2 := Step(s1, EraseFails(r));
    PutKeepsOnePerPathExactly(s2, r, q);
  }
}
