/** `resolveTargetItem`: one pass over the mount table that groups its lines by mount point. */
module MountInfo {
  import opened Text
  import Sets

  datatype Line = Line(mountPoint: string, root: string)

  datatype Item = Item(target: string, subpath: string, count: nat, inconsistent: bool)

  /** `strings.Trim(s, "/")`. */
  function TrimSlashes(s: string): string {
    if s != "" && s[0] == '/' then TrimSlashes(s[1..])
    else if s != "" && s[|s| - 1] == '/' then TrimSlashes(s[..|s| - 1])
    else s
  }

  function Normalised(root: string): string {
    TrimSlashes(TrimSuffix(root, "//deleted"))
  }

  // --- what normalising does ----------------------------------------------------------------

  const DELETED := "//deleted"

  predicate AllSlashes(s: string) {
    forall i :: 0 <= i < |s| ==> s[i] == '/'
  }

  /** Neither begins nor ends with a slash. */
  predicate Trimmed(s: string) {
    s == "" || (s[0] != '/' && s[|s| - 1] != '/')
  }

  predicate EndsWith(s: string, suffix: string) {
    |suffix| <= |s| && s[|s| - |suffix|..] == suffix
  }

  lemma {:induction false} TrimIsTrimmed(s: string)
    ensures Trimmed(TrimSlashes(s))
    decreases |s|
  {
    if s != "" && s[0] == '/' {
      TrimIsTrimmed(s[1..]);
    } else if s != "" && s[|s| - 1] == '/' {
      TrimIsTrimmed(s[..|s| - 1]);
    }
  }

  lemma {:induction false} TrimAll(s: string)
    requires AllSlashes(s)
    ensures TrimSlashes(s) == ""
  {
    if s != "" {
      TrimAll(s[1..]);
    }
  }

  lemma {:induction false} TrimRight(r: string, m: string)
    requires Trimmed(r) && r != "" && AllSlashes(m)
    ensures TrimSlashes(r + m) == r
    decreases |m|
  {
    if m == "" {
      assert r + m == r;
    } else {
      assert (r + m)[0] == r[0] && (r + m)[..|r + m| - 1] == r + m[..|m| - 1];
      TrimRight(r, m[..|m| - 1]);
    }
  }

  lemma {:induction false} TrimBoth(l: string, r: string, m: string)
    requires Trimmed(r) && AllSlashes(l) && AllSlashes(m)
    ensures TrimSlashes(l + r + m) == r
    decreases |l|
  {
    if r == "" {
      TrimAll(l + r + m);
    } else if l == "" {
      assert l + r + m == r + m;
      TrimRight(r, m);
    } else {
      assert (l + r + m)[1..] == l[1..] + r + m;
      TrimBoth(l[1..], r, m);
    }
  }

  /** A root is its subpath between slashes, or the subpath of a directory that was deleted, which the
      mount table marks at the end. */
  ghost predicate RootOf(root: string, r: string) {
    && Trimmed(r)
    && exists l, m :: AllSlashes(l) && AllSlashes(m) &&
         ((root == l + r + m && !EndsWith(root, DELETED)) || root == l + r + m + DELETED)
  }

  /** Normalising finds that subpath. */
  lemma NormalisedIs(root: string, r: string)
    requires RootOf(root, r)
    ensures Normalised(root) == r
  {
    hide TrimSlashes, AllSlashes, Trimmed;
    var l, m :| AllSlashes(l) && AllSlashes(m) &&
      ((root == l + r + m && !EndsWith(root, DELETED)) || root == l + r + m + DELETED);
    TrimBoth(l, r, m);
    if root == l + r + m + DELETED {
      assert root[..|root| - |DELETED|] == l + r + m && root[|root| - |DELETED|..] == DELETED;
    }
  }

  /** Every root is of that form, so the subpath is unique and has no slash at either end. */
  lemma NormalisedExactly(root: string, r: string)
    ensures RootOf(root, r) <==> Normalised(root) == r
    ensures Trimmed(Normalised(root))
  {
    hide RootOf, Normalised;
    NormalisedIsRoot(root);
    if RootOf(root, r) {
      NormalisedIs(root, r);
    }
  }

  lemma {:induction false} TrimShape(s: string) returns (l: string, m: string)
    ensures AllSlashes(l) && AllSlashes(m) && s == l + TrimSlashes(s) + m
    decreases |s|
  {
    if s != "" && s[0] == '/' {
      l, m := TrimShape(s[1..]);
      l := "/" + l;
    } else if s != "" && s[|s| - 1] == '/' {
      l, m := TrimShape(s[..|s| - 1]);
      m := m + "/";
    } else {
      l, m := "", "";
    }
  }

  lemma NormalisedIsRoot(root: string)
    ensures RootOf(root, Normalised(root)) && Trimmed(Normalised(root))
  {
    hide TrimSlashes, AllSlashes, Trimmed;
    var cut := TrimSuffix(root, DELETED);
    var l, m := TrimShape(cut);
    TrimIsTrimmed(cut);
    assert cut == l + Normalised(root) + m;
    assert EndsWith(root, DELETED) ==> root == cut + DELETED;
  }

  /** So `a` and `/a/`, and `/a//deleted`, name the same directory. */
  lemma SameSubpath(l: string, r: string, m: string)
    requires Trimmed(r) && !EndsWith(l + r + m, DELETED) && AllSlashes(l) && AllSlashes(m)
    ensures Normalised(l + r + m) == r && Normalised(l + r + m + DELETED) == r
  {
    hide Normalised, AllSlashes, Trimmed, EndsWith;
    NormalisedIs(l + r + m, r);
    NormalisedIs(l + r + m + DELETED, r);
  }

  predicate Matches(line: Line, path: string, isPrefix: bool) {
    if isPrefix then path <= line.mountPoint else path == line.mountPoint
  }

  // --- the group-by, independently of the loop ----------------------------------------------

  /** The normalised roots of the lines with this mount point, in table order. */
  function Group(lines: seq<Line>, point: string): seq<string> {
    if lines == [] then []
    else
      var front, last := lines[..|lines| - 1], lines[|lines| - 1];
      Group(front, point) + (if last.mountPoint == point then [Normalised(last.root)] else [])
  }

  /** The mount points that match. */
  function Points(lines: seq<Line>, path: string, isPrefix: bool): set<string> {
    set line | line in lines && Matches(line, path, isPrefix) :: line.mountPoint
  }

  /** The number of matching lines. */
  function Matching(lines: seq<Line>, path: string, isPrefix: bool): nat {
    if lines == [] then 0
    else
      Matching(lines[..|lines| - 1], path, isPrefix) +
      (if Matches(lines[|lines| - 1], path, isPrefix) then 1 else 0)
  }

  /** Some line of the group differs from its first line. */
  predicate Mixed(roots: seq<string>) {
    exists i :: 0 <= i < |roots| && roots[i] != roots[0]
  }

  function ItemOf(lines: seq<Line>, point: string): Item
    requires Group(lines, point) != []
  {
    var g := Group(lines, point);
    Item(point, g[0], |g|, Mixed(g))
  }

  function Total(items: seq<Item>): nat {
    if items == [] then 0 else Total(items[..|items| - 1]) + items[|items| - 1].count
  }

  lemma {:induction false} GroupHolds(lines: seq<Line>, point: string, root: string)
    ensures root in Group(lines, point) <==>
            exists i :: 0 <= i < |lines| && lines[i].mountPoint == point && Normalised(lines[i].root) == root
  {
    hide Normalised;
    if lines != [] {
      var n := |lines| - 1;
      var front := lines[..n];
      GroupHolds(front, point, root);
      assert forall i :: 0 <= i < n ==> front[i] == lines[i];
      if root in Group(lines, point) && root !in Group(front, point) {
        assert lines[n].mountPoint == point && Normalised(lines[n].root) == root;
      }
    }
  }

  lemma MixedExactly(lines: seq<Line>, point: string)
    requires exists i :: 0 <= i < |lines| && lines[i].mountPoint == point
    ensures Group(lines, point) != []
    ensures ItemOf(lines, point).inconsistent <==>
      exists i, j :: 0 <= i < |lines| && 0 <= j < |lines|
        && lines[i].mountPoint == point && lines[j].mountPoint == point
        && Normalised(lines[i].root) != Normalised(lines[j].root)
  {
    hide Normalised;
    var g := Group(lines, point);
    forall root ensures root in g <==>
      exists i :: 0 <= i < |lines| && lines[i].mountPoint == point && Normalised(lines[i].root) == root
    {
      GroupHolds(lines, point, root);
    }
    var k :| 0 <= k < |lines| && lines[k].mountPoint == point;
    assert Normalised(lines[k].root) in g;
    assert forall i :: 0 <= i < |lines| && lines[i].mountPoint == point ==> Normalised(lines[i].root) in g;
    if Mixed(g) {
      var m :| 0 <= m < |g| && g[m] != g[0];
      assert g[m] in g && g[0] in g;
    }
  }

  /** Two roots that stand for different subpaths. */
  ghost predicate Differ(root: string, root': string) {
    exists r, r' :: RootOf(root, r) && RootOf(root', r') && r != r'
  }

  lemma DifferMeans(root: string, root': string)
    ensures Differ(root, root') <==> Normalised(root) != Normalised(root')
  {
    hide Normalised, RootOf;
    NormalisedExactly(root, Normalised(root));
    NormalisedExactly(root', Normalised(root'));
    if Differ(root, root') {
      var r, r' :| RootOf(root, r) && RootOf(root', r') && r != r';
      NormalisedExactly(root, r);
      NormalisedExactly(root', r');
    }
  }

  /** An item is inconsistent exactly if two lines of its mount point stand for different subpaths. */
  lemma InconsistentExactly(lines: seq<Line>, point: string)
    requires exists i :: 0 <= i < |lines| && lines[i].mountPoint == point
    ensures Group(lines, point) != []
    ensures ItemOf(lines, point).inconsistent <==>
      exists i, j :: 0 <= i < |lines| && 0 <= j < |lines|
        && lines[i].mountPoint == point && lines[j].mountPoint == point
        && Differ(lines[i].root, lines[j].root)
  {
    hide Normalised, Differ, ItemOf, Group;
    MixedExactly(lines, point);
    forall i, j | 0 <= i < |lines| && 0 <= j < |lines|
      ensures Differ(lines[i].root, lines[j].root) <==> Normalised(lines[i].root) != Normalised(lines[j].root)
    {
      DifferMeans(lines[i].root, lines[j].root);
    }
  }

  /** The places of a mount point in the table. */
  function Places(lines: seq<Line>, point: string): set<int> {
    set i | 0 <= i < |lines| && lines[i].mountPoint == point
  }

  lemma {:induction false} GroupStarts(lines: seq<Line>, point: string, first: nat)
    requires first < |lines| && lines[first].mountPoint == point
    requires forall i :: 0 <= i < first ==> lines[i].mountPoint != point
    ensures Group(lines, point) != [] && Group(lines, point)[0] == Normalised(lines[first].root)
    ensures |Group(lines, point)| == |Places(lines, point)|
  {
    hide Normalised;
    GroupSize(lines, point);
    var n := |lines| - 1;
    if first < n {
      GroupStarts(lines[..n], point, first);
    } else {
      GroupSize(lines[..n], point);
      assert Places(lines[..n], point) == {};
    }
  }

  lemma {:induction false} GroupSize(lines: seq<Line>, point: string)
    ensures |Group(lines, point)| == |Places(lines, point)|
  {
    hide Normalised;
    if lines != [] {
      var n := |lines| - 1;
      GroupSize(lines[..n], point);
      assert Places(lines, point) == Places(lines[..n], point) + (if lines[n].mountPoint == point then {n} else {});
    }
  }

  /** The item of a mount point has the subpath of the first of its lines, and counts them all. */
  lemma ItemMeans(lines: seq<Line>, point: string, first: nat)
    requires first < |lines| && lines[first].mountPoint == point
    requires forall i :: 0 <= i < first ==> lines[i].mountPoint != point
    ensures Group(lines, point) != []
    ensures var item := ItemOf(lines, point);
      item.target == point && RootOf(lines[first].root, item.subpath) && item.count == |Places(lines, point)|
  {
    hide Normalised, RootOf, Group, Mixed, Places;
    GroupStarts(lines, point, first);
    NormalisedIsRoot(lines[first].root);
  }

  /** The matching mount points: those that begin with the path, or the path itself. */
  lemma PointsExactly(lines: seq<Line>, path: string, isPrefix: bool, point: string)
    ensures point in Points(lines, path, isPrefix) <==>
      && (exists i :: 0 <= i < |lines| && lines[i].mountPoint == point)
      && (if isPrefix then exists rest :: point == path + rest else point == path)
  {
    if isPrefix && path <= point {
      assert point == path + point[|path|..];
    }
    if i :| 0 <= i < |lines| && lines[i].mountPoint == point {
      assert lines[i] in lines;
    }
  }

  // --- one more line ------------------------------------------------------------------------

  lemma PointsSnoc(lines: seq<Line>, n: nat, path: string, isPrefix: bool)
    requires n < |lines|
    ensures Points(lines[..n + 1], path, isPrefix) == Points(lines[..n], path, isPrefix)
          + (if Matches(lines[n], path, isPrefix) then {lines[n].mountPoint} else {})
  {
    assert lines[..n + 1] == lines[..n] + [lines[n]];
    assert forall line :: line in lines[..n + 1] <==> line in lines[..n] || line == lines[n];
  }

  lemma GroupSnoc(lines: seq<Line>, n: nat, p: string)
    requires n < |lines|
    ensures lines[n].mountPoint != p ==> Group(lines[..n + 1], p) == Group(lines[..n], p)
    ensures lines[n].mountPoint == p ==>
      Group(lines[..n + 1], p) == Group(lines[..n], p) + [Normalised(lines[n].root)]
  {
    assert lines[..n + 1][..n] == lines[..n];
  }

  lemma ItemSnoc(roots: seq<string>, more: string)
    requires roots != []
    ensures Mixed(roots + [more]) == (Mixed(roots) || more != roots[0])
  {
    var r := roots + [more];
    assert r[|roots|] == more;
    assert forall i :: 0 <= i < |roots| ==> r[i] == roots[i];
  }

  // --- counting -----------------------------------------------------------------------------

  function CountIn(lines: seq<Line>, points: set<string>): nat {
    if lines == [] then 0
    else CountIn(lines[..|lines| - 1], points) + (if lines[|lines| - 1].mountPoint in points then 1 else 0)
  }

  lemma {:induction false} CountOneMore(lines: seq<Line>, points: set<string>, p: string)
    requires p !in points
    ensures CountIn(lines, points + {p}) == CountIn(lines, points) + |Group(lines, p)|
  {
    if lines != [] {
      CountOneMore(lines[..|lines| - 1], points, p);
    }
  }

  lemma {:induction false} CountAll(lines: seq<Line>, path: string, isPrefix: bool, points: set<string>)
    requires forall line :: line in lines ==> (line.mountPoint in points <==> Matches(line, path, isPrefix))
    ensures CountIn(lines, points) == Matching(lines, path, isPrefix)
  {
    if lines != [] {
      CountAll(lines[..|lines| - 1], path, isPrefix, points);
    }
  }

  lemma {:induction false} CountNone(lines: seq<Line>)
    ensures CountIn(lines, {}) == 0
  {
    if lines != [] {
      CountNone(lines[..|lines| - 1]);
    }
  }

  // --- the loops ----------------------------------------------------------------------------

  ghost predicate Recorded(records: map<string, Item>, lines: seq<Line>, path: string, isPrefix: bool) {
    && records.Keys == Points(lines, path, isPrefix)
    && forall p :: p in records ==> Group(lines, p) != [] && records[p] == ItemOf(lines, p)
  }

  /** The record after one more line of the table. */
  function Updated(records: map<string, Item>, line: Line): map<string, Item> {
    var subpath := Normalised(line.root);
    if line.mountPoint !in records then records[line.mountPoint := Item(line.mountPoint, subpath, 1, false)]
    else
      var r := records[line.mountPoint];
      records[line.mountPoint := r.(count := r.count + 1,
                                    inconsistent := r.inconsistent || r.subpath != subpath)]
  }

  lemma RecordOne(records: map<string, Item>, lines: seq<Line>, n: nat, path: string, isPrefix: bool)
    requires n < |lines| && Recorded(records, lines[..n], path, isPrefix)
    ensures Recorded(if Matches(lines[n], path, isPrefix) then Updated(records, lines[n]) else records,
                     lines[..n + 1], path, isPrefix)
  {
    hide Normalised, Points, Matches, Mixed, Group;
    var point, root := lines[n].mountPoint, Normalised(lines[n].root);
    PointsSnoc(lines, n, path, isPrefix);
    MatchByPoint(lines[..n], lines[n], path, isPrefix);
    NotMixed(root);
    if point in records {
      ItemSnoc(Group(lines[..n], point), root);
    }
    var records' := if Matches(lines[n], path, isPrefix) then Updated(records, lines[n]) else records;
    forall p | p in records'
      ensures Group(lines[..n + 1], p) != [] && records'[p] == ItemOf(lines[..n + 1], p)
    {
      GroupSnoc(lines, n, p);
      if p == point && p !in records {
        assert Group(lines[..n + 1], p) == [root];
      }
    }
  }

  lemma NotMixed(root: string)
    ensures !Mixed([root])
  {
  }

  /** Whether a line matches depends on its mount point alone, so an unrecorded point of a matching
      line is a new group, and a line that does not match belongs to no record. */
  lemma MatchByPoint(lines: seq<Line>, line: Line, path: string, isPrefix: bool)
    ensures !Matches(line, path, isPrefix) ==> line.mountPoint !in Points(lines, path, isPrefix)
    ensures Matches(line, path, isPrefix) && line.mountPoint !in Points(lines, path, isPrefix) ==>
      Group(lines, line.mountPoint) == []
  {
    if Matches(line, path, isPrefix) && line.mountPoint !in Points(lines, path, isPrefix) {
      var g := Group(lines, line.mountPoint);
      if g != [] {
        GroupHolds(lines, line.mountPoint, g[0]);
        var i :| 0 <= i < |lines| && lines[i].mountPoint == line.mountPoint && Normalised(lines[i].root) == g[0];
        assert lines[i] in lines && Matches(lines[i], path, isPrefix);
        assert false;
      }
    }
  }

  /** `resolveTargetItem`: one item for each matching mount point, each the item of its group, with
      counts that add up to the matching lines, and at most one item for an exact path. */
  method ResolveTargetItem(lines: seq<Line>, path: string, isPrefix: bool) returns (res: seq<Item>)
    ensures (set item | item in res :: item.target) == Points(lines, path, isPrefix)
    ensures |res| == |Points(lines, path, isPrefix)|
    ensures forall item :: item in res ==>
      Group(lines, item.target) != [] && item == ItemOf(lines, item.target)
    ensures Total(res) == Matching(lines, path, isPrefix)
    ensures !isPrefix ==> |res| <= 1
  {
    hide Normalised, Mixed;
    var records: map<string, Item> := map[];
    assert lines[..0] == [];
    for n := 0 to |lines|
      invariant Recorded(records, lines[..n], path, isPrefix)
    {
      hide Recorded;
      RecordOne(records, lines, n, path, isPrefix);
      if Matches(lines[n], path, isPrefix) {
        records := Updated(records, lines[n]);
      }
    }
    assert lines[..|lines|] == lines;
    res := Collect(lines, records, path, isPrefix);
    if !isPrefix {
      assert Points(lines, path, isPrefix) <= {path};
      Sets.SubsetSize(Points(lines, path, isPrefix), {path});
    }
  }

  lemma PointsMatch(lines: seq<Line>, path: string, isPrefix: bool)
    ensures forall line :: line in lines ==>
      (line.mountPoint in Points(lines, path, isPrefix) <==> Matches(line, path, isPrefix))
  {
  }

  /** The second loop: the records in whatever order the map yields them. */
  method Collect(lines: seq<Line>, records: map<string, Item>, path: string, isPrefix: bool)
    returns (res: seq<Item>)
    requires Recorded(records, lines, path, isPrefix)
    ensures (set item | item in res :: item.target) == records.Keys && |res| == |records.Keys|
    ensures forall item :: item in res ==>
      Group(lines, item.target) != [] && item == ItemOf(lines, item.target)
    ensures Total(res) == Matching(lines, path, isPrefix)
  {
    hide Normalised, Mixed, Group, Points, Matches, CountIn;
    res := [];
    var keys := records.Keys;
    ghost var done: set<string> := {};
    CountNone(lines);
    while keys != {}
      invariant done !! keys && done + keys == records.Keys && |res| == |done|
      invariant forall p :: p in done ==> records[p] in res
      invariant forall item :: item in res ==> item.target in done && item == records[item.target]
      invariant Total(res) == CountIn(lines, done)
    {
      var p :| p in keys;
      CountOneMore(lines, done, p);
      ghost var before := res;
      res := res + [records[p]];
      assert res[..|before|] == before;
      done := done + {p};
      keys := keys - {p};
    }
    assert done == records.Keys;
    assert forall p :: p in done ==> records[p].target == p;
    PointsMatch(lines, path, isPrefix);
    CountAll(lines, path, isPrefix, done);
  }
}
