/** Go's `strings` functions that the driver relies on, with the facts about them that the
    parsers need. */
module Text {

  datatype Option<+T> = None | Some(value: T)

  /** `unicode.IsSpace`, the separator test of `strings.Fields`. */
  predicate IsSpace(c: char) {
    c in {' ', '\t', '\n', '\U{000B}', '\U{000C}', '\r', '\U{0085}', '\U{00A0}', '\U{1680}',
          '\U{2028}', '\U{2029}', '\U{202F}', '\U{205F}', '\U{3000}'}
    || '\U{2000}' <= c <= '\U{200A}'
  }

  predicate SpaceFree(s: string) {
    forall i :: 0 <= i < |s| ==> !IsSpace(s[i])
  }

  /** Length of the longest prefix without white space. */
  function WordLength(s: string): (n: nat)
    ensures n <= |s|
  {
    if s == "" || IsSpace(s[0]) then 0 else 1 + WordLength(s[1..])
  }

  /** `strings.Fields`. */
  function Fields(s: string): seq<string> {
    if s == "" then []
    else if IsSpace(s[0]) then Fields(s[1..])
    else
      var n := WordLength(s);
      [s[..n]] + Fields(s[n..])
  }

  lemma {:induction false} WordLengthIs(w: string, rest: string)
    requires SpaceFree(w)
    requires rest == "" || IsSpace(rest[0])
    ensures WordLength(w + rest) == |w|
  {
    if w == "" {
      assert w + rest == rest;
    } else {
      assert (w + rest)[1..] == w[1..] + rest;
      WordLengthIs(w[1..], rest);
    }
  }

  lemma {:induction false} WordSpaceFree(s: string)
    ensures SpaceFree(s[..WordLength(s)])
  {
    if s != "" && !IsSpace(s[0]) {
      WordSpaceFree(s[1..]);
      assert s[..WordLength(s)] == [s[0]] + s[1..][..WordLength(s[1..])];
    }
  }

  lemma {:induction false} FieldsSpaceFree(s: string, i: nat)
    requires i < |Fields(s)|
    ensures SpaceFree(Fields(s)[i])
    decreases |s|
  {
    if IsSpace(s[0]) {
      FieldsSpaceFree(s[1..], i);
    } else if i == 0 {
      WordSpaceFree(s);
    } else {
      FieldsSpaceFree(s[WordLength(s)..], i - 1);
    }
  }

  lemma FieldsWord(w: string, rest: string)
    requires w != "" && SpaceFree(w)
    requires rest == "" || IsSpace(rest[0])
    ensures Fields(w + rest) == [w] + Fields(rest)
  {
    WordLengthIs(w, rest);
    assert (w + rest)[0] == w[0];
    assert (w + rest)[..|w|] == w && (w + rest)[|w|..] == rest;
  }

  lemma FieldsStep(w: string, rest: string)
    requires w != "" && SpaceFree(w)
    ensures Fields(w + (" " + rest)) == [w] + Fields(rest)
  {
    FieldsWord(w, " " + rest);
    assert (" " + rest)[1..] == rest;
  }

  /** `strings.Join`. */
  function Join(parts: seq<string>, sep: string): string {
    if |parts| == 0 then ""
    else if |parts| == 1 then parts[0]
    else parts[0] + sep + Join(parts[1..], sep)
  }

  /** `strings.ReplaceAll` for a one-character pattern. */
  function ReplaceChar(s: string, c: char, sub: string): string {
    if s == "" then ""
    else (if s[0] == c then sub else [s[0]]) + ReplaceChar(s[1..], c, sub)
  }

  lemma {:induction false} ReplaceCharConcat(a: string, b: string, c: char, sub: string)
    ensures ReplaceChar(a + b, c, sub) == ReplaceChar(a, c, sub) + ReplaceChar(b, c, sub)
  {
    if a == "" {
      assert a + b == b;
    } else {
      ReplaceCharConcat(a[1..], b, c, sub);
      assert (a + b)[1..] == a[1..] + b;
    }
  }

  /** With a longer substitute, replacing keeps a text unchanged exactly when there is nothing to
      replace. */
  lemma {:induction false} ReplaceCharGrows(s: string, c: char, sub: string)
    requires |sub| > 1
    ensures |ReplaceChar(s, c, sub)| >= |s|
    ensures ReplaceChar(s, c, sub) == s <==> c !in s
    ensures c in s ==> |ReplaceChar(s, c, sub)| > |s|
  {
    if s != "" {
      ReplaceCharGrows(s[1..], c, sub);
      assert c in s <==> s[0] == c || c in s[1..];
      assert s == [s[0]] + s[1..];
    }
  }

  lemma {:induction false} ReplaceCharSpaceFree(s: string, c: char, sub: string)
    requires SpaceFree(s) && SpaceFree(sub)
    ensures SpaceFree(ReplaceChar(s, c, sub))
  {
    if s != "" {
      ReplaceCharSpaceFree(s[1..], c, sub);
    }
  }

  predicate OccursAt(s: string, sep: string, i: int) {
    0 <= i <= |s| - |sep| && s[i..i + |sep|] == sep
  }

  /** `strings.Index`: the first occurrence, if there is one. */
  function Index(s: string, sep: string): (r: Option<nat>)
    ensures r.Some? ==> OccursAt(s, sep, r.value)
  {
    if |s| < |sep| then None
    else if s[..|sep|] == sep then Some(0)
    else if s == "" then None
    else
      match Index(s[1..], sep)
      case None => None
      case Some(i) =>
        assert s[1..][i..i + |sep|] == s[i + 1..i + 1 + |sep|];
        Some(i + 1)
  }

  /** Nothing occurs before the index found, and nothing at all when none is found. */
  lemma {:induction false} IndexFirst(s: string, sep: string, j: nat)
    requires OccursAt(s, sep, j)
    ensures Index(s, sep).Some? && Index(s, sep).value <= j
  {
    if s[..|sep|] != sep {
      assert s[1..][j - 1..j - 1 + |sep|] == s[j..j + |sep|];
      IndexFirst(s[1..], sep, j - 1);
    }
  }

  /** `strings.Split` for a non-empty separator. */
  function Split(s: string, sep: string): seq<string>
    requires sep != ""
    decreases |s|
  {
    match Index(s, sep)
    case None => [s]
    case Some(i) => [s[..i]] + Split(s[i + |sep|..], sep)
  }

  lemma SplitHead(s: string, sep: string, i: nat)
    requires sep != "" && OccursAt(s, sep, i)
    requires forall j :: j < i ==> !OccursAt(s, sep, j)
    ensures Split(s, sep) == [s[..i]] + Split(s[i + |sep|..], sep)
  {
    IndexFirst(s, sep, i);
  }

  lemma SplitWhole(s: string, sep: string)
    requires sep != ""
    requires forall j :: !OccursAt(s, sep, j)
    ensures Split(s, sep) == [s]
  {
  }

  /** Splitting at a one-character separator. */
  lemma SplitAtChar(a: string, c: char, b: string)
    requires c !in a
    ensures Split(a + [c] + b, [c]) == [a] + Split(b, [c])
    ensures Split(a, [c]) == [a]
  {
    var s := a + [c] + b;
    assert s[|a|..|a| + 1] == [c] && s[|a| + 1..] == b && s[..|a|] == a;
    forall j | 0 <= j < |a| ensures !OccursAt(s, [c], j) && !OccursAt(a, [c], j) {
      assert s[j..j + 1] == [a[j]] == a[j..j + 1];
    }
    SplitHead(s, [c], |a|);
    SplitWhole(a, [c]);
  }

  /** `strings.LastIndex` for a one-character pattern; -1 when it does not occur. */
  function LastIndexOf(s: string, c: char): (i: int)
    ensures -1 <= i < |s|
  {
    if s == "" then -1
    else if s[|s| - 1] == c then |s| - 1
    else LastIndexOf(s[..|s| - 1], c)
  }

  /** `strings.TrimSuffix`. */
  function TrimSuffix(s: string, suffix: string): string {
    if |suffix| <= |s| && s[|s| - |suffix|..] == suffix then s[..|s| - |suffix|] else s
  }

  /** `strings.TrimPrefix`. */
  function TrimPrefix(s: string, prefix: string): string {
    if prefix <= s then s[|prefix|..] else s
  }
}
