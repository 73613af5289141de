/** The loop of `RemoveFinalizer`, which filters the pod's finalizer slice in place. */
module Finalizers {
  import opened Pods

  lemma WithoutSnoc(s: seq<string>, x: string, f: string)
    ensures Without(s + [x], f) == if x == f then Without(s, f) else Without(s, f) + [x]
  {
    assert (s + [x])[..|s|] == s;
  }

  lemma {:induction false} WithoutConcat(s: seq<string>, r: seq<string>, f: string)
    ensures Without(s + r, f) == Without(s, f) + Without(r, f)
  {
    if r == [] {
      assert s + r == s;
    } else {
      var front, last := r[..|r| - 1], r[|r| - 1];
      WithoutConcat(s, front, f);
      assert s + r == (s + front) + [last];
      WithoutSnoc(s + front, last, f);
    }
  }

  /** Each element is kept or dropped by itself, in its place. */
  lemma WithoutIsFilter(s: seq<string>, x: string, r: seq<string>, f: string)
    ensures Without([], f) == []
    ensures Without(s + [x] + r, f) == Without(s, f) + (if x == f then [] else [x]) + Without(r, f)
  {
    WithoutConcat(s + [x], r, f);
    WithoutSnoc(s, x, f);
  }

  /** One occurrence more or less does not matter. */
  lemma WithoutOne(s: seq<string>, i: nat, f: string)
    requires i < |s| && s[i] == f
    ensures Without(s[..i] + s[i + 1..], f) == Without(s, f)
  {
    assert s == (s[..i] + [f]) + s[i + 1..];
    WithoutConcat(s[..i] + [f], s[i + 1..], f);
    WithoutSnoc(s[..i], f, f);
    WithoutConcat(s[..i], s[i + 1..], f);
  }

  lemma {:induction false} WithoutNone(s: seq<string>, f: string)
    requires f !in s
    ensures Without(s, f) == s
  {
    if s != [] {
      WithoutNone(s[..|s| - 1], f);
    }
  }

  /** Removing twice is removing once, and nothing is left to remove. */
  lemma {:induction false} WithoutTwice(s: seq<string>, f: string)
    ensures f !in Without(s, f) && Without(Without(s, f), f) == Without(s, f)
  {
    if s != [] {
      WithoutTwice(s[..|s| - 1], f);
    }
    WithoutNone(Without(s, f), f);
  }

  /** `append(a[:i], a[i+1:n]...)`: the elements after `i` move one place to the left inside the
      backing array, and nothing beyond place `n - 2` is written. */
  method CloseGap(a: array<string>, i: nat, n: nat)
    requires i < n <= a.Length
    modifies a
    ensures a[..n - 1] == old(a[..i] + a[i + 1..n])
    ensures a[n - 1..] == old(a[n - 1..])
  {
    for k := i + 1 to n
      invariant a[..k - 1] == old(a[..i] + a[i + 1..k])
      invariant a[k - 1..] == old(a[k - 1..])
    {
      a[k - 1] := a[k];
    }
  }

  /** The first `n` places hold the filtered list, in order, for any number and placement of `f`.
      The array itself keeps its length, so the pod's own slice still has the old one; the places
      past the end of the old list, and all of it when there is nothing to remove, are untouched. */
  method Remove(a: array<string>, length: nat, f: string) returns (n: nat)
    requires length <= a.Length
    modifies a
    ensures n <= length
    ensures a[..n] == Without(old(a[..length]), f)
    ensures a[length..] == old(a[length..])
    ensures f !in old(a[..length]) ==> a[..] == old(a[..])
  {
    n := length;
    var i := 0;
    ghost var was := a[..length];
    while i < n
      invariant i <= n <= length
      invariant f !in a[..i] && Without(a[..n], f) == Without(was, f)
      invariant a[length..] == old(a[length..])
      invariant f !in was ==> a[..] == old(a[..]) && n == length
      decreases n - i
    {
      if a[i] == f {
        ghost var list := a[..n];
        WithoutOne(list, i, f);
        CloseGap(a, i, n);
        assert a[..n - 1] == list[..i] + list[i + 1..];
        assert a[..i] == a[..n - 1][..i];
        n := n - 1;
      } else {
        assert a[..i + 1] == a[..i] + [a[i]];
        i := i + 1;
      }
    }
    WithoutNone(a[..n], f);
  }
}
