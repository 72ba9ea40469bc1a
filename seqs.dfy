/** Sequence operations behind the source's `Array.filter`, `includes`,
    spread-append and group-by-`reduce` idioms. */
module Seqs {

  /** `a` is `b` with some elements left out, order kept. */
  ghost predicate IsSubsequence<T(!new)>(a: seq<T>, b: seq<T>)
    decreases |b|
  {
    a == [] || (|b| > 0 && ((a[0] == b[0] && IsSubsequence(a[1..], b[1..])) || IsSubsequence(a, b[1..])))
  }

  /** No element occurs twice. */
  ghost predicate NoDup<T(!new)>(xs: seq<T>) {
    forall i, j :: 0 <= i < j < |xs| ==> xs[i] != xs[j]
  }

  /** `xs.filter(p)`. */
  function Filter<T(!new)>(xs: seq<T>, p: T -> bool): (r: seq<T>)
    ensures |r| <= |xs|
    ensures forall i :: 0 <= i < |r| ==> p(r[i]) && r[i] in xs
    ensures forall i :: 0 <= i < |xs| && p(xs[i]) ==> xs[i] in r
    decreases |xs|
  {
    if xs == [] then []
    else if p(xs[0]) then [xs[0]] + Filter(xs[1..], p)
    else Filter(xs[1..], p)
  }

  /** A filter keeps the order of what it keeps. */
  lemma {:induction false} FilterIsSubsequence<T(!new)>(xs: seq<T>, p: T -> bool)
    ensures IsSubsequence(Filter(xs, p), xs)
    decreases |xs|
  {
    if xs != [] {
      FilterIsSubsequence(xs[1..], p);
    }
  }

  /** Filtering with a predicate every element satisfies changes nothing. */
  lemma {:induction false} FilterAll<T(!new)>(xs: seq<T>, p: T -> bool)
    requires forall i :: 0 <= i < |xs| ==> p(xs[i])
    ensures Filter(xs, p) == xs
    decreases |xs|
  {
    if xs != [] {
      FilterAll(xs[1..], p);
    }
  }

  /** Two filters in a row are one filter with both conditions. */
  lemma {:induction false} FilterCompose<T(!new)>(xs: seq<T>, p: T -> bool, q: T -> bool, pq: T -> bool)
    requires forall x :: pq(x) == (p(x) && q(x))
    ensures Filter(Filter(xs, p), q) == Filter(xs, pq)
    decreases |xs|
  {
    if xs != [] {
      FilterCompose(xs[1..], p, q, pq);
      if p(xs[0]) {
        assert Filter(xs, p) == [xs[0]] + Filter(xs[1..], p);
        assert ([xs[0]] + Filter(xs[1..], p))[1..] == Filter(xs[1..], p);
      }
    }
  }

  /** Filtering distributes over concatenation. */
  lemma {:induction false} FilterAppend<T(!new)>(a: seq<T>, b: seq<T>, p: T -> bool)
    ensures Filter(a + b, p) == Filter(a, p) + Filter(b, p)
    decreases |a|
  {
    if a == [] {
      assert a + b == b;
    } else {
      assert (a + b)[0] == a[0];
      assert (a + b)[1..] == a[1..] + b;
      FilterAppend(a[1..], b, p);
      var head := if p(a[0]) then [a[0]] else [];
      assert Filter(a + b, p) == head + Filter(a[1..] + b, p);
      assert Filter(a, p) == head + Filter(a[1..], p);
    }
  }

  /** Filtering a duplicate-free sequence keeps it duplicate-free. */
  lemma {:induction false} FilterNoDup<T(!new)>(xs: seq<T>, p: T -> bool)
    requires NoDup(xs)
    ensures NoDup(Filter(xs, p))
    decreases |xs|
  {
    if xs != [] {
      assert NoDup(xs[1..]) by {
        forall i, j | 0 <= i < j < |xs[1..]| ensures xs[1..][i] != xs[1..][j] {
          assert xs[1..][i] == xs[i + 1] && xs[1..][j] == xs[j + 1];
        }
      }
      FilterNoDup(xs[1..], p);
      if p(xs[0]) {
        var r := Filter(xs[1..], p);
        assert xs[0] !in xs[1..];
        assert xs[0] !in r;
        forall i, j | 0 <= i < j < |[xs[0]] + r| ensures ([xs[0]] + r)[i] != ([xs[0]] + r)[j] {
          if i == 0 {
            assert ([xs[0]] + r)[j] == r[j - 1];
          } else {
            assert ([xs[0]] + r)[i] == r[i - 1] && ([xs[0]] + r)[j] == r[j - 1];
          }
        }
      }
    }
  }

  /** `xs.filter(x => x !== v)`: every occurrence of `v` removed. */
  function RemoveAll<T(==,!new)>(xs: seq<T>, v: T): (r: seq<T>)
    ensures v !in r
    ensures forall x :: x != v ==> (x in r <==> x in xs)
    ensures IsSubsequence(r, xs)
  {
    FilterIsSubsequence(xs, x => x != v);
    Filter(xs, x => x != v)
  }

  /** Removing a value that does not occur changes nothing. */
  lemma RemoveAbsent<T(!new)>(xs: seq<T>, v: T)
    requires v !in xs
    ensures RemoveAll(xs, v) == xs
  {
    FilterAll(xs, x => x != v);
  }

  /** Removing keeps a duplicate-free sequence duplicate-free. */
  lemma RemoveAllNoDup<T(!new)>(xs: seq<T>, v: T)
    requires NoDup(xs)
    ensures NoDup(RemoveAll(xs, v))
  {
    FilterNoDup(xs, x => x != v);
  }

  /** `xs.includes(v) ? xs.filter(x => x !== v) : [...xs, v]`. */
  function Toggle<T(==,!new)>(xs: seq<T>, v: T): (r: seq<T>)
    ensures v in xs ==> v !in r && forall x :: x != v ==> (x in r <==> x in xs)
    ensures v in xs ==> IsSubsequence(r, xs)
    ensures v !in xs ==> r == xs + [v]
  {
    if v in xs then RemoveAll(xs, v) else xs + [v]
  }

  /** Toggling an absent value twice restores the selection exactly. */
  lemma ToggleTwiceAbsent<T(!new)>(xs: seq<T>, v: T)
    requires v !in xs
    ensures Toggle(Toggle(xs, v), v) == xs
  {
    FilterAppend(xs, [v], x => x != v);
    RemoveAbsent(xs, v);
  }

  /** Toggling keeps a selection duplicate-free. */
  lemma ToggleNoDup<T(!new)>(xs: seq<T>, v: T)
    requires NoDup(xs)
    ensures NoDup(Toggle(xs, v))
  {
    if v in xs {
      FilterNoDup(xs, x => x != v);
    } else {
      var r := xs + [v];
      forall i, j | 0 <= i < j < |r| ensures r[i] != r[j] {
        if j == |xs| {
          assert r[i] == xs[i];
        } else {
          assert r[i] == xs[i] && r[j] == xs[j];
        }
      }
    }
  }

  /** Toggling twice keeps the same set of selected values. */
  lemma ToggleTwiceSameElements<T(!new)>(xs: seq<T>, v: T)
    ensures forall x :: x in Toggle(Toggle(xs, v), v) <==> x in xs
  {
    if v !in xs {
      ToggleTwiceAbsent(xs, v);
    }
  }

  /** The elements of `xs` whose key is `k`, in order: one group of a
      group-by. */
  function Group<T(!new)>(xs: seq<T>, key: T -> string, k: string): (r: seq<T>)
    ensures forall x :: x in r <==> x in xs && key(x) == k
    ensures IsSubsequence(r, xs)
    decreases |xs|
  {
    if xs == [] then []
    else if key(xs[0]) == k then [xs[0]] + Group(xs[1..], key, k)
    else Group(xs[1..], key, k)
  }

  lemma {:induction false} GroupAppend<T(!new)>(a: seq<T>, b: seq<T>, key: T -> string, k: string)
    ensures Group(a + b, key, k) == Group(a, key, k) + Group(b, key, k)
    decreases |a|
  {
    if a == [] {
      assert a + b == b;
    } else {
      assert (a + b)[0] == a[0];
      assert (a + b)[1..] == a[1..] + b;
      GroupAppend(a[1..], b, key, k);
      if key(a[0]) == k {
        assert Group(a + b, key, k) == [a[0]] + (Group(a[1..], key, k) + Group(b, key, k));
      }
    }
  }

  /** The keys that occur in `xs`. */
  ghost function KeysOf<T(!new)>(xs: seq<T>, key: T -> string): set<string> {
    set i | 0 <= i < |xs| :: key(xs[i])
  }

  /** The source's `reduce` that pushes every element into the array of
      its key, creating the array on first use. */
  method GroupBy<T(!new)>(xs: seq<T>, key: T -> string) returns (groups: map<string, seq<T>>)
    ensures groups.Keys == KeysOf(xs, key)
    ensures forall k :: k in groups ==> groups[k] == Group(xs, key, k) && groups[k] != []
    ensures forall i :: 0 <= i < |xs| ==> key(xs[i]) in groups
  {
    groups := map[];
    var i := 0;
    while i < |xs|
      invariant 0 <= i <= |xs|
      invariant groups.Keys == KeysOf(xs[..i], key)
      invariant forall k :: k in groups ==> groups[k] == Group(xs[..i], key, k) && groups[k] != []
      invariant forall k :: k !in groups ==> Group(xs[..i], key, k) == []
    {
      var k := key(xs[i]);
      GroupStep(xs, i, key);
      if k !in groups {
        groups := groups[k := [xs[i]]];
      } else {
        groups := groups[k := groups[k] + [xs[i]]];
      }
      i := i + 1;
    }
    assert xs[..|xs|] == xs;
    forall i | 0 <= i < |xs| ensures key(xs[i]) in groups {
      assert key(xs[i]) in KeysOf(xs, key);
    }
  }

  /** One more element extends exactly the group of its own key. */
  lemma GroupStep<T(!new)>(xs: seq<T>, i: nat, key: T -> string)
    requires i < |xs|
    ensures KeysOf(xs[..i + 1], key) == KeysOf(xs[..i], key) + {key(xs[i])}
    ensures forall k :: Group(xs[..i + 1], key, k) == Group(xs[..i], key, k) + (if key(xs[i]) == k then [xs[i]] else [])
  {
    assert xs[..i + 1] == xs[..i] + [xs[i]];
    forall k ensures Group(xs[..i + 1], key, k) == Group(xs[..i], key, k) + (if key(xs[i]) == k then [xs[i]] else []) {
      GroupAppend(xs[..i], [xs[i]], key, k);
      assert [xs[i]][1..] == [];
    }
    assert key(xs[..i + 1][i]) == key(xs[i]);
    forall k | k in KeysOf(xs[..i + 1], key) ensures k in KeysOf(xs[..i], key) + {key(xs[i])} {
      var j :| 0 <= j < i + 1 && key(xs[..i + 1][j]) == k;
      if j < i {
        assert xs[..i + 1][j] == xs[..i][j];
      }
    }
    forall k | k in KeysOf(xs[..i], key) ensures k in KeysOf(xs[..i + 1], key) {
      var j :| 0 <= j < i && key(xs[..i][j]) == k;
      assert xs[..i + 1][j] == xs[..i][j];
    }
  }

  /** Sum of the group sizes for the keys `ks`. */
  function SizeSum<T(!new)>(xs: seq<T>, key: T -> string, ks: seq<string>): nat
    decreases |ks|
  {
    if ks == [] then 0 else |Group(xs, key, ks[0])| + SizeSum(xs, key, ks[1..])
  }

  lemma {:induction false} SizeSumCons<T(!new)>(x: T, xs: seq<T>, key: T -> string, ks: seq<string>)
    requires NoDup(ks)
    ensures SizeSum([x] + xs, key, ks) == SizeSum(xs, key, ks) + (if key(x) in ks then 1 else 0)
    decreases |ks|
  {
    if ks != [] {
      assert ([x] + xs)[1..] == xs;
      assert NoDup(ks[1..]) by {
        forall i, j | 0 <= i < j < |ks[1..]| ensures ks[1..][i] != ks[1..][j] {
          assert ks[1..][i] == ks[i + 1] && ks[1..][j] == ks[j + 1];
        }
      }
      SizeSumCons(x, xs, key, ks[1..]);
      if key(x) == ks[0] {
        assert key(x) !in ks[1..];
      }
      assert key(x) in ks <==> key(x) == ks[0] || key(x) in ks[1..];
    }
  }

  /** When the keys `ks` cover every element, the groups partition `xs`:
      their sizes add up to `|xs|`. */
  lemma {:induction false} GroupSizesSum<T(!new)>(xs: seq<T>, key: T -> string, ks: seq<string>)
    requires NoDup(ks)
    requires forall i :: 0 <= i < |xs| ==> key(xs[i]) in ks
    ensures SizeSum(xs, key, ks) == |xs|
    decreases |xs|
  {
    if xs == [] {
      SizeSumEmpty(key, ks);
    } else {
      GroupSizesSum(xs[1..], key, ks);
      SizeSumCons(xs[0], xs[1..], key, ks);
      assert [xs[0]] + xs[1..] == xs;
    }
  }

  lemma {:induction false} SizeSumEmpty<T(!new)>(key: T -> string, ks: seq<string>)
    ensures SizeSum([], key, ks) == 0
    decreases |ks|
  {
    if ks != [] {
      SizeSumEmpty(key, ks[1..]);
    }
  }
}
