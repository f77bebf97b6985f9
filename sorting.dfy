/**
 * `Array.prototype.sort` with a comparator, `String.prototype.localeCompare`
 * and the "group into a Map in first-appearance order" idiom the pages use.
 *
 * `Array.prototype.sort` is stable; it is modelled by a stable insertion
 * sort. A comparator follows the JavaScript convention: a negative result
 * puts its first argument first. `localeCompare` is modelled as code-unit
 * lexicographic order (locale collation tables are outside the model).
 */
module Sorting {

  // ---------------------------------------------------------------------
  // Sorting with a comparator
  // ---------------------------------------------------------------------

  predicate SortedBy<T>(s: seq<T>, cmp: (T, T) -> int)
  {
    forall i, j :: 0 <= i < j < |s| ==> cmp(s[i], s[j]) <= 0
  }

  /**
   * The comparator is consistent on the values of `dom`: it is a total
   * preorder there (the condition under which the ECMAScript sort order is
   * defined).
   */
  ghost predicate ConsistentOn<T>(dom: seq<T>, cmp: (T, T) -> int)
  {
    (forall a, b :: a in dom && b in dom && cmp(a, b) > 0 ==> cmp(b, a) < 0)
    && (forall a, b, c :: a in dom && b in dom && c in dom && cmp(a, b) <= 0 && cmp(b, c) <= 0 ==> cmp(a, c) <= 0)
  }

  /** Places `x` after the last element that does not compare greater than it. */
  function Insert<T>(s: seq<T>, x: T, cmp: (T, T) -> int): (r: seq<T>)
    ensures multiset(r) == multiset(s) + multiset{x}
    ensures |r| == |s| + 1
  {
    if |s| == 0 then [x]
    else if cmp(s[|s| - 1], x) <= 0 then s + [x]
    else
      var init := s[..|s| - 1];
      assert s == init + [s[|s| - 1]];
      Insert(init, x, cmp) + [s[|s| - 1]]
  }

  /** `[...s].sort(cmp)`. */
  function SortBy<T>(s: seq<T>, cmp: (T, T) -> int): (r: seq<T>)
    ensures multiset(r) == multiset(s)
    ensures |r| == |s|
  {
    if |s| == 0 then []
    else
      var init := s[..|s| - 1];
      assert s == init + [s[|s| - 1]];
      Insert(SortBy(init, cmp), s[|s| - 1], cmp)
  }

  lemma InsertSortedAppend<T>(s: seq<T>, x: T, cmp: (T, T) -> int, dom: seq<T>)
    requires |s| > 0 && SortedBy(s, cmp) && cmp(s[|s| - 1], x) <= 0
    requires forall e :: e in s ==> e in dom
    requires x in dom
    requires ConsistentOn(dom, cmp)
    ensures SortedBy(s + [x], cmp)
  {
    var r := s + [x];
    forall i, j | 0 <= i < j < |r|
      ensures cmp(r[i], r[j]) <= 0
    {
      if j == |s| && i < |s| - 1 {
        assert cmp(s[i], s[|s| - 1]) <= 0;
        assert s[i] in dom && s[|s| - 1] in dom;
      }
    }
  }

  lemma InsertSortedBefore<T>(m: seq<T>, last: T, x: T, cmp: (T, T) -> int, dom: seq<T>, init: seq<T>)
    requires SortedBy(m, cmp) && SortedBy(init + [last], cmp)
    requires multiset(m) == multiset(init) + multiset{x}
    requires cmp(x, last) < 0
    ensures SortedBy(m + [last], cmp)
  {
    forall e | e in m
      ensures cmp(e, last) <= 0
    {
      assert e in multiset(m);
      if e != x {
        assert e in multiset(init);
        var k :| 0 <= k < |init| && init[k] == e;
        assert (init + [last])[k] == e && (init + [last])[|init|] == last;
      }
    }
    var r := m + [last];
    forall i, j | 0 <= i < j < |r|
      ensures cmp(r[i], r[j]) <= 0
    {
      if j == |m| {
        assert r[i] in m;
      }
    }
  }

  lemma {:induction false} InsertSorted<T>(s: seq<T>, x: T, cmp: (T, T) -> int, dom: seq<T>)
    requires SortedBy(s, cmp)
    requires forall e :: e in s ==> e in dom
    requires x in dom
    requires ConsistentOn(dom, cmp)
    ensures SortedBy(Insert(s, x, cmp), cmp)
    decreases |s|
  {
    if |s| == 0 {
    } else if cmp(s[|s| - 1], x) <= 0 {
      InsertSortedAppend(s, x, cmp, dom);
    } else {
      var init := s[..|s| - 1];
      var last := s[|s| - 1];
      assert s == init + [last];
      assert forall e :: e in init ==> e in s;
      InsertSorted(init, x, cmp, dom);
      assert last in dom;
      InsertSortedBefore(Insert(init, x, cmp), last, x, cmp, dom, init);
    }
  }

  /** Sorting with a comparator that is consistent on the input yields a sorted permutation. */
  lemma {:induction false} SortBySorted<T>(s: seq<T>, cmp: (T, T) -> int)
    requires ConsistentOn(s, cmp)
    ensures SortedBy(SortBy(s, cmp), cmp)
    ensures multiset(SortBy(s, cmp)) == multiset(s)
  {
    SortBySortedIn(s, cmp, s);
  }

  lemma {:induction false} SortBySortedIn<T>(s: seq<T>, cmp: (T, T) -> int, dom: seq<T>)
    requires ConsistentOn(dom, cmp)
    requires forall e :: e in s ==> e in dom
    ensures SortedBy(SortBy(s, cmp), cmp)
    decreases |s|
  {
    if |s| > 0 {
      var init := s[..|s| - 1];
      assert forall e :: e in init ==> e in s;
      SortBySortedIn(init, cmp, dom);
      var r := SortBy(init, cmp);
      forall e | e in r
        ensures e in dom
      {
        assert e in multiset(r);
        assert e in multiset(init);
      }
      InsertSorted(r, s[|s| - 1], cmp, dom);
    }
  }

  /** Any comparator derived from an integer key (`(a, b) => key(a) - key(b)`) is consistent. */
  lemma KeyComparatorConsistent<T>(dom: seq<T>, key: T -> int)
    ensures ConsistentOn(dom, (a: T, b: T) => key(a) - key(b))
  {
  }

  /** `(a, b) => a - b`: ascending numeric order. */
  function IntCmp(): (int, int) -> int
  {
    (a: int, b: int) => a - b
  }

  predicate Ascending(s: seq<int>)
  {
    forall i, j :: 0 <= i < j < |s| ==> s[i] <= s[j]
  }

  /** Sorting numbers with `(a, b) => a - b` yields them in ascending order. */
  lemma SortIntsAscending(s: seq<int>)
    ensures Ascending(SortBy(s, IntCmp()))
    ensures multiset(SortBy(s, IntCmp())) == multiset(s)
  {
    assert ConsistentOn(s, IntCmp());
    SortBySorted(s, IntCmp());
  }

  /** Two ascending lists with the same elements, counted with multiplicity, are the same list. */
  lemma {:induction false} AscendingUnique(a: seq<int>, b: seq<int>)
    requires Ascending(a) && Ascending(b)
    requires multiset(a) == multiset(b)
    ensures a == b
    decreases |a|
  {
    assert |a| == |multiset(a)| && |b| == |multiset(b)|;
    if |a| > 0 {
      HeadsAgree(a, b);
      AscendingTail(a);
      AscendingTail(b);
      AscendingUnique(a[1..], b[1..]);
      assert a == [a[0]] + a[1..] && b == [b[0]] + b[1..];
    }
  }

  lemma HeadsAgree(a: seq<int>, b: seq<int>)
    requires Ascending(a) && Ascending(b) && |a| > 0 && |b| > 0
    requires multiset(a) == multiset(b)
    ensures a[0] == b[0]
    ensures multiset(a[1..]) == multiset(b[1..])
  {
    HeadIsLeast(a, b[0]);
    HeadIsLeast(b, a[0]);
    TailMultiset(a);
    TailMultiset(b);
  }

  lemma AscendingTail(a: seq<int>)
    requires Ascending(a) && |a| > 0
    ensures Ascending(a[1..])
  {
    forall i, j | 0 <= i < j < |a[1..]| ensures a[1..][i] <= a[1..][j] {
      assert a[1..][i] == a[i + 1] && a[1..][j] == a[j + 1];
    }
  }

  lemma HeadIsLeast(a: seq<int>, x: int)
    requires Ascending(a) && |a| > 0 && x in multiset(a)
    ensures a[0] <= x
  {
    var k :| 0 <= k < |a| && a[k] == x;
    assert k == 0 || a[0] <= a[k];
  }

  lemma TailMultiset(a: seq<int>)
    requires |a| > 0
    ensures multiset(a[1..]) == multiset(a) - multiset{a[0]}
  {
    assert a == [a[0]] + a[1..];
  }

  // ---------------------------------------------------------------------
  // localeCompare
  // ---------------------------------------------------------------------

  /** `a.localeCompare(b)` as code-unit lexicographic order. */
  function StrCmp(a: string, b: string): (r: int)
    ensures -1 <= r <= 1
  {
    if |a| == 0 then (if |b| == 0 then 0 else -1)
    else if |b| == 0 then 1
    else if a[0] < b[0] then -1
    else if a[0] > b[0] then 1
    else StrCmp(a[1..], b[1..])
  }

  lemma {:induction false} StrCmpAntisymmetric(a: string, b: string)
    ensures StrCmp(a, b) == -StrCmp(b, a)
    ensures StrCmp(a, b) == 0 <==> a == b
    decreases |a|
  {
    if |a| > 0 && |b| > 0 && a[0] == b[0] {
      StrCmpAntisymmetric(a[1..], b[1..]);
      if a[1..] == b[1..] {
        assert a == [a[0]] + a[1..] && b == [b[0]] + b[1..];
      }
    }
  }

  lemma {:induction false} StrCmpTransitive(a: string, b: string, c: string)
    requires StrCmp(a, b) <= 0 && StrCmp(b, c) <= 0
    ensures StrCmp(a, c) <= 0
    decreases |a|
  {
    if |a| > 0 && |b| > 0 && |c| > 0 && a[0] == b[0] && b[0] == c[0] {
      StrCmpTransitive(a[1..], b[1..], c[1..]);
    }
  }

  /** A proper prefix sorts first: `"12".localeCompare("12:00")` is negative. */
  lemma {:induction false} StrCmpPrefix(a: string, b: string)
    requires |a| < |b| && b[..|a|] == a
    ensures StrCmp(a, b) == -1
    decreases |a|
  {
    if |a| > 0 {
      assert a[0] == b[0];
      assert b[1..][..|a| - 1] == a[1..];
      StrCmpPrefix(a[1..], b[1..]);
    }
  }

  /** Lexicographic order is consistent on any list of strings, ascending or descending. */
  lemma StrCmpConsistent(dom: seq<string>)
    ensures ConsistentOn(dom, StrCmp)
    ensures ConsistentOn(dom, (a: string, b: string) => StrCmp(b, a))
  {
    forall a, b | StrCmp(a, b) > 0
      ensures StrCmp(b, a) < 0
    {
      StrCmpAntisymmetric(a, b);
    }
    forall a, b, c | StrCmp(a, b) <= 0 && StrCmp(b, c) <= 0
      ensures StrCmp(a, c) <= 0
    {
      StrCmpTransitive(a, b, c);
    }
    forall a, b, c | StrCmp(b, a) <= 0 && StrCmp(c, b) <= 0
      ensures StrCmp(c, a) <= 0
    {
      StrCmpTransitive(c, b, a);
    }
  }

  // ---------------------------------------------------------------------
  // Grouping into an insertion-ordered Map
  // ---------------------------------------------------------------------

  /** The distinct keys of `s` in order of first appearance (a Map's key order). */
  function FirstKeys<T, K(==)>(s: seq<T>, key: T -> K): (ks: seq<K>)
    ensures forall i, j :: 0 <= i < j < |ks| ==> ks[i] != ks[j]
    ensures forall i :: 0 <= i < |s| ==> key(s[i]) in ks
    ensures forall k :: k in ks ==> exists i :: 0 <= i < |s| && key(s[i]) == k
  {
    if |s| == 0 then []
    else
      var init := s[..|s| - 1];
      var ks := FirstKeys(init, key);
      assert forall i :: 0 <= i < |init| ==> init[i] == s[i];
      if key(s[|s| - 1]) in ks then ks else ks + [key(s[|s| - 1])]
  }

  /** The items of `s` whose key is `k`, in their original order. */
  function Select<T, K(==)>(s: seq<T>, key: T -> K, k: K): (r: seq<T>)
    ensures |r| <= |s|
    ensures forall i :: 0 <= i < |r| ==> key(r[i]) == k
  {
    if |s| == 0 then []
    else Select(s[..|s| - 1], key, k) + (if key(s[|s| - 1]) == k then [s[|s| - 1]] else [])
  }

  lemma {:induction false} SelectMembers<T, K>(s: seq<T>, key: T -> K, k: K)
    ensures forall i :: 0 <= i < |s| && key(s[i]) == k ==> s[i] in Select(s, key, k)
    ensures forall x :: x in Select(s, key, k) ==> x in s
  {
    if |s| > 0 {
      var init := s[..|s| - 1];
      SelectMembers(init, key, k);
      assert forall i :: 0 <= i < |init| ==> init[i] == s[i];
    }
  }

  /** The groups `[key, items]` of `s`, keys in first-appearance order. */
  function Grouped<T, K(==)>(s: seq<T>, key: T -> K): (g: seq<(K, seq<T>)>)
  {
    var ks := FirstKeys(s, key);
    seq(|ks|, j requires 0 <= j < |ks| => (ks[j], Select(s, key, ks[j])))
  }

  /** Every item is found in the group of its own key. */
  lemma GroupedContainsEveryItem<T, K>(s: seq<T>, key: T -> K, i: nat)
    requires i < |s|
    ensures exists j :: 0 <= j < |Grouped(s, key)| && Grouped(s, key)[j].0 == key(s[i]) && s[i] in Grouped(s, key)[j].1
  {
    var ks := FirstKeys(s, key);
    var j :| 0 <= j < |ks| && ks[j] == key(s[i]);
    SelectMembers(s, key, ks[j]);
    assert Grouped(s, key)[j] == (ks[j], Select(s, key, ks[j]));
  }

  function Flatten<T, K>(gs: seq<(K, seq<T>)>): seq<T>
  {
    if |gs| == 0 then [] else Flatten(gs[..|gs| - 1]) + gs[|gs| - 1].1
  }

  lemma {:induction false} FlattenUpdate<T, K>(gs: seq<(K, seq<T>)>, j: nat, x: T)
    requires j < |gs|
    ensures multiset(Flatten(gs[j := (gs[j].0, gs[j].1 + [x])])) == multiset(Flatten(gs)) + multiset{x}
    decreases |gs|
  {
    var n := |gs|;
    var hs := gs[j := (gs[j].0, gs[j].1 + [x])];
    assert Flatten(hs) == Flatten(hs[..n - 1]) + hs[n - 1].1;
    assert Flatten(gs) == Flatten(gs[..n - 1]) + gs[n - 1].1;
    if j == n - 1 {
      assert hs[..n - 1] == gs[..n - 1];
      assert hs[n - 1].1 == gs[n - 1].1 + [x];
    } else {
      assert hs[n - 1] == gs[n - 1];
      assert hs[..n - 1] == gs[..n - 1][j := (gs[j].0, gs[j].1 + [x])];
      FlattenUpdate(gs[..n - 1], j, x);
    }
  }

  lemma FlattenAppend<T, K>(gs: seq<(K, seq<T>)>, g: (K, seq<T>))
    ensures Flatten(gs + [g]) == Flatten(gs) + g.1
  {
    assert (gs + [g])[..|gs|] == gs;
  }

  lemma SelectStep<T, K>(p: seq<T>, x: T, key: T -> K, k: K)
    ensures Select(p + [x], key, k) == Select(p, key, k) + (if key(x) == k then [x] else [])
  {
    assert (p + [x])[..|p|] == p;
  }

  lemma FirstKeysStep<T, K>(p: seq<T>, x: T, key: T -> K)
    ensures FirstKeys(p + [x], key) == if key(x) in FirstKeys(p, key) then FirstKeys(p, key) else FirstKeys(p, key) + [key(x)]
  {
    assert (p + [x])[..|p|] == p;
  }

  lemma {:induction false} SelectNone<T, K>(p: seq<T>, key: T -> K, k: K)
    requires forall i :: 0 <= i < |p| ==> key(p[i]) != k
    ensures Select(p, key, k) == []
  {
    if |p| > 0 {
      SelectNone(p[..|p| - 1], key, k);
    }
  }

  lemma SelectAbsent<T, K>(p: seq<T>, key: T -> K, k: K)
    requires k !in FirstKeys(p, key)
    ensures Select(p, key, k) == []
  {
    SelectNone(p, key, k);
  }

  lemma GroupedStepOld<T, K>(p: seq<T>, x: T, key: T -> K, j: nat)
    requires j < |FirstKeys(p, key)| && FirstKeys(p, key)[j] == key(x)
    ensures Grouped(p + [x], key) == Grouped(p, key)[j := (key(x), Grouped(p, key)[j].1 + [x])]
  {
    var ks := FirstKeys(p, key);
    var g := Grouped(p, key);
    var h := Grouped(p + [x], key);
    FirstKeysStep(p, x, key);
    assert key(x) in ks;
    assert FirstKeys(p + [x], key) == ks;
    var g' := g[j := (key(x), g[j].1 + [x])];
    assert |h| == |ks| == |g'|;
    forall t | 0 <= t < |ks|
      ensures h[t] == g'[t]
    {
      SelectStep(p, x, key, ks[t]);
      assert h[t] == (ks[t], Select(p + [x], key, ks[t]));
      assert g[t] == (ks[t], Select(p, key, ks[t]));
      if t != j {
        assert ks[t] != key(x);
        assert Select(p + [x], key, ks[t]) == Select(p, key, ks[t]);
      } else {
        assert Select(p + [x], key, ks[t]) == Select(p, key, ks[t]) + [x];
      }
    }
  }

  lemma GroupedStepNew<T, K>(p: seq<T>, x: T, key: T -> K)
    requires key(x) !in FirstKeys(p, key)
    ensures Grouped(p + [x], key) == Grouped(p, key) + [(key(x), [x])]
  {
    var ks := FirstKeys(p, key);
    var g := Grouped(p, key);
    var h := Grouped(p + [x], key);
    FirstKeysStep(p, x, key);
    SelectAbsent(p, key, key(x));
    var g' := g + [(key(x), [x])];
    assert |h| == |ks| + 1 == |g'|;
    forall t | 0 <= t < |g'|
      ensures h[t] == g'[t]
    {
      var kt := (ks + [key(x)])[t];
      SelectStep(p, x, key, kt);
      assert h[t] == (kt, Select(p + [x], key, kt));
      if t < |ks| {
        assert kt == ks[t] != key(x);
        assert g[t] == (ks[t], Select(p, key, ks[t]));
        assert Select(p + [x], key, kt) == Select(p, key, kt);
      } else {
        assert Select(p + [x], key, kt) == [x];
      }
    }
  }

  /** How the groups change when one more item arrives. */
  lemma GroupedStep<T, K>(p: seq<T>, x: T, key: T -> K)
    ensures key(x) in FirstKeys(p, key) ==>
      exists j :: 0 <= j < |Grouped(p, key)| && Grouped(p, key)[j].0 == key(x) &&
        Grouped(p + [x], key) == Grouped(p, key)[j := (key(x), Grouped(p, key)[j].1 + [x])]
    ensures key(x) !in FirstKeys(p, key) ==>
      Grouped(p + [x], key) == Grouped(p, key) + [(key(x), [x])]
  {
    var ks := FirstKeys(p, key);
    if key(x) in ks {
      var j :| 0 <= j < |ks| && ks[j] == key(x);
      GroupedStepOld(p, x, key, j);
    } else {
      GroupedStepNew(p, x, key);
    }
  }

  /** Grouping loses and invents nothing: the groups together are a permutation of the input. */
  lemma {:induction false} FlattenGrouped<T, K>(s: seq<T>, key: T -> K)
    ensures multiset(Flatten(Grouped(s, key))) == multiset(s)
    decreases |s|
  {
    if |s| > 0 {
      var p := s[..|s| - 1];
      var x := s[|s| - 1];
      assert s == p + [x];
      FlattenGrouped(p, key);
      GroupedStep(p, x, key);
      if key(x) in FirstKeys(p, key) {
        var j :| 0 <= j < |Grouped(p, key)| && Grouped(p, key)[j].0 == key(x) &&
          Grouped(p + [x], key) == Grouped(p, key)[j := (key(x), Grouped(p, key)[j].1 + [x])];
        FlattenUpdate(Grouped(p, key), j, x);
      } else {
        FlattenAppend(Grouped(p, key), (key(x), [x]));
      }
    }
  }

  /**
   * `items.forEach(x => { if (!m.has(k)) m.set(k, []); m.get(k).push(x) })`
   * for `k = key(x)`, with the Map as an ordered list of entries.
   */
  method GroupBy<T, K(==)>(items: seq<T>, key: T -> K) returns (groups: seq<(K, seq<T>)>)
    ensures groups == Grouped(items, key)
  {
    groups := [];
    var i := 0;
    while i < |items|
      invariant 0 <= i <= |items|
      invariant groups == Grouped(items[..i], key)
    {
      var x := items[i];
      var k := key(x);
      var j := 0;
      while j < |groups| && groups[j].0 != k
        invariant 0 <= j <= |groups|
        invariant forall t :: 0 <= t < j ==> groups[t].0 != k
      {
        j := j + 1;
      }
      assert items[..i + 1] == items[..i] + [x];
      GroupedStep(items[..i], x, key);
      if j < |groups| {
        assert k in FirstKeys(items[..i], key);
        groups := groups[j := (k, groups[j].1 + [x])];
      } else {
        assert forall t :: 0 <= t < |FirstKeys(items[..i], key)| ==> FirstKeys(items[..i], key)[t] != k;
        groups := groups + [(k, [x])];
      }
      i := i + 1;
    }
    assert items[..i] == items;
  }

  // ---------------------------------------------------------------------
  // Map entries sorted by key, newest date first
  // ---------------------------------------------------------------------

  predicate Distinct<K(==)>(ks: seq<K>)
  {
    forall i, j :: 0 <= i < j < |ks| ==> ks[i] != ks[j]
  }

  /** The keys of a list of Map entries. */
  function Keys<K, T>(gs: seq<(K, seq<T>)>): (ks: seq<K>)
    ensures |ks| == |gs| && forall j :: 0 <= j < |gs| ==> ks[j] == gs[j].0
  {
    if |gs| == 0 then [] else Keys(gs[..|gs| - 1]) + [gs[|gs| - 1].0]
  }

  lemma KeysAppend<K, T>(gs: seq<(K, seq<T>)>, g: (K, seq<T>))
    ensures Keys(gs + [g]) == Keys(gs) + [g.0]
    ensures Flatten(gs + [g]) == Flatten(gs) + g.1
  {
    assert (gs + [g])[..|gs|] == gs;
  }

  /** Inserting an entry adds its key and nothing else. */
  lemma {:induction false} InsertKeys<K, T>(s: seq<(K, seq<T>)>, x: (K, seq<T>), cmp: ((K, seq<T>), (K, seq<T>)) -> int)
    ensures multiset(Keys(Insert(s, x, cmp))) == multiset(Keys(s)) + multiset{x.0}
    decreases |s|
  {
    if |s| == 0 {
      KeysAppend([], x);
    } else if cmp(s[|s| - 1], x) <= 0 {
      KeysAppend(s, x);
    } else {
      var init := s[..|s| - 1];
      var last := s[|s| - 1];
      assert s == init + [last];
      assert Insert(s, x, cmp) == Insert(init, x, cmp) + [last];
      InsertKeys(init, x, cmp);
      KeysAppend(Insert(init, x, cmp), last);
      KeysAppend(init, last);
    }
  }

  /** Inserting an entry adds its items and nothing else. */
  lemma {:induction false} InsertFlatten<K, T>(s: seq<(K, seq<T>)>, x: (K, seq<T>), cmp: ((K, seq<T>), (K, seq<T>)) -> int)
    ensures multiset(Flatten(Insert(s, x, cmp))) == multiset(Flatten(s)) + multiset(x.1)
    decreases |s|
  {
    if |s| == 0 {
      KeysAppend([], x);
    } else if cmp(s[|s| - 1], x) <= 0 {
      KeysAppend(s, x);
    } else {
      var init := s[..|s| - 1];
      var last := s[|s| - 1];
      assert s == init + [last];
      assert Insert(s, x, cmp) == Insert(init, x, cmp) + [last];
      InsertFlatten(init, x, cmp);
      KeysAppend(Insert(init, x, cmp), last);
      KeysAppend(init, last);
    }
  }

  /** Sorting the entries keeps the multiset of keys and of items. */
  lemma {:induction false} SortEntries<K, T>(s: seq<(K, seq<T>)>, cmp: ((K, seq<T>), (K, seq<T>)) -> int)
    ensures multiset(Keys(SortBy(s, cmp))) == multiset(Keys(s))
    ensures multiset(Flatten(SortBy(s, cmp))) == multiset(Flatten(s))
    decreases |s|
  {
    if |s| > 0 {
      var init := s[..|s| - 1];
      var last := s[|s| - 1];
      assert s == init + [last];
      SortEntries(init, cmp);
      assert SortBy(s, cmp) == Insert(SortBy(init, cmp), last, cmp);
      InsertKeys(SortBy(init, cmp), last, cmp);
      InsertFlatten(SortBy(init, cmp), last, cmp);
      KeysAppend(init, last);
    }
  }

  lemma {:induction false} DistinctCount<K>(ks: seq<K>)
    requires Distinct(ks)
    ensures forall k :: multiset(ks)[k] <= 1
    decreases |ks|
  {
    if |ks| > 0 {
      var init := ks[..|ks| - 1];
      assert ks == init + [ks[|ks| - 1]];
      DistinctCount(init);
      assert ks[|ks| - 1] !in init;
    }
  }

  lemma CountDistinct<K>(ks: seq<K>)
    requires forall k :: multiset(ks)[k] <= 1
    ensures Distinct(ks)
  {
    forall i, j | 0 <= i < j < |ks| ensures ks[i] != ks[j] {
      assert ks == ks[..i] + [ks[i]] + ks[i + 1..j] + [ks[j]] + ks[j + 1..];
      assert multiset(ks)[ks[i]] >= multiset([ks[i]] + ks[i + 1..j] + [ks[j]])[ks[i]];
    }
  }

  /** `entries.sort(([a], [b]) => b.localeCompare(a))`. */
  function NewestFirstCmp<T>(): ((string, seq<T>), (string, seq<T>)) -> int
  {
    (a: (string, seq<T>), b: (string, seq<T>)) => StrCmp(b.0, a.0)
  }

  function NewestFirst<T>(gs: seq<(string, seq<T>)>): seq<(string, seq<T>)>
  {
    SortBy(gs, NewestFirstCmp<T>())
  }

  lemma NewestFirstConsistent<T>(gs: seq<(string, seq<T>)>)
    ensures ConsistentOn(gs, NewestFirstCmp<T>())
  {
    forall a: (string, seq<T>), b: (string, seq<T>) | NewestFirstCmp<T>()(a, b) > 0
      ensures NewestFirstCmp<T>()(b, a) < 0
    {
      StrCmpAntisymmetric(a.0, b.0);
    }
    forall a: (string, seq<T>), b: (string, seq<T>), c: (string, seq<T>) | NewestFirstCmp<T>()(a, b) <= 0 && NewestFirstCmp<T>()(b, c) <= 0
      ensures NewestFirstCmp<T>()(a, c) <= 0
    {
      StrCmpTransitive(c.0, b.0, a.0);
    }
  }

  /** Sorting the groups loses none of them. */
  lemma NewestFirstContains<T>(gs: seq<(string, seq<T>)>, j0: nat)
    requires j0 < |gs|
    ensures exists j :: 0 <= j < |NewestFirst(gs)| && NewestFirst(gs)[j] == gs[j0]
  {
    NewestFirstConsistent(gs);
    SortBySorted(gs, NewestFirstCmp<T>());
    assert gs[j0] in multiset(gs);
    assert gs[j0] in NewestFirst(gs);
  }

  /** Every sorted group is one of the groups sorted. */
  lemma NewestFirstFrom<T>(gs: seq<(string, seq<T>)>, j: nat)
    requires j < |NewestFirst(gs)|
    ensures exists j0 :: 0 <= j0 < |gs| && gs[j0] == NewestFirst(gs)[j]
  {
    NewestFirstConsistent(gs);
    SortBySorted(gs, NewestFirstCmp<T>());
    assert NewestFirst(gs)[j] in multiset(NewestFirst(gs));
    assert NewestFirst(gs)[j] in gs;
  }

  /** After sorting, each group still holds only items of its own key. */
  lemma NewestFirstGroupsKeyed<T>(s: seq<T>, key: T -> string)
    ensures var g := NewestFirst(Grouped(s, key));
      forall j, x :: 0 <= j < |g| && x in g[j].1 ==> key(x) == g[j].0
  {
    var raw := Grouped(s, key);
    var ks := FirstKeys(s, key);
    var g := NewestFirst(raw);
    forall j, x | 0 <= j < |g| && x in g[j].1 ensures key(x) == g[j].0 {
      NewestFirstFrom(raw, j);
      var j0 :| 0 <= j0 < |raw| && raw[j0] == g[j];
      var sel := Select(s, key, ks[j0]);
      assert raw[j0] == (ks[j0], sel);
      var i :| 0 <= i < |sel| && sel[i] == x;
    }
  }

  /**
   * With distinct keys, the sorted entries are the same entries with the
   * same items, each key once, keys strictly decreasing.
   */
  lemma NewestFirstShape<T>(gs: seq<(string, seq<T>)>)
    requires Distinct(Keys(gs))
    ensures var r := NewestFirst(gs);
      && multiset(r) == multiset(gs)
      && multiset(Flatten(r)) == multiset(Flatten(gs))
      && Distinct(Keys(r))
      && forall i, j :: 0 <= i < j < |r| ==> StrCmp(r[i].0, r[j].0) > 0
  {
    var r := NewestFirst(gs);
    NewestFirstConsistent(gs);
    SortBySorted(gs, NewestFirstCmp<T>());
    SortEntries(gs, NewestFirstCmp<T>());
    DistinctCount(Keys(gs));
    CountDistinct(Keys(r));
    forall i, j | 0 <= i < j < |r| ensures StrCmp(r[i].0, r[j].0) > 0 {
      assert NewestFirstCmp<T>()(r[i], r[j]) <= 0;
      assert Keys(r)[i] != Keys(r)[j];
      StrCmpAntisymmetric(r[i].0, r[j].0);
    }
  }
}
