/** The array operations every collection of the store and every view is built
    from: `filter`, replace-by-id (`map`), remove-by-id, `find` and the summing
    `reduce`, together with what they preserve. An entity's id is read through a
    `key` function, so each operation is written once for clients, jobs, quotes
    and quote items alike. */
module Collections {
  import opened Types

  /** Some element of `s` has the id `id`. */
  predicate HasId<T(==)>(s: seq<T>, key: T -> Id, id: Id) {
    exists i :: 0 <= i < |s| && key(s[i]) == id
  }

  /** No two elements of `s` share an id. */
  predicate UniqueIds<T(==)>(s: seq<T>, key: T -> Id) {
    forall i, j :: 0 <= i < j < |s| ==> key(s[i]) != key(s[j])
  }

  /** No element of `a` shares an id with an element of `b`. */
  predicate DisjointIds<T(==)>(a: seq<T>, b: seq<T>, key: T -> Id) {
    forall i, j :: 0 <= i < |a| && 0 <= j < |b| ==> key(a[i]) != key(b[j])
  }

  lemma UniqueConcat<T>(a: seq<T>, b: seq<T>, key: T -> Id)
    ensures UniqueIds(a + b, key) <==> UniqueIds(a, key) && UniqueIds(b, key) && DisjointIds(a, b, key)
  {
    var c := a + b;
    if UniqueIds(c, key) {
      forall i, j | 0 <= i < j < |a| ensures key(a[i]) != key(a[j]) {
        assert c[i] == a[i] && c[j] == a[j];
      }
      forall i, j | 0 <= i < j < |b| ensures key(b[i]) != key(b[j]) {
        assert c[|a| + i] == b[i] && c[|a| + j] == b[j];
      }
      forall i, j | 0 <= i < |a| && 0 <= j < |b| ensures key(a[i]) != key(b[j]) {
        assert c[i] == a[i] && c[|a| + j] == b[j];
      }
    }
    if UniqueIds(a, key) && UniqueIds(b, key) && DisjointIds(a, b, key) {
      forall i, j | 0 <= i < j < |c| ensures key(c[i]) != key(c[j]) {
        if j < |a| {
          assert c[i] == a[i] && c[j] == a[j];
        } else if i < |a| {
          assert c[i] == a[i] && c[j] == b[j - |a|];
        } else {
          assert c[i] == b[i - |a|] && c[j] == b[j - |a|];
        }
      }
    }
  }

  /** Appending performs no uniqueness check: the ids stay pairwise distinct
      exactly when they were before and the new id was absent. */
  lemma AppendUniqueIds<T>(s: seq<T>, key: T -> Id, x: T)
    ensures UniqueIds(s + [x], key) <==> UniqueIds(s, key) && !HasId(s, key, key(x))
  {
    UniqueConcat(s, [x], key);
    if HasId(s, key, key(x)) {
      var i :| 0 <= i < |s| && key(s[i]) == key(x);
      assert !DisjointIds(s, [x], key) by { assert key(s[i]) == key([x][0]); }
    }
  }

  // ----- filter -----

  /** `s.filter(p)`: the elements satisfying `p`, in their original order. */
  function Filter<T(==)>(s: seq<T>, p: T -> bool): (r: seq<T>)
    ensures |r| <= |s|
    ensures forall i :: 0 <= i < |r| ==> r[i] in s && p(r[i])
    ensures forall i :: 0 <= i < |s| && p(s[i]) ==> s[i] in r
  {
    if s == [] then []
    else (if p(s[0]) then [s[0]] else []) + Filter(s[1..], p)
  }

  /** Filtering keeps relative order: it distributes over concatenation. */
  lemma {:induction false} FilterConcat<T>(a: seq<T>, b: seq<T>, p: T -> bool)
    ensures Filter(a + b, p) == Filter(a, p) + Filter(b, p)
  {
    if a == [] {
      assert a + b == b;
    } else {
      assert (a + b)[0] == a[0] && (a + b)[1..] == a[1..] + b;
      FilterConcat(a[1..], b, p);
    }
  }

  /** A filter that rejects nothing is the identity. */
  lemma {:induction false} FilterKeepsAll<T>(s: seq<T>, p: T -> bool)
    requires forall y :: y in s ==> p(y)
    ensures Filter(s, p) == s
  {
    if s != [] {
      assert s[0] in s;
      forall y | y in s[1..] ensures p(y) { assert y in s; }
      FilterKeepsAll(s[1..], p);
      assert s == [s[0]] + s[1..];
    }
  }

  /** Filtering by a condition no element meets leaves nothing. */
  lemma {:induction false} FilterKeepsNone<T>(s: seq<T>, p: T -> bool)
    requires forall y :: y in s ==> !p(y)
    ensures Filter(s, p) == []
  {
    if s != [] {
      assert s[0] in s;
      forall y | y in s[1..] ensures !p(y) { assert y in s; }
      FilterKeepsNone(s[1..], p);
    }
  }

  lemma FilterIdempotent<T>(s: seq<T>, p: T -> bool)
    ensures Filter(Filter(s, p), p) == Filter(s, p)
  {
    FilterKeepsAll(Filter(s, p), p);
  }

  /** Each value occurs in the filtered sequence exactly as often as in `s`
      when it satisfies `p`, and not at all otherwise. */
  lemma {:induction false} FilterMultiset<T>(s: seq<T>, p: T -> bool)
    ensures forall y :: multiset(Filter(s, p))[y] == if p(y) then multiset(s)[y] else 0
  {
    if s != [] {
      FilterMultiset(s[1..], p);
      assert s == [s[0]] + s[1..];
      assert multiset(s) == multiset{s[0]} + multiset(s[1..]);
    }
  }

  /** Filtering two permutations of each other yields permutations of each other. */
  lemma FilterPermutation<T>(a: seq<T>, b: seq<T>, p: T -> bool)
    requires multiset(a) == multiset(b)
    ensures multiset(Filter(a, p)) == multiset(Filter(b, p))
  {
    FilterMultiset(a, p);
    FilterMultiset(b, p);
  }

  /** The filter predicate keeping what both `p` and `q` keep. */
  function Both<T>(p: T -> bool, q: T -> bool): T -> bool {
    (y: T) => p(y) && q(y)
  }

  /** Swapping a kept element for a dropped one removes one copy of it from
      the filtered elements. */
  lemma FilterSwapOut<T>(a: seq<T>, y: T, y': T, b: seq<T>, p: T -> bool)
    requires p(y) && !p(y')
    ensures multiset(Filter(a + [y'] + b, p)) == multiset(Filter(a + [y] + b, p)) - multiset{y}
  {
    var fa, fb := Filter(a, p), Filter(b, p);
    FilterSplit(a, y', b, p);
    FilterSplit(a, y, b, p);
    DropMiddle(fa, y, fb);
  }

  /** Leaving `y` out of `a + [y] + b` removes one copy of it. */
  lemma DropMiddle<T>(a: seq<T>, y: T, b: seq<T>)
    ensures multiset(a + [] + b) == multiset(a + [y] + b) - multiset{y}
  {
    assert a + [] + b == a + b;
    assert multiset(a + [y] + b) == multiset(a) + multiset{y} + multiset(b);
  }

  /** Filtering twice is filtering once by the conjunction. */
  lemma {:induction false} FilterFilter<T>(s: seq<T>, p: T -> bool, q: T -> bool)
    ensures Filter(Filter(s, p), q) == Filter(s, Both(p, q))
  {
    if s != [] {
      var h := if p(s[0]) then [s[0]] else [];
      FilterConcat(h, Filter(s[1..], p), q);
      FilterFilter(s[1..], p, q);
      assert Filter(h, q) == if p(s[0]) && q(s[0]) then [s[0]] else [] by {
        if h != [] { assert h[1..] == []; }
      }
    }
  }

  /** Filtering `a + [y] + b` splits at `y`. */
  lemma FilterSplit<T>(a: seq<T>, y: T, b: seq<T>, p: T -> bool)
    ensures Filter(a + [y] + b, p) == Filter(a, p) + (if p(y) then [y] else []) + Filter(b, p)
  {
    assert Filter([y], p) == if p(y) then [y] else [] by {
      assert [y][1..] == [];
      assert Filter([y][1..], p) == [];
    }
    FilterConcat(a, [y], p);
    FilterConcat(a + [y], b, p);
  }

  /** A filtered sequence keeps the ids pairwise distinct when they were. */
  lemma {:induction false} FilterKeepsUnique<T>(s: seq<T>, key: T -> Id, p: T -> bool)
    requires UniqueIds(s, key)
    ensures UniqueIds(Filter(s, p), key)
  {
    if s != [] {
      var t := s[1..];
      assert UniqueIds(t, key) by {
        forall i, j | 0 <= i < j < |t| ensures key(t[i]) != key(t[j]) {
          assert t[i] == s[i + 1] && t[j] == s[j + 1];
        }
      }
      FilterKeepsUnique(t, key, p);
      var h := if p(s[0]) then [s[0]] else [];
      var f := Filter(t, p);
      forall i, j | 0 <= i < |h| && 0 <= j < |f| ensures key(h[i]) != key(f[j]) {
        assert f[j] in t;
        var k :| 0 <= k < |t| && t[k] == f[j];
        assert t[k] == s[k + 1];
      }
      UniqueConcat(h, f, key);
    }
  }

  // ----- replace by id -----

  /** `s.map(y => key(y) === key(x) ? x : y)`: every element carrying `x`'s id
      becomes `x`; all others stay where they are. */
  function ReplaceById<T(==)>(s: seq<T>, key: T -> Id, x: T): (r: seq<T>)
    ensures |r| == |s|
    ensures forall i :: 0 <= i < |s| ==> r[i] == if key(s[i]) == key(x) then x else s[i]
  {
    if s == [] then []
    else [if key(s[0]) == key(x) then x else s[0]] + ReplaceById(s[1..], key, x)
  }

  /** Replacing under an id nobody has changes nothing. */
  lemma ReplaceAbsent<T>(s: seq<T>, key: T -> Id, x: T)
    requires !HasId(s, key, key(x))
    ensures ReplaceById(s, key, x) == s
  {
    var r := ReplaceById(s, key, x);
    forall i | 0 <= i < |s| ensures r[i] == s[i] {
      assert key(s[i]) != key(x);
    }
  }

  /** Replacing keeps the id at every position, so pairwise distinct ids stay distinct. */
  lemma ReplaceKeepsIds<T>(s: seq<T>, key: T -> Id, x: T)
    ensures forall i :: 0 <= i < |s| ==> key(ReplaceById(s, key, x)[i]) == key(s[i])
    ensures UniqueIds(ReplaceById(s, key, x), key) <==> UniqueIds(s, key)
  {
    var r := ReplaceById(s, key, x);
    assert forall i :: 0 <= i < |s| ==> key(r[i]) == key(s[i]);
  }

  /** With distinct ids, replacing the element at `i` by a value with the same id
      touches position `i` only. */
  lemma ReplaceUniqueAt<T>(s: seq<T>, key: T -> Id, i: int, x: T)
    requires UniqueIds(s, key) && 0 <= i < |s| && key(x) == key(s[i])
    ensures ReplaceById(s, key, x) == s[..i] + [x] + s[i + 1..]
  {
    forall k | 0 <= k < |s| && k != i ensures key(s[k]) != key(x) {
      UniqueApart(s, key, i, k);
    }
    assert ReplaceById(s, key, x) == s[i := x];
    UpdateAt(s, i, x);
  }

  /** Two positions of a sequence with distinct ids hold distinct ids. */
  lemma UniqueApart<T>(s: seq<T>, key: T -> Id, i: int, k: int)
    requires UniqueIds(s, key) && 0 <= i < |s| && 0 <= k < |s| && i != k
    ensures key(s[i]) != key(s[k])
  {
    if k < i { } else { }
  }

  /** Updating position `i` is splicing in the new value there. */
  lemma UpdateAt<T>(s: seq<T>, i: int, x: T)
    requires 0 <= i < |s|
    ensures s[i := x] == s[..i] + [x] + s[i + 1..]
  {
  }

  // ----- remove by id -----

  /** The filter predicate of remove-by-id. */
  function Excluding<T(==)>(key: T -> Id, id: Id): T -> bool {
    (y: T) => key(y) != id
  }

  /** `s.filter(y => key(y) !== id)`. */
  function RemoveById<T(==)>(s: seq<T>, key: T -> Id, id: Id): (r: seq<T>)
    ensures |r| <= |s|
    ensures forall i :: 0 <= i < |r| ==> r[i] in s && key(r[i]) != id
    ensures forall i :: 0 <= i < |s| && key(s[i]) != id ==> s[i] in r
  {
    Filter(s, Excluding(key, id))
  }

  /** Removing keeps the survivors in relative order. */
  lemma RemoveConcat<T>(a: seq<T>, b: seq<T>, key: T -> Id, id: Id)
    ensures RemoveById(a + b, key, id) == RemoveById(a, key, id) + RemoveById(b, key, id)
  {
    FilterConcat(a, b, Excluding(key, id));
  }

  /** Removing under an id nobody has changes nothing. */
  lemma RemoveAbsent<T>(s: seq<T>, key: T -> Id, id: Id)
    requires !HasId(s, key, id)
    ensures RemoveById(s, key, id) == s
  {
    forall y | y in s ensures Excluding(key, id)(y) {
      var i :| 0 <= i < |s| && s[i] == y;
    }
    FilterKeepsAll(s, Excluding(key, id));
  }

  /** Removing twice is removing once. */
  lemma RemoveIdempotent<T>(s: seq<T>, key: T -> Id, id: Id)
    ensures RemoveById(RemoveById(s, key, id), key, id) == RemoveById(s, key, id)
  {
    FilterIdempotent(s, Excluding(key, id));
  }

  lemma RemoveKeepsUnique<T>(s: seq<T>, key: T -> Id, id: Id)
    requires UniqueIds(s, key)
    ensures UniqueIds(RemoveById(s, key, id), key)
  {
    FilterKeepsUnique(s, key, Excluding(key, id));
  }

  /** With distinct ids, removing the id of the element at `i` removes exactly that element. */
  lemma RemoveUniqueAt<T>(s: seq<T>, key: T -> Id, i: int)
    requires UniqueIds(s, key) && 0 <= i < |s|
    ensures RemoveById(s, key, key(s[i])) == s[..i] + s[i + 1..]
  {
    UniqueSplit(s, key, i);
    RemoveSingle(s[i], s[..i], s[i + 1..], key);
    SplitAt(s, i);
  }

  /** With distinct ids, the id at `i` occurs nowhere else. */
  lemma UniqueSplit<T>(s: seq<T>, key: T -> Id, i: int)
    requires UniqueIds(s, key) && 0 <= i < |s|
    ensures !HasId(s[..i], key, key(s[i])) && !HasId(s[i + 1..], key, key(s[i]))
  {
    var a, b := s[..i], s[i + 1..];
    forall k | 0 <= k < |a| ensures key(a[k]) != key(s[i]) {
      assert a[k] == s[k];
    }
    forall k | 0 <= k < |b| ensures key(b[k]) != key(s[i]) {
      assert b[k] == s[i + 1 + k];
    }
  }

  lemma RemoveSingle<T>(y: T, a: seq<T>, b: seq<T>, key: T -> Id)
    requires !HasId(a, key, key(y)) && !HasId(b, key, key(y))
    ensures RemoveById(a + [y] + b, key, key(y)) == a + b
  {
    var id := key(y);
    assert Filter([y], Excluding(key, id)) == [] by {
      assert [y][1..] == [];
    }
    RemoveAbsent(a, key, id);
    RemoveAbsent(b, key, id);
    RemoveConcat(a, [y], key, id);
    RemoveConcat(a + [y], b, key, id);
  }

  // ----- find -----

  /** `s.find(y => key(y) === id)`: the FIRST element with that id, if any. */
  function FindById<T(==)>(s: seq<T>, key: T -> Id, id: Id): (r: Option<T>)
    ensures r.None? <==> !HasId(s, key, id)
    ensures r.Some? ==> exists i :: 0 <= i < |s| && s[i] == r.value && key(s[i]) == id &&
                          forall m :: 0 <= m < i ==> key(s[m]) != id
  {
    if s == [] then None
    else if key(s[0]) == id then Some(s[0])
    else
      var r := FindById(s[1..], key, id);
      assert forall m :: 0 < m < |s| ==> s[m] == s[1..][m - 1];
      if r.Some? then
        var i :| 0 <= i < |s[1..]| && s[1..][i] == r.value && key(s[1..][i]) == id &&
                 forall m :: 0 <= m < i ==> key(s[1..][m]) != id;
        assert s[i + 1] == r.value;
        r
      else r
  }

  /** With distinct ids, looking up the id of the element at `i` finds that element. */
  lemma FindUnique<T>(s: seq<T>, key: T -> Id, i: int)
    requires UniqueIds(s, key) && 0 <= i < |s|
    ensures FindById(s, key, key(s[i])) == Some(s[i])
  {
    var r := FindById(s, key, key(s[i]));
    var k :| 0 <= k < |s| && s[k] == r.value && key(s[k]) == key(s[i]) &&
             forall m :: 0 <= m < k ==> key(s[m]) != key(s[i]);
  }

  // ----- sum -----

  /** `s.reduce((acc, y) => acc + f(y), 0)`: a left fold starting from 0. */
  function Sum<T(==)>(s: seq<T>, f: T -> int): int {
    if s == [] then 0 else Sum(s[..|s| - 1], f) + f(s[|s| - 1])
  }

  /** A sum of nonnegative values is nonnegative. */
  lemma {:induction false} SumNonNegative<T>(s: seq<T>, f: T -> int)
    ensures (forall y :: y in s ==> f(y) >= 0) ==> Sum(s, f) >= 0
  {
    if s != [] && forall y :: y in s ==> f(y) >= 0 {
      forall y | y in s[..|s| - 1] ensures f(y) >= 0 { assert y in s; }
      SumNonNegative(s[..|s| - 1], f);
    }
  }

  lemma {:induction false} SumConcat<T>(a: seq<T>, b: seq<T>, f: T -> int)
    ensures Sum(a + b, f) == Sum(a, f) + Sum(b, f)
  {
    if b == [] {
      assert a + b == a;
    } else {
      var c := a + b;
      assert c[..|c| - 1] == a + b[..|b| - 1];
      assert c[|c| - 1] == b[|b| - 1];
      SumConcat(a, b[..|b| - 1], f);
    }
  }

  /** The sum does not depend on the order of the elements. */
  lemma {:induction false} SumPermutation<T>(a: seq<T>, b: seq<T>, f: T -> int)
    requires multiset(a) == multiset(b)
    ensures Sum(a, f) == Sum(b, f)
    decreases |a|
  {
    if a == [] {
      assert |b| == |multiset(b)| == 0;
    } else {
      var x := a[|a| - 1];
      var a' := a[..|a| - 1];
      assert a == a' + [x];
      assert multiset(a) == multiset(a') + multiset{x};
      assert x in multiset(b);
      var k :| 0 <= k < |b| && b[k] == x;
      var b' := b[..k] + b[k + 1..];
      MultisetRemoveAt(b, k);
      SumRemoveAt(b, k, f);
      SumPermutation(a', b', f);
      SumConcat(a', [x], f);
      SumSingle(x, f);
    }
  }

  /** Taking out the element at `k` removes one copy of it. */
  lemma MultisetRemoveAt<T>(b: seq<T>, k: int)
    requires 0 <= k < |b|
    ensures multiset(b[..k] + b[k + 1..]) == multiset(b) - multiset{b[k]}
  {
    var l, y, r := b[..k], b[k], b[k + 1..];
    assert b == l + [y] + r;
    DropMiddle(l, y, r);
    assert l + [] + r == l + r;
  }

  /** A sequence is its prefix, the element at `k` and its suffix. */
  lemma SplitAt<T>(b: seq<T>, k: int)
    requires 0 <= k < |b|
    ensures b == b[..k] + [b[k]] + b[k + 1..]
  {
  }

  /** Taking out the element at `k` removes its value from the sum. */
  lemma SumRemoveAt<T>(b: seq<T>, k: int, f: T -> int)
    requires 0 <= k < |b|
    ensures Sum(b, f) == Sum(b[..k] + b[k + 1..], f) + f(b[k])
  {
    SplitAt(b, k);
    SumSplit(b[..k], b[k], b[k + 1..], f);
    SumConcat(b[..k], b[k + 1..], f);
  }

  /** Over nonnegative values, the sum of a filtered sequence is at most the whole sum. */
  lemma {:induction false} SumFilterAtMost<T>(s: seq<T>, p: T -> bool, f: T -> int)
    requires forall y :: y in s ==> f(y) >= 0
    ensures Sum(Filter(s, p), f) <= Sum(s, f)
  {
    if s != [] {
      forall y | y in s[1..] ensures f(y) >= 0 { assert y in s; }
      SumFilterAtMost(s[1..], p, f);
      var h := if p(s[0]) then [s[0]] else [];
      SumConcat(h, Filter(s[1..], p), f);
      assert s == [s[0]] + s[1..];
      SumConcat([s[0]], s[1..], f);
      assert Sum([s[0]], f) == f(s[0]) by { assert [s[0]][..0] == []; }
      assert Sum(h, f) <= f(s[0]) by {
        if h == [] { } else { assert h[..0] == []; }
      }
    }
  }

  lemma SumSingle<T>(y: T, f: T -> int)
    ensures Sum([y], f) == f(y)
  {
    assert [y][..0] == [];
  }

  /** The sum over `a + [y] + b`, split at `y`. */
  lemma SumSplit<T>(a: seq<T>, y: T, b: seq<T>, f: T -> int)
    ensures Sum(a + [y] + b, f) == Sum(a, f) + f(y) + Sum(b, f)
  {
    SumConcat(a + [y], b, f);
    SumConcat(a, [y], f);
    SumSingle(y, f);
  }

  /** How a sum changes when the element at `i` is swapped for `x`. */
  lemma SumSwapAt<T>(s: seq<T>, i: int, x: T, f: T -> int)
    requires 0 <= i < |s|
    ensures Sum(s[..i] + [x] + s[i + 1..], f) == Sum(s, f) - f(s[i]) + f(x)
  {
    SplitAt(s, i);
    SumSplit(s[..i], s[i], s[i + 1..], f);
    SumSplit(s[..i], x, s[i + 1..], f);
  }

  /** The filtered sum over `a + [y] + b`, split at `y`. */
  lemma SumFilterSplit<T>(a: seq<T>, y: T, b: seq<T>, p: T -> bool, f: T -> int)
    ensures Sum(Filter(a + [y] + b, p), f)
         == Sum(Filter(a, p), f) + (if p(y) then f(y) else 0) + Sum(Filter(b, p), f)
  {
    FilterSplit(a, y, b, p);
    if p(y) {
      SumSplit(Filter(a, p), y, Filter(b, p), f);
    } else {
      assert Filter(a, p) + [] + Filter(b, p) == Filter(a, p) + Filter(b, p);
      SumConcat(Filter(a, p), Filter(b, p), f);
    }
  }

  /** How a filtered sum changes when the element at `i` is swapped for `x`:
      the old element's contribution leaves and the new one's arrives. */
  lemma SumFilterSwapAt<T>(s: seq<T>, i: int, x: T, p: T -> bool, f: T -> int)
    requires 0 <= i < |s|
    ensures Sum(Filter(s[..i] + [x] + s[i + 1..], p), f)
         == Sum(Filter(s, p), f) - (if p(s[i]) then f(s[i]) else 0) + (if p(x) then f(x) else 0)
  {
    SplitAt(s, i);
    SumFilterSplit(s[..i], s[i], s[i + 1..], p, f);
    SumFilterSplit(s[..i], x, s[i + 1..], p, f);
  }
}
