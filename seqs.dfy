/** Generic sequence helpers: JavaScript's `Array.prototype.filter` and `find`. */
module Seqs {
  import opened Wrappers

  /** `s.filter(keep)`: the elements that pass, in their original order. */
  function Filter<T(!new)>(s: seq<T>, keep: T -> bool): (r: seq<T>)
    ensures |r| <= |s|
    ensures forall x :: x in r <==> x in s && keep(x)
  {
    if s == [] then []
    else (if keep(s[0]) then [s[0]] else []) + Filter(s[1..], keep)
  }

  /** `a` is obtained from `b` by deleting elements (order preserved). */
  predicate IsSubsequence<T(==)>(a: seq<T>, b: seq<T>)
    decreases |b|
  {
    if b == [] then a == []
    else (a != [] && a[0] == b[0] && IsSubsequence(a[1..], b[1..])) || IsSubsequence(a, b[1..])
  }

  lemma {:induction false} FilterIsSubsequence<T(!new)>(s: seq<T>, keep: T -> bool)
    ensures IsSubsequence(Filter(s, keep), s)
  {
    if s != [] {
      FilterIsSubsequence(s[1..], keep);
      if keep(s[0]) {
        assert Filter(s, keep) == [s[0]] + Filter(s[1..], keep);
        assert Filter(s, keep)[1..] == Filter(s[1..], keep);
      } else {
        assert Filter(s, keep) == Filter(s[1..], keep);
      }
    }
  }

  /** When every element passes, the filter returns the sequence itself. */
  lemma {:induction false} FilterKeepsAll<T(!new)>(s: seq<T>, keep: T -> bool)
    requires forall i :: 0 <= i < |s| ==> keep(s[i])
    ensures Filter(s, keep) == s
  {
    if s != [] {
      FilterKeepsAll(s[1..], keep);
      assert [s[0]] + s[1..] == s;
    }
  }

  /** When no element passes, the filter is empty. */
  lemma {:induction false} FilterDropsAll<T(!new)>(s: seq<T>, keep: T -> bool)
    requires forall i :: 0 <= i < |s| ==> !keep(s[i])
    ensures Filter(s, keep) == []
  {
    if s != [] {
      FilterDropsAll(s[1..], keep);
    }
  }

  lemma {:induction false} FilterAppend<T(!new)>(a: seq<T>, b: seq<T>, keep: T -> bool)
    ensures Filter(a + b, keep) == Filter(a, keep) + Filter(b, keep)
  {
    if a == [] {
      assert a + b == b;
    } else {
      assert (a + b)[0] == a[0];
      assert (a + b)[1..] == a[1..] + b;
      FilterAppend(a[1..], b, keep);
    }
  }

  /** The index of the first element satisfying `p` (`findIndex`), if any. */
  function FirstIndex<T>(s: seq<T>, p: T -> bool): (r: Option<nat>)
    ensures r.Some? ==> r.value < |s| && p(s[r.value]) && forall j :: 0 <= j < r.value ==> !p(s[j])
    ensures r.None? ==> forall j :: 0 <= j < |s| ==> !p(s[j])
  {
    if s == [] then None
    else if p(s[0]) then Some(0)
    else match FirstIndex(s[1..], p)
      case None => None
      case Some(k) => Some(k + 1)
  }

  /** `s.find(p)`: the first element satisfying `p`, if any. */
  function First<T>(s: seq<T>, p: T -> bool): (r: Option<T>)
    ensures r.Some? <==> exists i :: 0 <= i < |s| && p(s[i])
    ensures r.Some? ==> r.value in s && p(r.value)
  {
    match FirstIndex(s, p)
    case None => None
    case Some(i) => Some(s[i])
  }

  /** Removes the element at `i`, keeping the others in order. */
  function RemoveAt<T>(s: seq<T>, i: nat): (r: seq<T>)
    requires i < |s|
    ensures |r| == |s| - 1
    ensures forall j :: 0 <= j < i ==> r[j] == s[j]
    ensures forall j :: i <= j < |r| ==> r[j] == s[j + 1]
  {
    s[..i] + s[i + 1..]
  }

  /** The first `n` elements, or all of them when there are fewer (`to_list(n)`). */
  function Take<T>(s: seq<T>, n: nat): (r: seq<T>)
    ensures |r| == if |s| <= n then |s| else n
    ensures r <= s
  {
    if |s| <= n then s else s[..n]
  }

  /** No two elements share a key (the collections' unique `id`). */
  ghost predicate UniqueBy<T, K>(s: seq<T>, key: T -> K) {
    forall i, j :: 0 <= i < j < |s| ==> key(s[i]) != key(s[j])
  }

  /** Under a unique key, two elements with the same key are the same element. */
  lemma UniqueKeyIdentifies<T, K>(s: seq<T>, key: T -> K)
    requires UniqueBy(s, key)
    ensures forall x, y :: x in s && y in s && key(x) == key(y) ==> x == y
  {
    forall x, y | x in s && y in s && key(x) == key(y) ensures x == y {
      var i :| 0 <= i < |s| && s[i] == x;
      var j :| 0 <= j < |s| && s[j] == y;
      assert i == j;
    }
  }

  lemma {:induction false} FilterKeepsUnique<T(!new), K>(s: seq<T>, keep: T -> bool, key: T -> K)
    requires UniqueBy(s, key)
    ensures UniqueBy(Filter(s, keep), key)
  {
    if s != [] {
      FilterKeepsUnique(s[1..], keep, key);
      if keep(s[0]) {
        var rest := Filter(s[1..], keep);
        forall x | x in rest ensures key(x) != key(s[0]) {
          var k :| 0 <= k < |s[1..]| && s[1..][k] == x;
          assert s[k + 1] == x;
        }
        PrependKeepsUnique(s[0], rest, key);
      }
    }
  }

  lemma PrependKeepsUnique<T, K>(x: T, s: seq<T>, key: T -> K)
    requires UniqueBy(s, key)
    requires forall y :: y in s ==> key(y) != key(x)
    ensures UniqueBy([x] + s, key)
  {
    var r := [x] + s;
    forall i, j | 0 <= i < j < |r| ensures key(r[i]) != key(r[j]) {
      if i == 0 {
        assert r[j] in s;
      } else {
        assert r[i] == s[i - 1] && r[j] == s[j - 1];
      }
    }
  }

  lemma AppendKeepsUnique<T, K>(s: seq<T>, x: T, key: T -> K)
    requires UniqueBy(s, key)
    requires forall y :: y in s ==> key(y) != key(x)
    ensures UniqueBy(s + [x], key)
  {
    var r := s + [x];
    forall i, j | 0 <= i < j < |r| ensures key(r[i]) != key(r[j]) {
      if j == |s| {
        assert r[i] in s;
      } else {
        assert r[i] == s[i] && r[j] == s[j];
      }
    }
  }

  lemma RemoveAtKeepsUnique<T, K>(s: seq<T>, i: nat, key: T -> K)
    requires i < |s| && UniqueBy(s, key)
    ensures UniqueBy(RemoveAt(s, i), key)
  {
    var r := RemoveAt(s, i);
    forall a, b | 0 <= a < b < |r| ensures key(r[a]) != key(r[b]) {
      var a' := if a < i then a else a + 1;
      var b' := if b < i then b else b + 1;
      assert r[a] == s[a'] && r[b] == s[b'];
    }
  }
}
