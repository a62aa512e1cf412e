/** Sequence searches and filters standing for JavaScript's `Array.find`,
    `Collection.find` and `filter`, with the facts about order the ticket
    and reaction-role rules need. */
module Seqs {
  import opened Options

  /** Index of the first element satisfying `p` (what `find` returns). */
  function FirstIndex<T>(s: seq<T>, p: T -> bool): (r: Option<nat>)
    ensures r.Some? ==> r.value < |s| && p(s[r.value])
    ensures r.Some? ==> forall j :: 0 <= j < r.value ==> !p(s[j])
    ensures r.None? <==> forall j :: 0 <= j < |s| ==> !p(s[j])
  {
    if s == [] then None
    else if p(s[0]) then Some(0)
    else match FirstIndex(s[1..], p)
      case None => None
      case Some(k) => Some(k + 1)
  }

  /** Two sequences on which `p` agrees position by position have the same
      first match. */
  lemma {:induction false} FirstIndexAgree<T, U>(a: seq<T>, p: T -> bool, b: seq<U>, q: U -> bool)
    requires |a| == |b| && forall j :: 0 <= j < |a| ==> p(a[j]) == q(b[j])
    ensures FirstIndex(a, p) == FirstIndex(b, q)
  {
    if a != [] {
      assert p(a[0]) == q(b[0]);
      assert forall j :: 0 <= j < |a| - 1 ==> a[1..][j] == a[j + 1] && b[1..][j] == b[j + 1];
      FirstIndexAgree(a[1..], p, b[1..], q);
    }
  }

  /** An element preceded by no match is the first match. */
  lemma FirstIndexOnly<T>(s: seq<T>, p: T -> bool, n: nat)
    requires n < |s| && p(s[n]) && forall a :: 0 <= a < n ==> !p(s[a])
    ensures FirstIndex(s, p) == Some(n)
  {
    var r := FirstIndex(s, p);
    assert r.Some?;
    assert !(r.value < n) && !(n < r.value);
  }

  /** Appending an element that does not match leaves the first match alone. */
  lemma {:induction false} FirstIndexAppend<T>(s: seq<T>, x: T, p: T -> bool)
    requires !p(x)
    ensures FirstIndex(s + [x], p) == FirstIndex(s, p)
  {
    if s != [] {
      assert (s + [x])[0] == s[0] && (s + [x])[1..] == s[1..] + [x];
      FirstIndexAppend(s[1..], x, p);
    }
  }

  /** `filter(p)`, keeping order. */
  function Filter<T(!new)>(s: seq<T>, p: T -> bool): (r: seq<T>)
    ensures |r| <= |s|
    ensures forall x :: x in r <==> x in s && p(x)
  {
    if s == [] then []
    else if p(s[0]) then [s[0]] + Filter(s[1..], p)
    else Filter(s[1..], p)
  }

  lemma {:induction false} FilterAppend<T(!new)>(a: seq<T>, b: seq<T>, p: T -> bool)
    ensures Filter(a + b, p) == Filter(a, p) + Filter(b, p)
  {
    if a == [] {
      assert a + b == b;
    } else {
      assert (a + b)[0] == a[0] && (a + b)[1..] == a[1..] + b;
      FilterAppend(a[1..], b, p);
    }
  }

  /** `x` occurs in `s` at some index before an occurrence of `y`. */
  ghost predicate Before<T>(s: seq<T>, x: T, y: T) {
    exists i, j :: 0 <= i < j < |s| && s[i] == x && s[j] == y
  }

  /** "Before" in a sequence with a known head. */
  lemma BeforeCons<T>(h: T, t: seq<T>, x: T, y: T)
    ensures Before([h] + t, x, y) <==> (h == x && y in t) || Before(t, x, y)
  {
    var s := [h] + t;
    if Before(s, x, y) {
      var i, j :| 0 <= i < j < |s| && s[i] == x && s[j] == y;
      if i == 0 {
        assert t[j - 1] == y;
      } else {
        assert t[i - 1] == x && t[j - 1] == y;
      }
    }
    if h == x && y in t {
      var j :| 0 <= j < |t| && t[j] == y;
      assert s[0] == x && s[j + 1] == y;
    }
    if Before(t, x, y) {
      var i, j :| 0 <= i < j < |t| && t[i] == x && t[j] == y;
      assert s[i + 1] == x && s[j + 1] == y;
    }
  }

  /** Filtering keeps the relative order of the elements it keeps, and
      introduces no new order. */
  lemma {:induction false} FilterBefore<T(!new)>(s: seq<T>, p: T -> bool, x: T, y: T)
    ensures Before(Filter(s, p), x, y) <==> Before(s, x, y) && p(x) && p(y)
  {
    if s == [] {
      assert !Before(Filter(s, p), x, y);
    } else {
      var h, t := s[0], s[1..];
      assert s == [h] + t;
      FilterBefore(t, p, x, y);
      BeforeCons(h, t, x, y);
      if p(h) {
        BeforeCons(h, Filter(t, p), x, y);
      }
    }
  }

  /** No value occurs twice. */
  ghost predicate Distinct<T>(s: seq<T>) {
    forall i, j :: 0 <= i < j < |s| ==> s[i] != s[j]
  }

  /** No two positions share a key (for channels: no two share an id). */
  ghost predicate DistinctBy<T, K>(s: seq<T>, key: T -> K) {
    forall i, j :: 0 <= i < j < |s| ==> key(s[i]) != key(s[j])
  }

  lemma DistinctByDistinct<T, K>(s: seq<T>, key: T -> K)
    requires DistinctBy(s, key)
    ensures Distinct(s)
  {
    forall i, j | 0 <= i < j < |s| ensures s[i] != s[j] {
      assert key(s[i]) != key(s[j]);
    }
  }

  lemma {:induction false} FilterDistinctBy<T(!new), K>(s: seq<T>, p: T -> bool, key: T -> K)
    requires DistinctBy(s, key)
    ensures DistinctBy(Filter(s, p), key)
  {
    if s != [] {
      var t := s[1..];
      FilterDistinctBy(t, p, key);
      if p(s[0]) {
        var ft := Filter(t, p);
        var f := [s[0]] + ft;
        forall i, j | 0 <= i < j < |f| ensures key(f[i]) != key(f[j]) {
          if i == 0 {
            assert f[j] == ft[j - 1] && ft[j - 1] in t;
            var m :| 0 <= m < |t| && t[m] == ft[j - 1];
            assert s[m + 1] == f[j];
          } else {
            assert f[i] == ft[i - 1] && f[j] == ft[j - 1];
          }
        }
      }
    }
  }

  /** In a sequence without repetitions, "before" is order of indices. */
  lemma BeforeIndices<T>(s: seq<T>, i: nat, j: nat)
    requires Distinct(s) && i < |s| && j < |s|
    ensures Before(s, s[i], s[j]) <==> i < j
  {
    if Before(s, s[i], s[j]) {
      var i', j' :| 0 <= i' < j' < |s| && s[i'] == s[i] && s[j'] == s[j];
      assert i' == i && j' == j;
    }
  }
}
