/** Small sequence helpers standing for `Array.prototype` methods used by the engines. */
module Lists {
  import opened Wrappers

  /** `s.indexOf(x)`: the first index holding `x`, or -1. */
  function IndexOf<T(==)>(s: seq<T>, x: T): (i: int)
    ensures -1 <= i < |s|
    ensures i == -1 <==> x !in s
    ensures 0 <= i ==> s[i] == x && x !in s[..i]
  {
    if |s| == 0 then -1
    else if s[0] == x then 0
    else
      var j := IndexOf(s[1..], x);
      if j == -1 then -1
      else
        assert s[1..][..j] == s[1..j + 1];
        assert s[..j + 1] == [s[0]] + s[1..][..j];
        j + 1
  }

  /**
   * `s.filter(f)`: the elements satisfying `f`, in their original order; the order and
   * the multiplicity are stated by `FilterIsOrderedSubsequence`.
   */
  function Filter<T>(s: seq<T>, f: T -> bool): (r: seq<T>)
    ensures |r| <= |s|
    ensures forall i :: 0 <= i < |r| ==> r[i] in s && f(r[i])
    ensures forall i :: 0 <= i < |s| && f(s[i]) ==> s[i] in r
  {
    if |s| == 0 then []
    else if f(s[0]) then [s[0]] + Filter(s[1..], f)
    else Filter(s[1..], f)
  }

  /** The positions from `lo` on whose elements satisfy `f`, in increasing order. */
  function PassingFrom<T>(s: seq<T>, f: T -> bool, lo: nat): (ix: seq<nat>)
    requires lo <= |s|
    ensures |ix| <= |s| - lo
    ensures forall k :: 0 <= k < |ix| ==> lo <= ix[k] < |s| && f(s[ix[k]])
    ensures forall k, l :: 0 <= k < l < |ix| ==> ix[k] < ix[l]
    ensures forall i :: lo <= i < |s| && f(s[i]) ==> i in ix
    decreases |s| - lo
  {
    if lo == |s| then []
    else (if f(s[lo]) then [lo] else []) + PassingFrom(s, f, lo + 1)
  }

  lemma {:induction false} FilterFrom<T>(s: seq<T>, f: T -> bool, lo: nat)
    requires lo <= |s|
    ensures |Filter(s[lo..], f)| == |PassingFrom(s, f, lo)|
    ensures forall k :: 0 <= k < |PassingFrom(s, f, lo)| ==> Filter(s[lo..], f)[k] == s[PassingFrom(s, f, lo)[k]]
    decreases |s| - lo
  {
    if lo < |s| {
      FilterFrom(s, f, lo + 1);
      assert s[lo..][1..] == s[lo + 1..];
    }
  }

  /**
   * `Filter` keeps the passing elements in their order, each once: its k-th element is
   * the element at the k-th position that passes, and the positions that pass are
   * exactly the increasing positions listed.
   */
  lemma FilterIsOrderedSubsequence<T>(s: seq<T>, f: T -> bool)
    ensures var ix := PassingFrom(s, f, 0);
      && |Filter(s, f)| == |ix|
      && (forall k :: 0 <= k < |ix| ==> Filter(s, f)[k] == s[ix[k]] && f(s[ix[k]]))
      && (forall k, l :: 0 <= k < l < |ix| ==> ix[k] < ix[l])
      && (forall i :: 0 <= i < |s| && f(s[i]) ==> i in ix)
  {
    FilterFrom(s, f, 0);
    assert s[0..] == s;
  }

  /** Filtering by two tests in turn is filtering once by both. */
  lemma {:induction false} FilterTwice<T>(s: seq<T>, f: T -> bool, g: T -> bool, h: T -> bool)
    requires forall x :: h(x) == (f(x) && g(x))
    ensures Filter(Filter(s, f), g) == Filter(s, h)
  {
    if |s| > 0 {
      FilterTwice(s[1..], f, g, h);
      if f(s[0]) {
        assert ([s[0]] + Filter(s[1..], f))[1..] == Filter(s[1..], f);
      }
    }
  }

  /** Exactly one position of `s` satisfies `f`. */
  predicate OnlyOnePasses<T>(s: seq<T>, f: T -> bool) {
    exists i :: 0 <= i < |s| && f(s[i]) && forall j :: 0 <= j < |s| && f(s[j]) ==> j == i
  }

  /** Strictly increasing positions spread at least one apart each. */
  lemma {:induction false} IncreasingSpread(ix: seq<nat>)
    requires forall k, l :: 0 <= k < l < |ix| ==> ix[k] < ix[l]
    ensures |ix| > 0 ==> ix[|ix| - 1] >= ix[0] + |ix| - 1
  {
    if |ix| > 1 {
      IncreasingSpread(ix[..|ix| - 1]);
      assert ix[..|ix| - 1][|ix| - 2] == ix[|ix| - 2];
    }
  }

  /** Exactly one element is kept iff exactly one position passes. */
  lemma FilterSingleton<T>(s: seq<T>, f: T -> bool)
    ensures |Filter(s, f)| == 1 <==> OnlyOnePasses(s, f)
  {
    FilterIsOrderedSubsequence(s, f);
    var ix := PassingFrom(s, f, 0);
    if |ix| == 1 {
      assert forall j :: 0 <= j < |s| && f(s[j]) ==> j == ix[0];
    }
    if OnlyOnePasses(s, f) {
      var i :| 0 <= i < |s| && f(s[i]) && forall j :: 0 <= j < |s| && f(s[j]) ==> j == i;
      assert i in ix;
      IncreasingSpread(ix);
    }
  }

  /** `s.find(f)`: the first element satisfying `f`, or `undefined`. */
  function Find<T>(s: seq<T>, f: T -> bool): (r: Option<T>)
    ensures r.None? <==> forall i :: 0 <= i < |s| ==> !f(s[i])
    ensures r.Some? ==> exists i :: 0 <= i < |s| && f(s[i]) && r.value == s[i] && forall j :: 0 <= j < i ==> !f(s[j])
  {
    if |s| == 0 then None
    else if f(s[0]) then Some(s[0])
    else
      var r := Find(s[1..], f);
      assert forall j :: 1 <= j < |s| ==> s[j] == s[1..][j - 1];
      r
  }

  /** `Find` returns the first element of `Filter`. */
  lemma {:induction false} FindIsFirstOfFilter<T>(s: seq<T>, f: T -> bool)
    ensures Find(s, f) == if |Filter(s, f)| == 0 then None else Some(Filter(s, f)[0])
  {
    if |s| > 0 && !f(s[0]) {
      FindIsFirstOfFilter(s[1..], f);
    }
  }

  /** The first element kept is the element at the first position that passes. */
  lemma FilterHeadIsFirst<T>(s: seq<T>, f: T -> bool)
    requires |Filter(s, f)| > 0
    ensures exists i :: 0 <= i < |s| && f(s[i]) && s[i] == Filter(s, f)[0] && forall j :: 0 <= j < i ==> !f(s[j])
  {
    FindIsFirstOfFilter(s, f);
  }

  /** The keys of `ks` strictly increase. */
  predicate Ascending<T>(ks: seq<T>, key: T -> int) {
    forall i, j :: 0 <= i < j < |ks| ==> key(ks[i]) < key(ks[j])
  }
  /** `Filter` keeps a list in increasing key order. */
  lemma {:induction false} FilterKeepsOrder<T>(s: seq<T>, key: T -> int, f: T -> bool)
    requires Ascending(s, key)
    ensures Ascending(Filter(s, f), key)
  {
    if |s| > 0 {
      assert Ascending(s[1..], key) by {
        forall i, j | 0 <= i < j < |s| - 1
          ensures key(s[1..][i]) < key(s[1..][j])
        {
          assert s[1..][i] == s[i + 1] && s[1..][j] == s[j + 1];
        }
      }
      FilterKeepsOrder(s[1..], key, f);
      if f(s[0]) {
        var rest := Filter(s[1..], f);
        var r := [s[0]] + rest;
        forall j | 0 <= j < |rest|
          ensures key(s[0]) < key(rest[j])
        {
          var m :| 0 <= m < |s[1..]| && s[1..][m] == rest[j];
          assert s[m + 1] == rest[j];
        }
        forall i, j | 0 <= i < j < |r|
          ensures key(r[i]) < key(r[j])
        {
          assert r[j] == rest[j - 1];
          if i > 0 {
            assert r[i] == rest[i - 1];
          }
        }
        assert Filter(s, f) == r;
      }
    }
  }
}
