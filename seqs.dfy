/** Sequence queries standing for the LINQ operators the source uses
    (`FirstOrDefault`, `Where`, `Any`, `Count`). */
module Seqs {
  import opened Wrappers

  /** Index of the first element satisfying `p` (LINQ `FirstOrDefault`). */
  function FirstIndexOf<T>(s: seq<T>, p: T -> bool): (r: Option<nat>)
    ensures r.Some? ==> r.value < |s| && p(s[r.value])
    ensures r.Some? ==> forall j :: 0 <= j < r.value ==> !p(s[j])
    ensures r.None? <==> forall j :: 0 <= j < |s| ==> !p(s[j])
  {
    if s == [] then None
    else if p(s[0]) then Some(0)
    else match FirstIndexOf(s[1..], p)
      case None => None
      case Some(k) => Some(k + 1)
  }

  /** The elements satisfying `p`, in their original order (LINQ `Where`). */
  function Filter<T>(s: seq<T>, p: T -> bool): (r: seq<T>)
    ensures |r| <= |s|
    ensures forall i :: 0 <= i < |r| ==> r[i] in s && p(r[i])
    ensures forall i :: 0 <= i < |s| && p(s[i]) ==> s[i] in r
  {
    if s == [] then []
    else
      var rest := Filter(s[1..], p);
      assert forall i :: 0 < i < |s| ==> s[i] == s[1..][i - 1];
      if p(s[0]) then [s[0]] + rest else rest
  }

  /** `Filter` keeps every occurrence of an element satisfying `p` and none
      of the others, so it fixes how often each element appears. */
  lemma {:induction false} FilterMultiset<T>(s: seq<T>, p: T -> bool)
    ensures forall x :: multiset(Filter(s, p))[x] == if p(x) then multiset(s)[x] else 0
  {
    if s != [] {
      var rest := Filter(s[1..], p);
      FilterMultiset(s[1..], p);
      FilterCons(s, p);
      assert s == [s[0]] + s[1..];
      var head := if p(s[0]) then multiset{s[0]} else multiset{};
      assert multiset(Filter(s, p)) == head + multiset(rest);
      assert multiset(s) == multiset{s[0]} + multiset(s[1..]);
      forall x
        ensures multiset(Filter(s, p))[x] == if p(x) then multiset(s)[x] else 0
      {
        assert multiset(rest)[x] == if p(x) then multiset(s[1..])[x] else 0;
      }
    }
  }

  /** Filtering a concatenation filters each part and keeps them in order:
      with `FilterCons` this fixes the result's order as the input's. */
  lemma {:induction false} FilterAppend<T>(a: seq<T>, b: seq<T>, p: T -> bool)
    ensures Filter(a + b, p) == Filter(a, p) + Filter(b, p)
  {
    if a != [] {
      assert (a + b)[1..] == a[1..] + b;
      FilterAppend(a[1..], b, p);
      FilterCons(a + b, p);
      FilterCons(a, p);
    } else {
      assert a + b == b;
    }
  }

  /** The positions of `s` whose element satisfies `p`. */
  ghost function IndicesWhere<T>(s: seq<T>, p: T -> bool): set<nat> {
    set k: nat | k < |s| && p(s[k])
  }

  /** `Filter` keeps one element per position satisfying `p`: its length is
      the number of such positions (LINQ `Count(predicate)`). */
  lemma {:induction false} FilterLength<T>(s: seq<T>, p: T -> bool)
    ensures |Filter(s, p)| == |IndicesWhere(s, p)|
    decreases |s|
  {
    if s != [] {
      var n := |s| - 1;
      var init := s[..n];
      assert s == init + [s[n]];
      FilterLength(init, p);
      FilterAppend(init, [s[n]], p);
      FilterCons([s[n]], p);
      assert [s[n]][1..] == [];
      if p(s[n]) {
        assert IndicesWhere(s, p) == IndicesWhere(init, p) + {n};
      } else {
        assert IndicesWhere(s, p) == IndicesWhere(init, p);
      }
    }
  }

  /** Two filters in a row keep what satisfies both, that is what `c` keeps. */
  lemma {:induction false} FilterFilter<T>(s: seq<T>, a: T -> bool, b: T -> bool, c: T -> bool)
    requires forall x :: c(x) == (a(x) && b(x))
    ensures Filter(Filter(s, a), b) == Filter(s, c)
  {
    if s != [] {
      FilterFilter(s[1..], a, b, c);
      FilterCons(s, a);
      FilterCons(s, c);
      if a(s[0]) {
        FilterCons([s[0]] + Filter(s[1..], a), b);
        assert ([s[0]] + Filter(s[1..], a))[1..] == Filter(s[1..], a);
      }
    }
  }

  /** Filtering by `a` then `b` keeps as many elements as filtering by `b` then `a`. */
  lemma {:induction false} FilterCommutesInCount<T>(s: seq<T>, a: T -> bool, b: T -> bool)
    ensures |Filter(Filter(s, a), b)| == |Filter(Filter(s, b), a)|
  {
    if s != [] {
      FilterCommutesInCount(s[1..], a, b);
      FilterCons(s, a);
      FilterCons(s, b);
      FilterCons([s[0]] + Filter(s[1..], a), b);
      FilterCons([s[0]] + Filter(s[1..], b), a);
    }
  }

  /** One unfolding of `Filter` on a non-empty sequence. */
  lemma FilterCons<T>(s: seq<T>, p: T -> bool)
    requires s != []
    ensures Filter(s, p) == if p(s[0]) then [s[0]] + Filter(s[1..], p) else Filter(s[1..], p)
  {
  }
}
