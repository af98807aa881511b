/** Order-preserving selection over sequences: the shape of every Go loop in the core that
    walks a slice and appends the elements that pass a test. */
module Seqs {

  /** The elements of `s` that satisfy `keep`, in their original order, duplicates kept.
      Defined on the last element so that a left-to-right loop can be proved against it. */
  function Filter<T>(s: seq<T>, keep: T -> bool): (r: seq<T>)
    ensures |r| <= |s|
  {
    if |s| == 0 then []
    else Filter(s[..|s| - 1], keep) + (if keep(s[|s| - 1]) then [s[|s| - 1]] else [])
  }

  /** The elements of `s` that are not in `excluded`. */
  function Without<T>(s: seq<T>, excluded: set<T>): seq<T>
  {
    Filter(s, (x: T) => x !in excluded)
  }

  /** An element survives exactly when it occurs in the input and is not excluded. */
  lemma WithoutMembership<T>(s: seq<T>, excluded: set<T>, x: T)
    ensures x in Without(s, excluded) <==> x in s && x !in excluded
  {
    FilterMembership(s, (y: T) => y !in excluded, x);
  }

  /** `idx` picks the elements of `sub` out of `s`, at strictly increasing positions. */
  ghost predicate Embeds<T>(idx: seq<nat>, sub: seq<T>, s: seq<T>)
  {
    && |idx| == |sub|
    && (forall k :: 0 <= k < |idx| ==> idx[k] < |s| && s[idx[k]] == sub[k])
    && (forall k, l :: 0 <= k < l < |idx| ==> idx[k] < idx[l])
  }

  /** `sub` can be obtained from `s` by deleting elements: order is preserved. */
  ghost predicate IsSubsequence<T>(sub: seq<T>, s: seq<T>)
  {
    exists idx: seq<nat> :: Embeds(idx, sub, s)
  }

  /** Extending the input by one element extends the filtered output by at most that element. */
  lemma FilterSnoc<T>(s: seq<T>, x: T, keep: T -> bool)
    ensures Filter(s + [x], keep) == Filter(s, keep) + (if keep(x) then [x] else [])
  {
    assert (s + [x])[..|s + [x]| - 1] == s;
  }

  /** An element is selected exactly when it occurs in the input and passes the test. */
  lemma {:induction false} FilterMembership<T>(s: seq<T>, keep: T -> bool, x: T)
    ensures x in Filter(s, keep) <==> x in s && keep(x)
  {
    if |s| > 0 {
      var s' := s[..|s| - 1];
      assert s == s' + [s[|s| - 1]];
      FilterMembership(s', keep, x);
    }
  }

  /** Duplicates are kept: a selected value occurs as often as in the input, a rejected one never. */
  lemma {:induction false} FilterMultiplicity<T>(s: seq<T>, keep: T -> bool, x: T)
    ensures multiset(Filter(s, keep))[x] == if keep(x) then multiset(s)[x] else 0
  {
    if |s| > 0 {
      var s' := s[..|s| - 1];
      assert s == s' + [s[|s| - 1]];
      FilterMultiplicity(s', keep, x);
    }
  }

  /** The output depends only on the multiset of the input when counted: any reordering of the
      input selects the same number of elements. */
  lemma {:induction false} FilterCountPermutation<T>(a: seq<T>, b: seq<T>, keep: T -> bool)
    requires multiset(a) == multiset(b)
    ensures multiset(Filter(a, keep)) == multiset(Filter(b, keep))
    ensures |Filter(a, keep)| == |Filter(b, keep)|
  {
    var ma, mb := multiset(Filter(a, keep)), multiset(Filter(b, keep));
    forall x: T ensures ma[x] == mb[x] {
      FilterMultiplicity(a, keep, x);
      FilterMultiplicity(b, keep, x);
    }
    MultisetExtensionality(ma, mb);
    assert |multiset(Filter(a, keep))| == |Filter(a, keep)|;
    assert |multiset(Filter(b, keep))| == |Filter(b, keep)|;
  }

  lemma MultisetExtensionality<T>(ma: multiset<T>, mb: multiset<T>)
    requires forall x :: ma[x] == mb[x]
    ensures ma == mb
  {
  }

  /** The positions of the selected elements. */
  function FilterIndices<T>(s: seq<T>, keep: T -> bool): seq<nat>
  {
    if |s| == 0 then []
    else FilterIndices(s[..|s| - 1], keep) + (if keep(s[|s| - 1]) then [|s| - 1] else [])
  }

  /** An embedding into `s` is one into `s + [x]`, and extends by `x` itself at the end. */
  lemma EmbedsSnoc<T>(idx: seq<nat>, sub: seq<T>, s: seq<T>, x: T)
    requires Embeds(idx, sub, s)
    ensures Embeds(idx, sub, s + [x])
    ensures Embeds(idx + [|s|], sub + [x], s + [x])
  {
    var t := s + [x];
    assert forall k :: 0 <= k < |idx| ==> t[idx[k]] == s[idx[k]];
    var idx' := idx + [|s|];
    var sub' := sub + [x];
    assert forall k :: 0 <= k < |idx| ==> idx'[k] == idx[k] && sub'[k] == sub[k];
  }

  lemma {:induction false} FilterIndicesEmbed<T>(s: seq<T>, keep: T -> bool)
    ensures Embeds(FilterIndices(s, keep), Filter(s, keep), s)
  {
    if |s| > 0 {
      var s' := s[..|s| - 1];
      var x := s[|s| - 1];
      assert s == s' + [x];
      FilterIndicesEmbed(s', keep);
      EmbedsSnoc(FilterIndices(s', keep), Filter(s', keep), s', x);
    }
  }

  /** The output keeps the input's order. */
  lemma FilterIsSubsequence<T>(s: seq<T>, keep: T -> bool)
    ensures IsSubsequence(Filter(s, keep), s)
  {
    FilterIndicesEmbed(s, keep);
  }

  /** Excluding nothing keeps everything. */
  lemma {:induction false} WithoutNothing<T>(s: seq<T>)
    ensures Without(s, {}) == s
  {
    if |s| > 0 {
      WithoutNothing(s[..|s| - 1]);
    }
  }
}
