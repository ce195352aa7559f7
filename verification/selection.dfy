/** Order-preserving selection over sequences. Every list the renderer builds by looping over
    an input and calling push_back on some of its elements is one of these stable filters.
    A selection is specified by the strictly increasing list of input positions it keeps. */
module Selection {
  import opened Outcomes

  ghost predicate StrictlyIncreasing(idx: seq<nat>)
  {
    forall k, l :: 0 <= k < l < |idx| ==> idx[k] < idx[l]
  }

  /** The positions of `xs` whose element satisfies `p`, in increasing order. */
  function Indices<T>(xs: seq<T>, p: T -> bool): (idx: seq<nat>)
    ensures |idx| <= |xs|
    ensures forall k :: 0 <= k < |idx| ==> idx[k] < |xs| && p(xs[idx[k]])
    ensures forall i :: 0 <= i < |xs| && p(xs[i]) ==> i in idx
    ensures StrictlyIncreasing(idx)
  {
    if |xs| == 0 then []
    else
      var rest := Indices(xs[..|xs| - 1], p);
      if p(xs[|xs| - 1]) then rest + [|xs| - 1] else rest
  }

  /** `r` holds, in order, exactly the elements of `xs` at the positions `Indices(xs, p)`. */
  ghost predicate IsStableFilter<T>(r: seq<T>, xs: seq<T>, p: T -> bool)
  {
    var idx := Indices(xs, p);
    |r| == |idx| && forall k :: 0 <= k < |r| ==> r[k] == xs[idx[k]]
  }

  /** Appends, in input order, every element that satisfies `p` (the push_back loop). */
  function Filter<T>(xs: seq<T>, p: T -> bool): (r: seq<T>)
    ensures IsStableFilter(r, xs, p)
    ensures forall k :: 0 <= k < |r| ==> r[k] in xs && p(r[k])
    ensures forall i :: 0 <= i < |xs| && p(xs[i]) ==> xs[i] in r
  {
    if |xs| == 0 then []
    else
      var init, last := xs[..|xs| - 1], xs[|xs| - 1];
      var rest := Filter(init, p);
      StableFilterSnoc(rest, init, last, p);
      assert init + [last] == xs;
      if p(last) then rest + [last] else rest
  }

  /** The positions kept from `init + [last]` are those kept from `init`, then `last`'s
      position when it satisfies `p`. */
  lemma IndicesSnoc<T>(init: seq<T>, last: T, p: T -> bool)
    ensures Indices(init + [last], p) == Indices(init, p) + (if p(last) then [|init|] else [])
  {
    var xs := init + [last];
    assert xs[..|xs| - 1] == init;
    assert xs[|xs| - 1] == last;
  }

  /** Extending a stable filter of `init` by one step gives a stable filter of `init + [last]`. */
  lemma StableFilterSnoc<T>(rest: seq<T>, init: seq<T>, last: T, p: T -> bool)
    requires IsStableFilter(rest, init, p)
    ensures IsStableFilter(rest + (if p(last) then [last] else []), init + [last], p)
  {
    IndicesSnoc(init, last, p);
    var xs := init + [last];
    var r := rest + (if p(last) then [last] else []);
    var idx := Indices(xs, p);
    forall k | 0 <= k < |r|
      ensures r[k] == xs[idx[k]]
    {
      if k < |rest| {
        assert idx[k] == Indices(init, p)[k];
        assert xs[idx[k]] == init[idx[k]];
      }
    }
  }

  /** A non-empty sequence is its prefix followed by its last element. */
  lemma AppendSnoc<T>(a: seq<T>, init: seq<T>, last: T)
    ensures a + (init + [last]) == (a + init) + [last]
  {
  }

  lemma AppendAssociates<T>(a: seq<T>, b: seq<T>, c: seq<T>)
    ensures (a + b) + c == a + (b + c)
  {
  }

  lemma SplitLast<T>(xs: seq<T>)
    requires |xs| > 0
    ensures xs == xs[..|xs| - 1] + [xs[|xs| - 1]]
  {
  }

  /** The predicate that holds exactly where `p` does not. */
  function Not<T>(p: T -> bool): T -> bool
  {
    x => !p(x)
  }

  /** One step of the push_back loop: filtering a sequence filters its prefix, then
      appends the last element when it satisfies `p`. */
  lemma FilterSnoc<T>(init: seq<T>, last: T, p: T -> bool)
    ensures Filter(init + [last], p) == Filter(init, p) + (if p(last) then [last] else [])
  {
    assert (init + [last])[..|init + [last]| - 1] == init;
  }

  /** Filtering distributes over concatenation. */
  lemma {:induction false} FilterAppend<T>(a: seq<T>, b: seq<T>, p: T -> bool)
    ensures Filter(a + b, p) == Filter(a, p) + Filter(b, p)
    decreases |b|
  {
    if |b| > 0 {
      var init, last := b[..|b| - 1], b[|b| - 1];
      SplitLast(b);
      AppendSnoc(a, init, last);
      FilterAppend(a, init, p);
      FilterSnoc(a + init, last, p);
      FilterSnoc(init, last, p);
      AppendAssociates(Filter(a, p), Filter(init, p), if p(last) then [last] else []);
    } else {
      assert a + b == a;
    }
  }

  /** Splitting a sequence by `p` and by its negation loses nothing and duplicates nothing:
      the two stable filters together hold the input's elements with their multiplicities. */
  lemma {:induction false} PartitionIsExact<T>(xs: seq<T>, p: T -> bool)
    ensures multiset(Filter(xs, p)) + multiset(Filter(xs, Not(p))) == multiset(xs)
    ensures |Filter(xs, p)| + |Filter(xs, Not(p))| == |xs|
  {
    if |xs| > 0 {
      PartitionIsExact(xs[..|xs| - 1], p);
      PartitionStep(xs, p);
    }
    MultisetSizes(Filter(xs, p), Filter(xs, Not(p)), xs);
  }

  /** Two sequences whose multisets add up to that of `xs` are together as long as `xs`. */
  lemma MultisetSizes<T>(a: seq<T>, b: seq<T>, xs: seq<T>)
    requires multiset(a) + multiset(b) == multiset(xs)
    ensures |a| + |b| == |xs|
  {
    assert |multiset(a)| == |a| && |multiset(b)| == |b| && |multiset(xs)| == |xs|;
  }

  /** The inductive step of PartitionIsExact: the last element goes to exactly one side. */
  lemma PartitionStep<T>(xs: seq<T>, p: T -> bool)
    requires |xs| > 0
    requires multiset(Filter(xs[..|xs| - 1], p)) + multiset(Filter(xs[..|xs| - 1], Not(p))) == multiset(xs[..|xs| - 1])
    ensures multiset(Filter(xs, p)) + multiset(Filter(xs, Not(p))) == multiset(xs)
  {
    var init, last := xs[..|xs| - 1], xs[|xs| - 1];
    SplitLast(xs);
    FilterSnoc(init, last, p);
    FilterSnoc(init, last, Not(p));
    assert Not(p)(last) == !p(last);
    MultisetSnocOneSide(Filter(init, p), Filter(init, Not(p)), init, last, p(last));
  }

  /** Appending an element to one of two sequences that split `init` splits `init + [last]`. */
  lemma MultisetSnocOneSide<T>(kept: seq<T>, dropped: seq<T>, init: seq<T>, last: T, toKept: bool)
    requires multiset(kept) + multiset(dropped) == multiset(init)
    ensures multiset(kept + (if toKept then [last] else [])) + multiset(dropped + (if toKept then [] else [last]))
         == multiset(init + [last])
  {
    assert multiset(init + [last]) == multiset(init) + multiset{last};
    if toKept {
      assert multiset(kept + [last]) == multiset(kept) + multiset{last};
      assert dropped + [] == dropped;
    } else {
      assert multiset(dropped + [last]) == multiset(dropped) + multiset{last};
      assert kept + [] == kept;
    }
  }

  /** A strictly increasing list of positions has its k-th entry at least k. */
  lemma {:induction false} IncreasingLowerBound(idx: seq<nat>, k: nat)
    requires StrictlyIncreasing(idx)
    requires k < |idx|
    ensures idx[k] >= k
  {
    if k > 0 {
      IncreasingLowerBound(idx, k - 1);
    }
  }

  /** A strictly increasing list of positions below `n` that contains every position below `n`
      starts with 0, 1, ..., k - 1, for every k up to n. */
  lemma {:induction false} CompletePrefix(idx: seq<nat>, n: nat, k: nat)
    requires StrictlyIncreasing(idx)
    requires forall i :: 0 <= i < n ==> i in idx
    requires k <= n
    ensures k <= |idx|
    ensures forall j :: 0 <= j < k ==> idx[j] == j
  {
    if k > 0 {
      CompletePrefix(idx, n, k - 1);
      assert k - 1 in idx;
      var m :| 0 <= m < |idx| && idx[m] == k - 1;
      if k - 1 < |idx| {
        IncreasingLowerBound(idx, k - 1);
      }
    }
  }

  /** A selection of positions below `n` keeps every position exactly when it has n entries. */
  lemma FullSelection(idx: seq<nat>, n: nat)
    requires StrictlyIncreasing(idx)
    requires forall k :: 0 <= k < |idx| ==> idx[k] < n
    requires |idx| <= n
    ensures |idx| == n <==> forall i :: 0 <= i < n ==> i in idx
  {
    if |idx| == n {
      forall i | 0 <= i < n ensures i in idx {
        IncreasingLowerBound(idx, i);
        UpperBound(idx, n, i);
        assert idx[i] == i;
      }
    }
    if forall i :: 0 <= i < n ==> i in idx {
      CompletePrefix(idx, n, n);
    }
  }

  /** In a strictly increasing list of positions below `n`, the k-th entry leaves room for
      the entries after it. */
  lemma {:induction false} UpperBound(idx: seq<nat>, n: nat, k: nat)
    requires StrictlyIncreasing(idx)
    requires forall j :: 0 <= j < |idx| ==> idx[j] < n
    requires k < |idx|
    ensures idx[k] + (|idx| - k) <= n
    decreases |idx| - k
  {
    if k < |idx| - 1 {
      UpperBound(idx, n, k + 1);
    }
  }

  /** The positions of `xs` at which `f` yields a value, in increasing order. */
  function SomeIndices<T, U>(xs: seq<T>, f: T -> Option<U>): (idx: seq<nat>)
    ensures |idx| <= |xs|
    ensures forall k :: 0 <= k < |idx| ==> idx[k] < |xs| && f(xs[idx[k]]).Some?
    ensures forall i :: 0 <= i < |xs| && f(xs[i]).Some? ==> i in idx
    ensures StrictlyIncreasing(idx)
  {
    if |xs| == 0 then []
    else
      var rest := SomeIndices(xs[..|xs| - 1], f);
      if f(xs[|xs| - 1]).Some? then rest + [|xs| - 1] else rest
  }

  /** Appends, in input order, the value `f` yields for each element, skipping the elements
      for which it yields nothing. */
  function FilterMap<T, U>(xs: seq<T>, f: T -> Option<U>): seq<U>
  {
    if |xs| == 0 then []
    else
      var rest := FilterMap(xs[..|xs| - 1], f);
      match f(xs[|xs| - 1])
      case Some(y) => rest + [y]
      case None => rest
  }

  /** FilterMap keeps one value per position SomeIndices lists, the value `f` yields there. */
  lemma {:induction false} FilterMapFollowsIndices<T, U>(xs: seq<T>, f: T -> Option<U>)
    ensures |FilterMap(xs, f)| == |SomeIndices(xs, f)|
    ensures forall k :: 0 <= k < |FilterMap(xs, f)| ==> f(xs[SomeIndices(xs, f)[k]]) == Some(FilterMap(xs, f)[k])
  {
    if |xs| > 0 {
      var init, last := xs[..|xs| - 1], xs[|xs| - 1];
      FilterMapFollowsIndices(init, f);
      var values, idx := FilterMap(init, f), SomeIndices(init, f);
      assert FilterMap(xs, f) == values + (if f(last).Some? then [f(last).value] else []);
      assert SomeIndices(xs, f) == idx + (if f(last).Some? then [|xs| - 1] else []);
      forall k | 0 <= k < |FilterMap(xs, f)|
        ensures f(xs[SomeIndices(xs, f)[k]]) == Some(FilterMap(xs, f)[k])
      {
        if k < |values| {
          assert SomeIndices(xs, f)[k] == idx[k] && FilterMap(xs, f)[k] == values[k];
          assert xs[idx[k]] == init[idx[k]];
        }
      }
    }
  }

  lemma FilterMapSnoc<T, U>(init: seq<T>, last: T, f: T -> Option<U>)
    ensures FilterMap(init + [last], f) == FilterMap(init, f) + (if f(last).Some? then [f(last).value] else [])
  {
    assert (init + [last])[..|init + [last]| - 1] == init;
  }

  lemma FilterMapSingleton<T, U>(x: T, f: T -> Option<U>)
    ensures FilterMap([x], f) == (if f(x).Some? then [f(x).value] else [])
  {
    FilterMapSnoc([], x, f);
    assert [] + [x] == [x];
  }

  /** FilterMap distributes over concatenation. */
  lemma {:induction false} FilterMapAppend<T, U>(a: seq<T>, b: seq<T>, f: T -> Option<U>)
    ensures FilterMap(a + b, f) == FilterMap(a, f) + FilterMap(b, f)
    decreases |b|
  {
    if |b| > 0 {
      var init, last := b[..|b| - 1], b[|b| - 1];
      SplitLast(b);
      AppendSnoc(a, init, last);
      FilterMapAppend(a, init, f);
      FilterMapSnoc(a + init, last, f);
      FilterMapSnoc(init, last, f);
      AppendAssociates(FilterMap(a, f), FilterMap(init, f), if f(last).Some? then [f(last).value] else []);
    } else {
      assert a + b == a;
    }
  }

  /** Where `f` yields nothing anywhere, FilterMap keeps nothing. */
  lemma {:induction false} FilterMapNone<T, U>(xs: seq<T>, f: T -> Option<U>)
    requires forall i :: 0 <= i < |xs| ==> f(xs[i]).None?
    ensures FilterMap(xs, f) == []
  {
    if |xs| > 0 {
      FilterMapNone(xs[..|xs| - 1], f);
    }
  }
}
