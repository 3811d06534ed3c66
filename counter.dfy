/**
 * The part of `collections.Counter` that `gather_data` relies on: building a
 * counter from a list, iterating its items in first-insertion order,
 * expanding it back into a list (`[k for k, n in c.items() for _ in range(n)]`)
 * and `most_common(1)`.
 */
module Counters {
  import opened Wrappers
  import opened Seqs

  /** The distinct elements seen, in the order they were first inserted, and the count of each. */
  datatype Counter<T(==)> = Counter(order: seq<T>, counts: map<T, nat>)

  ghost predicate Valid<T(!new)>(c: Counter<T>)
  {
    && Distinct(c.order)
    && (forall x :: x in c.counts <==> x in c.order)
    && (forall x :: x in c.counts ==> c.counts[x] > 0)
  }

  /** Counting one more occurrence of `x`; a new element goes to the end of the order. */
  function Add<T(==,!new)>(c: Counter<T>, x: T): (d: Counter<T>)
    requires Valid(c)
    ensures Valid(d)
    ensures forall y :: y in d.counts <==> y in c.counts || y == x
    ensures d.counts[x] == (if x in c.counts then c.counts[x] else 0) + 1
    ensures forall y :: y in c.counts && y != x ==> d.counts[y] == c.counts[y]
    ensures d.order == if x in c.counts then c.order else c.order + [x]
  {
    if x in c.counts then Counter(c.order, c.counts[x := c.counts[x] + 1])
    else Counter(c.order + [x], c.counts[x := 1])
  }

  /** `Counter(xs)`: the elements of `xs` added one by one. */
  function FromSeq<T(==,!new)>(xs: seq<T>): (c: Counter<T>)
    ensures Valid(c)
    ensures forall x :: x in c.counts <==> x in xs
    ensures forall x :: x in c.counts ==> c.counts[x] == multiset(xs)[x]
  {
    if xs == [] then Counter([], map[])
    else
      var init, last := xs[..|xs| - 1], xs[|xs| - 1];
      assert xs == init + [last];
      Add(FromSeq(init), last)
  }

  lemma {:induction false} IndexOfExtend<T(!new)>(s: seq<T>, x: T, y: T)
    requires y in s
    ensures IndexOf(s + [x], y) == IndexOf(s, y)
  {
    if s[0] != y {
      assert (s + [x])[1..] == s[1..] + [x];
      assert y in s[1..] by {
        var k :| 0 <= k < |s| && s[k] == y;
        assert s[1..][k - 1] == y;
      }
      IndexOfExtend(s[1..], x, y);
    }
  }

  lemma {:induction false} IndexOfNew<T(!new)>(s: seq<T>, y: T)
    requires y !in s
    ensures IndexOf(s + [y], y) == Some(|s|)
  {
    if s != [] {
      assert (s + [y])[1..] == s[1..] + [y];
      IndexOfNew(s[1..], y);
    }
  }

  /** The elements of `order` occur in `xs`, and their first occurrences there come in the order of `order`. */
  ghost predicate FirstOccurrencesOrdered<T(!new)>(order: seq<T>, xs: seq<T>)
  {
    forall i, j :: 0 <= i < j < |order| ==>
      order[i] in xs && order[j] in xs && IndexOf(xs, order[i]).value < IndexOf(xs, order[j]).value
  }

  lemma OrderedExtend<T(!new)>(order: seq<T>, xs: seq<T>, x: T)
    requires FirstOccurrencesOrdered(order, xs) && forall k :: 0 <= k < |order| ==> order[k] in xs
    ensures FirstOccurrencesOrdered(order, xs + [x])
  {
    forall k | 0 <= k < |order| ensures IndexOf(xs + [x], order[k]) == IndexOf(xs, order[k]) {
      IndexOfExtend(xs, x, order[k]);
    }
  }

  lemma OrderedAppendNew<T(!new)>(order: seq<T>, xs: seq<T>, x: T)
    requires x !in xs && forall k :: 0 <= k < |order| ==> order[k] in xs
    requires FirstOccurrencesOrdered(order, xs + [x])
    ensures FirstOccurrencesOrdered(order + [x], xs + [x])
  {
    IndexOfNew(xs, x);
    forall k | 0 <= k < |order| ensures IndexOf(xs + [x], order[k]).value < |xs| {
      IndexOfExtend(xs, x, order[k]);
    }
  }

  /** The items of `Counter(xs)` come in the order of their first occurrences in `xs`. */
  lemma {:induction false} FirstOccurrenceOrder<T(!new)>(xs: seq<T>)
    ensures FirstOccurrencesOrdered(FromSeq(xs).order, xs)
  {
    if xs != [] {
      var init, last := xs[..|xs| - 1], xs[|xs| - 1];
      assert xs == init + [last];
      FirstOccurrenceOrder(init);
      var before := FromSeq(init).order;
      assert forall k :: 0 <= k < |before| ==> before[k] in FromSeq(init).counts;
      OrderedExtend(before, init, last);
      if last !in init {
        OrderedAppendNew(before, init, last);
      }
    }
  }

  // ---------------------------------------------------------------------------
  // Expansion back into a list

  /** `[k for k in order for _ in range(counts[k])]`. */
  function ExpandOf<T(==,!new)>(order: seq<T>, counts: map<T, nat>): (xs: seq<T>)
    requires forall i :: 0 <= i < |order| ==> order[i] in counts
    ensures forall i :: 0 <= i < |xs| ==> xs[i] in order
  {
    if order == [] then []
    else ExpandOf(order[..|order| - 1], counts) + Repeat(order[|order| - 1], counts[order[|order| - 1]])
  }

  /** `[k for k, n in c.items() for _ in range(n)]`. */
  function Expand<T(==,!new)>(c: Counter<T>): (xs: seq<T>)
    requires Valid(c)
    ensures forall x :: multiset(xs)[x] == if x in c.counts then c.counts[x] else 0
  {
    ExpandOfMultiset(c.order, c.counts);
    ExpandOf(c.order, c.counts)
  }

  lemma {:induction false} ExpandOfAppend<T(!new)>(a: seq<T>, b: seq<T>, counts: map<T, nat>)
    requires forall i :: 0 <= i < |a| ==> a[i] in counts
    requires forall i :: 0 <= i < |b| ==> b[i] in counts
    ensures ExpandOf(a + b, counts) == ExpandOf(a, counts) + ExpandOf(b, counts)
    decreases |b|
  {
    if b == [] {
      assert a + b == a;
    } else {
      assert (a + b)[..|a + b| - 1] == a + b[..|b| - 1];
      ExpandOfAppend(a, b[..|b| - 1], counts);
    }
  }

  /** Each element of `order` expands to one contiguous block of `counts` copies, the blocks in the order of `order`. */
  lemma ExpandBlocks<T(!new)>(order: seq<T>, counts: map<T, nat>, i: nat)
    requires forall k :: 0 <= k < |order| ==> order[k] in counts
    requires i < |order|
    ensures ExpandOf(order, counts)
      == ExpandOf(order[..i], counts) + Repeat(order[i], counts[order[i]]) + ExpandOf(order[i + 1..], counts)
  {
    SplitAt(order, i);
    ExpandOfAppend(order[..i] + [order[i]], order[i + 1..], counts);
    ExpandOfAppend(order[..i], [order[i]], counts);
    assert [order[i]][..0] == [];
  }

  lemma {:induction false} ExpandOfMultiset<T(!new)>(order: seq<T>, counts: map<T, nat>)
    requires Distinct(order) && forall i :: 0 <= i < |order| ==> order[i] in counts
    ensures forall x :: multiset(ExpandOf(order, counts))[x] == if x in order then counts[x] else 0
  {
    if order != [] {
      var init, last := order[..|order| - 1], order[|order| - 1];
      assert order == init + [last];
      ExpandOfMultiset(init, counts);
      RepeatMultiset(last, counts[last]);
      assert last !in init;
    }
  }

  /** Expanding `Counter(xs)` gives back exactly the multiset of `xs`. */
  lemma ExpandPreservesMultiset<T(!new)>(xs: seq<T>)
    ensures multiset(Expand(FromSeq(xs))) == multiset(xs)
    ensures |Expand(FromSeq(xs))| == |xs|
  {
    var c := FromSeq(xs);
    var e := Expand(c);
    ExpandOfMultiset(c.order, c.counts);
    forall x ensures multiset(e)[x] == multiset(xs)[x] {
      assert x in c.order <==> x in xs;
    }
    assert multiset(e) == multiset(xs);
    assert |e| == |multiset(e)|;
  }

  /** A uniform index into the expansion of `Counter(xs)` hits `v` at exactly as many positions as `v` occurs in `xs`. */
  lemma ExpandedDrawHits<T(!new)>(xs: seq<T>, v: T)
    ensures Occurrences(Expand(FromSeq(xs)), v) == Occurrences(xs, v)
  {
    ExpandPreservesMultiset(xs);
    OccurrencesMultiset(Expand(FromSeq(xs)), v);
    OccurrencesMultiset(xs, v);
  }

  // ---------------------------------------------------------------------------
  // most_common(1)

  /** The position of the first element of `order` whose count is maximal, as `max` over the items finds it. */
  function BestIndex<T(==,!new)>(order: seq<T>, counts: map<T, nat>): (b: nat)
    requires order != [] && forall i :: 0 <= i < |order| ==> order[i] in counts
    ensures b < |order|
    ensures forall j :: 0 <= j < |order| ==> counts[order[j]] <= counts[order[b]]
    ensures forall j :: 0 <= j < b ==> counts[order[j]] < counts[order[b]]
  {
    if |order| == 1 then 0
    else
      var init := order[..|order| - 1];
      var b := BestIndex(init, counts);
      assert init[b] == order[b];
      if counts[order[|order| - 1]] > counts[order[b]] then |order| - 1 else b
  }

  /** `most_common(1)`: the first-inserted item of maximal count, or nothing for an empty counter. */
  function MostCommon<T(==,!new)>(c: Counter<T>): (r: Option<(T, nat)>)
    requires Valid(c)
    ensures r.None? <==> c.order == []
    ensures r.Some? ==> r.value.0 in c.counts && r.value.1 == c.counts[r.value.0]
    ensures r.Some? ==> forall x :: x in c.counts ==> c.counts[x] <= r.value.1
  {
    if c.order == [] then None
    else
      var b := BestIndex(c.order, c.counts);
      assert forall x :: x in c.counts ==> exists j :: 0 <= j < |c.order| && c.order[j] == x;
      Some((c.order[b], c.counts[c.order[b]]))
  }

  /** Among the items of maximal count, `most_common(1)` picks the one whose first occurrence in `xs` is earliest. */
  lemma MostCommonIsFirstOccurring<T(!new)>(c: Counter<T>, xs: seq<T>)
    requires Valid(c) && c.order != [] && FirstOccurrencesOrdered(c.order, xs)
    requires forall x :: x in c.counts ==> x in xs
    ensures var best := MostCommon(c).value.0;
      forall y :: y in c.counts && c.counts[y] == c.counts[best] ==>
        best in xs && y in xs && IndexOf(xs, best).value <= IndexOf(xs, y).value
  {
    var b := BestIndex(c.order, c.counts);
    forall y | y in c.counts && c.counts[y] == c.counts[c.order[b]]
      ensures c.order[b] in xs && y in xs && IndexOf(xs, c.order[b]).value <= IndexOf(xs, y).value
    {
      var j :| 0 <= j < |c.order| && c.order[j] == y;
    }
  }

  /**
   * `Counter(xs).most_common(1)` is an element of `xs` of maximal multiplicity, and
   * among those the one that occurs first in `xs`; it is absent exactly when `xs` is empty.
   */
  lemma MostCommonOfSeq<T(!new)>(xs: seq<T>)
    ensures MostCommon(FromSeq(xs)).None? <==> xs == []
    ensures var r := MostCommon(FromSeq(xs));
      r.Some? ==>
        && r.value.0 in xs
        && r.value.1 == multiset(xs)[r.value.0]
        && (forall y :: y in xs ==> multiset(xs)[y] <= r.value.1)
        && (forall y :: y in xs && multiset(xs)[y] == r.value.1 ==>
              IndexOf(xs, r.value.0).value <= IndexOf(xs, y).value)
  {
    var c := FromSeq(xs);
    if xs != [] {
      assert xs[0] in c.counts;
      FirstOccurrenceOrder(xs);
      MostCommonIsFirstOccurring(c, xs);
    }
  }
}
