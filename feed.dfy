/**
 * Feed entries and the choice of a feed's "latest" entry: the head of the
 * entries sorted stably, in descending order of their publication time, a
 * missing publication time counting as the earliest possible one.
 */
module Feed {
  import opened Wrappers

  /** A publication time (`published_parsed`), abstracted to a number. */
  type Timestamp = int

  /** One entry as the feed parser returns it. */
  datatype Entry = Entry(title: string, link: string, published: Option<Timestamp>)

  /** The sort key order: a missing timestamp ranks below every present one. */
  predicate RanksAtLeast(a: Option<Timestamp>, b: Option<Timestamp>) {
    b.None? || (a.Some? && a.value >= b.value)
  }

  /**
   * Index of the latest entry: it ranks at least as high as every entry, and
   * every entry before it ranks strictly lower (the first of equal maxima).
   */
  function LatestIndex(es: seq<Entry>): (i: nat)
    requires |es| > 0
    ensures i < |es|
    ensures forall j :: 0 <= j < |es| ==> RanksAtLeast(es[i].published, es[j].published)
    ensures forall j :: 0 <= j < i ==> !RanksAtLeast(es[j].published, es[i].published)
    decreases |es|
  {
    if |es| == 1 then 0
    else
      var k := LatestIndex(es[..|es| - 1]);
      if RanksAtLeast(es[k].published, es[|es| - 1].published) then k else |es| - 1
  }

  /** The entry the poller considers the newest one of a non-empty feed. */
  function Latest(es: seq<Entry>): (e: Entry)
    requires |es| > 0
    ensures e in es
    ensures forall j :: 0 <= j < |es| ==> RanksAtLeast(e.published, es[j].published)
  {
    es[LatestIndex(es)]
  }

  /** The two properties of LatestIndex determine the index uniquely. */
  lemma LatestIndexUnique(es: seq<Entry>, i: nat)
    requires i < |es|
    requires forall j :: 0 <= j < |es| ==> RanksAtLeast(es[i].published, es[j].published)
    requires forall j :: 0 <= j < i ==> !RanksAtLeast(es[j].published, es[i].published)
    ensures i == LatestIndex(es)
  {
    var k := LatestIndex(es);
    assert RanksAtLeast(es[k].published, es[i].published);
    assert RanksAtLeast(es[i].published, es[k].published);
  }

  // ---------------------------------------------------------------------
  // Reference: a stable sort in descending order of publication time.

  /** Entries in non-increasing order of publication time. */
  ghost predicate SortedDesc(s: seq<Entry>) {
    forall i, j :: 0 <= i < j < |s| ==> RanksAtLeast(s[i].published, s[j].published)
  }

  /**
   * Inserts `e` into a descending list after every element that ranks at
   * least as high as `e`, so that equal keys keep their arrival order.
   */
  function Insert(e: Entry, s: seq<Entry>): (r: seq<Entry>)
    ensures |r| == |s| + 1
    ensures multiset(r) == multiset(s) + multiset{e}
  {
    if s == [] then [e]
    else if RanksAtLeast(s[0].published, e.published) then
      assert s == [s[0]] + s[1..];
      [s[0]] + Insert(e, s[1..])
    else [e] + s
  }

  /**
   * Stable descending sort by insertion, taking the entries in feed order:
   * the model of `sorted(entries, key=..., reverse=True)`.
   */
  function SortDesc(es: seq<Entry>): (r: seq<Entry>)
    ensures |r| == |es|
    decreases |es|
  {
    if es == [] then [] else Insert(es[|es| - 1], SortDesc(es[..|es| - 1]))
  }

  lemma {:induction false} InsertSorted(e: Entry, s: seq<Entry>)
    requires SortedDesc(s)
    ensures SortedDesc(Insert(e, s))
  {
    if s != [] && RanksAtLeast(s[0].published, e.published) {
      InsertSorted(e, s[1..]);
      var r := Insert(e, s);
      assert r == [s[0]] + Insert(e, s[1..]);
      forall j | 0 < j < |r| ensures RanksAtLeast(r[0].published, r[j].published) {
        assert r[j] in multiset(Insert(e, s[1..]));
        assert r[j] in multiset(s[1..]) + multiset{e};
        if r[j] != e {
          assert r[j] in s[1..];
          var k :| 0 <= k < |s[1..]| && s[1..][k] == r[j];
          assert s[k + 1] == r[j];
        }
      }
    }
  }

  /** The reference sort orders its output and only permutes its input. */
  lemma {:induction false} SortDescCorrect(es: seq<Entry>)
    ensures SortedDesc(SortDesc(es))
    ensures multiset(SortDesc(es)) == multiset(es)
    decreases |es|
  {
    if es != [] {
      var p := es[..|es| - 1];
      SortDescCorrect(p);
      InsertSorted(es[|es| - 1], SortDesc(p));
      assert es == p + [es[|es| - 1]];
    }
  }

  /** The latest entry is the head of the stable descending sort. */
  lemma {:induction false} LatestIsHeadOfSort(es: seq<Entry>)
    requires |es| > 0
    ensures SortDesc(es)[0] == Latest(es)
    decreases |es|
  {
    if |es| > 1 {
      var p := es[..|es| - 1];
      LatestIsHeadOfSort(p);
      var k := LatestIndex(p);
      assert p[k] == es[k];
    }
  }

  // ---------------------------------------------------------------------
  // The sort as written compares Python objects of two types.

  /**
   * As written, the sort key of an entry is its `struct_time`, or
   * `datetime.min` when it has none; Python cannot order the two types
   * against each other, so `sorted` succeeds only when every key has the
   * same type.
   */
  predicate SortKeysComparable(es: seq<Entry>) {
    (forall i :: 0 <= i < |es| ==> es[i].published.Some?) ||
    (forall i :: 0 <= i < |es| ==> es[i].published.None?)
  }

  /**
   * A feed holding an entry with a timestamp and one without cannot be
   * sorted as written (TypeError), in either order; the intended ranking,
   * which the model uses, selects the entry with the timestamp.
   */
  lemma MixedFeedNotSortable(dated: Entry, undated: Entry)
    requires dated.published.Some? && undated.published.None?
    ensures !SortKeysComparable([dated, undated]) && !SortKeysComparable([undated, dated])
    ensures Latest([dated, undated]) == dated && Latest([undated, dated]) == dated
  {
    assert [dated, undated][0] == dated && [undated, dated][1] == dated;
    assert [dated, undated][1].published.None? && [dated, undated][0].published.Some?;
    assert [undated, dated][0].published.None? && [undated, dated][1].published.Some?;
  }
}
