/**
 * A pandas `groupby(...).agg(count, sum)` over a sequence of items.
 * Each item has a key, which may be null (`None`): like pandas' default
 * `dropna=True`, such an item belongs to no group.  The groups come out
 * sorted by key, like pandas' default `sort=True`.
 */
module Grouping {
  import opened Wrappers
  import opened Ordering

  /** One output row of the group-by: its key, the number of items in the group and the sum of their values. */
  datatype Group<K> = Group(key: K, count: nat, total: int)

  // ---------------------------------------------------------------------------
  // Specification: what a group is, stated over the input items

  /** The items whose key is `k`: the members of group `k`. */
  function Matching<T, K(==)>(xs: seq<T>, key: T -> Option<K>, k: K): seq<T>
  {
    if xs == [] then []
    else if key(xs[0]) == Some(k) then [xs[0]] + Matching(xs[1..], key, k)
    else Matching(xs[1..], key, k)
  }

  /** The items whose key is not null: those that belong to some group. */
  function Keyed<T, K>(xs: seq<T>, key: T -> Option<K>): seq<T>
  {
    if xs == [] then []
    else if key(xs[0]).Some? then [xs[0]] + Keyed(xs[1..], key)
    else Keyed(xs[1..], key)
  }

  /** The distinct non-null keys of the items. */
  function KeysOf<T, K>(xs: seq<T>, key: T -> Option<K>): set<K>
  {
    if xs == [] then {}
    else (if key(xs[0]).Some? then {key(xs[0]).value} else {}) + KeysOf(xs[1..], key)
  }

  /** Sum of `value` over the items. */
  function SumOf<T>(xs: seq<T>, value: T -> int): int
  {
    if xs == [] then 0 else value(xs[0]) + SumOf(xs[1..], value)
  }

  // ---------------------------------------------------------------------------
  // Views of a sequence of groups

  /** The keys of the groups, in order: a table's index or column labels. */
  function Keys<K>(g: seq<Group<K>>): (ks: seq<K>)
  {
    seq(|g|, i requires 0 <= i < |g| => g[i].key)
  }

  /**
   * The keys of the groups as a set, for comparing with the input's keys and
   * counting them; `KeysMembers` shows it holds the same keys as `Keys`.
   */
  function GroupKeys<K>(g: seq<Group<K>>): set<K>
  {
    if g == [] then {} else {g[0].key} + GroupKeys(g[1..])
  }

  predicate Sorted<K>(g: seq<Group<K>>, lt: (K, K) -> bool)
  {
    forall i, j :: 0 <= i < j < |g| ==> lt(g[i].key, g[j].key)
  }

  predicate Distinct<K(==)>(g: seq<Group<K>>)
  {
    forall i, j :: 0 <= i < j < |g| ==> g[i].key != g[j].key
  }

  /** Sum of the counts of the groups keyed `k` (with distinct keys: that group's count, or 0). */
  function CountIn<K(==)>(g: seq<Group<K>>, k: K): nat
  {
    if g == [] then 0 else (if g[0].key == k then g[0].count else 0) + CountIn(g[1..], k)
  }

  /** Sum of the totals of the groups keyed `k`. */
  function TotalIn<K(==)>(g: seq<Group<K>>, k: K): int
  {
    if g == [] then 0 else (if g[0].key == k then g[0].total else 0) + TotalIn(g[1..], k)
  }

  /** The column sum of the counts. */
  function SumCounts<K>(g: seq<Group<K>>): nat
  {
    if g == [] then 0 else g[0].count + SumCounts(g[1..])
  }

  /** The column sum of the totals. */
  function SumTotals<K>(g: seq<Group<K>>): int
  {
    if g == [] then 0 else g[0].total + SumTotals(g[1..])
  }

  /** Label lookup `g.loc[k]`: the group keyed `k`, or `None` when there is none. */
  function Find<K(==)>(g: seq<Group<K>>, k: K): Option<Group<K>>
  {
    if g == [] then None else if g[0].key == k then Some(g[0]) else Find(g[1..], k)
  }

  // ---------------------------------------------------------------------------
  // The group-by itself

  /** Adds one item with key `k` and value `v`: to its group if there is one, else as a new group in key order. */
  function Add<K(==)>(g: seq<Group<K>>, k: K, v: int, lt: (K, K) -> bool): seq<Group<K>>
  {
    if g == [] then [Group(k, 1, v)]
    else if g[0].key == k then [Group(k, g[0].count + 1, g[0].total + v)] + g[1..]
    else if lt(k, g[0].key) then [Group(k, 1, v)] + g
    else [g[0]] + Add(g[1..], k, v, lt)
  }

  /** `xs.groupby(key).agg(count, sum of value)`, groups sorted by `lt`. */
  function GroupBy<T, K(==)>(xs: seq<T>, key: T -> Option<K>, value: T -> int, lt: (K, K) -> bool): seq<Group<K>>
  {
    if xs == [] then []
    else
      var g := GroupBy(xs[1..], key, value, lt);
      match key(xs[0])
      case None => g
      case Some(k) => Add(g, k, value(xs[0]), lt)
  }

  // ---------------------------------------------------------------------------
  // Facts about the specification functions

  lemma {:induction false} KeysOfMembers<T, K>(xs: seq<T>, key: T -> Option<K>, k: K)
    ensures k in KeysOf(xs, key) <==> exists i :: 0 <= i < |xs| && key(xs[i]) == Some(k)
  {
    if xs != [] {
      KeysOfMembers(xs[1..], key, k);
      if exists i :: 0 <= i < |xs| && key(xs[i]) == Some(k) {
        var i :| 0 <= i < |xs| && key(xs[i]) == Some(k);
        if i > 0 {
          assert key(xs[1..][i - 1]) == Some(k);
        }
      }
      if exists i :: 0 <= i < |xs[1..]| && key(xs[1..][i]) == Some(k) {
        var i :| 0 <= i < |xs[1..]| && key(xs[1..][i]) == Some(k);
        assert key(xs[i + 1]) == Some(k);
      }
    }
  }

  /** A group is non-empty exactly when some item carries its key. */
  lemma {:induction false} MatchingNonEmpty<T, K>(xs: seq<T>, key: T -> Option<K>, k: K)
    ensures |Matching(xs, key, k)| > 0 <==> k in KeysOf(xs, key)
  {
    if xs != [] {
      MatchingNonEmpty(xs[1..], key, k);
    }
  }

  /** Group `k` holds exactly the items whose key is `k`, in their original order. */
  lemma {:induction false} MatchingMembers<T, K>(xs: seq<T>, key: T -> Option<K>, k: K, x: T)
    ensures x in Matching(xs, key, k) <==> x in xs && key(x) == Some(k)
  {
    if xs != [] {
      MatchingMembers(xs[1..], key, k, x);
      assert x in xs <==> x == xs[0] || x in xs[1..];
    }
  }

  /** When no key is null, every item belongs to a group. */
  lemma {:induction false} KeyedTotal<T, K>(xs: seq<T>, key: T -> Option<K>)
    requires forall i :: 0 <= i < |xs| ==> key(xs[i]).Some?
    ensures Keyed(xs, key) == xs
  {
    if xs != [] {
      assert key(xs[0]).Some?;
      KeyedTotal(xs[1..], key);
      assert xs == [xs[0]] + xs[1..];
    }
  }

  lemma {:induction false} SumOfConcat<T>(a: seq<T>, b: seq<T>, value: T -> int)
    ensures SumOf(a + b, value) == SumOf(a, value) + SumOf(b, value)
  {
    if a != [] {
      assert (a + b)[1..] == a[1..] + b;
      SumOfConcat(a[1..], b, value);
    } else {
      assert a + b == b;
    }
  }

  lemma {:induction false} InGroupKeys<K>(g: seq<Group<K>>, k: K)
    ensures k in GroupKeys(g) <==> exists i :: 0 <= i < |g| && g[i].key == k
  {
    if g != [] {
      InGroupKeys(g[1..], k);
      if exists i :: 0 <= i < |g| && g[i].key == k {
        var i :| 0 <= i < |g| && g[i].key == k;
        if i > 0 {
          assert g[1..][i - 1].key == k;
        }
      }
    }
  }

  lemma KeysMembers<K>(g: seq<Group<K>>, k: K)
    ensures k in Keys(g) <==> k in GroupKeys(g)
  {
    InGroupKeys(g, k);
    if k in Keys(g) {
      var i :| 0 <= i < |Keys(g)| && Keys(g)[i] == k;
      assert g[i].key == k;
    }
    if k in GroupKeys(g) {
      var i :| 0 <= i < |g| && g[i].key == k;
      assert Keys(g)[i] == k;
    }
  }

  lemma {:induction false} AbsentKey<K>(g: seq<Group<K>>, k: K)
    requires k !in GroupKeys(g)
    ensures CountIn(g, k) == 0 && TotalIn(g, k) == 0 && Find(g, k) == None
  {
    if g != [] {
      AbsentKey(g[1..], k);
    }
  }

  // ---------------------------------------------------------------------------
  // Facts about Add

  /** Adding an item puts it in the group of its key and nowhere else. */
  lemma {:induction false} AddContents<K>(g: seq<Group<K>>, k: K, v: int, lt: (K, K) -> bool)
    ensures var r := Add(g, k, v, lt);
      && GroupKeys(r) == GroupKeys(g) + {k}
      && SumCounts(r) == SumCounts(g) + 1
      && SumTotals(r) == SumTotals(g) + v
      && (forall j :: CountIn(r, j) == CountIn(g, j) + (if j == k then 1 else 0))
      && (forall j :: TotalIn(r, j) == TotalIn(g, j) + (if j == k then v else 0))
      && ((forall i :: 0 <= i < |g| ==> g[i].count > 0) ==> (forall i :: 0 <= i < |r| ==> r[i].count > 0))
  {
    if g != [] && g[0].key != k && !lt(k, g[0].key) {
      AddContents(g[1..], k, v, lt);
      var r := Add(g, k, v, lt);
      assert r[1..] == Add(g[1..], k, v, lt);
    }
  }

  /** Adding an item keeps the groups sorted. */
  lemma {:induction false} AddSorted<K(!new)>(g: seq<Group<K>>, k: K, v: int, lt: (K, K) -> bool)
    requires StrictTotalOrder(lt)
    requires Sorted(g, lt)
    ensures Sorted(Add(g, k, v, lt), lt)
  {
    if g != [] && g[0].key != k && !lt(k, g[0].key) {
      var t := Add(g[1..], k, v, lt);
      AddSorted(g[1..], k, v, lt);
      AddContents(g[1..], k, v, lt);
      forall j | 0 <= j < |t| ensures lt(g[0].key, t[j].key) {
        InGroupKeys(t, t[j].key);
        InGroupKeys(g[1..], t[j].key);
        if t[j].key != k {
          var i :| 0 <= i < |g[1..]| && g[1..][i].key == t[j].key;
          assert g[i + 1].key == t[j].key;
        }
      }
    }
  }

  // ---------------------------------------------------------------------------
  // Facts about GroupBy

  /** Every group holds exactly the items carrying its key, and the groups hold every keyed item. */
  lemma {:induction false} GroupByContents<T, K>(xs: seq<T>, key: T -> Option<K>, value: T -> int, lt: (K, K) -> bool)
    ensures var g := GroupBy(xs, key, value, lt);
      && GroupKeys(g) == KeysOf(xs, key)
      && SumCounts(g) == |Keyed(xs, key)|
      && SumTotals(g) == SumOf(Keyed(xs, key), value)
      && (forall k :: CountIn(g, k) == |Matching(xs, key, k)|)
      && (forall k :: TotalIn(g, k) == SumOf(Matching(xs, key, k), value))
      && (forall i :: 0 <= i < |g| ==> g[i].count > 0)
  {
    if xs != [] {
      var g := GroupBy(xs[1..], key, value, lt);
      GroupByContents(xs[1..], key, value, lt);
      match key(xs[0])
      case None =>
      case Some(k) => AddContents(g, k, value(xs[0]), lt);
    }
  }

  lemma {:induction false} GroupBySorted<T, K(!new)>(xs: seq<T>, key: T -> Option<K>, value: T -> int, lt: (K, K) -> bool)
    requires StrictTotalOrder(lt)
    ensures Sorted(GroupBy(xs, key, value, lt), lt)
  {
    if xs != [] {
      GroupBySorted(xs[1..], key, value, lt);
      match key(xs[0])
      case None =>
      case Some(k) => AddSorted(GroupBy(xs[1..], key, value, lt), k, value(xs[0]), lt);
    }
  }

  lemma SortedDistinct<K(!new)>(g: seq<Group<K>>, lt: (K, K) -> bool)
    requires StrictTotalOrder(lt)
    requires Sorted(g, lt)
    ensures Distinct(g)
  {
  }

  /** With distinct keys, a group's own count and total are what CountIn and TotalIn report for its key. */
  lemma {:induction false} DistinctGroupAt<K>(g: seq<Group<K>>, i: nat)
    requires Distinct(g)
    requires i < |g|
    ensures CountIn(g, g[i].key) == g[i].count && TotalIn(g, g[i].key) == g[i].total
  {
    if i == 0 {
      InGroupKeys(g[1..], g[0].key);
      AbsentKey(g[1..], g[0].key);
    } else {
      DistinctGroupAt(g[1..], i - 1);
    }
  }

  /** With distinct keys, looking a key up finds its whole count; a missing key has none. */
  lemma {:induction false} FindCount<K>(g: seq<Group<K>>, k: K)
    requires Distinct(g)
    ensures Find(g, k).Some? <==> k in GroupKeys(g)
    ensures (if Find(g, k).Some? then Find(g, k).value.count else 0) == CountIn(g, k)
  {
    if g != [] {
      if g[0].key == k {
        InGroupKeys(g[1..], k);
        AbsentKey(g[1..], k);
      } else {
        FindCount(g[1..], k);
      }
    }
  }

  /** A sequence of groups with distinct keys has as many groups as keys. */
  lemma {:induction false} DistinctCardinality<K>(g: seq<Group<K>>)
    requires Distinct(g)
    ensures |GroupKeys(g)| == |g|
  {
    if g != [] {
      DistinctCardinality(g[1..]);
      InGroupKeys(g[1..], g[0].key);
    }
  }

  /**
   * The group-by's contract: one group per distinct non-null key, in strictly
   * ascending key order; each group's count and total are the number and the
   * value sum of the items with its key; and the counts and totals add up to
   * the number and the value sum of all items with a non-null key.
   */
  lemma GroupByCorrect<T, K(!new)>(xs: seq<T>, key: T -> Option<K>, value: T -> int, lt: (K, K) -> bool)
    requires StrictTotalOrder(lt)
    ensures var g := GroupBy(xs, key, value, lt);
      && Sorted(g, lt)
      && Distinct(g)
      && GroupKeys(g) == KeysOf(xs, key)
      && |g| == |KeysOf(xs, key)|
      && (forall i :: 0 <= i < |g| ==>
            && g[i].count == |Matching(xs, key, g[i].key)| > 0
            && g[i].total == SumOf(Matching(xs, key, g[i].key), value))
      && SumCounts(g) == |Keyed(xs, key)|
      && SumTotals(g) == SumOf(Keyed(xs, key), value)
  {
    var g := GroupBy(xs, key, value, lt);
    GroupByContents(xs, key, value, lt);
    GroupBySorted(xs, key, value, lt);
    SortedDistinct(g, lt);
    DistinctCardinality(g);
    forall i | 0 <= i < |g|
      ensures g[i].count == |Matching(xs, key, g[i].key)| && g[i].total == SumOf(Matching(xs, key, g[i].key), value)
    {
      DistinctGroupAt(g, i);
    }
  }
}
