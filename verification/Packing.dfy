/** Packing the splits of a scan plan into partition-sized groups. */
module Packing {
  import opened Wrappers
  import opened IndexSums
  import opened Scheduling

  type Token = seq<nat>

  const USIZE_MAX: nat := 0xFFFF_FFFF_FFFF_FFFF

  datatype Precision = Exact(value: nat) | Inexact(value: nat) | Absent

  /** One planned unit of work. The estimates are the worker's signed 64-bit fields. */
  datatype Split = Split(
    token: Token,
    estimatedBytes: Option<int>,
    estimatedRows: Option<int>,
    rowsExact: bool,
    rangeIndex: Option<int>,
    startPosition: Option<Token>,
    endPosition: Option<Token>)

  /** `rangeCount` is one more than the number of split points, when the plan is range partitioned. */
  datatype ScanPlan = ScanPlan(
    splits: seq<Split>,
    maxWorkers: Option<int>,
    rangeCount: Option<nat>,
    startPosition: Option<Token>,
    endPosition: Option<Token>)

  datatype SplitGroup = SplitGroup(
    splitIndices: seq<nat>,
    tokens: seq<Token>,
    numRows: Precision,
    totalByteSize: Precision)

  datatype PlannedSplits = PlannedSplits(
    groups: seq<SplitGroup>,
    numRows: Precision,
    totalByteSize: Precision,
    rangeGrouped: bool,
    unbounded: bool)

  /** The key splits are sorted by, heaviest first. */
  function SortKey(split: Split): int {
    if split.estimatedBytes.Some? then split.estimatedBytes.value else 0
  }

  /** The weight a split adds to its bin; a missing or non-positive estimate counts one. */
  function Weight(split: Split): int {
    var w := if split.estimatedBytes.Some? then split.estimatedBytes.value else 1;
    if w < 1 then 1 else w
  }

  function Weights(splits: seq<Split>): (w: seq<int>)
    ensures |w| == |splits| && AllAtLeast(w, 1)
    ensures forall i :: 0 <= i < |splits| ==> w[i] == Weight(splits[i])
  {
    seq(|splits|, i requires 0 <= i < |splits| => Weight(splits[i]))
  }

  /** Total weight of the splits a group names. */
  function GroupWeight(splits: seq<Split>, indices: seq<nat>): int {
    SumOver(indices, OfSplit(splits))
  }

  function OfSplit(splits: seq<Split>): nat -> int {
    (i: nat) => if i < |splits| then Weight(splits[i]) else 0
  }

  function Select<T>(items: seq<T>, indices: seq<nat>): (s: seq<T>)
    requires forall k :: 0 <= k < |indices| ==> indices[k] < |items|
    ensures |s| == |indices| && forall k :: 0 <= k < |s| ==> s[k] == items[indices[k]]
  {
    seq(|indices|, k requires 0 <= k < |indices| => items[indices[k]])
  }

  // ---------------------------------------------------------------------
  // Statistics

  predicate Known(estimate: Option<int>) {
    estimate.Some? && 0 <= estimate.value
  }

  function Amount(estimate: Option<int>): nat {
    if Known(estimate) then estimate.value else 0
  }

  function RowTotal(splits: seq<Split>): nat {
    if splits == [] then 0
    else RowTotal(splits[..|splits| - 1]) + Amount(splits[|splits| - 1].estimatedRows)
  }

  function ByteTotal(splits: seq<Split>): nat {
    if splits == [] then 0
    else ByteTotal(splits[..|splits| - 1]) + Amount(splits[|splits| - 1].estimatedBytes)
  }

  /** The row statistic: absent as soon as one estimate is unusable or the total does not fit. */
  function RowCount(splits: seq<Split>): Precision {
    if (exists i :: 0 <= i < |splits| && !Known(splits[i].estimatedRows)) || RowTotal(splits) > USIZE_MAX then Absent
    else if forall i :: 0 <= i < |splits| ==> splits[i].rowsExact then Exact(RowTotal(splits))
    else Inexact(RowTotal(splits))
  }

  function ByteCount(splits: seq<Split>): Precision {
    if (exists i :: 0 <= i < |splits| && !Known(splits[i].estimatedBytes)) || ByteTotal(splits) > USIZE_MAX then Absent
    else Inexact(ByteTotal(splits))
  }

  lemma {:induction false} PrefixTotals(splits: seq<Split>, k: nat)
    requires k <= |splits|
    ensures RowTotal(splits[..k]) <= RowTotal(splits) && ByteTotal(splits[..k]) <= ByteTotal(splits)
  {
    if k < |splits| {
      var init := splits[..|splits| - 1];
      assert init[..k] == splits[..k];
      PrefixTotals(init, k);
    } else {
      assert splits[..k] == splits;
    }
  }

  method SplitRowCount(splits: seq<Split>) returns (p: Precision)
    ensures p == RowCount(splits)
  {
    var total: nat := 0;
    var exact := true;
    for k := 0 to |splits|
      invariant total == RowTotal(splits[..k]) <= USIZE_MAX
      invariant forall i :: 0 <= i < k ==> Known(splits[i].estimatedRows)
      invariant exact <==> forall i :: 0 <= i < k ==> splits[i].rowsExact
    {
      if !Known(splits[k].estimatedRows) {
        return Absent;
      }
      assert splits[..k + 1][..k] == splits[..k];
      PrefixTotals(splits, k + 1);
      if total + splits[k].estimatedRows.value > USIZE_MAX {
        return Absent;
      }
      total := total + splits[k].estimatedRows.value;
      exact := exact && splits[k].rowsExact;
    }
    assert splits[..|splits|] == splits;
    p := if exact then Exact(total) else Inexact(total);
  }

  method SplitByteCount(splits: seq<Split>) returns (p: Precision)
    ensures p == ByteCount(splits)
  {
    var total: nat := 0;
    for k := 0 to |splits|
      invariant total == ByteTotal(splits[..k]) <= USIZE_MAX
      invariant forall i :: 0 <= i < k ==> Known(splits[i].estimatedBytes)
    {
      if !Known(splits[k].estimatedBytes) {
        return Absent;
      }
      assert splits[..k + 1][..k] == splits[..k];
      PrefixTotals(splits, k + 1);
      if total + splits[k].estimatedBytes.value > USIZE_MAX {
        return Absent;
      }
      total := total + splits[k].estimatedBytes.value;
    }
    assert splits[..|splits|] == splits;
    p := Inexact(total);
  }

  // ---------------------------------------------------------------------
  // Sorting, as the standard library's stable sort does it

  /** Split `i` is handed out before split `j`. */
  predicate Before(keys: seq<int>, i: nat, j: nat) {
    i < |keys| && j < |keys| && (keys[i] > keys[j] || (keys[i] == keys[j] && i < j))
  }

  ghost predicate SortedByKey(keys: seq<int>, order: seq<nat>) {
    && (forall k :: 0 <= k < |order| ==> order[k] < |keys|)
    && (forall j, k :: 0 <= j < k < |order| ==> Before(keys, order[j], order[k]))
  }

  function InsertByKey(keys: seq<int>, order: seq<nat>, i: nat): (r: seq<nat>)
    requires i < |keys| && forall k :: 0 <= k < |order| ==> order[k] < |keys|
    ensures |r| == |order| + 1 && forall k :: 0 <= k < |r| ==> r[k] == i || r[k] in order
  {
    if order == [] then [i]
    else
      var last := order[|order| - 1];
      if keys[last] >= keys[i] then order + [i]
      else InsertByKey(keys, order[..|order| - 1], i) + [last]
  }

  ghost predicate AllBefore(keys: seq<int>, order: seq<nat>, i: nat) {
    forall k :: 0 <= k < |order| ==> Before(keys, order[k], i)
  }

  lemma SortedAppend(keys: seq<int>, order: seq<nat>, i: nat)
    requires SortedByKey(keys, order) && AllBefore(keys, order, i) && i < |keys|
    ensures SortedByKey(keys, order + [i])
  {}

  lemma {:induction false} InsertKeepsSorted(keys: seq<int>, order: seq<nat>, i: nat)
    requires SortedByKey(keys, order) && i < |keys| && forall k :: 0 <= k < |order| ==> order[k] < i
    ensures SortedByKey(keys, InsertByKey(keys, order, i))
  {
    if order != [] {
      var last := |order| - 1;
      if keys[order[last]] < keys[i] {
        InsertKeepsSorted(keys, order[..last], i);
        InsertStaysBefore(keys, order[..last], i, order[last]);
        SortedAppend(keys, InsertByKey(keys, order[..last], i), order[last]);
      } else {
        forall k | 0 <= k < |order|
          ensures Before(keys, order[k], i)
        {
          assert k == last || Before(keys, order[k], order[last]);
        }
        SortedAppend(keys, order, i);
      }
    }
  }

  lemma InsertStaysBefore(keys: seq<int>, order: seq<nat>, i: nat, x: nat)
    requires AllBefore(keys, order, x) && Before(keys, i, x)
    ensures AllBefore(keys, InsertByKey(keys, order, i), x)
  {
  }

  lemma {:induction false} InsertAddsOne(keys: seq<int>, order: seq<nat>, i: nat)
    requires i < |keys| && forall k :: 0 <= k < |order| ==> order[k] < |keys|
    ensures multiset(InsertByKey(keys, order, i)) == multiset(order) + multiset{i}
  {
    if order != [] && keys[order[|order| - 1]] < keys[i] {
      InsertAddsOne(keys, order[..|order| - 1], i);
      assert order == order[..|order| - 1] + [order[|order| - 1]];
    }
  }

  /** Positions `0..m` by decreasing key, ties in their original order. */
  function SortByKeyDescending(keys: seq<int>, m: nat): (order: seq<nat>)
    requires m <= |keys|
    ensures |order| == m && forall k :: 0 <= k < m ==> order[k] < m
  {
    if m == 0 then [] else InsertByKey(keys, SortByKeyDescending(keys, m - 1), m - 1)
  }

  lemma {:induction false} SortSorts(keys: seq<int>, m: nat)
    requires m <= |keys|
    ensures SortedByKey(keys, SortByKeyDescending(keys, m))
  {
    if m > 0 {
      var rest := SortByKeyDescending(keys, m - 1);
      SortSorts(keys, m - 1);
      InsertKeepsSorted(keys, rest, m - 1);
    }
  }

  lemma {:induction false} SortPermutes(keys: seq<int>, m: nat)
    requires m <= |keys|
    ensures multiset(SortByKeyDescending(keys, m)) == Ids(m)
  {
    if m > 0 {
      var rest := SortByKeyDescending(keys, m - 1);
      SortPermutes(keys, m - 1);
      InsertAddsOne(keys, rest, m - 1);
    }
  }

  // ---------------------------------------------------------------------
  // Longest-processing-time-first

  function Keys(splits: seq<Split>): (keys: seq<int>)
    ensures |keys| == |splits| && forall i :: 0 <= i < |splits| ==> keys[i] == SortKey(splits[i])
  {
    seq(|splits|, i requires 0 <= i < |splits| => SortKey(splits[i]))
  }

  /** The weights in the order in which the splits are handed out. */
  function OrderedWeights(splits: seq<Split>, order: seq<nat>): (w: seq<int>)
    requires forall k :: 0 <= k < |order| ==> order[k] < |splits|
    ensures |w| == |order| && AllAtLeast(w, 1)
    ensures forall k :: 0 <= k < |w| ==> w[k] == Weight(splits[order[k]])
  {
    seq(|order|, k requires 0 <= k < |order| => Weight(splits[order[k]]))
  }

  // Sorting by the raw estimate also sorts the clamped weights.
  lemma SortedWeights(splits: seq<Split>, order: seq<nat>)
    requires SortedByKey(Keys(splits), order)
    ensures NonIncreasing(OrderedWeights(splits, order))
  {
  }

  /** `bins` is the greedy schedule, in `order`, that fills the groups `indices`. */
  ghost predicate FilledGreedily(splits: seq<Split>, indices: seq<seq<nat>>, order: seq<nat>, bins: seq<nat>) {
    && multiset(order) == Ids(|splits|) && |order| == |splits|
    && SortedByKey(Keys(splits), order)
    && Greedy(bins, OrderedWeights(splits, order), |indices|)
    && forall b :: 0 <= b < |indices| ==>
         GroupWeight(splits, indices[b]) == Load(bins, OrderedWeights(splits, order), b, |order|)
  }

  /** No group is heavier than 4/3 - 1/(3n) times the heaviest bin of any assignment to n bins. */
  ghost predicate WithinGraham(splits: seq<Split>, indices: seq<seq<nat>>) {
    var n := |indices|;
    forall other, cap, b ::
      FitsWithin(other, Weights(splits), n, cap) && 0 <= b < n ==>
        3 * n * GroupWeight(splits, indices[b]) <= (4 * n - 1) * cap
  }

  ghost predicate NoHeavierThan(splits: seq<Split>, heaviest: nat) {
    forall i :: 0 <= i < |splits| ==> Weight(splits[i]) <= heaviest
  }

  /** No group exceeds the average by more than (1 - 1/n) of the heaviest split. */
  ghost predicate WithinListBound(splits: seq<Split>, indices: seq<seq<nat>>) {
    var n := |indices|;
    forall heaviest: nat, b: nat ::
      NoHeavierThan(splits, heaviest) && b < n ==>
        n * GroupWeight(splits, indices[b]) <= Total(Weights(splits), |splits|) + (n - 1) * heaviest
  }

  function InBin(splits: seq<Split>, other: seq<nat>, b: nat): nat -> int {
    (i: nat) => if i < |splits| && i < |other| && other[i] == b then Weight(splits[i]) else 0
  }

  lemma {:induction false} LoadAsSum(splits: seq<Split>, other: seq<nat>, order: seq<nat>, b: nat, m: nat)
    requires m <= |order| && |other| == |splits|
    requires forall k :: 0 <= k < |order| ==> order[k] < |splits|
    ensures Load(Select(other, order), OrderedWeights(splits, order), b, m) == SumOver(order[..m], InBin(splits, other, b))
    ensures Total(OrderedWeights(splits, order), m) == SumOver(order[..m], OfSplit(splits))
  {
    if m > 0 {
      LoadAsSum(splits, other, order, b, m - 1);
      assert order[..m][..m - 1] == order[..m - 1];
    }
  }

  // Loads and totals do not depend on the order in which splits are handed out.
  lemma {:induction false} LoadIgnoresOrder(splits: seq<Split>, other: seq<nat>, order: seq<nat>, b: nat)
    requires |other| == |splits| && |order| == |splits|
    requires forall k :: 0 <= k < |order| ==> order[k] < |splits|
    requires multiset(order) == Ids(|splits|)
    ensures Load(Select(other, order), OrderedWeights(splits, order), b, |order|) == Load(other, Weights(splits), b, |splits|)
    ensures Total(OrderedWeights(splits, order), |order|) == Total(Weights(splits), |splits|)
  {
    var all := Upto(|splits|);
    LoadAsSum(splits, other, order, b, |order|);
    LoadAsSum(splits, other, all, b, |all|);
    assert Select(other, all) == other && OrderedWeights(splits, all) == Weights(splits);
    assert order[..|order|] == order && all[..|all|] == all;
    IdsOfUpto(|splits|);
    SumOverPermutation(order, all, InBin(splits, other, b));
    SumOverPermutation(order, all, OfSplit(splits));
  }

  lemma {:induction false} GreedyIsWithinGraham(splits: seq<Split>, indices: seq<seq<nat>>, order: seq<nat>, bins: seq<nat>)
    requires FilledGreedily(splits, indices, order, bins)
    ensures WithinGraham(splits, indices)
  {
    var w, n := OrderedWeights(splits, order), |indices|;
    SortedWeights(splits, order);
    forall other, cap, b | FitsWithin(other, Weights(splits), n, cap) && 0 <= b < n
      ensures 3 * n * GroupWeight(splits, indices[b]) <= (4 * n - 1) * cap
    {
      forall c | 0 <= c < n
        ensures Load(Select(other, order), w, c, |w|) <= cap
      {
        LoadIgnoresOrder(splits, other, order, c);
      }
      assert FitsWithin(Select(other, order), w, n, cap);
      GrahamBound(bins, w, n, Select(other, order), cap, b);
    }
  }

  lemma {:induction false} GreedyIsWithinListBound(splits: seq<Split>, indices: seq<seq<nat>>, order: seq<nat>, bins: seq<nat>)
    requires FilledGreedily(splits, indices, order, bins)
    ensures WithinListBound(splits, indices)
  {
    var w, n := OrderedWeights(splits, order), |indices|;
    LoadIgnoresOrder(splits, Upto(|splits|), order, 0);
    forall heaviest: nat, b: nat | NoHeavierThan(splits, heaviest) && b < n
      ensures n * GroupWeight(splits, indices[b]) <= Total(Weights(splits), |splits|) + (n - 1) * heaviest
    {
      ListSchedulingBound(bins, w, n, heaviest, b);
    }
  }

  lemma {:induction false} GreedyFillsEveryGroup(splits: seq<Split>, indices: seq<seq<nat>>, order: seq<nat>, bins: seq<nat>)
    requires FilledGreedily(splits, indices, order, bins) && |indices| <= |splits|
    ensures forall b :: 0 <= b < |indices| ==> indices[b] != []
  {
    forall b | 0 <= b < |indices|
      ensures indices[b] != []
    {
      NoBinStaysEmpty(bins, OrderedWeights(splits, order), |indices|, b);
    }
  }

  /** The first bin of minimal weight. */
  method Lightest(weights: seq<int>) returns (b: nat)
    requires weights != []
    ensures b < |weights|
    ensures forall c :: 0 <= c < |weights| ==> weights[b] <= weights[c]
    ensures forall c :: 0 <= c < b ==> weights[b] < weights[c]
  {
    b := 0;
    for c := 1 to |weights|
      invariant b < c
      invariant forall d :: 0 <= d < c ==> weights[b] <= weights[d]
      invariant forall d :: 0 <= d < b ==> weights[b] < weights[d]
    {
      if weights[c] < weights[b] {
        b := c;
      }
    }
  }

  /** The first `m` indices of `order` that went to bin `b`, in that order. */
  function BinMembers(order: seq<nat>, bins: seq<nat>, b: nat, m: nat): seq<nat>
    requires m <= |order| && m <= |bins|
  {
    if m == 0 then []
    else BinMembers(order, bins, b, m - 1) + if bins[m - 1] == b then [order[m - 1]] else []
  }

  /** What `n` bins hold after `m` placements. */
  function BinGroups(order: seq<nat>, bins: seq<nat>, n: nat, m: nat): (groups: seq<seq<nat>>)
    requires m <= |order| && m <= |bins|
    ensures |groups| == n && forall b :: 0 <= b < n ==> groups[b] == BinMembers(order, bins, b, m)
  {
    seq(n, b requires 0 <= b => BinMembers(order, bins, b, m))
  }

  // Later placements do not change what the bins held before.
  lemma {:induction false} BinGroupsOfPrefix(order: seq<nat>, bins: seq<nat>, bins': seq<nat>, n: nat, m: nat)
    requires m <= |order| && m <= |bins| && bins <= bins'
    ensures BinGroups(order, bins', n, m) == BinGroups(order, bins, n, m)
  {
    forall b: nat | b < n
      ensures BinMembers(order, bins', b, m) == BinMembers(order, bins, b, m)
    {
      MembersOfPrefix(order, bins, bins', b, m);
    }
  }

  lemma {:induction false} MembersOfPrefix(order: seq<nat>, bins: seq<nat>, bins': seq<nat>, b: nat, m: nat)
    requires m <= |order| && m <= |bins| && bins <= bins'
    ensures BinMembers(order, bins', b, m) == BinMembers(order, bins, b, m)
  {
    if m > 0 {
      MembersOfPrefix(order, bins, bins', b, m - 1);
    }
  }

  // One more placement appends one index to one group.
  lemma {:induction false} BinGroupsStep(order: seq<nat>, bins: seq<nat>, n: nat, m: nat)
    requires m < |order| && m < |bins| && bins[m] < n
    ensures BinGroups(order, bins, n, m + 1) ==
            BinGroups(order, bins, n, m)[bins[m] := BinMembers(order, bins, bins[m], m) + [order[m]]]
  {
    var g := bins[m];
    var before, after := BinGroups(order, bins, n, m), BinGroups(order, bins, n, m + 1);
    forall b | 0 <= b < n
      ensures after[b] == before[g := BinMembers(order, bins, g, m) + [order[m]]][b]
    {
    }
  }

  // Every placed index is in exactly one group.
  lemma {:induction false} BinGroupsCover(order: seq<nat>, bins: seq<nat>, n: nat, m: nat)
    requires m <= |order| && m <= |bins| && forall k :: 0 <= k < m ==> bins[k] < n
    ensures multiset(FlatIndices(BinGroups(order, bins, n, m))) == multiset(order[..m])
  {
    if m == 0 {
      FlatOfEmpty(BinGroups(order, bins, n, 0));
    } else {
      BinGroupsCover(order, bins, n, m - 1);
      BinGroupsStep(order, bins, n, m - 1);
      FlatAppend(BinGroups(order, bins, n, m - 1), bins[m - 1], order[m - 1]);
      TakeStep(order, m - 1);
    }
  }

  // A bin's load is the weight of the group collected in it.
  lemma {:induction false} LoadIsGroupWeight(splits: seq<Split>, order: seq<nat>, bins: seq<nat>, b: nat, m: nat)
    requires m <= |order| && m <= |bins| && forall k :: 0 <= k < |order| ==> order[k] < |splits|
    ensures GroupWeight(splits, BinMembers(order, bins, b, m)) == Load(bins, OrderedWeights(splits, order), b, m)
  {
    if m > 0 {
      LoadIsGroupWeight(splits, order, bins, b, m - 1);
      assert BinMembers(order, bins, b, m - 1) + [] == BinMembers(order, bins, b, m - 1);
      GroupWeightAppend(splits, BinMembers(order, bins, b, m - 1), order[m - 1]);
    }
  }

  lemma {:induction false} GroupWeightAppend(splits: seq<Split>, indices: seq<nat>, i: nat)
    requires i < |splits|
    ensures GroupWeight(splits, indices + [i]) == GroupWeight(splits, indices) + Weight(splits[i])
  {
  }

  lemma {:induction false} ExtendGreedy(bins: seq<nat>, w: seq<int>, n: nat, b: nat, x: int)
    requires Greedy(bins, w, n) && b < n
    requires forall c :: 0 <= c < n ==> Load(bins, w, b, |w|) <= Load(bins, w, c, |w|)
    ensures Greedy(bins + [b], w + [x], n)
  {
    var bins', w' := bins + [b], w + [x];
    forall k, c {:trigger Load(bins', w', c, k)} | 0 <= k < |w'| && 0 <= c < n
      ensures Load(bins', w', bins'[k], k) <= Load(bins', w', c, k)
    {
      LoadOfPrefix(bins, w, bins', w', bins'[k], k);
      LoadOfPrefix(bins, w, bins', w', c, k);
    }
  }

  /** What longest-processing-time-first packing achieves. */
  ghost predicate BalancedGroups(splits: seq<Split>, indices: seq<seq<nat>>) {
    && WithinGraham(splits, indices)
    && WithinListBound(splits, indices)
    && forall g :: 0 <= g < |indices| ==> indices[g] != []
  }

  /** `weights` are the loads of the `n` bins of a greedy schedule of a prefix of `w`. */
  ghost predicate LoadsSoFar(w: seq<int>, bins: seq<nat>, weights: seq<int>, n: nat) {
    && |bins| <= |w| && |weights| == n
    && Greedy(bins, w[..|bins|], n)
    && forall b :: 0 <= b < n ==> weights[b] == Load(bins, w, b, |bins|)
  }

  lemma {:induction false} LoadsStep(w: seq<int>, bins: seq<nat>, weights: seq<int>, n: nat, g: nat)
    requires LoadsSoFar(w, bins, weights, n) && |bins| < |w| && g < n
    requires forall c :: 0 <= c < n ==> weights[g] <= weights[c]
    ensures LoadsSoFar(w, bins + [g], weights[g := weights[g] + w[|bins|]], n)
  {
    var k := |bins|;
    forall b: nat | b < n
      ensures Load(bins, w[..k], b, k) == Load(bins, w, b, k) == Load(bins + [g], w, b, k)
    {
      LoadOfPrefix(bins, w[..k], bins, w, b, k);
      LoadOfPrefix(bins, w, bins + [g], w, b, k);
    }
    ExtendGreedy(bins, w[..k], n, g, w[k]);
    assert w[..k] + [w[k]] == w[..k + 1];
  }

  /** Hands the splits, in `order`, to whichever of `n` bins is currently lightest. */
  method FillBins(splits: seq<Split>, order: seq<nat>, n: nat) returns (indices: seq<seq<nat>>, ghost bins: seq<nat>)
    requires 1 <= n && forall k :: 0 <= k < |order| ==> order[k] < |splits|
    ensures |indices| == n && multiset(FlatIndices(indices)) == multiset(order)
    ensures Greedy(bins, OrderedWeights(splits, order), n)
    ensures indices == BinGroups(order, bins, n, |order|)
  {
    indices := seq(n, _ => []);
    var weights := seq(n, _ => 0);
    bins := [];
    ghost var w := OrderedWeights(splits, order);
    assert LoadsSoFar(w, bins, weights, n);
    for k := 0 to |order|
      invariant |bins| == k && LoadsSoFar(w, bins, weights, n)
      invariant indices == BinGroups(order, bins, n, k)
    {
      var lightest := Lightest(weights);
      LoadsStep(w, bins, weights, n, lightest);
      BinGroupsOfPrefix(order, bins, bins + [lightest], n, k);
      BinGroupsStep(order, bins + [lightest], n, k);
      indices := indices[lightest := indices[lightest] + [order[k]]];
      weights := weights[lightest := weights[lightest] + Weight(splits[order[k]])];
      bins := bins + [lightest];
    }
    assert w[..|order|] == w;
    BinGroupsCover(order, bins, n, |order|);
    assert order[..|order|] == order;
  }

  lemma {:induction false} GreedyGroups(splits: seq<Split>, order: seq<nat>, bins: seq<nat>, n: nat)
    requires order == SortByKeyDescending(Keys(splits), |splits|)
    requires Greedy(bins, OrderedWeights(splits, order), n)
    ensures FilledGreedily(splits, BinGroups(order, bins, n, |order|), order, bins)
  {
    SortSorts(Keys(splits), |splits|);
    SortPermutes(Keys(splits), |splits|);
    forall b: nat | b < n
      ensures GroupWeight(splits, BinMembers(order, bins, b, |order|)) == Load(bins, OrderedWeights(splits, order), b, |order|)
    {
      LoadIsGroupWeight(splits, order, bins, b, |order|);
    }
  }

  /** Longest-processing-time-first packing into `n` bins. */
  method PackLongestFirst(splits: seq<Split>, n: nat) returns (indices: seq<seq<nat>>)
    requires 1 <= n
    ensures |indices| == n && multiset(FlatIndices(indices)) == Ids(|splits|)
    ensures n <= |splits| ==> BalancedGroups(splits, indices)
  {
    var order := SortByKeyDescending(Keys(splits), |splits|);
    ghost var bins;
    indices, bins := FillBins(splits, order, n);
    GreedyGroups(splits, order, bins, n);
    GreedyIsWithinGraham(splits, indices, order, bins);
    GreedyIsWithinListBound(splits, indices, order, bins);
    if n <= |splits| {
      GreedyFillsEveryGroup(splits, indices, order, bins);
    }
    GroupsHoldAll(splits, order, bins, n);
  }

  lemma {:induction false} GroupsHoldAll(splits: seq<Split>, order: seq<nat>, bins: seq<nat>, n: nat)
    requires order == SortByKeyDescending(Keys(splits), |splits|)
    requires |bins| == |order| && forall k :: 0 <= k < |bins| ==> bins[k] < n
    ensures multiset(FlatIndices(BinGroups(order, bins, n, |order|))) == Ids(|splits|)
  {
    BinGroupsCover(order, bins, n, |order|);
    SortPermutes(Keys(splits), |splits|);
    assert order[..|order|] == order;
  }

  // ---------------------------------------------------------------------
  // The whole plan

  function MaxWorkers(plan: ScanPlan, target: nat): nat {
    if plan.maxWorkers.Some? && plan.maxWorkers.value > 0 && plan.maxWorkers.value < target
    then plan.maxWorkers.value else target
  }

  /** A start position without an end frontier is a live stream. */
  predicate Unbounded(plan: ScanPlan) {
    || (plan.startPosition.Some? && plan.endPosition.None?)
    || exists i :: 0 <= i < |plan.splits| && plan.splits[i].startPosition.Some? && plan.splits[i].endPosition.None?
  }

  /** The split names one of the `count` ranges. */
  predicate InRange(split: Split, count: nat) {
    split.rangeIndex.Some? && 0 <= split.rangeIndex.value < count
  }

  predicate AllInRange(splits: seq<Split>, count: nat) {
    forall i :: 0 <= i < |splits| ==> InRange(splits[i], count)
  }

  /** The plan's ranges can be exposed as partitions. */
  predicate RangesUsable(plan: ScanPlan, target: nat) {
    && plan.rangeCount.Some?
    && 0 < plan.rangeCount.value <= MaxWorkers(plan, target)
    && AllInRange(plan.splits, plan.rangeCount.value)
  }

  /** The range of each split. */
  function Ranges(splits: seq<Split>, count: nat): (r: seq<nat>)
    requires AllInRange(splits, count)
    ensures |r| == |splits| && forall i :: 0 <= i < |r| ==> r[i] == splits[i].rangeIndex.value < count
  {
    seq(|splits|, i requires 0 <= i < |splits| && InRange(splits[i], count) => splits[i].rangeIndex.value)
  }

  /** The splits of each range, in plan order. */
  function RangeGroups(splits: seq<Split>, count: nat): seq<seq<nat>>
    requires AllInRange(splits, count)
  {
    BinGroups(Upto(|splits|), Ranges(splits, count), count, |splits|)
  }

  /** The group that redeems the splits `indices`. */
  function GroupOf(splits: seq<Split>, indices: seq<nat>): SplitGroup
    requires forall k :: 0 <= k < |indices| ==> indices[k] < |splits|
  {
    var chosen := Select(splits, indices);
    SplitGroup(indices, TokensOf(chosen), RowCount(chosen), ByteCount(chosen))
  }

  function TokensOf(splits: seq<Split>): (tokens: seq<Token>)
    ensures |tokens| == |splits| && forall k :: 0 <= k < |tokens| ==> tokens[k] == splits[k].token
  {
    seq(|splits|, k requires 0 <= k < |splits| => splits[k].token)
  }

  function IndexGroups(groups: seq<SplitGroup>): (indices: seq<seq<nat>>)
    ensures |indices| == |groups| && forall g :: 0 <= g < |groups| ==> indices[g] == groups[g].splitIndices
  {
    seq(|groups|, g requires 0 <= g < |groups| => groups[g].splitIndices)
  }

  /** Every split is in exactly one group, exactly once. */
  ghost predicate PartitionsSplits(splits: seq<Split>, groups: seq<SplitGroup>) {
    && multiset(FlatIndices(IndexGroups(groups))) == Ids(|splits|)
    && forall g :: 0 <= g < |groups| ==>
         && (forall k :: 0 <= k < |groups[g].splitIndices| ==> groups[g].splitIndices[k] < |splits|)
         && groups[g] == GroupOf(splits, groups[g].splitIndices)
  }

  /** Groups by range index; `None` when a split names no usable range. */
  method GroupByRange(splits: seq<Split>, count: nat) returns (r: Option<seq<seq<nat>>>)
    ensures r.Some? <==> AllInRange(splits, count)
    ensures r.Some? ==> r.value == RangeGroups(splits, count)
  {
    var indices: seq<seq<nat>> := seq(count, _ => []);
    ghost var ranges: seq<nat> := [];
    for k := 0 to |splits|
      invariant |ranges| == k
      invariant forall i :: 0 <= i < k ==> InRange(splits[i], count) && ranges[i] == splits[i].rangeIndex.value
      invariant indices == BinGroups(Upto(|splits|), ranges, count, k)
    {
      if !InRange(splits[k], count) {
        return None;
      }
      var range: nat := splits[k].rangeIndex.value;
      BinGroupsOfPrefix(Upto(|splits|), ranges, ranges + [range], count, k);
      BinGroupsStep(Upto(|splits|), ranges + [range], count, k);
      indices := indices[range := indices[range] + [k]];
      ranges := ranges + [range];
    }
    assert ranges == Ranges(splits, count);
    r := Some(indices);
  }

  lemma {:induction false} FlattenedIndexInBounds(splits: seq<Split>, indices: seq<seq<nat>>, g: nat)
    requires g < |indices| && multiset(FlatIndices(indices)) == Ids(|splits|)
    ensures forall k :: 0 <= k < |indices[g]| ==> indices[g][k] < |splits|
  {
    forall k | 0 <= k < |indices[g]|
      ensures indices[g][k] < |splits|
    {
      InFlat(indices, g, indices[g][k]);
      InIds(|splits|, indices[g][k]);
    }
  }

  /** Attaches tokens and statistics to the index groups. */
  method BuildGroups(splits: seq<Split>, indices: seq<seq<nat>>) returns (groups: seq<SplitGroup>)
    requires multiset(FlatIndices(indices)) == Ids(|splits|)
    ensures IndexGroups(groups) == indices && PartitionsSplits(splits, groups)
  {
    groups := [];
    for g := 0 to |indices|
      invariant |groups| == g
      invariant forall h :: 0 <= h < g ==> groups[h].splitIndices == indices[h]
      invariant forall h :: 0 <= h < g ==>
        && (forall k :: 0 <= k < |indices[h]| ==> indices[h][k] < |splits|)
        && groups[h] == GroupOf(splits, indices[h])
    {
      FlattenedIndexInBounds(splits, indices, g);
      var chosen := Select(splits, indices[g]);
      var rows := SplitRowCount(chosen);
      var bytes := SplitByteCount(chosen);
      groups := groups + [SplitGroup(indices[g], TokensOf(chosen), rows, bytes)];
    }
    assert IndexGroups(groups) == indices;
  }

  /**
   Packs the plan for `target` partitions. Partition sums are unbounded here; no
   sum exceeds the total weight of the plan.
   */
  method PackSplits(plan: ScanPlan, target: nat) returns (p: PlannedSplits)
    ensures p.unbounded == Unbounded(plan)
    ensures PartitionsSplits(plan.splits, p.groups)
    ensures p.numRows == RowCount(plan.splits)
    ensures p.totalByteSize == if plan.splits == [] && !p.rangeGrouped then Exact(0) else ByteCount(plan.splits)
    ensures 1 <= target ==> |p.groups| <= MaxWorkers(plan, target) <= target
    ensures p.rangeGrouped == RangesUsable(plan, target)
    ensures p.rangeGrouped ==> IndexGroups(p.groups) == RangeGroups(plan.splits, plan.rangeCount.value)
    ensures !p.rangeGrouped && plan.splits == [] ==> p.groups == []
    ensures !p.rangeGrouped && plan.splits != [] ==>
      1 <= |p.groups| <= |plan.splits| && BalancedGroups(plan.splits, IndexGroups(p.groups))
  {
    var splits := plan.splits;
    var maxWorkers := MaxWorkers(plan, target);
    if plan.rangeCount.Some? && 0 < plan.rangeCount.value <= maxWorkers {
      var byRange := GroupByRange(splits, plan.rangeCount.value);
      if byRange.Some? {
        BinGroupsCover(Upto(|splits|), Ranges(splits, plan.rangeCount.value), plan.rangeCount.value, |splits|);
        assert Upto(|splits|)[..|splits|] == Upto(|splits|);
        IdsOfUpto(|splits|);
        var groups := BuildGroups(splits, byRange.value);
        var rows := SplitRowCount(splits);
        var bytes := SplitByteCount(splits);
        return PlannedSplits(groups, rows, bytes, true, Unbounded(plan));
      }
    }
    if splits == [] {
      assert FlatIndices(IndexGroups([])) == [];
      return PlannedSplits([], Exact(0), Exact(0), false, Unbounded(plan));
    }
    var n := if maxWorkers < |splits| then maxWorkers else |splits|;
    n := if n < 1 then 1 else n;
    var indices := PackLongestFirst(splits, n);
    var groups := BuildGroups(splits, indices);
    var rows := SplitRowCount(splits);
    var bytes := SplitByteCount(splits);
    p := PlannedSplits(groups, rows, bytes, false, Unbounded(plan));
  }

  // ---------------------------------------------------------------------
  // Conservation of the statistics and of the tokens

  /** Sum of the known group row counts. */
  function GroupRows(groups: seq<SplitGroup>): nat {
    if groups == [] then 0
    else
      var last := groups[|groups| - 1].numRows;
      GroupRows(groups[..|groups| - 1]) + if last.Absent? then 0 else last.value
  }

  function RowsOf(splits: seq<Split>): nat -> int {
    (i: nat) => if i < |splits| then Amount(splits[i].estimatedRows) else 0
  }

  lemma {:induction false} SelectedRows(splits: seq<Split>, indices: seq<nat>)
    requires forall k :: 0 <= k < |indices| ==> indices[k] < |splits|
    ensures RowTotal(Select(splits, indices)) == SumOver(indices, RowsOf(splits))
  {
    if indices != [] {
      var last := |indices| - 1;
      assert Select(splits, indices)[..last] == Select(splits, indices[..last]);
      SelectedRows(splits, indices[..last]);
    }
  }

  lemma {:induction false} GroupRowsAsSum(splits: seq<Split>, groups: seq<SplitGroup>)
    requires forall g :: 0 <= g < |groups| ==>
      && (forall k :: 0 <= k < |groups[g].splitIndices| ==> groups[g].splitIndices[k] < |splits|)
      && groups[g] == GroupOf(splits, groups[g].splitIndices) && groups[g].numRows.Exact?
    ensures GroupRows(groups) == SumOver(FlatIndices(IndexGroups(groups)), RowsOf(splits))
  {
    if groups != [] {
      var last := |groups| - 1;
      GroupRowsAsSum(splits, groups[..last]);
      assert IndexGroups(groups)[..last] == IndexGroups(groups[..last]);
      SumOverConcat(FlatIndices(IndexGroups(groups[..last])), groups[last].splitIndices, RowsOf(splits));
      SelectedRows(splits, groups[last].splitIndices);
    }
  }

  lemma {:induction false} TotalOfAll(splits: seq<Split>)
    ensures RowTotal(splits) == SumOver(Upto(|splits|), RowsOf(splits))
  {
    assert Select(splits, Upto(|splits|)) == splits;
    SelectedRows(splits, Upto(|splits|));
  }

  // The plan's row count is exact precisely when every group's count is exact
  // and their sum fits, and then it is that sum.
  lemma {:induction false} ExactRowsAreConserved(splits: seq<Split>, groups: seq<SplitGroup>)
    requires PartitionsSplits(splits, groups)
    ensures RowCount(splits).Exact? <==>
      (forall g :: 0 <= g < |groups| ==> groups[g].numRows.Exact?) && GroupRows(groups) <= USIZE_MAX
    ensures RowCount(splits).Exact? ==> RowCount(splits).value == GroupRows(groups)
  {
    if RowCount(splits).Exact? {
      forall g | 0 <= g < |groups|
        ensures groups[g].numRows.Exact?
      {
        GroupWithinPlan(splits, groups, g);
      }
      TotalOfGroups(splits, groups);
    } else if forall g :: 0 <= g < |groups| ==> groups[g].numRows.Exact? {
      TotalOfGroups(splits, groups);
      forall i | 0 <= i < |splits|
        ensures Known(splits[i].estimatedRows) && splits[i].rowsExact
      {
        SplitOfExactGroups(splits, groups, i);
      }
    }
  }

  lemma {:induction false} TotalOfGroups(splits: seq<Split>, groups: seq<SplitGroup>)
    requires PartitionsSplits(splits, groups) && forall g :: 0 <= g < |groups| ==> groups[g].numRows.Exact?
    ensures GroupRows(groups) == RowTotal(splits)
  {
    TotalOfAll(splits);
    IdsOfUpto(|splits|);
    SumOverPermutation(FlatIndices(IndexGroups(groups)), Upto(|splits|), RowsOf(splits));
    GroupRowsAsSum(splits, groups);
  }

  lemma {:induction false} SplitOfExactGroups(splits: seq<Split>, groups: seq<SplitGroup>, i: nat)
    requires PartitionsSplits(splits, groups) && forall g :: 0 <= g < |groups| ==> groups[g].numRows.Exact?
    requires i < |splits|
    ensures Known(splits[i].estimatedRows) && splits[i].rowsExact
  {
    InIds(|splits|, i);
    assert i in multiset(FlatIndices(IndexGroups(groups)));
    var g := FromFlat(IndexGroups(groups), i);
    var k :| 0 <= k < |groups[g].splitIndices| && groups[g].splitIndices[k] == i;
    assert Select(splits, groups[g].splitIndices)[k] == splits[i];
  }

  lemma {:induction false} GroupWithinPlan(splits: seq<Split>, groups: seq<SplitGroup>, g: nat)
    requires PartitionsSplits(splits, groups) && RowCount(splits).Exact? && g < |groups|
    ensures groups[g].numRows.Exact?
  {
    GroupTotalWithinPlan(splits, groups, g);
    var chosen := Select(splits, groups[g].splitIndices);
    assert forall k :: 0 <= k < |chosen| ==> Known(chosen[k].estimatedRows) && chosen[k].rowsExact;
  }

  lemma {:induction false} GroupTotalWithinPlan(splits: seq<Split>, groups: seq<SplitGroup>, g: nat)
    requires PartitionsSplits(splits, groups) && g < |groups|
    ensures RowTotal(Select(splits, groups[g].splitIndices)) <= RowTotal(splits)
  {
    SelectedRows(splits, groups[g].splitIndices);
    TotalOfAll(splits);
    IdsOfUpto(|splits|);
    SumOverPermutation(FlatIndices(IndexGroups(groups)), Upto(|splits|), RowsOf(splits));
    PartOfFlatten(IndexGroups(groups), g, RowsOf(splits));
  }

  lemma {:induction false} PartOfFlatten(indices: seq<seq<nat>>, g: nat, f: nat -> int)
    requires g < |indices| && forall i :: f(i) >= 0
    ensures SumOver(indices[g], f) <= SumOver(FlatIndices(indices), f)
  {
    var last := |indices| - 1;
    SumOverConcat(FlatIndices(indices[..last]), indices[last], f);
    SumNonNegative(indices[last], f);
    SumNonNegative(FlatIndices(indices[..last]), f);
    if g < last {
      PartOfFlatten(indices[..last], g, f);
    }
  }

  lemma {:induction false} SumNonNegative(s: seq<nat>, f: nat -> int)
    requires forall i :: f(i) >= 0
    ensures SumOver(s, f) >= 0
  {
    if s != [] {
      SumNonNegative(s[..|s| - 1], f);
    }
  }

  /** The tokens of all groups, group after group. */
  function AllTokens(groups: seq<SplitGroup>): seq<Token> {
    if groups == [] then [] else AllTokens(groups[..|groups| - 1]) + groups[|groups| - 1].tokens
  }

  // Redeeming the groups one after another redeems every token of the plan
  // exactly once.
  lemma {:induction false} TokensAreConserved(splits: seq<Split>, groups: seq<SplitGroup>)
    requires PartitionsSplits(splits, groups)
    ensures multiset(AllTokens(groups)) == multiset(TokensOf(splits))
  {
    var flat, all := FlatIndices(IndexGroups(groups)), Upto(|splits|);
    forall k | 0 <= k < |flat|
      ensures flat[k] < |splits|
    {
      assert flat[k] in multiset(flat);
      InIds(|splits|, flat[k]);
    }
    IdsOfUpto(|splits|);
    AllTokensInOrder(splits, groups, flat);
    forall token: Token
      ensures multiset(TokensOf(Select(splits, flat)))[token] == multiset(TokensOf(Select(splits, all)))[token]
    {
      TokenMultiplicity(splits, flat, token);
      TokenMultiplicity(splits, all, token);
      SumOverPermutation(flat, all, IsToken(splits, token));
    }
    assert Select(splits, all) == splits;
  }

  lemma {:induction false} AllTokensInOrder(splits: seq<Split>, groups: seq<SplitGroup>, flat: seq<nat>)
    requires forall g :: 0 <= g < |groups| ==>
      && (forall k :: 0 <= k < |groups[g].splitIndices| ==> groups[g].splitIndices[k] < |splits|)
      && groups[g] == GroupOf(splits, groups[g].splitIndices)
    requires flat == FlatIndices(IndexGroups(groups)) && forall k :: 0 <= k < |flat| ==> flat[k] < |splits|
    ensures AllTokens(groups) == TokensOf(Select(splits, flat))
  {
    if groups != [] {
      var last := |groups| - 1;
      assert IndexGroups(groups)[..last] == IndexGroups(groups[..last]);
      var front := FlatIndices(IndexGroups(groups[..last]));
      assert flat == front + groups[last].splitIndices;
      assert forall k :: 0 <= k < |front| ==> front[k] == flat[k];
      AllTokensInOrder(splits, groups[..last], front);
      TokensOfConcat(splits, front, groups[last].splitIndices);
    }
  }

  lemma TokensOfConcat(splits: seq<Split>, a: seq<nat>, b: seq<nat>)
    requires forall k :: 0 <= k < |a + b| ==> (a + b)[k] < |splits|
    requires (forall k :: 0 <= k < |a| ==> a[k] < |splits|) && (forall k :: 0 <= k < |b| ==> b[k] < |splits|)
    ensures TokensOf(Select(splits, a + b)) == TokensOf(Select(splits, a)) + TokensOf(Select(splits, b))
  {}

  function IsToken(splits: seq<Split>, token: Token): nat -> int {
    (i: nat) => if i < |splits| && splits[i].token == token then 1 else 0
  }

  lemma {:induction false} TokenMultiplicity(splits: seq<Split>, s: seq<nat>, token: Token)
    requires forall k :: 0 <= k < |s| ==> s[k] < |splits|
    ensures multiset(TokensOf(Select(splits, s)))[token] == SumOver(s, IsToken(splits, token))
  {
    if s != [] {
      var last := |s| - 1;
      TokenMultiplicity(splits, s[..last], token);
      assert s == s[..last] + [s[last]];
      TokensOfConcat(splits, s[..last], [s[last]]);
      assert TokensOf(Select(splits, [s[last]])) == [splits[s[last]].token];
    }
  }
}
