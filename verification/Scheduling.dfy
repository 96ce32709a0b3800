/**
 Greedy scheduling on identical machines, the combinatorics under split packing.

 A schedule is a sequence `bins` naming the bin of each job; `w` holds the job
 weights in processing order. Every quantity is a sum over a prefix of the jobs.
 */
module Scheduling {

  /** Weight that the first `m` jobs put into bin `b`. */
  function Load(bins: seq<nat>, w: seq<int>, b: nat, m: nat): int
    requires m <= |bins| && m <= |w|
  {
    if m == 0 then 0
    else Load(bins, w, b, m - 1) + if bins[m - 1] == b then w[m - 1] else 0
  }

  /** Weight of the first `m` jobs. */
  function Total(w: seq<int>, m: nat): int
    requires m <= |w|
  {
    if m == 0 then 0 else Total(w, m - 1) + w[m - 1]
  }

  /** Weight that the first `m` jobs put into bins `0..n`. */
  function SumLoads(bins: seq<nat>, w: seq<int>, m: nat, n: nat): int
    requires m <= |bins| && m <= |w|
    decreases n
  {
    if n == 0 then 0 else SumLoads(bins, w, m, n - 1) + Load(bins, w, n - 1, m)
  }

  /** Each job went to a bin that was lightest when the job was placed. */
  ghost predicate Greedy(bins: seq<nat>, w: seq<int>, n: nat)
  {
    && |bins| == |w|
    && (forall k :: 0 <= k < |w| ==> bins[k] < n)
    && (forall k, b {:trigger Load(bins, w, b, k)} :: 0 <= k < |w| && 0 <= b < n ==> Load(bins, w, bins[k], k) <= Load(bins, w, b, k))
  }

  ghost predicate NonIncreasing(w: seq<int>)
  {
    forall i, j :: 0 <= i <= j < |w| ==> w[j] <= w[i]
  }

  ghost predicate AllAtLeast(w: seq<int>, low: int)
  {
    forall k :: 0 <= k < |w| ==> low <= w[k]
  }

  /** `bins` is an assignment of all jobs to `n` bins with no bin above `cap`. */
  ghost predicate FitsWithin(bins: seq<nat>, w: seq<int>, n: nat, cap: int)
  {
    && |bins| == |w|
    && (forall k :: 0 <= k < |w| ==> bins[k] < n)
    && (forall b :: 0 <= b < n ==> Load(bins, w, b, |w|) <= cap)
  }

  // Extending a schedule does not change the load of its prefixes.
  lemma {:induction false} LoadOfPrefix(bins: seq<nat>, w: seq<int>, bins': seq<nat>, w': seq<int>, b: nat, m: nat)
    requires m <= |bins| && m <= |w| && bins <= bins' && w <= w'
    ensures Load(bins', w', b, m) == Load(bins, w, b, m)
  {
    if m > 0 {
      LoadOfPrefix(bins, w, bins', w', b, m - 1);
    }
  }

  lemma {:induction false} SumLoadsStep(bins: seq<nat>, w: seq<int>, m: nat, n: nat)
    requires m < |bins| && m < |w|
    ensures SumLoads(bins, w, m + 1, n) == SumLoads(bins, w, m, n) + if bins[m] < n then w[m] else 0
  {
    if n > 0 {
      SumLoadsStep(bins, w, m, n - 1);
    }
  }

  // Conservation: the bins together hold exactly what was handed out.
  lemma {:induction false} LoadsAddUp(bins: seq<nat>, w: seq<int>, m: nat, n: nat)
    requires m <= |bins| && m <= |w|
    requires forall k :: 0 <= k < m ==> bins[k] < n
    ensures SumLoads(bins, w, m, n) == Total(w, m)
  {
    if m == 0 {
      NoJobsNoLoad(bins, w, n);
    } else {
      LoadsAddUp(bins, w, m - 1, n);
      SumLoadsStep(bins, w, m - 1, n);
    }
  }

  lemma {:induction false} NoJobsNoLoad(bins: seq<nat>, w: seq<int>, n: nat)
    ensures SumLoads(bins, w, 0, n) == 0
  {
    if n > 0 {
      NoJobsNoLoad(bins, w, n - 1);
    }
  }

  lemma {:induction false} LoadsAtLeast(bins: seq<nat>, w: seq<int>, m: nat, n: nat, low: int)
    requires m <= |bins| && m <= |w|
    requires forall b :: 0 <= b < n ==> low <= Load(bins, w, b, m)
    ensures n * low <= SumLoads(bins, w, m, n)
  {
    if n > 0 {
      LoadsAtLeast(bins, w, m, n - 1, low);
    }
  }

  lemma {:induction false} LoadsAtMost(bins: seq<nat>, w: seq<int>, m: nat, n: nat, high: int)
    requires m <= |bins| && m <= |w|
    requires forall b :: 0 <= b < n ==> Load(bins, w, b, m) <= high
    ensures SumLoads(bins, w, m, n) <= n * high
  {
    if n > 0 {
      LoadsAtMost(bins, w, m, n - 1, high);
    }
  }

  lemma {:induction false} LoadGrows(bins: seq<nat>, w: seq<int>, b: nat, m: nat, m': nat)
    requires m <= m' <= |bins| && m' <= |w| && AllAtLeast(w, 0)
    ensures Load(bins, w, b, m) <= Load(bins, w, b, m') && Total(w, m) <= Total(w, m')
  {
    if m < m' {
      LoadGrows(bins, w, b, m, m' - 1);
    }
  }

  lemma {:induction false} JobWithinLoad(bins: seq<nat>, w: seq<int>, k: nat, m: nat)
    requires k < m <= |bins| && m <= |w| && AllAtLeast(w, 0)
    ensures w[k] <= Load(bins, w, bins[k], m)
  {
    LoadGrows(bins, w, bins[k], 0, k);
    LoadGrows(bins, w, bins[k], k + 1, m);
  }

  /** The last of the first `m` jobs that went to bin `b`. */
  ghost function LastIn(bins: seq<nat>, w: seq<int>, b: nat, m: nat): (l: nat)
    requires m <= |bins| && m <= |w| && Load(bins, w, b, m) > 0
    ensures l < m && bins[l] == b && Load(bins, w, b, m) == Load(bins, w, b, l) + w[l]
  {
    if bins[m - 1] == b then m - 1 else LastIn(bins, w, b, m - 1)
  }

  // The job that ended a bin found that bin no heavier than the average.
  lemma {:induction false} GreedyStepBound(bins: seq<nat>, w: seq<int>, n: nat, l: nat)
    requires Greedy(bins, w, n) && l < |w| && AllAtLeast(w, 0)
    ensures n * (Load(bins, w, bins[l], l) + w[l]) <= Total(w, |w|) + (n - 1) * w[l]
  {
    var before := Load(bins, w, bins[l], l);
    LoadsAtLeast(bins, w, l, n, before);
    LoadsAddUp(bins, w, l, n);
    LoadGrows(bins, w, 0, l + 1, |w|);
    AverageArithmetic(n, before, w[l], Total(w, l), Total(w, |w|));
  }

  lemma AverageArithmetic(n: nat, load: int, p: int, before: int, total: int)
    requires n * load <= before && before + p <= total
    ensures n * (load + p) <= total + (n - 1) * p
  {
  }

  // List-scheduling bound: no bin exceeds the average by more than (1 - 1/n)
  // of the heaviest job.
  lemma {:induction false} ListSchedulingBound(bins: seq<nat>, w: seq<int>, n: nat, heaviest: int, b: nat)
    requires Greedy(bins, w, n) && AllAtLeast(w, 0) && b < n
    requires 0 <= heaviest && forall k :: 0 <= k < |w| ==> w[k] <= heaviest
    ensures n * Load(bins, w, b, |w|) <= Total(w, |w|) + (n - 1) * heaviest
  {
    LoadGrows(bins, w, b, 0, |w|);
    if Load(bins, w, b, |w|) > 0 {
      var l := LastIn(bins, w, b, |w|);
      GreedyStepBound(bins, w, n, l);
      ScaleUp(n - 1, w[l], heaviest);
    } else {
      ScaleUp(n - 1, 0, heaviest);
    }
  }

  /** Counts a job twice when it cannot share a bin of size `cap` with a job of weight `p`. */
  function Slots(w: seq<int>, p: int, cap: int): (v: seq<int>)
    ensures |v| == |w|
    ensures forall k :: 0 <= k < |w| ==> v[k] == if w[k] + p > cap then 2 else 1
  {
    seq(|w|, k requires 0 <= k < |w| => if w[k] + p > cap then 2 else 1)
  }

  // A bin that holds only jobs above a third of `cap` and does not exceed `cap`
  // uses at most two slots.
  lemma {:induction false} AtMostTwoSlots(bins: seq<nat>, w: seq<int>, b: nat, m: nat, p: int, cap: int)
    requires m <= |bins| && m <= |w| && cap < 3 * p && 0 < p
    requires forall k :: 0 <= k < m ==> p <= w[k]
    ensures 0 <= Load(bins, Slots(w, p, cap), b, m)
    ensures Load(bins, Slots(w, p, cap), b, m) == 0 ==> Load(bins, w, b, m) == 0
    ensures Load(bins, Slots(w, p, cap), b, m) >= 1 ==> Load(bins, w, b, m) >= p
    ensures Load(bins, Slots(w, p, cap), b, m) >= 2 ==> Load(bins, w, b, m) + p > cap || Load(bins, w, b, m) >= 2 * p
    ensures Load(bins, Slots(w, p, cap), b, m) >= 3 ==> Load(bins, w, b, m) > cap
  {
    if m > 0 {
      AtMostTwoSlots(bins, w, b, m - 1, p, cap);
    }
  }

  // A bin that cannot take a job of weight `p` any more uses at least two slots.
  lemma {:induction false} AtLeastTwoSlots(bins: seq<nat>, w: seq<int>, b: nat, m: nat, p: int, cap: int)
    requires m <= |bins| && m <= |w| && p <= cap
    requires Load(bins, w, b, m) + p > cap
    ensures Load(bins, Slots(w, p, cap), b, m) >= 2
  {
    FewSlots(bins, w, b, m, p, cap);
  }

  lemma {:induction false} FewSlots(bins: seq<nat>, w: seq<int>, b: nat, m: nat, p: int, cap: int)
    requires m <= |bins| && m <= |w| && p <= cap
    ensures 0 <= Load(bins, Slots(w, p, cap), b, m)
    ensures Load(bins, Slots(w, p, cap), b, m) == 0 ==> Load(bins, w, b, m) == 0
    ensures Load(bins, Slots(w, p, cap), b, m) == 1 ==> Load(bins, w, b, m) + p <= cap
  {
    if m > 0 {
      FewSlots(bins, w, b, m - 1, p, cap);
    }
  }

  // Pigeonhole: when the greedy schedule cannot place job `l` within `cap`, but
  // some assignment fits all jobs within `cap`, job `l` is at most a third of `cap`.
  lemma {:induction false} OverflowingJobIsSmall(bins: seq<nat>, w: seq<int>, n: nat, other: seq<nat>, cap: int, l: nat)
    requires Greedy(bins, w, n) && NonIncreasing(w) && AllAtLeast(w, 1)
    requires FitsWithin(other, w, n, cap)
    requires l < |w| && Load(bins, w, bins[l], l) + w[l] > cap
    ensures 3 * w[l] <= cap
  {
    var p := w[l];
    if cap < 3 * p {
      var v := Slots(w, p, cap);
      JobWithinLoad(other, w, l, |w|);
      forall b | 0 <= b < n
        ensures 2 <= Load(bins, v, b, l)
      {
        AtLeastTwoSlots(bins, w, b, l, p, cap);
      }
      LoadsAtLeast(bins, v, l, n, 2);
      LoadsAddUp(bins, v, l, n);
      var m := l + 1;
      forall b | 0 <= b < n
        ensures Load(other, v, b, m) <= 2
      {
        AtMostTwoSlots(other, w, b, m, p, cap);
        LoadGrows(other, w, b, m, |w|);
      }
      LoadsAtMost(other, v, m, n, 2);
      LoadsAddUp(other, v, m, n);
      assert false;
    }
  }

  // Graham's bound for longest-processing-time-first: at most 4/3 - 1/(3n) times
  // the heaviest bin of any assignment whatever.
  lemma {:induction false} GrahamBound(bins: seq<nat>, w: seq<int>, n: nat, other: seq<nat>, cap: int, b: nat)
    requires Greedy(bins, w, n) && NonIncreasing(w) && AllAtLeast(w, 1)
    requires FitsWithin(other, w, n, cap) && b < n
    ensures 3 * n * Load(bins, w, b, |w|) <= (4 * n - 1) * cap
  {
    LoadGrows(other, w, b, 0, |w|);
    if Load(bins, w, b, |w|) > cap {
      var l := LastIn(bins, w, b, |w|);
      OverflowingJobIsSmall(bins, w, n, other, cap, l);
      GreedyStepBound(bins, w, n, l);
      LoadsAddUp(other, w, |w|, n);
      LoadsAtMost(other, w, |w|, n, cap);
      GrahamArithmetic(n, Load(bins, w, b, |w|), Total(w, |w|), cap, w[l]);
    } else {
      ScaleUp(3 * n, Load(bins, w, b, |w|), cap);
      ScaleUp(cap, 3 * n, 4 * n - 1);
    }
  }

  lemma ScaleUp(k: nat, x: int, y: int)
    requires x <= y
    ensures k * x <= k * y
  {}

  lemma GrahamArithmetic(n: nat, load: int, total: int, cap: int, p: int)
    requires 1 <= n && n * load <= total + (n - 1) * p && total <= n * cap && 3 * p <= cap
    ensures 3 * n * load <= (4 * n - 1) * cap
  {
  }

  // With at least as many jobs as bins and every job weighing something, no bin
  // stays empty.
  lemma {:induction false} NoBinStaysEmpty(bins: seq<nat>, w: seq<int>, n: nat, b: nat)
    requires Greedy(bins, w, n) && AllAtLeast(w, 1) && b < n <= |w|
    ensures Load(bins, w, b, |w|) >= 1
  {
    LoadGrows(bins, w, b, 0, |w|);
    if Load(bins, w, b, |w|) == 0 {
      var ones := seq(|w|, _ => 1);
      forall c | 0 <= c < n
        ensures Load(bins, ones, c, |w|) <= 1
      {
        OneJobPerBin(bins, w, n, ones, b, c, |w|);
      }
      OneJobPerBin(bins, w, n, ones, b, b, |w|);
      StrictlyFewer(bins, ones, |w|, n, b);
      LoadsAddUp(bins, ones, |w|, n);
      TotalOfOnes(ones, |w|);
      assert false;
    }
  }

  // While bin `b` is empty, every job is placed into an empty bin.
  lemma {:induction false} OneJobPerBin(bins: seq<nat>, w: seq<int>, n: nat, ones: seq<int>, b: nat, c: nat, m: nat)
    requires Greedy(bins, w, n) && AllAtLeast(w, 1) && b < n && c < n && m <= |w|
    requires |ones| == |w| && forall k :: 0 <= k < |w| ==> ones[k] == 1
    requires Load(bins, w, b, m) == 0
    ensures Load(bins, ones, c, m) <= 1
    ensures Load(bins, ones, c, m) <= Load(bins, w, c, m)
  {
    if m > 0 {
      LoadGrows(bins, w, b, 0, m - 1);
      OneJobPerBin(bins, w, n, ones, b, c, m - 1);
    }
  }

  lemma {:induction false} TotalOfOnes(ones: seq<int>, m: nat)
    requires m <= |ones| && forall k :: 0 <= k < |ones| ==> ones[k] == 1
    ensures Total(ones, m) == m
  {
    if m > 0 {
      TotalOfOnes(ones, m - 1);
    }
  }

  lemma {:induction false} StrictlyFewer(bins: seq<nat>, w: seq<int>, m: nat, n: nat, b: nat)
    requires m <= |bins| && m <= |w| && b < n
    requires forall c :: 0 <= c < n ==> Load(bins, w, c, m) <= 1
    requires Load(bins, w, b, m) <= 0
    ensures SumLoads(bins, w, m, n) < n
  {
    if b == n - 1 {
      LoadsAtMost(bins, w, m, n - 1, 1);
    } else {
      StrictlyFewer(bins, w, m, n - 1, b);
    }
  }

  // ---------------------------------------------------------------------
  // The bound is met with equality: on two bins, 3, 3, 2, 2, 2 is packed to 7 and 5
  // although 6 and 6 is possible.

  lemma LoadsOfFive(bins: seq<nat>, w: seq<int>, b: nat)
    requires |bins| == |w| == 5
    ensures Load(bins, w, b, 1) == (if bins[0] == b then w[0] else 0)
    ensures Load(bins, w, b, 2) == Load(bins, w, b, 1) + if bins[1] == b then w[1] else 0
    ensures Load(bins, w, b, 3) == Load(bins, w, b, 2) + if bins[2] == b then w[2] else 0
    ensures Load(bins, w, b, 4) == Load(bins, w, b, 3) + if bins[3] == b then w[3] else 0
    ensures Load(bins, w, b, 5) == Load(bins, w, b, 4) + if bins[4] == b then w[4] else 0
  {
  }

  lemma GrahamBoundIsTight()
    ensures var bins, w, other := [0, 1, 0, 1, 0], [3, 3, 2, 2, 2], [0, 0, 1, 1, 1];
      && Greedy(bins, w, 2) && NonIncreasing(w) && AllAtLeast(w, 1) && FitsWithin(other, w, 2, 6)
      && 3 * 2 * Load(bins, w, 0, 5) == (4 * 2 - 1) * 6
  {
    var bins: seq<nat>, w, other: seq<nat> := [0, 1, 0, 1, 0], [3, 3, 2, 2, 2], [0, 0, 1, 1, 1];
    LoadsOfFive(bins, w, 0);
    LoadsOfFive(bins, w, 1);
    LoadsOfFive(other, w, 0);
    LoadsOfFive(other, w, 1);
  }
}
