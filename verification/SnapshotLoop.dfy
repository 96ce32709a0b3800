/**
 Reading several runtime filters consistently without a common lock.

 Each filter counts its updates. The loop sums the counters, reads the filters one
 by one, sums the counters again, and retries until both sums agree. Other threads
 keep updating the filters in between.
 */
module SnapshotLoop {
  import opened Wrappers

  const U64: nat := 0x1_0000_0000_0000_0000

  /** What the filters hold over time: the update counter and the current value of filter `i` at time `t`. */
  datatype History<!V> = History(generation: (nat, nat) -> nat, value: (nat, nat) -> V)

  /** Counters only grow, and a value changes only together with its counter. */
  ghost predicate Legal<V>(h: History<V>, n: nat) {
    forall i: nat, t: nat, t': nat {:trigger h.generation(i, t), h.generation(i, t')} :: i < n && t <= t' ==>
      && h.generation(i, t) <= h.generation(i, t')
      && (h.generation(i, t) == h.generation(i, t') ==> h.value(i, t) == h.value(i, t'))
  }

  /** The times at which one attempt performs its three passes of `n` reads each. */
  datatype Attempt = Attempt(before: seq<nat>, samples: seq<nat>, after: seq<nat>)

  ghost predicate NonDecreasing(times: seq<nat>) {
    forall i, j :: 0 <= i <= j < |times| ==> times[i] <= times[j]
  }

  ghost predicate WellTimed(a: Attempt, n: nat) {
    |a.before| == |a.samples| == |a.after| == n && NonDecreasing(a.before + a.samples + a.after)
  }

  /** The true sum of the counters read at `times`. */
  function SumAt<V>(h: History<V>, times: seq<nat>): nat {
    if times == [] then 0
    else SumAt(h, times[..|times| - 1]) + h.generation(|times| - 1, times[|times| - 1])
  }

  function ValuesAt<V>(h: History<V>, times: seq<nat>): (r: seq<V>)
    ensures |r| == |times| && forall i :: 0 <= i < |r| ==> r[i] == h.value(i, times[i])
  {
    seq(|times|, i requires 0 <= i < |times| => h.value(i, times[i]))
  }

  /** The wrapping 64-bit sum of the counters. */
  method DynamicFilterGeneration<V>(h: History<V>, times: seq<nat>) returns (sum: nat)
    ensures sum == SumAt(h, times) % U64
  {
    sum := 0;
    for i := 0 to |times|
      invariant sum == SumAt(h, times[..i]) % U64
    {
      assert times[..i + 1][..i] == times[..i];
      sum := (sum + h.generation(i, times[i])) % U64;
    }
    assert times[..|times|] == times;
  }

  method ReadFilters<V>(h: History<V>, times: seq<nat>) returns (values: seq<V>)
    ensures values == ValuesAt(h, times)
  {
    values := [];
    for i := 0 to |times|
      invariant |values| == i && forall j :: 0 <= j < i ==> values[j] == h.value(j, times[j])
    {
      values := values + [h.value(i, times[i])];
    }
  }

  /** The loop, over the attempts it gets to make; `None` if none of them is accepted. */
  method SnapshotDynamicFilters<V>(h: History<V>, n: nat, attempts: seq<Attempt>) returns (r: Option<(nat, seq<V>)>)
    requires forall k :: 0 <= k < |attempts| ==> WellTimed(attempts[k], n)
    ensures r.None? <==> forall k :: 0 <= k < |attempts| ==> !Accepted(h, attempts[k])
    ensures r.Some? ==>
      (exists k: nat :: FirstAccepted(h, attempts, k)
                && r.value == (SumAt(h, attempts[k].after) % U64, ValuesAt(h, attempts[k].samples)))
  {
    for k := 0 to |attempts|
      invariant forall j :: 0 <= j < k ==> !Accepted(h, attempts[j])
    {
      var before := DynamicFilterGeneration(h, attempts[k].before);
      var snapshots := ReadFilters(h, attempts[k].samples);
      var after := DynamicFilterGeneration(h, attempts[k].after);
      if before == after {
        assert FirstAccepted(h, attempts, k);
        return Some((after, snapshots));
      }
    }
    r := None;
  }

  ghost predicate FirstAccepted<V>(h: History<V>, attempts: seq<Attempt>, k: nat) {
    k < |attempts| && Accepted(h, attempts[k]) && forall j :: 0 <= j < k ==> !Accepted(h, attempts[j])
  }

  /** The two wrapping sums of an attempt agree. */
  ghost predicate Accepted<V>(h: History<V>, a: Attempt) {
    SumAt(h, a.before) % U64 == SumAt(h, a.after) % U64
  }

  /** At time `t` every filter held what the attempt read from it. */
  ghost predicate HeldAt<V>(h: History<V>, a: Attempt, t: nat) {
    forall i :: 0 <= i < |a.samples| ==> h.value(i, t) == h.value(i, a.samples[i])
  }

  lemma {:induction false} SumsGrow<V>(h: History<V>, n: nat, early: seq<nat>, late: seq<nat>)
    requires Legal(h, n) && |early| == |late| <= n
    requires forall i :: 0 <= i < |early| ==> early[i] <= late[i]
    ensures SumAt(h, early) <= SumAt(h, late)
    ensures SumAt(h, early) == SumAt(h, late) ==>
      forall i :: 0 <= i < |early| ==> h.generation(i, early[i]) == h.generation(i, late[i])
  {
    if early != [] {
      var last := |early| - 1;
      SumsGrow(h, n, early[..last], late[..last]);
      assert h.generation(last, early[last]) <= h.generation(last, late[last]);
      if SumAt(h, early) == SumAt(h, late) {
        forall i | 0 <= i < |early|
          ensures h.generation(i, early[i]) == h.generation(i, late[i])
        {
          if i < last {
            assert h.generation(i, early[..last][i]) == h.generation(i, late[..last][i]);
          }
        }
      }
    }
  }

  lemma TimesInOrder(a: Attempt, n: nat, i: nat, j: nat)
    requires WellTimed(a, n) && i < n && j < n
    ensures a.before[i] <= a.samples[j] && a.samples[i] <= a.after[j] && a.before[i] <= a.after[j]
  {
    var all := a.before + a.samples + a.after;
    assert all[i] == a.before[i] && all[n + j] == a.samples[j];
    assert all[n + i] == a.samples[i] && all[2 * n + j] == a.after[j];
  }

  // An attempt is accepted exactly when the number of updates between its two
  // counter passes is a multiple of 2^64.
  lemma AcceptedIff<V>(h: History<V>, a: Attempt, n: nat)
    requires Legal(h, n) && WellTimed(a, n)
    ensures SumAt(h, a.before) <= SumAt(h, a.after)
    ensures Accepted(h, a) <==> (SumAt(h, a.after) - SumAt(h, a.before)) % U64 == 0
  {
    forall i | 0 <= i < n
      ensures a.before[i] <= a.after[i]
    {
      TimesInOrder(a, n, i, i);
    }
    SumsGrow(h, n, a.before, a.after);
  }

  // Short of 2^64 updates during one attempt, an accepted attempt is a true
  // snapshot: at every instant between the first counter pass and the second, all
  // filters held the values that were read.
  lemma {:induction false} AcceptedIsConsistent<V>(h: History<V>, a: Attempt, n: nat, t: nat)
    requires Legal(h, n) && WellTimed(a, n) && Accepted(h, a)
    requires SumAt(h, a.after) - SumAt(h, a.before) < U64
    requires n > 0 ==> a.before[n - 1] <= t <= a.after[0]
    ensures HeldAt(h, a, t)
  {
    AcceptedIff(h, a, n);
    forall i | 0 <= i < n
      ensures a.before[i] <= a.after[i]
    {
      TimesInOrder(a, n, i, i);
    }
    SumsGrow(h, n, a.before, a.after);
    forall i | 0 <= i < n
      ensures h.value(i, t) == h.value(i, a.samples[i])
    {
      Between(h, a, n, i, t);
    }
  }

  // A counter that is equal at both ends of an interval is constant in between.
  lemma Between<V>(h: History<V>, a: Attempt, n: nat, i: nat, t: nat)
    requires Legal(h, n) && WellTimed(a, n) && i < n && a.before[n - 1] <= t <= a.after[0]
    requires h.generation(i, a.before[i]) == h.generation(i, a.after[i])
    ensures h.value(i, t) == h.value(i, a.samples[i])
  {
    TimesInOrder(a, n, i, i);
    var all := a.before + a.samples + a.after;
    assert all[i] == a.before[i] && all[n - 1] == a.before[n - 1];
    assert all[2 * n] == a.after[0] && all[2 * n + i] == a.after[i];
    assert a.before[i] <= t <= a.after[i];
    assert h.generation(i, a.before[i]) == h.generation(i, t) == h.generation(i, a.samples[i]);
  }

  // There is such an instant.
  lemma {:induction false} SnapshotInstantExists<V>(h: History<V>, a: Attempt, n: nat)
    requires Legal(h, n) && WellTimed(a, n) && Accepted(h, a)
    requires SumAt(h, a.after) - SumAt(h, a.before) < U64
    ensures exists t :: HeldAt(h, a, t)
  {
    if n == 0 {
      assert HeldAt(h, a, 0);
    } else {
      TimesInOrder(a, n, n - 1, 0);
      TimesInOrder(a, n, 0, 0);
      AcceptedIsConsistent(h, a, n, a.samples[0]);
    }
  }

  /** An accepted attempt that read values no instant held together. */
  ghost predicate Torn<V>(h: History<V>, a: Attempt, n: nat) {
    Legal(h, n) && WellTimed(a, n) && Accepted(h, a) && forall t: nat :: !HeldAt(h, a, t)
  }

  // The bound is needed: with 2^64 updates of one filter between the passes, an
  // attempt over two filters is accepted although no instant held both values.
  lemma WrapAroundIsAccepted()
    ensures exists h: History<nat>, a, n :: Torn(h, a, n)
  {
    // Filter 0 changes once, at time 2; filter 1 is updated 2^64 - 1 times, at time 3.
    var counter: (nat, nat) -> nat := (i: nat, t: nat) =>
      if i == 0 then (if t < 2 then 0 else 1) else (if t < 3 then 0 else U64 - 1);
    var h := History(counter, counter);
    var a := Attempt([0, 0], [1, 4], [5, 5]);
    TwoReads(h, [0, 0]);
    TwoReads(h, [5, 5]);
    assert Legal(h, 2) && WellTimed(a, 2) && Accepted(h, a);
    forall t: nat
      ensures !HeldAt(h, a, t)
    {
      assert h.value(0, t) != h.value(0, a.samples[0]) || h.value(1, t) != h.value(1, a.samples[1]);
    }
    assert Torn(h, a, 2);
  }

  lemma TwoReads<V>(h: History<V>, times: seq<nat>)
    requires |times| == 2
    ensures SumAt(h, times) == h.generation(0, times[0]) + h.generation(1, times[1])
  {
    assert times[..1][..0] == [];
    assert SumAt(h, times[..1]) == h.generation(0, times[0]);
  }
}
