/** Sums over sequences of indices, and the fact that they depend only on the multiset summed over. */
module IndexSums {

  function Upto(m: nat): (s: seq<nat>)
    ensures |s| == m && forall i :: 0 <= i < m ==> s[i] == i
  {
    seq(m, i => i)
  }

  /** Each of the indices `0..m`, once. */
  function Ids(m: nat): multiset<nat> {
    if m == 0 then multiset{} else Ids(m - 1) + multiset{m - 1}
  }

  lemma {:induction false} InIds(m: nat, i: nat)
    ensures Ids(m)[i] == if i < m then 1 else 0
  {
    if m > 0 {
      InIds(m - 1, i);
    }
  }

  lemma {:induction false} IdsOfUpto(m: nat)
    ensures multiset(Upto(m)) == Ids(m)
  {
    if m > 0 {
      IdsOfUpto(m - 1);
      assert Upto(m) == Upto(m - 1) + [m - 1];
    }
  }

  lemma TakeStep(s: seq<nat>, k: nat)
    requires k < |s|
    ensures multiset(s[..k + 1]) == multiset(s[..k]) + multiset{s[k]}
  {
    assert s[..k + 1] == s[..k] + [s[k]];
  }

  function SumOver(s: seq<nat>, f: nat -> int): int {
    if s == [] then 0 else SumOver(s[..|s| - 1], f) + f(s[|s| - 1])
  }

  /** All indices of the groups, group after group. */
  function FlatIndices(groups: seq<seq<nat>>): seq<nat> {
    if groups == [] then [] else FlatIndices(groups[..|groups| - 1]) + groups[|groups| - 1]
  }

  lemma {:induction false} SumOverConcat(a: seq<nat>, b: seq<nat>, f: nat -> int)
    ensures SumOver(a + b, f) == SumOver(a, f) + SumOver(b, f)
  {
    if b == [] {
      assert a + b == a;
    } else {
      var b' := b[..|b| - 1];
      assert (a + b)[..|a + b| - 1] == a + b';
      SumOverConcat(a, b', f);
    }
  }

  lemma {:induction false} SumOverRemove(s: seq<nat>, i: nat, f: nat -> int)
    requires i < |s|
    ensures SumOver(s, f) == SumOver(s[..i] + s[i + 1..], f) + f(s[i])
    ensures multiset(s) == multiset(s[..i] + s[i + 1..]) + multiset{s[i]}
  {
    assert s == s[..i + 1] + s[i + 1..];
    SumOverConcat(s[..i + 1], s[i + 1..], f);
    SumOverConcat(s[..i], s[i + 1..], f);
    assert s[..i + 1] == s[..i] + [s[i]];
    assert s[..i + 1][..i] == s[..i];
  }

  lemma {:induction false} SumOverPermutation(a: seq<nat>, b: seq<nat>, f: nat -> int)
    requires multiset(a) == multiset(b)
    ensures SumOver(a, f) == SumOver(b, f)
    decreases |a|
  {
    assert |a| == |multiset(a)| == |multiset(b)| == |b|;
    if a != [] {
      var last := |a| - 1;
      SumOverRemove(a, last, f);
      assert a[last] in multiset(b);
      var i :| 0 <= i < |b| && b[i] == a[last];
      SumOverRemove(b, i, f);
      var a', b' := a[..last] + a[last + 1..], b[..i] + b[i + 1..];
      assert multiset(a') == multiset(a) - multiset{a[last]} == multiset(b) - multiset{b[i]} == multiset(b');
      SumOverPermutation(a', b', f);
    }
  }

  lemma {:induction false} FlatAppend(groups: seq<seq<nat>>, g: nat, x: nat)
    requires g < |groups|
    ensures multiset(FlatIndices(groups[g := groups[g] + [x]])) == multiset(FlatIndices(groups)) + multiset{x}
  {
    var last := |groups| - 1;
    var groups' := groups[g := groups[g] + [x]];
    if g == last {
      assert groups'[..last] == groups[..last];
    } else {
      assert groups'[..last] == groups[..last][g := groups[..last][g] + [x]];
      FlatAppend(groups[..last], g, x);
    }
  }

  lemma {:induction false} FlatOfEmpty(groups: seq<seq<nat>>)
    requires forall g :: 0 <= g < |groups| ==> groups[g] == []
    ensures FlatIndices(groups) == []
  {
    if groups != [] {
      FlatOfEmpty(groups[..|groups| - 1]);
    }
  }

  lemma {:induction false} InFlat(groups: seq<seq<nat>>, g: nat, x: nat)
    requires g < |groups| && x in groups[g]
    ensures x in FlatIndices(groups)
  {
    var last := |groups| - 1;
    if g < last {
      InFlat(groups[..last], g, x);
    }
  }

  lemma {:induction false} FromFlat(groups: seq<seq<nat>>, x: nat) returns (g: nat)
    requires x in FlatIndices(groups)
    ensures g < |groups| && x in groups[g]
  {
    var last := |groups| - 1;
    if x in groups[last] {
      g := last;
    } else {
      g := FromFlat(groups[..last], x);
    }
  }
}
