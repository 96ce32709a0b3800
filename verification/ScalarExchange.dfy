/**
 One scalar function call through the per-value result cache.

 The worker computes a fixed function of each row. The cache is shared: before
 each access, other sessions may change it in any way that keeps it correct.
 Flights are claimed, finished and followed through the call's `Participant`.
 */
module ScalarExchange {
  import opened Wrappers
  import opened SingleFlight
  import opened ScalarDeadlock
  import opened ScalarFlights

  type Row = seq<int>
  type Value = int

  /** The first column of a record batch, and how many columns there are. */
  datatype Batch = Batch(values: seq<Value>, columns: nat)

  datatype Entry = Entry(batches: seq<Batch>)

  datatype Control = Control(perValue: bool, notModified: bool)

  datatype Answer = Answer(batch: Batch, control: Option<Control>)

  datatype MissClaim =
    | Hit
    | MissProducer(flight: FlightId, stale: Option<Entry>)
    | MissFollower(flight: FlightId)

  const MAX_NEW_STORES := 256

  function Mapped(f: Row -> Value, rows: seq<Row>): seq<Value> {
    seq(|rows|, i requires 0 <= i < |rows| => f(rows[i]))
  }

  predicate OneToOne(batch: Batch, rows: nat) {
    |batch.values| == rows && batch.columns == 1
  }

  /** A one-to-one answer holds the function's value for every row, in order. */
  predicate Conforms(f: Row -> Value, rows: seq<Row>, batch: Batch) {
    OneToOne(batch, |rows|) ==> batch.values == Mapped(f, rows)
  }

  /** A one-batch entry holds exactly the function's value. */
  predicate EntryCorrect(f: Row -> Value, row: Row, entry: Entry) {
    |entry.batches| == 1 ==> entry.batches[0] == Batch([f(row)], 1)
  }

  predicate CacheCorrect(f: Row -> Value, cache: map<Row, Entry>) {
    forall row :: row in cache ==> EntryCorrect(f, row, cache[row])
  }

  // ---------------------------------------------------------------------
  // Deduplication

  /** `unique` lists the distinct rows, and `index` says where each row went. */
  ghost predicate IsDedup(rows: seq<Row>, unique: seq<Row>, index: seq<nat>) {
    && |index| == |rows|
    && (forall i :: 0 <= i < |rows| ==> index[i] < |unique| && unique[index[i]] == rows[i])
    && (forall i, j :: 0 <= i < j < |unique| ==> unique[i] != unique[j])
    && (forall u :: 0 <= u < |unique| ==> unique[u] in rows)
  }

  method CollectUnique(rows: seq<Row>) returns (unique: seq<Row>, index: seq<nat>)
    ensures IsDedup(rows, unique, index)
    ensures |unique| <= |rows|
    ensures rows != [] ==> unique != []
  {
    unique, index := [], [];
    var known: map<Row, nat> := map[];
    for i := 0 to |rows|
      invariant IsDedup(rows[..i], unique, index)
      invariant |unique| <= i && (i > 0 ==> unique != [])
      invariant forall row :: row in known <==> row in unique
      invariant forall row :: row in known ==> known[row] < |unique| && unique[known[row]] == row
    {
      assert rows[..i + 1] == rows[..i] + [rows[i]];
      if rows[i] !in known {
        known := known[rows[i] := |unique|];
        unique := unique + [rows[i]];
      }
      index := index + [known[rows[i]]];
    }
    assert rows[..|rows|] == rows;
  }

  /** Drop repeated rows before a call; `None` when there is nothing to drop. */
  method DeduplicateScalarInput(input: seq<Row>) returns (sent: seq<Row>, gather: Option<seq<nat>>)
    ensures gather.None? ==> sent == input
    ensures gather.Some? ==> IsDedup(input, sent, gather.value) && |sent| < |input|
    ensures gather.None? <==> |input| <= 1 || forall i, j :: 0 <= i < j < |input| ==> input[i] != input[j]
  {
    if |input| <= 1 {
      return input, None;
    }
    var unique, index := CollectUnique(input);
    if |unique| == |input| {
      DedupKeepsAllIffDistinct(input, unique, index);
      return input, None;
    }
    DedupKeepsAllIffDistinct(input, unique, index);
    return unique, Some(index);
  }

  lemma {:induction false} SetOfDistinct(s: seq<Row>)
    requires forall i, j :: 0 <= i < j < |s| ==> s[i] != s[j]
    ensures |(set row | row in s)| == |s|
  {
    if s != [] {
      var n := |s| - 1;
      SetOfDistinct(s[..n]);
      assert s == s[..n] + [s[n]];
      assert (set row | row in s) == (set row | row in s[..n]) + {s[n]};
    }
  }

  lemma {:induction false} RepeatsShrinkTheSet(s: seq<Row>)
    ensures |(set row | row in s)| <= |s|
    ensures |(set row | row in s)| == |s| ==> forall i, j :: 0 <= i < j < |s| ==> s[i] != s[j]
  {
    if s != [] {
      var n := |s| - 1;
      RepeatsShrinkTheSet(s[..n]);
      assert s == s[..n] + [s[n]];
      assert (set row | row in s) == (set row | row in s[..n]) + {s[n]};
      if |(set row | row in s)| == |s| {
        assert s[n] !in s[..n];
        forall i, j | 0 <= i < j < |s|
          ensures s[i] != s[j]
        {
          if j < n {
            assert s[..n][i] != s[..n][j];
          } else {
            assert s[..n][i] == s[i];
          }
        }
      }
    }
  }

  lemma DedupKeepsAllIffDistinct(rows: seq<Row>, unique: seq<Row>, index: seq<nat>)
    requires IsDedup(rows, unique, index)
    ensures |unique| == |rows| <==> forall i, j :: 0 <= i < j < |rows| ==> rows[i] != rows[j]
  {
    forall row
      ensures row in rows <==> row in unique
    {
      if row in rows {
        var i :| 0 <= i < |rows| && rows[i] == row;
        assert unique[index[i]] == row;
      }
    }
    assert (set row | row in rows) == (set row | row in unique);
    SetOfDistinct(unique);
    RepeatsShrinkTheSet(rows);
    if forall i, j :: 0 <= i < j < |rows| ==> rows[i] != rows[j] {
      SetOfDistinct(rows);
    }
  }

  // Computing each distinct row once and gathering is computing every row.
  lemma GatherIsMap(f: Row -> Value, rows: seq<Row>, unique: seq<Row>, index: seq<nat>, values: seq<Value>)
    requires IsDedup(rows, unique, index) && values == Mapped(f, unique)
    ensures seq(|index|, i requires 0 <= i < |index| => values[index[i]]) == Mapped(f, rows)
  {
  }

  // ---------------------------------------------------------------------
  // Assembling one-row outputs

  function Flatten(outputs: seq<Batch>): seq<Value> {
    if outputs == [] then [] else Flatten(outputs[..|outputs| - 1]) + outputs[|outputs| - 1].values
  }

  /** Output `i` starts at row `i` of the concatenation. */
  ghost predicate Aligned(outputs: seq<Batch>) {
    forall i :: 0 <= i < |outputs| ==> |Flatten(outputs[..i])| == i && outputs[i].values != []
  }

  lemma {:induction false} OneRowEachAligns(outputs: seq<Batch>)
    requires forall i :: 0 <= i < |outputs| ==> |outputs[i].values| == 1
    ensures |Flatten(outputs)| == |outputs|
    ensures forall i :: 0 <= i < |outputs| ==> Flatten(outputs)[i] == outputs[i].values[0]
  {
    if outputs != [] {
      OneRowEachAligns(outputs[..|outputs| - 1]);
    }
  }

  // Taking row `i` for output `i` is right exactly when all outputs before the
  // last have one row. A fallback answer of any other length shifts the rest.
  lemma AlignedIffOneRowEach(outputs: seq<Batch>)
    requires outputs != []
    ensures Aligned(outputs) <==>
      (forall i :: 0 <= i < |outputs| - 1 ==> |outputs[i].values| == 1) && outputs[|outputs| - 1].values != []
  {
    var n := |outputs| - 1;
    if forall i :: 0 <= i < n ==> |outputs[i].values| == 1 {
      forall i | 0 <= i <= n
        ensures |Flatten(outputs[..i])| == i
      {
        OneRowEachAligns(outputs[..i]);
      }
    }
    if Aligned(outputs) {
      forall i | 0 <= i < n
        ensures |outputs[i].values| == 1
      {
        assert outputs[..i + 1][..i] == outputs[..i];
      }
    }
  }

  lemma MisshapenFallbackShiftsRows(x: Value, y: Value, z: Value)
    ensures var outputs := [Batch([x, y], 1), Batch([z], 1)];
      !Aligned(outputs) && Flatten(outputs) == [x, y, z]
  {
    var outputs := [Batch([x, y], 1), Batch([z], 1)];
    assert outputs[..1] == [Batch([x, y], 1)];
    assert Flatten(outputs[..1]) == Flatten([]) + [x, y];
    assert Flatten(outputs) == Flatten(outputs[..1]) + [z];
  }

  method Gather(outputs: seq<Batch>, index: seq<nat>) returns (r: Result<Batch, string>)
    ensures r.Ok? <==>
      && (forall i :: 0 <= i < |outputs| ==> outputs[i].columns > 0)
      && forall i :: 0 <= i < |index| ==> index[i] < |Flatten(outputs)|
    ensures r.Ok? ==> OneToOne(r.value, |index|) && forall i :: 0 <= i < |index| ==> r.value.values[i] == Flatten(outputs)[index[i]]
  {
    var all: seq<Value> := [];
    for i := 0 to |outputs|
      invariant all == Flatten(outputs[..i])
      invariant forall j :: 0 <= j < i ==> outputs[j].columns > 0
    {
      if outputs[i].columns == 0 {
        return Err("output batch has no column");
      }
      assert outputs[..i + 1][..i] == outputs[..i];
      all := all + outputs[i].values;
    }
    assert outputs[..|outputs|] == outputs;
    var values: seq<Value> := [];
    for i := 0 to |index|
      invariant |values| == i
      invariant forall j :: 0 <= j < i ==> index[j] < |all| && values[j] == all[index[j]]
    {
      if index[i] >= |all| {
        return Err("take index out of bounds");
      }
      values := values + [all[index[i]]];
    }
    r := Ok(Batch(values, 1));
  }

  // ---------------------------------------------------------------------
  // The call

  /** Which outputs are known, and that those are right unless a fallback misbehaved. */
  ghost predicate OutputsRight(f: Row -> Value, unique: seq<Row>, outputs: seq<Option<Batch>>, trusted: bool) {
    && |outputs| == |unique|
    && forall i :: 0 <= i < |unique| && outputs[i].Some? && trusted ==> outputs[i].value == Batch([f(unique[i])], 1)
  }

  /** Every row has a claim, and stale entries are right. */
  ghost predicate ClaimsRight(f: Row -> Value, unique: seq<Row>, claims: seq<MissClaim>) {
    && |claims| == |unique|
    && forall i :: 0 <= i < |unique| && claims[i].MissProducer? && claims[i].stale.Some? ==>
         EntryCorrect(f, unique[i], claims[i].stale.value)
  }

  /** The finished flags: `open` are the producer claims whose flights are still owed. */
  ghost predicate Tied(claims: seq<MissClaim>, open: set<nat>, owed: set<FlightId>) {
    && (forall i :: i in open ==> i < |claims| && claims[i].MissProducer? && claims[i].flight in owed)
    && (forall f :: f in owed ==> OpenFor(claims, open, f))
    && (forall i, j :: 0 <= i < j < |claims| && claims[i].MissProducer? && claims[j].MissProducer? ==> claims[i].flight != claims[j].flight)
  }

  ghost predicate OpenFor(claims: seq<MissClaim>, open: set<nat>, f: FlightId) {
    exists i :: i in open && i < |claims| && claims[i].MissProducer? && claims[i].flight == f
  }

  lemma FinishedIsNotOwed(claims: seq<MissClaim>, open: set<nat>, owed: set<FlightId>, index: nat)
    requires Tied(claims, open, owed) && index in open
    ensures Tied(claims, open - {index}, owed - {claims[index].flight})
  {
    forall f | f in owed - {claims[index].flight}
      ensures OpenFor(claims, open - {index}, f)
    {
      var i :| i in open && i < |claims| && claims[i].MissProducer? && claims[i].flight == f;
      assert i in open - {index};
    }
  }

  lemma ProducedIsOwed(claims: seq<MissClaim>, open: set<nat>, owed: set<FlightId>, index: nat, f: FlightId, stale: Option<Entry>)
    requires Tied(claims, open, owed) && index < |claims| && claims[index].Hit? && f !in owed
    requires forall i: nat :: i < |claims| && claims[i].MissProducer? ==> i in open
    ensures Tied(claims[index := MissProducer(f, stale)], open + {index}, owed + {f})
  {
    var next := claims[index := MissProducer(f, stale)];
    assert next[index].flight == f;
    forall g | g in owed + {f}
      ensures OpenFor(next, open + {index}, g)
    {
      if g != f {
        var i :| i in open && i < |claims| && claims[i].MissProducer? && claims[i].flight == g;
        assert i != index && next[i] == claims[i] && i in open + {index};
      } else {
        assert index in open + {index};
      }
    }
  }

  lemma FollowedIsNotOwed(claims: seq<MissClaim>, open: set<nat>, owed: set<FlightId>, index: nat, f: FlightId)
    requires Tied(claims, open, owed) && index < |claims| && claims[index].Hit?
    ensures Tied(claims[index := MissFollower(f)], open, owed)
  {
    var next := claims[index := MissFollower(f)];
    forall g | g in owed
      ensures OpenFor(next, open, g)
    {
      var i :| i in open && i < |claims| && claims[i].MissProducer? && claims[i].flight == g;
      assert i != index && next[i] == claims[i];
    }
  }

  lemma NothingOwed(claims: seq<MissClaim>, owed: set<FlightId>)
    requires Tied(claims, {}, owed)
    ensures owed == {}
  {
    assert forall f :: !OpenFor(claims, {}, f);
  }

  ghost predicate AllDropped(told: map<nat, Outcome>, dropped: set<nat>) {
    forall i :: i in dropped ==> i in told && told[i] == DROPPED
  }

  lemma OneMoreDropped(before: map<nat, Outcome>, after: map<nat, Outcome>, dropped: set<nat>, index: nat)
    requires AllDropped(before, dropped) && after == before[index := DROPPED]
    ensures AllDropped(after, dropped + {index})
  {
  }

  /** The flights followed by the claims from position `i` on, in order. */
  function FollowFrom(claims: seq<MissClaim>, i: nat): seq<FlightId>
    requires i <= |claims|
    decreases |claims| - i
  {
    if i == |claims| then []
    else (if claims[i].MissFollower? then [claims[i].flight] else []) + FollowFrom(claims, i + 1)
  }

  lemma {:induction false} FollowOneMore(claims: seq<MissClaim>, i: nat, index: nat, next: MissClaim)
    requires i <= index < |claims| && forall j :: index <= j < |claims| ==> claims[j].Hit?
    ensures FollowFrom(claims[index := next], i) == FollowFrom(claims, i) + if next.MissFollower? then [next.flight] else []
    decreases |claims| - i
  {
    if i < index {
      FollowOneMore(claims, i + 1, index, next);
    } else {
      NoneToFollow(claims, i);
      NoneToFollow(claims[index := next], i + 1);
    }
  }

  lemma {:induction false} NoneToFollow(claims: seq<MissClaim>, i: nat)
    requires i <= |claims| && forall j :: i <= j < |claims| ==> claims[j].Hit?
    ensures FollowFrom(claims, i) == []
    decreases |claims| - i
  {
    if i < |claims| {
      NoneToFollow(claims, i + 1);
    }
  }

  /** The outputs that no lookup answered, in order. */
  ghost predicate AreMisses(outputs: seq<Option<Batch>>, misses: seq<nat>, upto: nat) {
    && upto <= |outputs|
    && (forall k, l :: 0 <= k < l < |misses| ==> misses[k] < misses[l])
    && (forall i: nat :: i in misses <==> i < upto && outputs[i].None?)
  }

  // ----- the answers to a conditional request for one row

  predicate NotModified(answer: Result<Answer, string>) {
    answer.Ok? && answer.value.control.Some? && answer.value.control.value.notModified
  }

  predicate OptsIn(answer: Result<Answer, string>) {
    answer.Ok? && answer.value.control.Some? && answer.value.control.value.perValue
  }

  /** No answer, but the stale row may stand in. */
  predicate Serves(stale: Entry, answer: Result<Answer, string>, servable: bool) {
    answer.Err? && servable && |stale.batches| == 1
  }

  /** The stale row still holds, and may be kept. */
  predicate Confirms(stale: Entry, answer: Result<Answer, string>, storable: bool) {
    NotModified(answer) && answer.value.batch.values == [] && |stale.batches| == 1 && storable
  }

  /** The stale row still holds, but may not be kept. */
  predicate Revokes(stale: Entry, answer: Result<Answer, string>, storable: bool) {
    NotModified(answer) && answer.value.batch.values == [] && |stale.batches| == 1 && !storable
  }

  /** The entry still holds but is not a single row. */
  predicate Odd(stale: Entry, answer: Result<Answer, string>) {
    NotModified(answer) && answer.value.batch.values == [] && |stale.batches| != 1
  }

  /** A new row. */
  predicate Replaces(answer: Result<Answer, string>) {
    answer.Ok? && !NotModified(answer) && OneToOne(answer.value.batch, 1)
  }

  /** Followers of the first `k` produced rows hear "stored" up to the cap, where policy allows it. */
  ghost predicate ToldAsStored(told: map<nat, Outcome>, producers: seq<nat>, storable: seq<bool>, perValue: bool, k: nat)
    requires k <= |producers| == |storable|
  {
    forall l :: 0 <= l < k ==>
      producers[l] in told && (told[producers[l]] == Stored <==> l < MAX_NEW_STORES && storable[l] && perValue)
  }

  ghost predicate AllAnswered(outputs: seq<Option<Batch>>, producers: seq<nat>, k: nat)
    requires k <= |producers|
  {
    forall l :: 0 <= l < k ==> producers[l] < |outputs| && outputs[producers[l]].Some?
  }

  lemma OneMoreAnswered(f: Row -> Value, unique: seq<Row>, outputs: seq<Option<Batch>>, producers: seq<nat>, k: nat, value: Value)
    requires OutputsRight(f, unique, outputs, true) && k < |producers| && AllAnswered(outputs, producers, k)
    requires producers[k] < |unique| && value == f(unique[producers[k]])
    ensures var next := outputs[producers[k] := Some(Batch([value], 1))];
      OutputsRight(f, unique, next, true) && AllAnswered(next, producers, k + 1)
  {
  }

  lemma ToldOneMore(told: map<nat, Outcome>, told': map<nat, Outcome>, producers: seq<nat>, storable: seq<bool>, perValue: bool, k: nat)
    requires k < |producers| == |storable| && ToldAsStored(told, producers, storable, perValue, k)
    requires forall l, m :: 0 <= l < m < |producers| ==> producers[l] < producers[m]
    requires producers[k] in told' && (told'[producers[k]] == Stored <==> k < MAX_NEW_STORES && storable[k] && perValue)
    requires told' == told[producers[k] := told'[producers[k]]]
    ensures ToldAsStored(told', producers, storable, perValue, k + 1)
  {
  }

  class ScalarCall {
    const f: Row -> Value
    /** The flight key of each row. */
    const keyOf: Row -> Key
    /** Shared with all other sessions. */
    var cache: map<Row, Entry>
    var optedIn: bool
    /** The producer claims whose flights are not finished yet. */
    var open: set<nat>
    /** What this call did: requests, outcomes of its flights, and rows put in or taken out. */
    ghost var requests: nat
    ghost var stores: nat
    ghost var told: map<nat, Outcome>
    ghost var removed: set<Row>
    ghost var inserted: set<Row>
    /** No answer to a follower's own request had the wrong shape. */
    ghost var fallbacksOneToOne: bool

    ghost predicate Valid()
      reads this
    {
      CacheCorrect(f, cache)
    }

    /** Exactly the flights of the open claims are owed. */
    ghost predicate Owes(desk: Participant, claims: seq<MissClaim>)
      reads this, desk
    {
      Valid() && desk.Valid() && Tied(claims, open, desk.Me().owed)
    }

    constructor (f: Row -> Value, keyOf: Row -> Key, cache: map<Row, Entry>, optedIn: bool)
      requires CacheCorrect(f, cache)
      ensures Valid() && Fresh()
      ensures this.f == f && this.keyOf == keyOf && this.cache == cache && this.optedIn == optedIn
    {
      this.f, this.keyOf, this.cache, this.optedIn := f, keyOf, cache, optedIn;
      open, requests, stores, fallbacksOneToOne := {}, 0, 0, true;
      told, removed, inserted := map[], {}, {};
    }

    /** Nothing was done yet. */
    ghost predicate Fresh()
      reads this
    {
      open == {} && requests == 0 && stores == 0 && told == map[] && removed == {} && inserted == {} && fallbacksOneToOne
    }

    /** Other sessions use the cache. */
    method Interfere()
      requires Valid()
      modifies this`cache
      ensures Valid()
    {
      var entries: map<Row, Entry> := *;
      if CacheCorrect(f, entries) {
        cache := entries;
      }
    }

    // ----- shared state, one access at a time

    /** An entry for the row; which fresh or stale entries are offered is up to the cache. */
    method Get(row: Row) returns (entry: Option<Entry>)
      requires Valid()
      modifies this`cache
      ensures Valid()
      ensures entry.Some? ==> EntryCorrect(f, row, entry.value)
    {
      Interfere();
      var usable: bool := *;
      entry := if row in cache && usable then Some(cache[row]) else None;
    }

    method Insert(row: Row, value: Value)
      requires Valid() && value == f(row)
      modifies this`cache, this`stores, this`inserted
      ensures Valid() && stores == old(stores) + 1 && inserted == old(inserted) + {row}
      ensures row in cache && cache[row] == Entry([Batch([value], 1)])
    {
      Interfere();
      cache := cache[row := Entry([Batch([value], 1)])];
      stores := stores + 1;
      inserted := inserted + {row};
    }

    method Remove(row: Row)
      requires Valid()
      modifies this`cache, this`removed
      ensures Valid() && row !in cache && removed == old(removed) + {row}
    {
      Interfere();
      cache := cache - {row};
      removed := removed + {row};
    }

    /** Finish the flight of a producer claim; only the first time has an effect. */
    method Finish(desk: Participant, claims: seq<MissClaim>, index: nat, outcome: Outcome)
      requires Owes(desk, claims) && desk.Me().mode in {Producing, Unwinding} && index < |claims| && claims[index].MissProducer?
      modifies this`open, this`told, desk
      ensures Owes(desk, claims) && open == old(open) - {index}
      ensures desk.Me() == old(desk.Me()).(owed := desk.Me().owed)
      ensures index in old(open) ==> told == old(told)[index := outcome]
      ensures index in old(open) ==> desk.Shows(claims[index].flight, outcome)
      ensures index !in old(open) ==> told == old(told)
    {
      if index in open {
        FinishedIsNotOwed(claims, open, desk.Me().owed, index);
        desk.Finish(claims[index].flight, outcome);
        open := open - {index};
        told := told[index := outcome];
      }
    }

    /** The claims go out of scope: unfinished flights are aborted. */
    method DropClaims(desk: Participant, claims: seq<MissClaim>)
      requires Owes(desk, claims) && desk.Me().mode == Unwinding
      modifies this`open, this`told, desk
      ensures Owes(desk, claims) && open == {} && desk.Me() == old(desk.Me()).(owed := {})
      ensures AllDropped(told, old(open))
    {
      ghost var dropped: set<nat> := {};
      for i := 0 to |claims|
        invariant Owes(desk, claims) && open == old(open) - dropped
        invariant desk.Me() == old(desk.Me()).(owed := desk.Me().owed)
        invariant AllDropped(told, dropped) && dropped <= old(open) && forall j :: j in old(open) && j < i ==> j in dropped
      {
        if claims[i].MissProducer? {
          ghost var before := told;
          Finish(desk, claims, i, DROPPED);
          if i in old(open) - dropped {
            OneMoreDropped(before, told, dropped, i);
            dropped := dropped + {i};
          }
        }
      }
      assert open == {};
      assert dropped == old(open);
      NothingOwed(claims, desk.Me().owed);
    }

    /** One exchange with the worker, which takes any amount of time. */
    method Direct(rows: seq<Row>) returns (r: Result<Answer, string>)
      requires Valid()
      modifies this`cache, this`requests
      ensures Valid() && requests == old(requests) + 1
      ensures r.Ok? ==> Conforms(f, rows, r.value.batch)
    {
      Interfere();
      requests := requests + 1;
      r := *;
      if r.Ok? && !Conforms(f, rows, r.value.batch) {
        r := Err("not the fixed function that this call assumes");
      }
    }

    // ----- the steps of a cached call

    method LookupAll(unique: seq<Row>) returns (outputs: seq<Option<Batch>>, misses: seq<nat>)
      requires Valid()
      modifies this`cache
      ensures Valid() && OutputsRight(f, unique, outputs, true) && AreMisses(outputs, misses, |unique|)
    {
      outputs, misses := [], [];
      for i := 0 to |unique|
        invariant Valid() && OutputsRight(f, unique[..i], outputs, true) && AreMisses(outputs, misses, i)
      {
        var entry := Get(unique[i]);
        var usable := entry.Some? && |entry.value.batches| == 1 && OneToOne(entry.value.batches[0], 1);
        outputs := outputs + [if usable then Some(entry.value.batches[0]) else None];
        if !usable {
          assert forall k :: 0 <= k < |misses| ==> misses[k] in misses;
          misses := misses + [i];
        }
      }
      assert unique[..|unique|] == unique;
    }

    /** Every miss is claimed; a producer also looks for a stale entry. */
    method ClaimMisses(unique: seq<Row>, outputs: seq<Option<Batch>>, misses: seq<nat>, desk: Participant) returns (claims: seq<MissClaim>)
      requires Valid() && open == {} && |outputs| == |unique| && AreMisses(outputs, misses, |unique|)
      requires desk.Valid() && desk.Me() == Call(desk.Me().keys, 0, {}, [], Claiming) && |desk.Me().keys| == |misses|
      modifies this`cache, this`open, desk
      ensures Owes(desk, claims) && ClaimsRight(f, unique, claims)
      ensures forall i: nat :: i in open <==> i < |claims| && claims[i].MissProducer?
      ensures forall i :: 0 <= i < |unique| ==> (claims[i].Hit? <==> outputs[i].Some?)
      ensures desk.Me().mode == Claiming && desk.Me().claimed == |desk.Me().keys| && desk.Me().follow == FollowFrom(claims, 0)
    {
      claims := seq(|unique|, _ => Hit);
      NoneToFollow(claims, 0);
      for k := 0 to |misses|
        invariant Owes(desk, claims) && ClaimsRight(f, unique, claims)
        invariant forall i: nat :: i in open <==> i < |claims| && claims[i].MissProducer?
        invariant forall i :: 0 <= i < |unique| ==> (claims[i].Hit? <==> i !in misses[..k])
        invariant desk.Me().mode == Claiming && desk.Me().claimed == k && |desk.Me().keys| == |misses|
        invariant desk.Me().follow == FollowFrom(claims, 0)
      {
        var index := misses[k];
        assert index in misses && misses[..k + 1] == misses[..k] + [index];
        assert forall j :: index <= j < |claims| ==> j !in misses[..k];
        claims := ClaimOne(desk, claims, index, unique);
      }
      assert misses[..|misses|] == misses;
    }

    method ClaimOne(desk: Participant, claims: seq<MissClaim>, index: nat, unique: seq<Row>) returns (next: seq<MissClaim>)
      requires Owes(desk, claims) && ClaimsRight(f, unique, claims) && index < |claims|
      requires forall j :: index <= j < |claims| ==> claims[j].Hit?
      requires forall i: nat :: i in open <==> i < |claims| && claims[i].MissProducer?
      requires desk.Me().mode == Claiming && desk.Me().claimed < |desk.Me().keys| && desk.Me().follow == FollowFrom(claims, 0)
      modifies this`cache, this`open, desk
      ensures Owes(desk, next) && ClaimsRight(f, unique, next)
      ensures |next| == |claims| && !next[index].Hit? && next == claims[index := next[index]]
      ensures forall i: nat :: i in open <==> i < |next| && next[i].MissProducer?
      ensures desk.Me().mode == Claiming && desk.Me().claimed == old(desk.Me()).claimed + 1 && desk.Me().keys == old(desk.Me()).keys
      ensures desk.Me().follow == FollowFrom(next, 0)
    {
      ghost var owed := desk.Me().owed;
      var claim := desk.Claim();
      if claim.Producer? {
        var stale := Get(unique[index]);
        ProducedIsOwed(claims, open, owed, index, claim.flight, stale);
        next := claims[index := MissProducer(claim.flight, stale)];
        open := open + {index};
      } else {
        FollowedIsNotOwed(claims, open, owed, index, claim.flight);
        next := claims[index := MissFollower(claim.flight)];
      }
      FollowOneMore(claims, 0, index, next[index]);
    }

    /** A conditional request for one stale entry. */
    method RevalidateOne(desk: Participant, claims: seq<MissClaim>, index: nat, row: Row, stale: Entry)
      returns (r: Result<Option<Batch>, string>)
      requires Owes(desk, claims) && desk.Me().mode == Producing && index in open && EntryCorrect(f, row, stale)
      modifies this`cache, this`open, this`requests, this`stores, this`told, this`inserted, this`removed, desk
      ensures Owes(desk, claims) && desk.Me() == old(desk.Me()).(owed := desk.Me().owed)
      ensures old(open) - {index} <= open <= old(open)
      ensures r.Ok? ==> index !in open
      ensures r.Ok? && r.value.Some? ==> r.value.value == Batch([f(row)], 1)
      ensures requests == old(requests) + 1 && stores <= old(stores) + 1
    {
      var answer := Direct([row]);
      var servable: bool := *;
      var storable: bool := *;
      assert Mapped(f, [row]) == [f(row)];
      r := Settle(desk, claims, index, row, stale, answer, servable, storable);
    }

    /** Put a new row in the place of a stale one, or only take the stale one out. */
    method Replace(row: Row, value: Value, keep: bool)
      requires Valid() && value == f(row)
      modifies this`cache, this`stores, this`inserted, this`removed
      ensures Valid() && stores <= old(stores) + 1
      ensures inserted == if keep then old(inserted) + {row} else old(inserted)
      ensures removed == if keep then old(removed) else old(removed) + {row}
    {
      if keep {
        Insert(row, value);
      } else {
        Remove(row);
      }
    }

    /** The flight of the row was finished with this outcome since. */
    twostate predicate Told(index: nat, outcome: Outcome)
      reads this
    {
      index in old(open) && index !in open && index in told && told[index] == outcome
    }

    /** The worker sent a new row, which takes the place of the stale one if it may be kept. */
    method TakeNew(desk: Participant, claims: seq<MissClaim>, index: nat, row: Row, value: Value, storable: bool, optsIn: bool)
      requires Owes(desk, claims) && desk.Me().mode == Producing && index in open && value == f(row)
      modifies this`cache, this`open, this`stores, this`told, this`inserted, this`removed, desk
      ensures Owes(desk, claims) && desk.Me() == old(desk.Me()).(owed := desk.Me().owed)
      ensures open == old(open) - {index} && stores <= old(stores) + 1
      ensures Told(index, Stored) <==> storable && optsIn
      ensures inserted == if storable && optsIn then old(inserted) + {row} else old(inserted)
      ensures removed == if storable && optsIn then old(removed) else old(removed) + {row}
    {
      Replace(row, value, storable && optsIn);
      Finish(desk, claims, index,
             if storable && optsIn then Stored
             else Aborted(if storable then "worker withdrew per-value cache opt-in" else "cache refused revalidated result"));
    }

    /** The worker failed; the stale entry may stand in. */
    method ServeStale(desk: Participant, claims: seq<MissClaim>, index: nat, row: Row, stale: Entry, error: string, servable: bool)
      returns (r: Result<Option<Batch>, string>)
      requires Owes(desk, claims) && desk.Me().mode == Producing && index in open && EntryCorrect(f, row, stale)
      modifies this`open, this`told, desk
      ensures Owes(desk, claims) && desk.Me() == old(desk.Me()).(owed := desk.Me().owed)
      ensures open == if servable then old(open) - {index} else old(open)
      ensures r.Ok? <==> servable && |stale.batches| == 1
      ensures r.Ok? ==> r.value == Some(Batch([f(row)], 1))
      ensures Told(index, Stored) <==> r.Ok?
    {
      if !servable {
        return Err(error);
      }
      if |stale.batches| != 1 {
        Finish(desk, claims, index, Aborted("stale-if-error entry was not one batch"));
        return Err(error);
      }
      Finish(desk, claims, index, Stored);
      r := Ok(Some(stale.batches[0]));
    }

    /** The worker says that the stale entry still holds. */
    method KeepStale(desk: Participant, claims: seq<MissClaim>, index: nat, row: Row, stale: Entry, storable: bool)
      returns (r: Result<Option<Batch>, string>)
      requires Owes(desk, claims) && desk.Me().mode == Producing && index in open && EntryCorrect(f, row, stale)
      modifies this`cache, this`open, this`told, this`removed, desk
      ensures Owes(desk, claims) && desk.Me() == old(desk.Me()).(owed := desk.Me().owed) && open == old(open) - {index}
      ensures r.Ok? <==> |stale.batches| != 1 || storable
      ensures r.Ok? ==> r.value == if |stale.batches| == 1 then Some(Batch([f(row)], 1)) else None
      ensures Told(index, Stored) <==> |stale.batches| == 1 && storable
      ensures removed == if |stale.batches| == 1 && !storable then old(removed) + {row} else old(removed)
    {
      if |stale.batches| != 1 {
        Finish(desk, claims, index, Aborted("revalidation entry was not one batch"));
        return Ok(None);
      }
      if !storable {
        Remove(row);
        Finish(desk, claims, index, Aborted("revalidation revoked cache"));
        return Err("returned not_modified with ineligible cache control");
      }
      Finish(desk, claims, index, Stored);
      r := Ok(Some(stale.batches[0]));
    }

    /** What becomes of a stale entry, given whether it may be served and whether policy lets a result be stored. */
    method Settle(desk: Participant, claims: seq<MissClaim>, index: nat, row: Row, stale: Entry, answer: Result<Answer, string>,
                  servable: bool, storable: bool)
      returns (r: Result<Option<Batch>, string>)
      requires Owes(desk, claims) && desk.Me().mode == Producing && index in open && EntryCorrect(f, row, stale)
      requires answer.Ok? && OneToOne(answer.value.batch, 1) ==> answer.value.batch.values == [f(row)]
      modifies this`cache, this`open, this`stores, this`told, this`inserted, this`removed, desk
      ensures Owes(desk, claims) && desk.Me() == old(desk.Me()).(owed := desk.Me().owed) && stores <= old(stores) + 1
      // The output is the function's value, whichever way it was found.
      ensures r.Ok? && r.value.Some? ==> r.value.value == Batch([f(row)], 1)
      ensures r.Ok? <==> Serves(stale, answer, servable) || Confirms(stale, answer, storable) || Odd(stale, answer) || Replaces(answer)
      ensures r.Ok? && r.value.None? <==> Odd(stale, answer)
      // Followers hear "stored" exactly when they can find the row in the cache.
      ensures Told(index, Stored) <==>
        Serves(stale, answer, servable) || Confirms(stale, answer, storable) || (Replaces(answer) && storable && OptsIn(answer))
      ensures inserted == if Replaces(answer) && storable && OptsIn(answer) then old(inserted) + {row} else old(inserted)
      // An entry that the worker no longer lets us keep is taken out.
      ensures removed ==
        if (Replaces(answer) && !(storable && OptsIn(answer))) || Revokes(stale, answer, storable) then old(removed) + {row}
        else old(removed)
      ensures r.Ok? ==> open == old(open) - {index}
      ensures r.Err? ==> open == old(open) || open == old(open) - {index}
    {
      if answer.Err? {
        r := ServeStale(desk, claims, index, row, stale, answer.error, servable);
        return;
      }
      var batch, control := answer.value.batch, answer.value.control;
      if control.Some? && control.value.notModified {
        if batch.values != [] {
          return Err("returned rows and not_modified together");
        }
        r := KeepStale(desk, claims, index, row, stale, storable);
        return;
      }
      if !OneToOne(batch, 1) {
        return Err("expected a 1:1, one-column result");
      }
      TakeNew(desk, claims, index, row, batch.values[0], storable, control.Some? && control.value.perValue);
      r := Ok(Some(batch));
    }

    method RevalidateAll(desk: Participant, unique: seq<Row>, claims: seq<MissClaim>, known: seq<Option<Batch>>)
      returns (r: Result<seq<Option<Batch>>, string>)
      requires Owes(desk, claims) && ClaimsRight(f, unique, claims) && desk.Me().mode == Producing
      requires forall i: nat :: i in open <==> i < |claims| && claims[i].MissProducer?
      requires OutputsRight(f, unique, known, true)
      modifies this`cache, this`open, this`requests, this`stores, this`told, this`inserted, this`removed, desk
      ensures Owes(desk, claims) && desk.Me() == old(desk.Me()).(owed := desk.Me().owed)
      ensures r.Ok? ==> OutputsRight(f, unique, r.value, true)
      ensures r.Ok? ==> forall i: nat :: i in open <==> i < |claims| && claims[i].MissProducer? && claims[i].stale.None?
    {
      var outputs := known;
      for i := 0 to |claims|
        invariant Owes(desk, claims) && desk.Me() == old(desk.Me()).(owed := desk.Me().owed)
        invariant OutputsRight(f, unique, outputs, true)
        invariant forall j: nat :: j in open <==> j < |claims| && claims[j].MissProducer? && (claims[j].stale.None? || j >= i)
      {
        if claims[i].MissProducer? && claims[i].stale.Some? {
          var one := RevalidateOne(desk, claims, i, unique[i], claims[i].stale.value);
          if one.Err? {
            return Err(one.error);
          }
          if one.value.Some? {
            outputs := outputs[i := one.value];
          }
        }
      }
      r := Ok(outputs);
    }

    /** The claims that one batched request answers. */
    method FreshProducers(claims: seq<MissClaim>) returns (producers: seq<nat>)
      ensures forall k, l :: 0 <= k < l < |producers| ==> producers[k] < producers[l]
      ensures forall j: nat :: j in producers <==> j < |claims| && claims[j].MissProducer? && claims[j].stale.None?
    {
      producers := [];
      for i := 0 to |claims|
        invariant forall k, l :: 0 <= k < l < |producers| ==> producers[k] < producers[l]
        invariant forall k :: 0 <= k < |producers| ==> producers[k] < i
        invariant forall j: nat :: j in producers <==> j < i && claims[j].MissProducer? && claims[j].stale.None?
      {
        if claims[i].MissProducer? && claims[i].stale.None? {
          producers := producers + [i];
        }
      }
    }

    /** One request for all claims without a stale entry. */
    method ProduceAll(desk: Participant, unique: seq<Row>, claims: seq<MissClaim>, known: seq<Option<Batch>>)
      returns (r: Result<seq<Option<Batch>>, string>)
      requires Owes(desk, claims) && ClaimsRight(f, unique, claims) && desk.Me().mode == Producing
      requires forall i: nat :: i in open <==> i < |claims| && claims[i].MissProducer? && claims[i].stale.None?
      requires OutputsRight(f, unique, known, true)
      modifies this`cache, this`open, this`requests, this`stores, this`told, this`inserted, desk
      ensures Owes(desk, claims) && desk.Me() == old(desk.Me()).(owed := desk.Me().owed)
      ensures r.Ok? ==> OutputsRight(f, unique, r.value, true) && open == {}
      ensures requests == old(requests) + if old(open) == {} then 0 else 1
      ensures stores <= old(stores) + MAX_NEW_STORES
    {
      var producers := FreshProducers(claims);
      if producers == [] {
        return Ok(known);
      }
      assert producers[0] in open;
      var rows := seq(|producers|, k requires 0 <= k < |producers| => assert producers[k] in producers; unique[producers[k]]);
      var answer := Direct(rows);
      if answer.Err? {
        return Err(answer.error);
      }
      if !OneToOne(answer.value.batch, |producers|) {
        return Err("expected a 1:1, one-column result");
      }
      forall k | 0 <= k < |producers|
        ensures producers[k] < |unique| && answer.value.batch.values[k] == f(unique[producers[k]])
      {
        assert producers[k] in producers;
      }
      var storable: seq<bool> := *;
      if |storable| != |producers| {
        storable := seq(|producers|, _ => true);
      }
      var outputs := StoreProduced(desk, unique, claims, known, producers, answer.value, storable);
      r := Ok(outputs);
    }

    /** Store one produced row unless the call has stored enough, and tell its followers. */
    method StoreOne(desk: Participant, claims: seq<MissClaim>, index: nat, row: Row, value: Value, storable: bool, attempt: bool,
                    otherwise: string)
      requires Owes(desk, claims) && desk.Me().mode == Producing && index in open && value == f(row)
      modifies this`cache, this`open, this`stores, this`told, this`inserted, desk
      ensures Owes(desk, claims) && desk.Me() == old(desk.Me()).(owed := desk.Me().owed) && open == old(open) - {index}
      ensures stores == old(stores) + if attempt && storable then 1 else 0
      ensures inserted == if attempt && storable then old(inserted) + {row} else old(inserted)
      ensures index in told && told == old(told)[index := told[index]] && (told[index] == Stored <==> attempt && storable)
    {
      if attempt && storable {
        Insert(row, value);
        Finish(desk, claims, index, Stored);
      } else {
        Finish(desk, claims, index, Aborted(if attempt then "cache refused result" else otherwise));
      }
    }

    method StoreProduced(desk: Participant, unique: seq<Row>, claims: seq<MissClaim>, known: seq<Option<Batch>>, producers: seq<nat>,
                         answer: Answer, storable: seq<bool>)
      returns (outputs: seq<Option<Batch>>)
      requires Owes(desk, claims) && |claims| == |unique| && OutputsRight(f, unique, known, true) && desk.Me().mode == Producing
      requires forall i: nat :: i in open <==> i in producers
      requires forall k, l :: 0 <= k < l < |producers| ==> producers[k] < producers[l]
      requires |answer.batch.values| == |producers| == |storable|
      requires forall k :: 0 <= k < |producers| ==>
        producers[k] < |unique| && answer.batch.values[k] == f(unique[producers[k]])
      modifies this`cache, this`open, this`stores, this`told, this`inserted, desk
      ensures Owes(desk, claims) && desk.Me() == old(desk.Me()).(owed := desk.Me().owed)
      ensures OutputsRight(f, unique, outputs, true) && open == {}
      ensures stores <= old(stores) + MAX_NEW_STORES
      ensures AllAnswered(outputs, producers, |producers|)
      ensures ToldAsStored(told, producers, storable, OptsIn(Ok(answer)), |producers|)
    {
      outputs := known;
      var perValue := answer.control.Some? && answer.control.value.perValue;
      var attempts := 0;
      for k := 0 to |producers|
        invariant Owes(desk, claims) && desk.Me() == old(desk.Me()).(owed := desk.Me().owed)
        invariant OutputsRight(f, unique, outputs, true)
        invariant forall i: nat :: i in open <==> i in producers[k..]
        invariant attempts == (if perValue then if k < MAX_NEW_STORES then k else MAX_NEW_STORES else 0) && stores <= old(stores) + attempts
        invariant AllAnswered(outputs, producers, k)
        invariant ToldAsStored(told, producers, storable, perValue, k)
      {
        var i, value := producers[k], answer.batch.values[k];
        assert producers[k..] == [i] + producers[k + 1..];
        var attempt := perValue && attempts < MAX_NEW_STORES;
        ghost var before := told;
        StoreOne(desk, claims, i, unique[i], value, storable[k], attempt,
                 if perValue then "per-value new-store cap reached" else "worker withdrew per-value cache opt-in");
        ToldOneMore(before, told, producers, storable, perValue, k);
        if attempt {
          attempts := attempts + 1;
        }
        OneMoreAnswered(f, unique, outputs, producers, k, value);
        outputs := outputs[i := Some(Batch([value], 1))];
      }
    }

    /** Only now, owing no flight, wait for those of other calls. */
    method FollowAll(desk: Participant, unique: seq<Row>, claims: seq<MissClaim>, known: seq<Option<Batch>>)
      returns (r: Result<seq<Option<Batch>>, string>)
      requires Valid() && desk.Valid() && desk.Me().mode == Following && desk.Me().owed == {} && |claims| == |unique|
      requires desk.Me().follow == FollowFrom(claims, 0)
      requires OutputsRight(f, unique, known, fallbacksOneToOne)
      modifies this`cache, this`requests, this`fallbacksOneToOne, desk
      ensures Valid() && desk.Valid() && desk.Me().mode == Following && desk.Me().owed == {}
      ensures r.Ok? ==> OutputsRight(f, unique, r.value, fallbacksOneToOne) && desk.Me().follow == []
    {
      var outputs := known;
      for i := 0 to |claims|
        invariant Valid() && desk.Valid() && desk.Me().mode == Following && desk.Me().owed == {}
        invariant desk.Me().follow == FollowFrom(claims, i)
        invariant OutputsRight(f, unique, outputs, fallbacksOneToOne)
      {
        if claims[i].MissFollower? {
          var one := FollowOne(desk, unique[i], claims[i].flight);
          if one.Err? {
            return Err(one.error);
          }
          outputs := outputs[i := Some(one.value)];
        }
      }
      r := Ok(outputs);
    }

    method FollowOne(desk: Participant, row: Row, flight: FlightId) returns (r: Result<Batch, string>)
      requires Valid() && desk.Valid() && desk.Me().mode == Following && desk.Me().owed == {}
      requires desk.Me().follow != [] && desk.Me().follow[0] == flight
      modifies this`cache, this`requests, this`fallbacksOneToOne, desk
      ensures Valid() && desk.Valid() && desk.Me() == old(desk.Me()).(follow := old(desk.Me()).follow[1..])
      ensures fallbacksOneToOne ==> old(fallbacksOneToOne)
      ensures r.Ok? && fallbacksOneToOne ==> r.value == Batch([f(row)], 1)
      ensures requests <= old(requests) + 1
    {
      var outcome := desk.Collect();
      if outcome == Stored {
        var entry := Get(row);
        if entry.None? {
          entry := Get(row);
        }
        if entry.Some? && |entry.value.batches| == 1 && OneToOne(entry.value.batches[0], 1) {
          return Ok(entry.value.batches[0]);
        }
      }
      var answer := Direct([row]);
      if answer.Err? {
        return Err(answer.error);
      }
      // The shape of this answer is not looked at.
      assert Mapped(f, [row]) == [f(row)];
      fallbacksOneToOne := fallbacksOneToOne && OneToOne(answer.value.batch, 1);
      r := Ok(answer.value.batch);
    }

    /** A running system of other calls. */
    method OtherCalls() returns (others: System)
      ensures Sound(others)
    {
      others := *;
      if !Sound(others) {
        others := System(EMPTY, [], []);
      }
    }

    /** Join the other calls with the keys of the misses, and claim them all. */
    method Join(unique: seq<Row>, hits: seq<Option<Batch>>, misses: seq<nat>) returns (desk: Participant, claims: seq<MissClaim>)
      requires Valid() && open == {} && |hits| == |unique| && AreMisses(hits, misses, |unique|)
      modifies this`cache, this`open
      ensures fresh(desk) && Owes(desk, claims) && ClaimsRight(f, unique, claims)
      ensures desk.Me().mode == Producing && desk.Me().follow == FollowFrom(claims, 0)
      ensures forall i: nat :: i in open <==> i < |claims| && claims[i].MissProducer?
    {
      var others := OtherCalls();
      var keys := seq(|misses|, k requires 0 <= k < |misses| => assert misses[k] in misses; keyOf(unique[misses[k]]));
      desk := new Participant(others, keys);
      claims := ClaimMisses(unique, hits, misses, desk);
      desk.StopClaiming();
    }

    /** The cached path: look up, claim, revalidate, produce, follow, assemble. */
    method PerValue(input: seq<Row>) returns (r: Result<Batch, string>, ghost end: Call)
      requires Valid() && Fresh()
      modifies this
      ensures Valid() && open == {} && optedIn == old(optedIn)
      ensures end.mode == Finished && end.owed == {}
      ensures r.Ok? ==> OneToOne(r.value, |input|)
      ensures r.Ok? && fallbacksOneToOne ==> r.value.values == Mapped(f, input)
    {
      var unique, index := CollectUnique(input);
      var hits, misses := LookupAll(unique);
      var desk, claims := Join(unique, hits, misses);
      var outputs := Outputs(desk, unique, claims, hits);
      desk.Return();
      end := desk.Me();
      if outputs.Err? {
        return Err(outputs.error), end;
      }
      r := Assemble(input, unique, index, outputs.value, fallbacksOneToOne);
    }

    /** All claims are answered, or on an error all unfinished flights dropped. */
    method Outputs(desk: Participant, unique: seq<Row>, claims: seq<MissClaim>, hits: seq<Option<Batch>>)
      returns (outputs: Result<seq<Option<Batch>>, string>)
      requires Owes(desk, claims) && ClaimsRight(f, unique, claims) && OutputsRight(f, unique, hits, true) && fallbacksOneToOne
      requires desk.Me().mode == Producing && desk.Me().follow == FollowFrom(claims, 0)
      requires forall i: nat :: i in open <==> i < |claims| && claims[i].MissProducer?
      modifies this`cache, this`open, this`requests, this`stores, this`told, this`inserted, this`removed, this`fallbacksOneToOne, desk
      ensures Valid() && desk.Valid() && open == {} && desk.Me().owed == {}
      ensures desk.Me().mode == Unwinding || (desk.Me().mode == Following && desk.Me().follow == [])
      ensures outputs.Ok? ==> OutputsRight(f, unique, outputs.value, fallbacksOneToOne)
    {
      outputs := RevalidateAll(desk, unique, claims, hits);
      if outputs.Ok? {
        outputs := ProduceAll(desk, unique, claims, outputs.value);
      }
      if outputs.Err? {
        desk.Fail();
        DropClaims(desk, claims);
        return;
      }
      NothingOwed(claims, desk.Me().owed);
      desk.StopProducing();
      outputs := FollowAll(desk, unique, claims, outputs.value);
      if outputs.Err? {
        desk.Fail();
      }
    }

    /** Put the distinct outputs back in the order of the input. */
    method Assemble(input: seq<Row>, unique: seq<Row>, index: seq<nat>, outputs: seq<Option<Batch>>, ghost trusted: bool)
      returns (r: Result<Batch, string>)
      requires IsDedup(input, unique, index) && |outputs| == |unique|
      requires OutputsRight(f, unique, outputs, trusted)
      ensures r.Ok? <==>
        && (forall i :: 0 <= i < |outputs| ==> outputs[i].Some? && outputs[i].value.columns > 0)
        && forall i :: 0 <= i < |index| ==> index[i] < |Flatten(Known(outputs))|
      ensures r.Ok? ==> OneToOne(r.value, |input|)
      ensures r.Ok? ==> forall i :: 0 <= i < |index| ==> r.value.values[i] == Flatten(Known(outputs))[index[i]]
      // Row by row the first value of the right output, exactly where the outputs are aligned.
      ensures r.Ok? && Aligned(Known(outputs)) ==> RowsFromOutputs(r.value.values, index, Known(outputs))
      ensures r.Ok? && trusted ==> r.value.values == Mapped(f, input)
      ensures trusted ==> (r.Ok? <==> forall i :: 0 <= i < |outputs| ==> outputs[i].Some?)
    {
      var batches := Answered(outputs);
      if batches.None? {
        return Err("per-value cache assembly left an input unanswered");
      }
      assert forall i :: 0 <= i < |outputs| ==> outputs[i].value == batches.value[i];
      r := Gather(batches.value, index);
      if r.Ok? && Aligned(batches.value) {
        AlignedRows(r.value.values, index, batches.value);
      }
      if trusted {
        TrustedRows(f, input, unique, index, batches.value);
      }
    }

    method Answered(outputs: seq<Option<Batch>>) returns (r: Option<seq<Batch>>)
      ensures r.Some? <==> forall i :: 0 <= i < |outputs| ==> outputs[i].Some?
      ensures r.Some? ==> r.value == Known(outputs)
    {
      var batches: seq<Batch> := [];
      for i := 0 to |outputs|
        invariant |batches| == i && forall j :: 0 <= j < i ==> outputs[j] == Some(batches[j])
      {
        if outputs[i].None? {
          return None;
        }
        batches := batches + [outputs[i].value];
      }
      r := Some(batches);
    }

    // With a fallback answer of two rows the call can succeed with a wrong row.
    method TwoRowFallback(first: Row, second: Row, x: Value, y: Value, z: Value) returns (r: Result<Batch, string>)
      requires first != second
      ensures r == Ok(Batch([x, y], 1))
    {
      var outputs := [Some(Batch([x, y], 1)), Some(Batch([z], 1))];
      MisshapenFallbackShiftsRows(x, y, z);
      assert Known(outputs) == [Batch([x, y], 1), Batch([z], 1)];
      r := Assemble([first, second], [first, second], [0, 1], outputs, false);
      assert r.value.values == [x, y];
    }

    /** Before the worker opts in: an ordinary call, whose rows may be stored. */
    method FirstCall(input: seq<Row>) returns (r: Result<Batch, string>)
      requires Valid()
      modifies this`cache, this`requests, this`stores, this`optedIn, this`inserted
      ensures Valid()
      ensures r.Ok? ==> Conforms(f, input, r.value)
      ensures stores <= old(stores) + MAX_NEW_STORES && requests == old(requests) + 1
      ensures old(inserted) == {} ==> stores - old(stores) == |inserted| && forall row :: row in inserted ==> row in input
      ensures optedIn <==> old(optedIn) || stores > old(stores)
    {
      var answer := Direct(input);
      if answer.Err? {
        return Err(answer.error);
      }
      var batch, control := answer.value.batch, answer.value.control;
      var stored := 0;
      if control.Some? && control.value.perValue && OneToOne(batch, |input|) {
        var seen: set<Row> := {};
        for i := 0 to |input|
          invariant Valid() && optedIn == old(optedIn)
          invariant stored == stores - old(stores) <= |seen| <= MAX_NEW_STORES && requests == old(requests) + 1
          invariant old(inserted) == {} ==> inserted <= seen && |inserted| == stored
          invariant forall row :: row in seen ==> row in input
        {
          if |seen| >= MAX_NEW_STORES {
            break;
          }
          if input[i] in seen {
            continue;
          }
          seen := seen + {input[i]};
          var storable: bool := *;
          if storable {
            Insert(input[i], batch.values[i]);
            stored := stored + 1;
          }
        }
      }
      if stored > 0 {
        optedIn := true;
      }
      r := Ok(batch);
    }

    /** A call of a stable function, by whichever path it is eligible for. */
    method RunScalarExchange(input: seq<Row>, eligible: bool) returns (r: Result<Batch, string>)
      requires Valid() && Fresh()
      modifies this
      ensures Valid() && open == {}
      ensures r.Ok? && fallbacksOneToOne ==> Conforms(f, input, r.value)
      ensures r.Ok? && eligible && old(optedIn) ==> OneToOne(r.value, |input|)
    {
      if !eligible {
        var answer := Direct(input);
        return if answer.Ok? then Ok(answer.value.batch) else Err(answer.error);
      }
      if !optedIn {
        r := FirstCall(input);
      } else {
        ghost var end;
        r, end := PerValue(input);
      }
    }

    /**
     The whole call: constants are sent once and broadcast, repeated rows once and
     gathered; the answer's shape is checked.
     */
    method InvokeAsync(rows: nat, arguments: Option<seq<Row>>, stable: bool, dedup: bool, eligible: bool)
      returns (r: Result<seq<Value>, string>)
      requires Valid() && Fresh()
      requires arguments.Some? ==> |arguments.value| == rows
      requires eligible ==> stable
      modifies this
      ensures Valid() && open == {}
      ensures r.Ok? ==> |r.value| == rows
      ensures r.Ok? && fallbacksOneToOne ==>
        r.value == Mapped(f, if arguments.Some? then arguments.value else seq(rows, i => []))
    {
      var rpcRows := if rows > 0 && arguments.None? && stable then 1 else rows;
      var input: seq<Row> := if arguments.Some? then arguments.value else seq(rpcRows, i => []);
      var sent, gather := input, None;
      if stable && dedup {
        sent, gather := DeduplicateScalarInput(input);
      }
      var out := RunScalarExchange(sent, eligible);
      if out.Err? {
        return Err(out.error);
      }
      r := Spread(rows, rpcRows, input, sent, gather, out.value, fallbacksOneToOne);
      if r.Ok? && fallbacksOneToOne && rpcRows < rows {
        assert input[0] == [];
        assert r.value == Mapped(f, seq(rows, i => []));
      }
    }

    /** Check the answer's shape, and undo deduplication or broadcast a constant. */
    method Spread(rows: nat, rpcRows: nat, input: seq<Row>, sent: seq<Row>, gather: Option<seq<nat>>, out: Batch, ghost trusted: bool)
      returns (r: Result<seq<Value>, string>)
      requires |input| == rpcRows && (rpcRows == rows || (rpcRows == 1 && rows > 1))
      requires if gather.Some? then IsDedup(input, sent, gather.value) && rpcRows == rows else sent == input
      requires trusted ==> Conforms(f, sent, out)
      ensures r.Ok? <==> OneToOne(out, |sent|)
      ensures r.Ok? ==> |r.value| == rows
      ensures r.Ok? && trusted && rpcRows == rows ==> r.value == Mapped(f, input)
      ensures r.Ok? && trusted && rpcRows < rows ==> forall i :: 0 <= i < rows ==> r.value[i] == f(input[0])
    {
      if |out.values| != |sent| {
        return Err("a scalar function must be 1:1");
      }
      if out.columns != 1 {
        return Err("a scalar function must return exactly one column");
      }
      var values := out.values;
      if gather.Some? {
        if trusted {
          GatherIsMap(f, input, sent, gather.value, values);
        }
        var index := gather.value;
        values := seq(|index|, i requires 0 <= i < |index| => values[index[i]]);
      } else if rpcRows == 1 && rows > 1 {
        var only := values[0];
        values := seq(rows, i => only);
      }
      r := Ok(values);
    }
  }

  // Outputs of one right row each give the map of the function.
  lemma TrustedRows(f: Row -> Value, input: seq<Row>, unique: seq<Row>, index: seq<nat>, batches: seq<Batch>)
    requires IsDedup(input, unique, index) && |batches| == |unique|
    requires forall i :: 0 <= i < |batches| ==> batches[i] == Batch([f(unique[i])], 1)
    ensures |Flatten(batches)| == |unique| && forall i :: 0 <= i < |index| ==> Flatten(batches)[index[i]] == Mapped(f, input)[i]
  {
    OneRowEachAligns(batches);
  }

  function Known(outputs: seq<Option<Batch>>): (batches: seq<Batch>)
    requires forall i :: 0 <= i < |outputs| ==> outputs[i].Some?
    ensures |batches| == |outputs|
  {
    seq(|outputs|, i requires 0 <= i < |outputs| => outputs[i].value)
  }

  /** Row `i` of the result is the first value of the output that row `i` of the input went to. */
  ghost predicate RowsFromOutputs(values: seq<Value>, index: seq<nat>, outputs: seq<Batch>) {
    && |values| == |index|
    && forall i :: 0 <= i < |index| ==>
         index[i] < |outputs| && outputs[index[i]].values != [] && values[i] == outputs[index[i]].values[0]
  }

  lemma {:induction false} FlattenAt(outputs: seq<Batch>, i: nat)
    requires i < |outputs| && outputs[i].values != []
    ensures |Flatten(outputs[..i])| < |Flatten(outputs)| && Flatten(outputs)[|Flatten(outputs[..i])|] == outputs[i].values[0]
    decreases |outputs|
  {
    var n := |outputs| - 1;
    if i < n {
      FlattenAt(outputs[..n], i);
      assert outputs[..n][..i] == outputs[..i];
    }
  }

  lemma AlignedRows(values: seq<Value>, index: seq<nat>, outputs: seq<Batch>)
    requires Aligned(outputs) && |values| == |index|
    requires forall i :: 0 <= i < |index| ==>
      index[i] < |outputs| && index[i] < |Flatten(outputs)| && values[i] == Flatten(outputs)[index[i]]
    ensures RowsFromOutputs(values, index, outputs)
  {
    forall i | 0 <= i < |index|
      ensures outputs[index[i]].values != [] && values[i] == outputs[index[i]].values[0]
    {
      FlattenAt(outputs, index[i]);
    }
  }
}
