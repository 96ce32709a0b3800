/**
 The runtime-filter protocol between the scan loop and the worker.

 The scan starts from a snapshot. Whenever the join filters change, the loop
 computes a delta with the next revision and keeps sending it with every tick
 until the next change. The worker is modelled by its contract: it ignores updates
 that are older than what it holds, and, if it is strict, also equally old ones.
 */
module RuntimeFilters {
  import opened Wrappers
  import opened Expressions
  import opened FilterPredicates
  import opened FilterTranslation
  import opened FilterBuilder
  import opened Pushdowns

  const U64_MAX: nat := 0xFFFF_FFFF_FFFF_FFFF

  // ---------------------------------------------------------------------
  // The worker

  /** An installed predicate with the constants and side batches it refers to. */
  datatype Installed = Installed(spec: Spec, constants: seq<Scalar>, keys: seq<JoinKeys>)

  /** What the worker holds for an id; without a body it is a tombstone. */
  datatype Entry = Entry(revision: nat, body: Option<Installed>)

  type WorkerState = map<PredicateId, Entry>

  predicate Accepts(w: WorkerState, id: PredicateId, revision: nat, strict: bool) {
    id in w ==> if strict then w[id].revision < revision else w[id].revision <= revision
  }

  function EntryOf(u: Update, constants: seq<Scalar>): Entry {
    match u
    case Upsert(_, revision, spec) => Entry(revision, Some(Installed(spec, constants, [])))
    case Remove(_, revision) => Entry(revision, None)
  }

  function ApplyUpdates(w: WorkerState, updates: seq<Update>, constants: seq<Scalar>, strict: bool): WorkerState {
    if updates == [] then w
    else
      var w' := ApplyUpdates(w, updates[..|updates| - 1], constants, strict);
      var u := updates[|updates| - 1];
      if Accepts(w', u.id, u.revision, strict) then w'[u.id := EntryOf(u, constants)] else w'
  }

  /** The worker after receiving what a tick carries. */
  function Deliver(w: WorkerState, tick: Option<Pushdown>, strict: bool): WorkerState {
    if tick.Some? && tick.value.blob.Some? && tick.value.blob.value.Delta?
    then ApplyUpdates(w, tick.value.blob.value.updates, tick.value.blob.value.constants, strict)
    else w
  }

  function LoadPredicates(ps: seq<Predicate>, constants: seq<Scalar>, keys: seq<JoinKeys>): WorkerState {
    if ps == [] then map[]
    else
      var last := ps[|ps| - 1];
      LoadPredicates(ps[..|ps| - 1], constants, keys)[last.id := Entry(last.revision, Some(Installed(last.spec, constants, keys)))]
  }

  /** The worker after the initial snapshot. */
  function Load(p: Pushdown): WorkerState {
    if p.blob.Some? && p.blob.value.Snapshot?
    then LoadPredicates(p.blob.value.predicates, p.blob.value.constants, p.joinKeys)
    else map[]
  }

  function Judge(i: Installed, remote: Schema, row: Row): Option<Truth>
    requires |row| == |remote|
  {
    EvalSpec(i.spec, i.constants, i.keys, remote, row)
  }

  /** Every live predicate is TRUE on the row, so the worker keeps it. */
  ghost predicate KeepsRow(w: WorkerState, remote: Schema, row: Row)
    requires |row| == |remote|
  {
    forall id :: id in w && w[id].body.Some? ==> Judge(w[id].body.value, remote, row) == Some(True)
  }

  // ---------------------------------------------------------------------
  // The scan loop

  datatype LoopState = LoopState(generation: nat, revision: nat, count: nat, tick: Option<Pushdown>)

  /** One pass of the loop: the generation it reads and, if that is new, a stable snapshot. */
  datatype Poll = Poll(generation: nat, stable: nat, exprs: seq<Expr>)

  function NextRevision(revision: nat): nat {
    if revision < U64_MAX then revision + 1 else revision
  }

  /** The delta that replaces `previous` predicates by those of `exprs`. */
  ghost function DeltaFor(exprs: seq<Expr>, cx: Context, revision: nat, previous: nat): Pushdown {
    RuntimePredsFit(exprs, cx, false);
    var ps := RuntimePreds(exprs, cx, false);
    DeltaOf(EncodeAll(ps, cx.remote, 0, 0), AllConstants(ps), AddAll([], RuntimeTouched(exprs, cx, false)), revision, previous)
  }

  ghost function NextLoop(s: LoopState, poll: Poll, cx: Context): LoopState {
    if poll.generation == s.generation then s
    else
      var delta := DeltaFor(poll.exprs, cx, NextRevision(s.revision), s.count);
      LoopState(poll.stable, NextRevision(s.revision), delta.predicateCount,
                if delta.blob.Some? then Some(delta) else None)
  }

  class ScanLoop {
    const cx: Context
    var generation: nat
    var revision: nat
    var predicateCount: nat
    var tickPushdown: Option<Pushdown>

    /** Start after the initial snapshot of the runtime filters. */
    constructor (cx: Context, generation: nat, initial: Pushdown)
      ensures this.cx == cx && State() == LoopState(generation, 0, initial.predicateCount, None)
    {
      this.cx := cx;
      this.generation := generation;
      revision := 0;
      predicateCount := initial.predicateCount;
      tickPushdown := None;
    }

    function State(): LoopState
      reads this
    {
      LoopState(generation, revision, predicateCount, tickPushdown)
    }

    /** One pass; the result travels with the next batch request. */
    method Tick(poll: Poll) returns (sent: Option<Pushdown>)
      modifies this
      ensures State() == NextLoop(old(State()), poll, cx)
      ensures sent == State().tick
    {
      if poll.generation != generation {
        revision := if revision < U64_MAX then revision + 1 else revision;
        var specs, tables := CollectRuntime(poll.exprs, cx, false);
        FromNothing(RuntimePreds(poll.exprs, cx, false), RuntimeTouched(poll.exprs, cx, false), cx.remote);
        var delta := FinishDelta(specs, tables.constants, tables.referenced, revision, predicateCount);
        predicateCount := delta.predicateCount;
        tickPushdown := if delta.blob.Some? then Some(delta) else None;
        generation := poll.stable;
      }
      sent := tickPushdown;
    }
  }

  // ---------------------------------------------------------------------
  // Applying a delta

  function JoinId(i: nat): PredicateId {
    PredicateId(Join, i)
  }

  /** Update `j` of a delta is about the join predicate at position `j`. */
  ghost predicate Positional(updates: seq<Update>, revision: nat) {
    forall j :: 0 <= j < |updates| ==> updates[j].id == JoinId(j) && updates[j].revision == revision
  }

  /** `w'` is `w` with the first entries replaced as `updates` say. */
  ghost predicate Replaced(w: WorkerState, w': WorkerState, updates: seq<Update>, constants: seq<Scalar>) {
    && (forall j :: 0 <= j < |updates| ==> JoinId(j) in w' && w'[JoinId(j)] == EntryOf(updates[j], constants))
    && (forall id: PredicateId :: (id.source == Join ==> |updates| <= id.index) ==>
          (id in w' <==> id in w) && (id in w ==> w'[id] == w[id]))
  }

  /** Updates of this revision are news to the worker. */
  ghost predicate Outdated(w: WorkerState, revision: nat, strict: bool) {
    forall id :: id in w && id.source == Join ==> Accepts(w, id, revision, strict)
  }

  lemma {:induction false} DeltaReplaces(w: WorkerState, updates: seq<Update>, constants: seq<Scalar>, revision: nat, strict: bool)
    requires Positional(updates, revision) && Outdated(w, revision, strict)
    ensures Replaced(w, ApplyUpdates(w, updates, constants, strict), updates, constants)
  {
    if updates != [] {
      DeltaReplaces(w, updates[..|updates| - 1], constants, revision, strict);
    }
  }

  // Sending the standing delta again changes nothing, for either kind of worker.
  lemma {:induction false} ResendIsIdempotent(w: WorkerState, updates: seq<Update>, constants: seq<Scalar>, strict: bool)
    requires forall j :: 0 <= j < |updates| ==> updates[j].id in w && w[updates[j].id] == EntryOf(updates[j], constants)
    ensures ApplyUpdates(w, updates, constants, strict) == w
  {
    if updates != [] {
      ResendIsIdempotent(w, updates[..|updates| - 1], constants, strict);
    }
  }

  lemma DeltaIsPositional(specs: seq<Spec>, revision: nat, previous: nat)
    ensures Positional(Upserts(specs, revision) + Removes(|specs|, previous, revision), revision)
  {}

  // ---------------------------------------------------------------------
  // Agreement of loop and worker

  /** The entry is live and means `p` on every row. */
  ghost predicate Means(e: Entry, p: Pred, remote: Schema)
    requires Fits(p, |remote|)
  {
    e.body.Some? && forall row: Row :: |row| == |remote| ==> Judge(e.body.value, remote, row) == Some(EvalPred(p, row))
  }

  /** The worker's live join predicates are exactly `current`, with ids from 0. */
  ghost predicate Agrees(w: WorkerState, current: seq<Pred>, remote: Schema)
    requires AllFitIn(current, remote)
  {
    && (forall i :: 0 <= i < |current| ==> JoinId(i) in w && Means(w[JoinId(i)], current[i], remote))
    && (forall id :: id in w && id.source == Join && |current| <= id.index ==> w[id].body.None?)
  }

  ghost predicate InSync(s: LoopState, w: WorkerState, current: seq<Pred>, remote: Schema, strict: bool)
    requires AllFitIn(current, remote)
  {
    && s.count == |current| && Agrees(w, current, remote)
    && (forall id :: id in w && id.source == Join ==> w[id].revision <= s.revision)
    && Deliver(w, s.tick, strict) == w
  }

  /** The predicates last serialized. */
  ghost function Latest(current: seq<Pred>, s: LoopState, poll: Poll, cx: Context): seq<Pred> {
    if poll.generation == s.generation then current else RuntimePreds(poll.exprs, cx, false)
  }

  ghost predicate SameQueries(w: WorkerState, w': WorkerState) {
    forall id: PredicateId :: id.source == Query ==> (id in w' <==> id in w) && (id in w ==> w'[id] == w[id])
  }

  // A changed pass installs exactly the new predicates and tombstones the rest.
  lemma {:induction false} DeltaInstalls(w: WorkerState, previous: seq<Pred>, ps: seq<Pred>, touched: seq<nat>,
                                         revision: nat, remote: Schema, strict: bool)
    requires DistinctNames(remote) && AllFitIn(previous, remote) && AllFitIn(ps, remote)
    requires !HasMember(ps) && Agrees(w, previous, remote) && Outdated(w, revision, strict)
    requires forall id :: id in w && id.source == Join ==> w[id].revision <= revision
    ensures var delta := DeltaOf(EncodeAll(ps, remote, 0, 0), AllConstants(ps), touched, revision, |previous|);
      var tick := if delta.blob.Some? then Some(delta) else None;
      var w' := Deliver(w, tick, strict);
      && delta.predicateCount == |ps|
      && Agrees(w', ps, remote) && SameQueries(w, w')
      && (forall id :: id in w' && id.source == Join ==> w'[id].revision <= revision)
      && Deliver(w', tick, strict) == w'
  {
    var specs, constants := EncodeAll(ps, remote, 0, 0), AllConstants(ps);
    var updates := Upserts(specs, revision) + Removes(|specs|, |previous|, revision);
    DeltaIsPositional(specs, revision, |previous|);
    if updates != [] {
      var w' := ApplyUpdates(w, updates, constants, strict);
      DeltaReplaces(w, updates, constants, revision, strict);
      ResendIsIdempotent(w', updates, constants, strict);
      forall i | 0 <= i < |ps|
        ensures JoinId(i) in w' && Means(w'[JoinId(i)], ps[i], remote)
      {
        InstalledMeans(ps, revision, remote, i);
        assert w'[JoinId(i)] == EntryOf(updates[i], constants);
      }
      forall id | id in w' && id.source == Join
        ensures w'[id].revision <= revision
        ensures |ps| <= id.index ==> w'[id].body.None?
      {
        assert id == JoinId(id.index);
        if id.index < |updates| {
          assert w'[id] == EntryOf(updates[id.index], constants);
        }
      }
    }
  }

  lemma {:induction false} InstalledMeans(ps: seq<Pred>, revision: nat, remote: Schema, i: nat)
    requires DistinctNames(remote) && AllFitIn(ps, remote) && i < |ps| && !HasMember(ps)
    ensures Means(Entry(revision, Some(Installed(EncodeAll(ps, remote, 0, 0)[i], AllConstants(ps), []))), ps[i], remote)
  {
    forall row: Row | |row| == |remote|
      ensures EvalSpec(EncodeAll(ps, remote, 0, 0)[i], AllConstants(ps), [], remote, row) == Some(EvalPred(ps[i], row))
    {
      NoMemberNoKeys(ps, remote);
      EncodeAllMeaning(ps, remote, 0, 0, AllConstants(ps), [], row, i);
    }
  }

  predicate HasMember(ps: seq<Pred>) {
    exists i :: 0 <= i < |ps| && ContainsMember(ps[i])
  }

  lemma {:induction false} NoMemberNoKeys(ps: seq<Pred>, remote: Schema)
    requires AllFitIn(ps, remote) && !HasMember(ps)
    ensures AllKeys(ps, remote) == []
  {
    if ps != [] {
      assert forall i :: 0 <= i < |ps| - 1 ==> ps[..|ps| - 1][i] == ps[i];
      NoMemberNoKeys(ps[..|ps| - 1], remote);
      PredWithoutKeys(ps[|ps| - 1], remote);
    }
  }

  lemma {:induction false} PredWithoutKeys(p: Pred, remote: Schema)
    requires Fits(p, |remote|) && !ContainsMember(p)
    ensures Keys(p, remote) == []
  {
    if p.Junction? {
      PredWithoutKeys(p.left, remote);
      PredWithoutKeys(p.right, remote);
    }
  }

  // Ticks have no channel for IN sets, and deltas contain none.
  lemma {:induction false} TranslationWithoutMembers(e: Expr, cx: Context)
    requires Translate(e, cx, false).Some?
    ensures !ContainsMember(Translate(e, cx, false).value)
  {
    if e.BinaryExpr? && e.op.And? {
      if Translate(e.left, cx, false).Some? {
        TranslationWithoutMembers(e.left, cx);
      }
      if Translate(e.right, cx, false).Some? {
        TranslationWithoutMembers(e.right, cx);
      }
    }
  }

  lemma {:induction false} TopWithoutMembers(e: Expr, cx: Context)
    ensures !HasMember(TopPreds(e, cx, false))
  {
    if e.BinaryExpr? && e.op.And? {
      TopWithoutMembers(e.left, cx);
      TopWithoutMembers(e.right, cx);
    } else if Translate(e, cx, false).Some? {
      TranslationWithoutMembers(e, cx);
    }
  }

  lemma {:induction false} RuntimeWithoutMembers(exprs: seq<Expr>, cx: Context)
    ensures !HasMember(RuntimePreds(exprs, cx, false))
  {
    if exprs != [] {
      RuntimeWithoutMembers(exprs[..|exprs| - 1], cx);
      TopWithoutMembers(exprs[|exprs| - 1], cx);
    }
  }

  // ---------------------------------------------------------------------
  // Runs

  // One pass keeps loop and worker in sync, and touches no query predicate. A strict
  // worker needs the revision counter not to be exhausted.
  lemma {:induction false} PassKeepsSync(s: LoopState, w: WorkerState, current: seq<Pred>, poll: Poll, cx: Context, strict: bool)
    requires DistinctNames(cx.remote) && AllFitIn(current, cx.remote) && InSync(s, w, current, cx.remote, strict)
    requires strict ==> s.revision < U64_MAX
    ensures var s' := NextLoop(s, poll, cx);
      var w', current' := Deliver(w, s'.tick, strict), Latest(current, s, poll, cx);
      && AllFitIn(current', cx.remote) && InSync(s', w', current', cx.remote, strict) && SameQueries(w, w')
  {
    if poll.generation != s.generation {
      RuntimePredsFit(poll.exprs, cx, false);
      RuntimeWithoutMembers(poll.exprs, cx);
      var revision := NextRevision(s.revision);
      assert Outdated(w, revision, strict);
      DeltaInstalls(w, current, RuntimePreds(poll.exprs, cx, false), AddAll([], RuntimeTouched(poll.exprs, cx, false)),
                    revision, cx.remote, strict);
    }
  }

  /** Loop, worker and serialized predicates after a sequence of passes. */
  datatype System = System(loop: LoopState, worker: WorkerState, current: seq<Pred>)

  ghost function Pass(y: System, poll: Poll, cx: Context, strict: bool): System {
    var s := NextLoop(y.loop, poll, cx);
    System(s, Deliver(y.worker, s.tick, strict), Latest(y.current, y.loop, poll, cx))
  }

  ghost function RunPasses(y: System, polls: seq<Poll>, cx: Context, strict: bool): System {
    if polls == [] then y else Pass(RunPasses(y, polls[..|polls| - 1], cx, strict), polls[|polls| - 1], cx, strict)
  }

  ghost predicate Good(y: System, cx: Context, strict: bool) {
    AllFitIn(y.current, cx.remote) && InSync(y.loop, y.worker, y.current, cx.remote, strict)
  }

  // Over any run the worker's live join predicates are exactly those serialized last,
  // numbered from 0; everything else is tombstoned, query predicates stay as they
  // were, and the revision never falls and grows by at most one per pass.
  lemma {:induction false} RunKeepsSync(y: System, polls: seq<Poll>, cx: Context, strict: bool)
    requires DistinctNames(cx.remote) && Good(y, cx, strict)
    requires strict ==> y.loop.revision + |polls| <= U64_MAX
    ensures var z := RunPasses(y, polls, cx, strict);
      && Good(z, cx, strict) && SameQueries(y.worker, z.worker)
      && y.loop.revision <= z.loop.revision <= y.loop.revision + |polls|
  {
    if polls != [] {
      var rest := polls[..|polls| - 1];
      RunKeepsSync(y, rest, cx, strict);
      var x := RunPasses(y, rest, cx, strict);
      PassKeepsSync(x.loop, x.worker, x.current, polls[|polls| - 1], cx, strict);
    }
  }

  // Every change takes a new revision until the counter saturates, and what it
  // computes is sent in the same pass unless there is nothing to change.
  lemma ChangesAreSent(s: LoopState, poll: Poll, cx: Context)
    requires poll.generation != s.generation
    ensures var s' := NextLoop(s, poll, cx);
      && (s.revision < U64_MAX <==> s'.revision > s.revision)
      && (s'.tick.None? <==> s.count == 0 && RuntimePreds(poll.exprs, cx, false) == [])
  {
  }

  // Once the counter is saturated, a strict worker that has seen it ignores all
  // further deltas.
  lemma {:induction false} SaturatedDeltaIsLost(w: WorkerState, updates: seq<Update>, constants: seq<Scalar>)
    requires Positional(updates, U64_MAX)
    requires forall j :: 0 <= j < |updates| ==> JoinId(j) in w && w[JoinId(j)].revision == U64_MAX
    ensures ApplyUpdates(w, updates, constants, true) == w
  {
    if updates != [] {
      SaturatedDeltaIsLost(w, updates[..|updates| - 1], constants);
    }
  }

  // ---------------------------------------------------------------------
  // The start of a scan

  predicate NamesOne(ps: seq<Predicate>, id: PredicateId) {
    exists i :: 0 <= i < |ps| && ps[i].id == id
  }

  lemma {:induction false} LoadedEntries(ps: seq<Predicate>, constants: seq<Scalar>, keys: seq<JoinKeys>)
    requires forall i, j :: 0 <= i < j < |ps| ==> ps[i].id != ps[j].id
    ensures forall i :: 0 <= i < |ps| ==>
      && ps[i].id in LoadPredicates(ps, constants, keys)
      && LoadPredicates(ps, constants, keys)[ps[i].id] == LoadedEntry(ps, i, constants, keys)
    ensures forall id :: id in LoadPredicates(ps, constants, keys) ==> NamesOne(ps, id)
  {
    if ps != [] {
      var init := ps[..|ps| - 1];
      LoadedEntries(init, constants, keys);
      forall id | id in LoadPredicates(ps, constants, keys)
        ensures NamesOne(ps, id)
      {
        if id == ps[|ps| - 1].id {
          assert ps[|ps| - 1].id == id;
        } else {
          assert NamesOne(init, id);
          var i :| 0 <= i < |init| && init[i].id == id;
          assert ps[i].id == id;
        }
      }
    }
  }

  /** The query part of the initial pushdown: nothing, or a snapshot numbered from 0. */
  ghost predicate QueryPart(q: Pushdown) {
    q == EMPTY || (q.blob.Some? && q.blob.value.Snapshot?
      && forall i :: 0 <= i < |q.blob.value.predicates| ==> q.blob.value.predicates[i].id == PredicateId(Query, i))
  }

  /** The initial pushdown: the query part merged with the snapshot of the runtime filters. */
  ghost function Initial(q: Pushdown, exprs: seq<Expr>, cx: Context): Pushdown
    requires QueryPart(q)
  {
    RuntimePredsFit(exprs, cx, true);
    Merged(q, SnapshotOf(RuntimePreds(exprs, cx, true), RuntimeTouched(exprs, cx, true), cx.remote, Join)).value
  }

  // The initial snapshot puts loop and worker in sync.
  lemma {:induction false} StartInSync(q: Pushdown, exprs: seq<Expr>, cx: Context, generation: nat, strict: bool)
    requires DistinctNames(cx.remote) && QueryPart(q)
    ensures Good(Begun(q, exprs, generation, cx), cx, strict)
  {
    InitialIds(q, exprs, cx);
    InitialEntriesMean(q, exprs, cx);
    LoadedIsGood(Initial(q, exprs, cx), RuntimePreds(exprs, cx, true), cx, generation, strict);
  }

  lemma LoadedIsGood(m: Pushdown, ps: seq<Pred>, cx: Context, generation: nat, strict: bool)
    requires AllFitIn(ps, cx.remote) && TailMeans(m, ps, cx.remote) && NumberedFrom(m.blob.value.predicates, |ps|)
    ensures Good(System(LoopState(generation, 0, |ps|, None), Load(m), ps), cx, strict)
  {
    LoadAgrees(m, ps, cx.remote);
  }

  /** The last predicates of a snapshot mean `ps`. */
  ghost predicate TailMeans(m: Pushdown, ps: seq<Pred>, remote: Schema)
    requires AllFitIn(ps, remote)
  {
    && m.blob.Some? && m.blob.value.Snapshot? && |ps| <= |m.blob.value.predicates|
    && forall i :: 0 <= i < |ps| ==>
         Means(LoadedEntry(m.blob.value.predicates, |m.blob.value.predicates| - |ps| + i, m.blob.value.constants, m.joinKeys),
               ps[i], remote)
  }

  lemma InitialEntriesMean(q: Pushdown, exprs: seq<Expr>, cx: Context)
    requires DistinctNames(cx.remote) && QueryPart(q)
    ensures AllFitIn(RuntimePreds(exprs, cx, true), cx.remote)
    ensures TailMeans(Initial(q, exprs, cx), RuntimePreds(exprs, cx, true), cx.remote)
  {
    var ps := RuntimePreds(exprs, cx, true);
    RuntimePredsFit(exprs, cx, true);
    var j := SnapshotOf(ps, RuntimeTouched(exprs, cx, true), cx.remote, Join);
    forall i | 0 <= i < |ps| {
      InitialMeans(q, j, ps, cx.remote, RuntimeTouched(exprs, cx, true), i);
    }
  }

  function LoadedEntry(ps: seq<Predicate>, i: nat, constants: seq<Scalar>, keys: seq<JoinKeys>): Entry
    requires i < |ps|
  {
    Entry(ps[i].revision, Some(Installed(ps[i].spec, constants, keys)))
  }

  lemma LoadAgrees(m: Pushdown, ps: seq<Pred>, remote: Schema)
    requires AllFitIn(ps, remote) && TailMeans(m, ps, remote) && NumberedFrom(m.blob.value.predicates, |ps|)
    ensures Agrees(Load(m), ps, remote) && forall id :: id in Load(m) && id.source == Join ==> Load(m)[id].revision == 0
  {
    var predicates, constants, keys, w := m.blob.value.predicates, m.blob.value.constants, m.joinKeys, Load(m);
    var n := |predicates| - |ps|;
    LoadedEntries(predicates, constants, keys);
    JoinEntriesAtStart(w, predicates, constants, keys, n);
    forall i | 0 <= i < |ps|
      ensures JoinId(i) in w && Means(w[JoinId(i)], ps[i], remote)
    {
      assert predicates[n + i].id == JoinId(i);
      assert w[JoinId(i)] == LoadedEntry(predicates, n + i, constants, keys);
    }
  }

  lemma InitialIds(q: Pushdown, exprs: seq<Expr>, cx: Context)
    requires QueryPart(q)
    ensures var m := Initial(q, exprs, cx);
      m.blob.Some? && m.blob.value.Snapshot? && NumberedFrom(m.blob.value.predicates, |RuntimePreds(exprs, cx, true)|)
  {
  }

  /** The last `n` predicates are the fresh join predicates, the others query predicates. */
  ghost predicate NumberedFrom(ps: seq<Predicate>, n: nat) {
    n <= |ps| && forall i :: 0 <= i < |ps| ==>
      if i < |ps| - n then ps[i].id == PredicateId(Query, i)
      else ps[i].id == JoinId(i - (|ps| - n)) && ps[i].revision == 0
  }

  lemma JoinEntriesAtStart(w: WorkerState, ps: seq<Predicate>, constants: seq<Scalar>, keys: seq<JoinKeys>, n: nat)
    requires n <= |ps| && NumberedFrom(ps, |ps| - n) && w == LoadPredicates(ps, constants, keys)
    ensures forall id :: id in w && id.source == Join ==> w[id].revision == 0 && id.index < |ps| - n
  {
    LoadedEntries(ps, constants, keys);
    forall id | id in w && id.source == Join
      ensures w[id].revision == 0 && id.index < |ps| - n
    {
      var i :| 0 <= i < |ps| && ps[i].id == id;
    }
  }

  lemma {:induction false} InitialMeans(q: Pushdown, j: Pushdown, ps: seq<Pred>, remote: Schema, touched: seq<nat>, i: nat)
    requires DistinctNames(remote) && AllFitIn(ps, remote) && i < |ps| && QueryPart(q)
    requires j == SnapshotOf(ps, touched, remote, Join)
    ensures var m := Merged(q, j).value;
      var n := |m.blob.value.predicates| - |ps|;
      Means(LoadedEntry(m.blob.value.predicates, n + i, m.blob.value.constants, m.joinKeys), ps[i], remote)
  {
    var m := Merged(q, j).value;
    var n := |m.blob.value.predicates| - |ps|;
    forall row: Row | |row| == |remote|
      ensures Judge(Installed(m.blob.value.predicates[n + i].spec, m.blob.value.constants, m.joinKeys), remote, row)
           == Some(EvalPred(ps[i], row))
    {
      EncodeAllMeaning(ps, remote, 0, 0, AllConstants(ps), AllKeys(ps, remote), row, i);
      if q.blob.Some? {
        RightVerdict(q, j, i, remote, row);
      }
    }
  }

  // ---------------------------------------------------------------------
  // Soundness of a whole scan

  /** The runtime filters serialized last, and whether IN sets could go along. */
  datatype Seen = Seen(generation: nat, exprs: seq<Expr>, sideKeys: bool)

  /** What a scan that started with `initial` has serialized last after these passes. */
  function LastSeen(initial: seq<Expr>, generation: nat, polls: seq<Poll>): Seen {
    if polls == [] then Seen(generation, initial, true)
    else
      var before, poll := LastSeen(initial, generation, polls[..|polls| - 1]), polls[|polls| - 1];
      if poll.generation == before.generation then before else Seen(poll.stable, poll.exprs, false)
  }

  /** Loop and worker before the first pass of a scan. */
  ghost function Begun(q: Pushdown, initial: seq<Expr>, generation: nat, cx: Context): System
    requires QueryPart(q)
  {
    var ps := RuntimePreds(initial, cx, true);
    System(LoopState(generation, 0, |ps|, None), Load(Initial(q, initial, cx)), ps)
  }

  lemma {:induction false} CurrentIsLastSeen(q: Pushdown, initial: seq<Expr>, generation: nat, polls: seq<Poll>, cx: Context, strict: bool)
    requires QueryPart(q)
    ensures var seen, z := LastSeen(initial, generation, polls), RunPasses(Begun(q, initial, generation, cx), polls, cx, strict);
      z.loop.generation == seen.generation && z.current == RuntimePreds(seen.exprs, cx, seen.sideKeys)
  {
    if polls != [] {
      CurrentIsLastSeen(q, initial, generation, polls[..|polls| - 1], cx, strict);
    }
  }

  lemma SerializedIsQueryPart(query: seq<Expr>, schema: Schema, engine: Engine)
    ensures QueryPart(Serialized(query, schema, engine))
  {
  }

  // At every point of every scan, the worker keeps each row that satisfies the query's
  // filters and the runtime filters serialized last, if the columns that the query's
  // filters read keep their names.
  lemma ScanIsSound(query: seq<Expr>, initial: seq<Expr>, generation: nat, polls: seq<Poll>, cx: Context, strict: bool,
                    row: Row, workerRow: Row)
    requires DistinctNames(cx.remote) && (strict ==> |polls| <= U64_MAX)
    requires IsRow(row, cx) && |workerRow| == |cx.remote| && Mirrors(workerRow, row)
    requires SatisfiesAll(query, cx, row) && QueryKeepsNames(query, cx)
    requires SatisfiesAll(LastSeen(initial, generation, polls).exprs, cx, row)
    ensures var q := Serialized(query, cx.schema, cx.engine);
      && QueryPart(q)
      && KeepsRow(RunPasses(Begun(q, initial, generation, cx), polls, cx, strict).worker, cx.remote, workerRow)
  {
    var q := Serialized(query, cx.schema, cx.engine);
    SerializedIsQueryPart(query, cx.schema, cx.engine);
    SerializedIsClosed(query, cx.schema, cx.engine);
    QueryPushdownIsSound(query, cx, row, workerRow);
    var seen := LastSeen(initial, generation, polls);
    CurrentIsLastSeen(q, initial, generation, polls, cx, strict);
    RuntimePredsAreSound(seen.exprs, cx, seen.sideKeys, row);
    RunKeepsRow(q, initial, generation, polls, cx, strict, row, workerRow);
  }

  lemma RunKeepsRow(q: Pushdown, initial: seq<Expr>, generation: nat, polls: seq<Poll>, cx: Context, strict: bool, row: Row, workerRow: Row)
    requires DistinctNames(cx.remote) && QueryPart(q) && Closed(q) && (strict ==> |polls| <= U64_MAX)
    requires |workerRow| == |cx.remote| && Mirrors(workerRow, row) && Keeps(q, cx.remote, workerRow)
    requires AllTrue(RunPasses(Begun(q, initial, generation, cx), polls, cx, strict).current, row)
    ensures KeepsRow(RunPasses(Begun(q, initial, generation, cx), polls, cx, strict).worker, cx.remote, workerRow)
  {
    var y := Begun(q, initial, generation, cx);
    var z := RunPasses(y, polls, cx, strict);
    StartInSync(q, initial, cx, generation, strict);
    RunKeepsSync(y, polls, cx, strict);
    AllTrueMirrored(z.current, row, workerRow);
    forall id | id in z.worker && z.worker[id].body.Some?
      ensures Judge(z.worker[id].body.value, cx.remote, workerRow) == Some(True)
    {
      if id.source == Join {
        assert id.index < |z.current| && id == JoinId(id.index);
        assert Means(z.worker[id], z.current[id.index], cx.remote);
      } else {
        QueryEntryKeeps(q, initial, cx, id, workerRow);
      }
    }
  }

  lemma {:induction false} QueryEntryKeeps(q: Pushdown, exprs: seq<Expr>, cx: Context, id: PredicateId, row: Row)
    requires QueryPart(q) && Closed(q) && |row| == |cx.remote| && Keeps(q, cx.remote, row)
    requires id in Load(Initial(q, exprs, cx)) && id.source == Query
    ensures Load(Initial(q, exprs, cx))[id].body.Some?
    ensures Judge(Load(Initial(q, exprs, cx))[id].body.value, cx.remote, row) == Some(True)
  {
    RuntimePredsFit(exprs, cx, true);
    var ps := RuntimePreds(exprs, cx, true);
    var j := SnapshotOf(ps, RuntimeTouched(exprs, cx, true), cx.remote, Join);
    var m := Initial(q, exprs, cx);
    var n := |m.blob.value.predicates| - |ps|;
    var predicates := m.blob.value.predicates;
    InitialIds(q, exprs, cx);
    LoadedEntries(predicates, m.blob.value.constants, m.joinKeys);
    var i :| 0 <= i < |predicates| && predicates[i].id == id;
    LeftVerdict(q, j, i, cx.remote, row);
  }
}
