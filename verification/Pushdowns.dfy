/** Serialized pushdowns: query snapshots, runtime-filter snapshots and deltas, and their merge. */
module Pushdowns {
  import opened Wrappers
  import opened Expressions
  import opened FilterPredicates
  import opened FilterTranslation
  import opened FilterBuilder

  /** Who pushed a predicate; the predicate's id is the source and a position. */
  datatype Source = Query | Join

  datatype PredicateId = PredicateId(source: Source, index: nat)

  datatype Predicate = Predicate(id: PredicateId, revision: nat, spec: Spec)

  datatype Update = Upsert(id: PredicateId, revision: nat, spec: Spec) | Remove(id: PredicateId, revision: nat)

  datatype Document =
    | Snapshot(predicates: seq<Predicate>, constants: seq<Scalar>)
    | Delta(updates: seq<Update>, constants: seq<Scalar>)

  datatype Pushdown = Pushdown(blob: Option<Document>, columns: seq<nat>, joinKeys: seq<JoinKeys>, predicateCount: nat)

  datatype MergeError = NotASnapshot

  const EMPTY := Pushdown(None, [], [], 0)

  // ---------------------------------------------------------------------
  // Serialization

  /** The predicates pushed for a list of logical filters; inexpressible ones are skipped. */
  function QueryPreds(exprs: seq<Expr>, cx: Context): seq<Pred> {
    if exprs == [] then []
    else
      var p := Translate(exprs[|exprs| - 1], cx, true);
      QueryPreds(exprs[..|exprs| - 1], cx) + if p.Some? then [p.value] else []
  }

  function QueryTouched(exprs: seq<Expr>, cx: Context): seq<nat> {
    if exprs == [] then []
    else QueryTouched(exprs[..|exprs| - 1], cx) + Touched(exprs[|exprs| - 1], cx, Logical)
  }

  /** The predicates pushed for a list of runtime filters. */
  function RuntimePreds(exprs: seq<Expr>, cx: Context, sideKeys: bool): seq<Pred> {
    if exprs == [] then []
    else RuntimePreds(exprs[..|exprs| - 1], cx, sideKeys) + TopPreds(exprs[|exprs| - 1], cx, sideKeys)
  }

  function RuntimeTouched(exprs: seq<Expr>, cx: Context, sideKeys: bool): seq<nat> {
    if exprs == [] then []
    else RuntimeTouched(exprs[..|exprs| - 1], cx, sideKeys) + TopTouched(exprs[|exprs| - 1], cx, sideKeys)
  }

  lemma {:induction false} QueryPredsFit(exprs: seq<Expr>, cx: Context)
    ensures AllFitIn(QueryPreds(exprs, cx), cx.schema) && AllFitIn(QueryPreds(exprs, cx), cx.remote)
  {
    if exprs != [] {
      QueryPredsFit(exprs[..|exprs| - 1], cx);
    }
  }

  lemma {:induction false} RuntimePredsFit(exprs: seq<Expr>, cx: Context, sideKeys: bool)
    ensures AllFitIn(RuntimePreds(exprs, cx, sideKeys), cx.schema) && AllFitIn(RuntimePreds(exprs, cx, sideKeys), cx.remote)
  {
    if exprs != [] {
      RuntimePredsFit(exprs[..|exprs| - 1], cx, sideKeys);
      TopPredsFit(exprs[|exprs| - 1], cx, sideKeys);
    }
  }

  /** Number the specs; their ids are stable by position. */
  function Numbered(source: Source, specs: seq<Spec>): (r: seq<Predicate>)
    ensures |r| == |specs|
    ensures forall i :: 0 <= i < |r| ==> r[i] == Predicate(PredicateId(source, i), 0, specs[i])
  {
    seq(|specs|, i requires 0 <= i < |specs| => Predicate(PredicateId(source, i), 0, specs[i]))
  }

  method FinishSnapshot(specs: seq<Spec>, constants: seq<Scalar>, referenced: seq<nat>, source: Source) returns (r: Pushdown)
    ensures r == if specs == [] && source == Query then EMPTY
                 else Pushdown(Some(Snapshot(Numbered(source, specs), constants)), referenced, [], |specs|)
  {
    if specs == [] && source != Join {
      return EMPTY;
    }
    r := Pushdown(Some(Snapshot(Numbered(source, specs), constants)), referenced, [], |specs|);
  }

  /** The snapshot of the predicates `ps`. */
  ghost function SnapshotOf(ps: seq<Pred>, touched: seq<nat>, remote: Schema, source: Source): Pushdown
    requires AllFitIn(ps, remote)
  {
    Pushdown(Some(Snapshot(Numbered(source, EncodeAll(ps, remote, 0, 0)), AllConstants(ps))),
             AddAll([], touched), AllKeys(ps, remote), |ps|)
  }

  lemma FromNothing(ps: seq<Pred>, touched: seq<nat>, remote: Schema)
    requires AllFitIn(ps, remote)
    ensures AfterAll(Tables([], [], []), ps, touched, remote)
         == Tables(AllConstants(ps), AddAll([], touched), AllKeys(ps, remote))
  {}

  /** Query filters are named and numbered by one and the same schema. */
  function Local(schema: Schema, engine: Engine): Context {
    Context(schema, schema, engine)
  }

  /** The pushdown of a list of query filters. */
  ghost function Serialized(exprs: seq<Expr>, schema: Schema, engine: Engine): Pushdown {
    var cx := Local(schema, engine);
    QueryPredsFit(exprs, cx);
    if QueryPreds(exprs, cx) == [] then EMPTY
    else SnapshotOf(QueryPreds(exprs, cx), QueryTouched(exprs, cx), schema, Query)
  }

  method Serialize(exprs: seq<Expr>, schema: Schema, engine: Engine) returns (r: Pushdown)
    ensures r == Serialized(exprs, schema, engine)
  {
    var cx := Local(schema, engine);
    var b := new Builder(cx);
    ghost var t := Tables([], [], []);
    var specs: seq<Spec> := [];
    NoConjuncts(t, [], schema);
    for i := 0 to |exprs|
      invariant b.cx == cx && AllFitIn(QueryPreds(exprs[..i], cx), schema) && fresh(b)
      invariant specs == EncodeAll(QueryPreds(exprs[..i], cx), schema, 0, 0)
      invariant b.State() == AfterAll(t, QueryPreds(exprs[..i], cx), QueryTouched(exprs[..i], cx), schema)
    {
      ghost var t' := b.State();
      var spec := b.Build(exprs[i]);
      QueryStep(t, exprs[..i + 1], cx);
      assert exprs[..i + 1][..i] == exprs[..i];
      specs := if spec.Some? then specs + [spec.value] else specs;
    }
    assert exprs[..|exprs|] == exprs;
    FromNothing(QueryPreds(exprs, cx), QueryTouched(exprs, cx), schema);
    if specs == [] {
      return EMPTY;
    }
    var snapshot := FinishSnapshot(specs, b.constants, b.referencedColumns, Query);
    r := snapshot.(joinKeys := b.joinKeys);
  }

  lemma QueryStep(t: Tables, exprs: seq<Expr>, cx: Context)
    requires exprs != []
    ensures AllFitIn(QueryPreds(exprs, cx), cx.remote) && AllFitIn(QueryPreds(exprs[..|exprs| - 1], cx), cx.remote)
    ensures var rest, e := exprs[..|exprs| - 1], exprs[|exprs| - 1];
      var p := Translate(e, cx, true);
      var t' := AfterAll(t, QueryPreds(rest, cx), QueryTouched(rest, cx), cx.remote);
      && After(t', p, Touched(e, cx, Logical), cx.remote)
         == AfterAll(t, QueryPreds(exprs, cx), QueryTouched(exprs, cx), cx.remote)
      && EncodeAll(QueryPreds(exprs, cx), cx.remote, |t.constants|, |t.keys|)
         == EncodeAll(QueryPreds(rest, cx), cx.remote, |t.constants|, |t.keys|)
            + (if p.Some? then [Encode(p.value, cx.remote, |t'.constants|, |t'.keys|)] else [])
  {
    var rest, e := exprs[..|exprs| - 1], exprs[|exprs| - 1];
    var p := Translate(e, cx, true);
    var t' := AfterAll(t, QueryPreds(rest, cx), QueryTouched(rest, cx), cx.remote);
    QueryPredsFit(exprs, cx);
    QueryPredsFit(rest, cx);
    SinglePred(t', p, Touched(e, cx, Logical), cx.remote);
    TwoLists(t, QueryPreds(rest, cx), QueryTouched(rest, cx), if p.Some? then [p.value] else [], Touched(e, cx, Logical), cx.remote);
  }

  /** Collect the specs of runtime filters in a fresh builder. */
  method CollectRuntime(exprs: seq<Expr>, cx: Context, sideKeys: bool) returns (specs: seq<Spec>, tables: Tables)
    ensures AllFitIn(RuntimePreds(exprs, cx, sideKeys), cx.remote)
    ensures specs == EncodeAll(RuntimePreds(exprs, cx, sideKeys), cx.remote, 0, 0)
    ensures tables == AfterAll(Tables([], [], []), RuntimePreds(exprs, cx, sideKeys), RuntimeTouched(exprs, cx, sideKeys), cx.remote)
  {
    var b := new Builder(cx);
    ghost var t := Tables([], [], []);
    specs := [];
    NoConjuncts(t, [], cx.remote);
    for i := 0 to |exprs|
      invariant b.cx == cx && AllFitIn(RuntimePreds(exprs[..i], cx, sideKeys), cx.remote) && fresh(b)
      invariant specs == EncodeAll(RuntimePreds(exprs[..i], cx, sideKeys), cx.remote, 0, 0)
      invariant b.State() == AfterAll(t, RuntimePreds(exprs[..i], cx, sideKeys), RuntimeTouched(exprs[..i], cx, sideKeys), cx.remote)
    {
      specs := b.BuildPhysicalTop(exprs[i], sideKeys, specs);
      assert exprs[..i + 1][..i] == exprs[..i];
      TwoLists(t, RuntimePreds(exprs[..i], cx, sideKeys), RuntimeTouched(exprs[..i], cx, sideKeys),
               TopPreds(exprs[i], cx, sideKeys), TopTouched(exprs[i], cx, sideKeys), cx.remote);
    }
    assert exprs[..|exprs|] == exprs;
    tables := b.State();
  }

  method SerializePhysical(exprs: seq<Expr>, cx: Context, sideKeys: bool) returns (r: Pushdown)
    ensures AllFitIn(RuntimePreds(exprs, cx, sideKeys), cx.remote)
    ensures r == SnapshotOf(RuntimePreds(exprs, cx, sideKeys), RuntimeTouched(exprs, cx, sideKeys), cx.remote, Join)
  {
    var specs, tables := CollectRuntime(exprs, cx, sideKeys);
    FromNothing(RuntimePreds(exprs, cx, sideKeys), RuntimeTouched(exprs, cx, sideKeys), cx.remote);
    var snapshot := FinishSnapshot(specs, tables.constants, tables.referenced, Join);
    r := snapshot.(joinKeys := tables.keys);
  }

  // ---------------------------------------------------------------------
  // Deltas

  function Upserts(specs: seq<Spec>, revision: nat): (r: seq<Update>)
    ensures |r| == |specs|
    ensures forall i :: 0 <= i < |r| ==> r[i] == Upsert(PredicateId(Join, i), revision, specs[i])
  {
    seq(|specs|, i requires 0 <= i < |specs| => Upsert(PredicateId(Join, i), revision, specs[i]))
  }

  /** Tombstones for the ids `from..upto`. */
  function Removes(from: nat, upto: nat, revision: nat): (r: seq<Update>)
    ensures |r| == if from < upto then upto - from else 0
    ensures forall i :: 0 <= i < |r| ==> r[i] == Remove(PredicateId(Join, from + i), revision)
  {
    seq(if from < upto then upto - from else 0, i requires 0 <= i => Remove(PredicateId(Join, from + i), revision))
  }

  function DeltaOf(specs: seq<Spec>, constants: seq<Scalar>, referenced: seq<nat>, revision: nat, previous: nat): Pushdown {
    var updates := Upserts(specs, revision) + Removes(|specs|, previous, revision);
    if updates == [] then EMPTY.(predicateCount := |specs|)
    else Pushdown(Some(Delta(updates, constants)), referenced, [], |specs|)
  }

  method FinishDelta(specs: seq<Spec>, constants: seq<Scalar>, referenced: seq<nat>, revision: nat, previous: nat)
    returns (r: Pushdown)
    ensures r == DeltaOf(specs, constants, referenced, revision, previous)
  {
    var updates := Upserts(specs, revision);
    var index := |specs|;
    while index < previous
      invariant |specs| <= index && (index <= previous || index == |specs|)
      invariant updates == Upserts(specs, revision) + Removes(|specs|, index, revision)
    {
      updates := updates + [Remove(PredicateId(Join, index), revision)];
      index := index + 1;
    }
    assert Removes(|specs|, index, revision) == Removes(|specs|, previous, revision);
    if updates == [] {
      return EMPTY.(predicateCount := |specs|);
    }
    r := Pushdown(Some(Delta(updates, constants)), referenced, [], |specs|);
  }

  // ---------------------------------------------------------------------
  // Merging

  function ShiftAll(ps: seq<Predicate>, c: nat, k: nat): (r: seq<Predicate>)
    ensures |r| == |ps| && forall i :: 0 <= i < |r| ==> r[i] == ps[i].(spec := Shift(ps[i].spec, c, k))
  {
    seq(|ps|, i requires 0 <= i < |ps| => ps[i].(spec := Shift(ps[i].spec, c, k)))
  }

  /** Conjoin two pushdowns; only snapshots can be conjoined. */
  function Merged(l: Pushdown, r: Pushdown): Result<Pushdown, MergeError> {
    match (l.blob, r.blob)
    case (None, None) => Ok(EMPTY)
    case (Some(_), None) => Ok(l)
    case (None, Some(_)) => Ok(r)
    case (Some(a), Some(b)) =>
      if a.Delta? || b.Delta? then Err(NotASnapshot)
      else Ok(Pushdown(
        Some(Snapshot(a.predicates + ShiftAll(b.predicates, |a.constants|, |l.joinKeys|), a.constants + b.constants)),
        AddAll(l.columns, r.columns),
        l.joinKeys + r.joinKeys,
        l.predicateCount + r.predicateCount))
  }

  method Merge(l: Pushdown, r: Pushdown) returns (m: Result<Pushdown, MergeError>)
    ensures m == Merged(l, r)
  {
    if l.blob.None? && r.blob.None? {
      return Ok(EMPTY);
    }
    if r.blob.None? {
      return Ok(l);
    }
    if l.blob.None? {
      return Ok(r);
    }
    var a, b := l.blob.value, r.blob.value;
    if a.Delta? || b.Delta? {
      return Err(NotASnapshot);
    }
    var shifted := b.predicates;
    for i := 0 to |shifted|
      invariant |shifted| == |b.predicates|
      invariant forall j :: i <= j < |shifted| ==> shifted[j] == b.predicates[j]
      invariant forall j :: 0 <= j < i ==>
        shifted[j] == b.predicates[j].(spec := Shift(b.predicates[j].spec, |a.constants|, |l.joinKeys|))
    {
      shifted := shifted[i := shifted[i].(spec := Shift(shifted[i].spec, |a.constants|, |l.joinKeys|))];
    }
    assert shifted == ShiftAll(b.predicates, |a.constants|, |l.joinKeys|);
    var columns := l.columns;
    for i := 0 to |r.columns|
      invariant columns == AddAll(l.columns, r.columns[..i])
    {
      assert r.columns[..i + 1][..i] == r.columns[..i];
      if r.columns[i] !in columns {
        columns := columns + [r.columns[i]];
      }
    }
    assert r.columns[..|r.columns|] == r.columns;
    m := Ok(Pushdown(Some(Snapshot(a.predicates + shifted, a.constants + b.constants)),
                     columns, l.joinKeys + r.joinKeys, l.predicateCount + r.predicateCount));
  }

  /** All references of a snapshot stay within its own constants and side batches. */
  ghost predicate Closed(p: Pushdown) {
    p.blob.Some? && p.blob.value.Snapshot? ==>
      forall i :: 0 <= i < |p.blob.value.predicates| ==>
        InBounds(p.blob.value.predicates[i].spec, |p.blob.value.constants|, |p.joinKeys|)
  }

  /** Without a blob there is nothing else either. */
  predicate Normal(p: Pushdown) {
    p.blob.None? ==> p == EMPTY
  }

  predicate IsSnapshot(p: Pushdown) {
    p.blob.Some? ==> p.blob.value.Snapshot?
  }

  function Verdict(p: Pushdown, i: nat, remote: Schema, row: Row): Option<Truth>
    requires p.blob.Some? && p.blob.value.Snapshot? && i < |p.blob.value.predicates| && |row| == |remote|
  {
    EvalSpec(p.blob.value.predicates[i].spec, p.blob.value.constants, p.joinKeys, remote, row)
  }

  /** The worker keeps the row: every pushed predicate is TRUE on it. */
  ghost predicate Keeps(p: Pushdown, remote: Schema, row: Row)
    requires |row| == |remote|
  {
    p.blob.Some? && p.blob.value.Snapshot? ==>
      forall i :: 0 <= i < |p.blob.value.predicates| ==> Verdict(p, i, remote, row) == Some(True)
  }

  // Merging is conjunction, and the merged references stay in bounds.
  lemma {:induction false} MergeIsConjunction(l: Pushdown, r: Pushdown, remote: Schema, row: Row)
    requires IsSnapshot(l) && IsSnapshot(r) && Closed(l) && Closed(r) && |row| == |remote|
    ensures Merged(l, r).Ok? && IsSnapshot(Merged(l, r).value) && Closed(Merged(l, r).value)
    ensures Keeps(Merged(l, r).value, remote, row) <==> Keeps(l, remote, row) && Keeps(r, remote, row)
  {
    if l.blob.Some? && r.blob.Some? {
      var n, m := |l.blob.value.predicates|, Merged(l, r).value;
      MergedIsClosed(l, r);
      forall i | 0 <= i < n
        ensures Verdict(m, i, remote, row) == Verdict(l, i, remote, row)
      {
        LeftVerdict(l, r, i, remote, row);
      }
      forall i | n <= i < |m.blob.value.predicates|
        ensures Verdict(m, i, remote, row) == Verdict(r, i - n, remote, row)
      {
        RightVerdict(l, r, i - n, remote, row);
      }
      if Keeps(m, remote, row) {
        forall i | 0 <= i < |r.blob.value.predicates|
          ensures Verdict(r, i, remote, row) == Some(True)
        {
          assert Verdict(m, n + i, remote, row) == Verdict(r, n + i - n, remote, row);
        }
      }
    }
  }

  lemma LeftVerdict(l: Pushdown, r: Pushdown, i: nat, remote: Schema, row: Row)
    requires l.blob.Some? && l.blob.value.Snapshot? && r.blob.Some? && r.blob.value.Snapshot? && Closed(l)
    requires |row| == |remote| && i < |l.blob.value.predicates|
    ensures Verdict(Merged(l, r).value, i, remote, row) == Verdict(l, i, remote, row)
  {
    ExtendMeaning(l.blob.value.predicates[i].spec, l.blob.value.constants, l.joinKeys,
                  r.blob.value.constants, r.joinKeys, remote, row);
  }

  lemma RightVerdict(l: Pushdown, r: Pushdown, i: nat, remote: Schema, row: Row)
    requires l.blob.Some? && l.blob.value.Snapshot? && r.blob.Some? && r.blob.value.Snapshot?
    requires |row| == |remote| && i < |r.blob.value.predicates|
    ensures Verdict(Merged(l, r).value, |l.blob.value.predicates| + i, remote, row) == Verdict(r, i, remote, row)
  {
    ShiftMeaning(r.blob.value.predicates[i].spec, r.blob.value.constants, r.joinKeys,
                 l.blob.value.constants, l.joinKeys, remote, row);
  }

  lemma MergedIsClosed(l: Pushdown, r: Pushdown)
    requires IsSnapshot(l) && IsSnapshot(r) && Closed(l) && Closed(r) && l.blob.Some? && r.blob.Some?
    ensures Closed(Merged(l, r).value)
  {
    var a, b, m := l.blob.value, r.blob.value, Merged(l, r).value;
    forall i | 0 <= i < |m.blob.value.predicates|
      ensures InBounds(m.blob.value.predicates[i].spec, |m.blob.value.constants|, |m.joinKeys|)
    {
      if i < |a.predicates| {
        InBoundsMonotone(a.predicates[i].spec, |a.constants|, |l.joinKeys|, |m.blob.value.constants|, |m.joinKeys|);
      } else {
        ShiftInBounds(b.predicates[i - |a.predicates|].spec, |b.constants|, |r.joinKeys|, |a.constants|, |l.joinKeys|);
      }
    }
  }

  // The empty pushdown is the identity of merging.
  lemma MergeIdentity(p: Pushdown)
    requires Normal(p)
    ensures Merged(EMPTY, p) == Ok(p) && Merged(p, EMPTY) == Ok(p)
  {}

  function AndThen(m: Result<Pushdown, MergeError>, f: Pushdown -> Result<Pushdown, MergeError>): Result<Pushdown, MergeError> {
    match m case Ok(p) => f(p) case Err(e) => Err(e)
  }

  // Merging is associative, down to the numbering and the first-seen columns.
  lemma {:induction false} MergeAssociative(a: Pushdown, b: Pushdown, c: Pushdown)
    requires IsSnapshot(a) && IsSnapshot(b) && IsSnapshot(c)
    ensures AndThen(Merged(a, b), m => Merged(m, c)) == AndThen(Merged(b, c), m => Merged(a, m))
  {
    if a.blob.Some? && b.blob.Some? && c.blob.Some? {
      var ab, bc := Merged(a, b).value, Merged(b, c).value;
      ShiftedTwice(a.blob.value, b.blob.value, c.blob.value, |a.joinKeys|, |b.joinKeys|);
      Assoc(a.joinKeys, b.joinKeys, c.joinKeys);
      Assoc(a.blob.value.constants, b.blob.value.constants, c.blob.value.constants);
      UnionAssociative(a.columns, b.columns, c.columns);
      assert Merged(ab, c) == Merged(a, bc);
    }
  }

  lemma ShiftedTwice(a: Document, b: Document, c: Document, ka: nat, kb: nat)
    requires a.Snapshot? && b.Snapshot? && c.Snapshot?
    ensures var ca, cb := |a.constants|, |b.constants|;
      a.predicates + ShiftAll(b.predicates + ShiftAll(c.predicates, cb, kb), ca, ka)
      == a.predicates + ShiftAll(b.predicates, ca, ka) + ShiftAll(c.predicates, ca + cb, ka + kb)
  {
    var ca, cb := |a.constants|, |b.constants|;
    forall i | 0 <= i < |c.predicates|
      ensures Shift(Shift(c.predicates[i].spec, cb, kb), ca, ka) == Shift(c.predicates[i].spec, ca + cb, ka + kb)
    {
      ShiftTwice(c.predicates[i].spec, cb, kb, ca, ka);
    }
    assert ShiftAll(b.predicates + ShiftAll(c.predicates, cb, kb), ca, ka)
        == ShiftAll(b.predicates, ca, ka) + ShiftAll(c.predicates, ca + cb, ka + kb);
  }

  lemma {:induction false} UnionAssociative(a: seq<nat>, b: seq<nat>, c: seq<nat>)
    ensures AddAll(AddAll(a, b), c) == AddAll(a, AddAll(b, c))
  {
    if c != [] {
      var init, last := c[..|c| - 1], c[|c| - 1];
      UnionAssociative(a, b, init);
      AddAllExtends(a, AddAll(b, init));
      if last !in AddAll(b, init) {
        AddAllConcat(a, AddAll(b, init), [last]);
        AddSingle(AddAll(a, AddAll(b, init)), last);
      }
    }
  }

  // ---------------------------------------------------------------------
  // End to end

  /** The worker's row holds the table's row in its own schema. */
  ghost predicate Mirrors(workerRow: Row, row: Row) {
    forall i :: 0 <= i < |row| && i < |workerRow| ==> workerRow[i] == row[i]
  }

  lemma {:induction false} EvalPredMirrored(p: Pred, row: Row, workerRow: Row)
    requires Fits(p, |row|) && Fits(p, |workerRow|) && Mirrors(workerRow, row)
    ensures EvalPred(p, workerRow) == EvalPred(p, row)
  {
    if p.Junction? {
      EvalPredMirrored(p.left, row, workerRow);
      EvalPredMirrored(p.right, row, workerRow);
    }
  }

  lemma {:induction false} EncodeAllReread(ps: seq<Pred>, schema: Schema, remote: Schema, c: nat, k: nat,
                                           constants: seq<Scalar>, keys: seq<JoinKeys>, row: Row, i: nat)
    requires |row| == |remote| && AllFitIn(ps, schema) && i < |ps|
    requires StandsAt(AllConstants(ps), constants, c) && StandsAt(AllKeys(ps, schema), keys, k)
    ensures EvalSpec(EncodeAll(ps, schema, c, k)[i], constants, keys, remote, row)
         == if NamesPresent(ps[i], schema, remote) then Some(EvalPred(ps[i], Reread(row, schema, remote))) else None
  {
    var init, last := ps[..|ps| - 1], ps[|ps| - 1];
    StandsAtSplit(AllConstants(init), Constants(last), constants, c);
    StandsAtSplit(AllKeys(init, schema), Keys(last, schema), keys, k);
    if i < |init| {
      EncodeAllReread(init, schema, remote, c, k, constants, keys, row, i);
    } else {
      EncodeReread(last, schema, remote, c + |AllConstants(init)|, k + |AllKeys(init, schema)|, constants, keys, row);
    }
  }

  lemma EncodeAllMeaning(ps: seq<Pred>, remote: Schema, c: nat, k: nat,
                         constants: seq<Scalar>, keys: seq<JoinKeys>, row: Row, i: nat)
    requires |row| == |remote| && DistinctNames(remote) && AllFitIn(ps, remote) && i < |ps|
    requires StandsAt(AllConstants(ps), constants, c) && StandsAt(AllKeys(ps, remote), keys, k)
    ensures EvalSpec(EncodeAll(ps, remote, c, k)[i], constants, keys, remote, row) == Some(EvalPred(ps[i], row))
  {
    EncodeAllReread(ps, remote, remote, c, k, constants, keys, row, i);
    ColumnsFit(ps[i], |remote|);
    KeptNamesReadRight(ps[i], remote, remote, row, row);
  }

  // A snapshot means the conjunction of its predicates.
  lemma {:induction false} SnapshotMeaning(ps: seq<Pred>, touched: seq<nat>, remote: Schema, source: Source, row: Row)
    requires |row| == |remote| && DistinctNames(remote) && AllFitIn(ps, remote)
    ensures Keeps(SnapshotOf(ps, touched, remote, source), remote, row) <==> AllTrue(ps, row)
  {
    forall i | 0 <= i < |ps|
      ensures Verdict(SnapshotOf(ps, touched, remote, source), i, remote, row) == Some(EvalPred(ps[i], row))
    {
      EncodeAllMeaning(ps, remote, 0, 0, AllConstants(ps), AllKeys(ps, remote), row, i);
    }
  }

  lemma {:induction false} EncodeAllInBounds(ps: seq<Pred>, remote: Schema, c: nat, k: nat, i: nat)
    requires AllFitIn(ps, remote) && i < |ps|
    ensures InBounds(EncodeAll(ps, remote, c, k)[i], c + |AllConstants(ps)|, k + |AllKeys(ps, remote)|)
  {
    var init, last := ps[..|ps| - 1], ps[|ps| - 1];
    var c', k' := c + |AllConstants(init)|, k + |AllKeys(init, remote)|;
    if i < |init| {
      EncodeAllInBounds(init, remote, c, k, i);
      InBoundsMonotone(EncodeAll(init, remote, c, k)[i], c', k', c + |AllConstants(ps)|, k + |AllKeys(ps, remote)|);
    } else {
      EncodeInBounds(last, remote, c', k');
    }
  }

  lemma {:induction false} SnapshotIsClosed(ps: seq<Pred>, touched: seq<nat>, remote: Schema, source: Source)
    requires AllFitIn(ps, remote)
    ensures Closed(SnapshotOf(ps, touched, remote, source))
  {
    forall i | 0 <= i < |ps|
      ensures InBounds(EncodeAll(ps, remote, 0, 0)[i], |AllConstants(ps)|, |AllKeys(ps, remote)|)
    {
      EncodeAllInBounds(ps, remote, 0, 0, i);
    }
  }

  ghost predicate SatisfiesAll(exprs: seq<Expr>, cx: Context, row: Row)
    requires |row| == |cx.schema|
  {
    forall i :: 0 <= i < |exprs| ==> Satisfies(exprs[i], cx.schema, row, cx.engine)
  }

  lemma {:induction false} QueryPredsAreSound(exprs: seq<Expr>, cx: Context, row: Row)
    requires IsRow(row, cx) && SatisfiesAll(exprs, cx, row)
    ensures AllTrue(QueryPreds(exprs, cx), row)
  {
    if exprs != [] {
      var e := exprs[|exprs| - 1];
      QueryPredsAreSound(exprs[..|exprs| - 1], cx, row);
      if Translate(e, cx, true).Some? {
        TranslationIsSound(e, cx, true, row);
      }
    }
  }

  lemma {:induction false} RuntimePredsAreSound(exprs: seq<Expr>, cx: Context, sideKeys: bool, row: Row)
    requires IsRow(row, cx) && SatisfiesAll(exprs, cx, row)
    ensures AllTrue(RuntimePreds(exprs, cx, sideKeys), row)
  {
    if exprs != [] {
      RuntimePredsAreSound(exprs[..|exprs| - 1], cx, sideKeys, row);
      TopPredsAreSound(exprs[|exprs| - 1], cx, sideKeys, row);
    }
  }

  lemma AllTrueMirrored(ps: seq<Pred>, row: Row, workerRow: Row)
    requires AllTrue(ps, row) && Mirrors(workerRow, row) && forall i :: 0 <= i < |ps| ==> Fits(ps[i], |workerRow|)
    ensures AllTrue(ps, workerRow)
  {
    forall i | 0 <= i < |ps|
      ensures EvalPred(ps[i], workerRow) == True
    {
      EvalPredMirrored(ps[i], row, workerRow);
    }
  }

  // ----- query filters, whose columns carry the names of the table's own schema

  /** All predicates are TRUE on the row that their names pick out of the worker's. */
  ghost predicate ReadTrue(ps: seq<Pred>, schema: Schema, remote: Schema, row: Row)
    requires AllFitIn(ps, schema) && |row| == |remote|
  {
    forall i :: 0 <= i < |ps| ==> NamesPresent(ps[i], schema, remote) && EvalPred(ps[i], Reread(row, schema, remote)) == True
  }

  /** Each column that some predicate reads has the same name at the same position in both schemas. */
  ghost predicate AllKeepNames(ps: seq<Pred>, schema: Schema, remote: Schema)
    requires AllFitIn(ps, schema)
  {
    forall i :: 0 <= i < |ps| ==> KeepsNames(ps[i], schema, remote)
  }

  // What a worker makes of pushed query filters, exactly and for any two schemas.
  lemma QueryIsReread(query: seq<Expr>, schema: Schema, engine: Engine, remote: Schema, row: Row)
    requires |row| == |remote|
    ensures AllFitIn(QueryPreds(query, Local(schema, engine)), schema)
    ensures Keeps(Serialized(query, schema, engine), remote, row)
      <==> ReadTrue(QueryPreds(query, Local(schema, engine)), schema, remote, row)
  {
    var ps, q := QueryPreds(query, Local(schema, engine)), Serialized(query, schema, engine);
    QueryPredsFit(query, Local(schema, engine));
    forall i | 0 <= i < |ps|
      ensures Verdict(q, i, remote, row)
           == if NamesPresent(ps[i], schema, remote) then Some(EvalPred(ps[i], Reread(row, schema, remote))) else None
    {
      EncodeAllReread(ps, schema, remote, 0, 0, AllConstants(ps), AllKeys(ps, schema), row, i);
    }
  }

  // A filter on a column whose name the worker does not have loses every row.
  lemma MissingNameLosesEveryRow(query: seq<Expr>, schema: Schema, engine: Engine, remote: Schema, i: nat, row: Row)
    requires |row| == |remote| && AllFitIn(QueryPreds(query, Local(schema, engine)), schema)
    requires i < |QueryPreds(query, Local(schema, engine))|
    requires !NamesPresent(QueryPreds(query, Local(schema, engine))[i], schema, remote)
    ensures !Keeps(Serialized(query, schema, engine), remote, row)
  {
    QueryIsReread(query, schema, engine, remote, row);
  }

  // A worker keeps every row that satisfies the query's filters, if the columns that
  // these read have the same names at the same positions in table and worker.
  lemma QueryPushdownIsSound(query: seq<Expr>, cx: Context, row: Row, workerRow: Row)
    requires IsRow(row, cx) && |workerRow| == |cx.remote| && Mirrors(workerRow, row) && DistinctNames(cx.remote)
    requires SatisfiesAll(query, cx, row)
    requires QueryKeepsNames(query, cx)
    ensures Keeps(Serialized(query, cx.schema, cx.engine), cx.remote, workerRow)
  {
    var local := Local(cx.schema, cx.engine);
    var ps := QueryPreds(query, local);
    QueryPredsAreSound(query, local, row);
    QueryIsReread(query, cx.schema, cx.engine, cx.remote, workerRow);
    forall i | 0 <= i < |ps|
      ensures NamesPresent(ps[i], cx.schema, cx.remote) && EvalPred(ps[i], Reread(workerRow, cx.schema, cx.remote)) == True
    {
      ColumnsFit(ps[i], |cx.schema|);
      KeptNamesReadRight(ps[i], cx.schema, cx.remote, row, workerRow);
    }
  }

  ghost predicate QueryKeepsNames(query: seq<Expr>, cx: Context) {
    QueryPredsFit(query, Local(cx.schema, cx.engine));
    AllKeepNames(QueryPreds(query, Local(cx.schema, cx.engine)), cx.schema, cx.remote)
  }

  /** The declared schema may rename columns but not retype or move them. */
  ghost predicate Compatible(schema: Schema, remote: Schema) {
    |schema| == |remote| && forall i :: 0 <= i < |schema| ==> schema[i].ty == remote[i].ty
  }

  /** No row of the table that satisfies the query's filters is lost. */
  ghost predicate LosesNothing(query: seq<Expr>, schema: Schema, remote: Schema, engine: Engine)
    requires Compatible(schema, remote)
  {
    forall row: Row :: Conforms(row, schema) && SatisfiesAll(query, Local(schema, engine), row) ==>
      Keeps(Serialized(query, schema, engine), remote, row)
  }

  // Every query may be pushed exactly when the table's names are the worker's.
  lemma EveryQueryIsSafeIff(schema: Schema, remote: Schema, engine: Engine)
    requires Compatible(schema, remote) && DistinctNames(schema) && DistinctNames(remote) && NoOpCasts(engine)
    ensures (forall query :: LosesNothing(query, schema, remote, engine))
      <==> forall i :: 0 <= i < |schema| ==> schema[i].name == remote[i].name
  {
    if forall i :: 0 <= i < |schema| ==> schema[i].name == remote[i].name {
      forall query, row: Row | Conforms(row, schema) && SatisfiesAll(query, Local(schema, engine), row)
        ensures Keeps(Serialized(query, schema, engine), remote, row)
      {
        QueryPredsFit(query, Local(schema, engine));
        SameNamesKeepNames(QueryPreds(query, Local(schema, engine)), schema, remote);
        QueryPushdownIsSound(query, Context(schema, remote, engine), row, row);
      }
    } else {
      var i :| 0 <= i < |schema| && schema[i].name != remote[i].name;
      RenamedColumnLosesRows(schema, remote, engine, i);
    }
  }

  lemma SameNamesKeepNames(ps: seq<Pred>, schema: Schema, remote: Schema)
    requires AllFitIn(ps, schema) && |schema| == |remote| && forall i :: 0 <= i < |schema| ==> schema[i].name == remote[i].name
    ensures AllKeepNames(ps, schema, remote)
  {
    forall i | 0 <= i < |ps|
      ensures KeepsNames(ps[i], schema, remote)
    {
      ColumnsFit(ps[i], |schema|);
    }
  }

  /** A row that is null at column `c` alone, or everywhere else, with `v` at `c`. */
  function Probe(schema: Schema, c: nat, v: Scalar): Row {
    seq(|schema|, i requires 0 <= i < |schema| =>
      if i == c then v else Scalar(schema[i].ty, if v.datum.None? then Some(Atom(0)) else None))
  }

  lemma RenamedColumnLosesRows(schema: Schema, remote: Schema, engine: Engine, c: nat)
    requires Compatible(schema, remote) && DistinctNames(schema) && DistinctNames(remote) && NoOpCasts(engine)
    requires c < |schema| && schema[c].name != remote[c].name
    ensures !LosesNothing([IsNull(Column(schema[c].name))], schema, remote, engine)
  {
    var e := IsNull(Column(schema[c].name));
    IndexOfDistinct(schema, c);
    var w := Probe(schema, c, Scalar(schema[c].ty, None));
    assert Translate(e, Local(schema, engine), true) == Some(NullCheck(c, false));
    LoneColumnIff(e, schema, remote, engine, w);
  }

  lemma OneQuery(e: Expr, cx: Context)
    requires Translate(e, cx, true).Some?
    ensures QueryPreds([e], cx) == [Translate(e, cx, true).value]
  {
    assert [e][..0] == [];
  }

  // A satisfiable predicate on one column, nothing of it dropped, is safe to push
  // exactly when that column keeps its name.
  lemma LoneColumnIff(e: Expr, schema: Schema, remote: Schema, engine: Engine, w: Row)
    requires Compatible(schema, remote) && NoOpCasts(engine) && DistinctNames(remote)
    requires Translate(e, Local(schema, engine), true).Some? && !Translate(e, Local(schema, engine), true).value.Junction?
    requires NothingDropped(e, Local(schema, engine), true)
    requires Conforms(w, schema) && Satisfies(e, schema, w, engine)
    ensures var c := Translate(e, Local(schema, engine), true).value.column;
      LosesNothing([e], schema, remote, engine) <==> schema[c].name == remote[c].name
  {
    var local := Local(schema, engine);
    var p := Translate(e, local, true).value;
    OneQuery(e, local);
    if schema[p.column].name == remote[p.column].name {
      forall row: Row | Conforms(row, schema) && SatisfiesAll([e], local, row)
        ensures Keeps(Serialized([e], schema, engine), remote, row)
      {
        assert AllKeepNames([p], schema, remote);
        QueryPushdownIsSound([e], Context(schema, remote, engine), row, row);
      }
    } else {
      TranslationIsExact(e, local, true, w);
      var r := Probe(schema, p.column, w[p.column]);
      TranslationIsExact(e, local, true, r);
      assert SatisfiesAll([e], local, r);
      QueryIsReread([e], schema, engine, remote, r);
      ProbeIsMisread(p, schema, remote, r);
      assert [p][0] == p;
    }
  }

  lemma ProbeIsMisread(p: Pred, schema: Schema, remote: Schema, row: Row)
    requires Fits(p, |schema|) && |schema| == |remote| && !p.Junction? && schema[p.column].name != remote[p.column].name
    requires |row| == |schema| && row == Probe(schema, p.column, row[p.column]) && EvalPred(p, row) == True
    ensures !(NamesPresent(p, schema, remote) && EvalPred(p, Reread(row, schema, remote)) == True)
  {
    if p.Member? {
      InTruthIsMembership(row[p.column], p.values);
      InTruthIsMembership(Reread(row, schema, remote)[p.column], p.values);
    }
  }

  // Renaming need not lose rows: with two names exchanged, `a = 1 OR b = 1` is read
  // as `b = 1 OR a = 1`, while `a = 1` loses the row (1, 2).
  lemma ExchangedNames(engine: Engine)
    requires NoOpCasts(engine)
    ensures var schema, remote := [Field("a", Int64), Field("b", Int64)], [Field("b", Int64), Field("a", Int64)];
      && !LosesNothing([IsOne("a")], schema, remote, engine)
      && LosesNothing([BinaryExpr(IsOne("a"), Or, IsOne("b"))], schema, remote, engine)
  {
    var schema, remote := [Field("a", Int64), Field("b", Int64)], [Field("b", Int64), Field("a", Int64)];
    var local, one := Local(schema, engine), Scalar(Int64, Some(Atom(1)));
    assert schema[1..][0] == Field("b", Int64) && remote[1..][0] == Field("a", Int64);
    assert IndexOf(schema, "a") == Some(0) && IndexOf(schema, "b") == Some(1);
    assert IndexOf(remote, "a") == Some(1) && IndexOf(remote, "b") == Some(0);
    assert Translate(IsOne("a"), local, true) == Some(Cmp(Eq, 0, one));
    assert Translate(IsOne("b"), local, true) == Some(Cmp(Eq, 1, one));
    var w := [one, Scalar(Int64, Some(Atom(2)))];
    LoneColumnIff(IsOne("a"), schema, remote, engine, w);
    EitherIsTranslated(local);
    var either := BinaryExpr(IsOne("a"), Or, IsOne("b"));
    forall row: Row | Conforms(row, schema) && SatisfiesAll([either], local, row)
      ensures Keeps(Serialized([either], schema, engine), remote, row)
    {
      assert [either][0] == either;
      TranslationIsSound(either, local, true, row);
      EitherIsSymmetric(schema, remote, row);
      OneFilterKeeps(either, EITHER, schema, remote, engine, row);
    }
  }

  function IsOne(name: string): Expr {
    BinaryExpr(Column(name), Compare(Eq), IntLiteral(1))
  }

  lemma OneFilterKeeps(e: Expr, p: Pred, schema: Schema, remote: Schema, engine: Engine, row: Row)
    requires |row| == |remote| && Translate(e, Local(schema, engine), true) == Some(p)
    requires NamesPresent(p, schema, remote) && EvalPred(p, Reread(row, schema, remote)) == True
    ensures Keeps(Serialized([e], schema, engine), remote, row)
  {
    OneQuery(e, Local(schema, engine));
    QueryIsReread([e], schema, engine, remote, row);
  }

  lemma EitherIsTranslated(cx: Context)
    requires Translate(IsOne("a"), cx, true) == Some(EITHER.left) && Translate(IsOne("b"), cx, true) == Some(EITHER.right)
    ensures Translate(BinaryExpr(IsOne("a"), Or, IsOne("b")), cx, true) == Some(EITHER)
  {
    TwoColumnsAreNoSet(cx);
  }

  const EITHER: Pred :=
    Junction(Disj, Cmp(Eq, 0, Scalar(Int64, Some(Atom(1)))), Cmp(Eq, 1, Scalar(Int64, Some(Atom(1)))))

  lemma EitherIsSymmetric(schema: Schema, remote: Schema, row: Row)
    requires |schema| == |remote| == |row| == 2
    requires IndexOf(remote, schema[0].name) == Some(1) && IndexOf(remote, schema[1].name) == Some(0)
    ensures NamesPresent(EITHER, schema, remote)
    ensures EvalPred(EITHER, Reread(row, schema, remote)) == True <==> EvalPred(EITHER, row) == True
  {
    var read := Reread(row, schema, remote);
    assert read[0] == row[1] && read[1] == row[0];
  }

  lemma TwoColumnsAreNoSet(cx: Context)
    ensures OrEqualities(IsOne("a"), IsOne("b"), cx).None?
  {
    var one := Scalar(Int64, Some(Atom(1)));
    assert ColumnAgainstLiteral(Column("a"), Compare(Eq), IntLiteral(1), cx) == Some(Term("a", one, Compare(Eq)));
    assert ColumnAgainstLiteral(Column("b"), Compare(Eq), IntLiteral(1), cx) == Some(Term("b", one, Compare(Eq)));
    var terms := [Term("a", one, Compare(Eq))] + [Term("b", one, Compare(Eq))];
    assert terms[0].name == "a" && terms[1].name == "b";
    assert "a"[0] != "b"[0];
    assert !SameColumn(terms);
  }

  // The worker never filters out a row that the query and the runtime filters
  // accept, if the columns of the query's filters keep their names.
  lemma PushdownIsSound(query: seq<Expr>, runtime: seq<Expr>, cx: Context, row: Row, workerRow: Row)
    requires IsRow(row, cx) && |workerRow| == |cx.remote| && Mirrors(workerRow, row) && DistinctNames(cx.remote)
    requires SatisfiesAll(query, cx, row) && SatisfiesAll(runtime, cx, row)
    requires QueryKeepsNames(query, cx)
    ensures AllFitIn(RuntimePreds(runtime, cx, true), cx.remote)
    ensures var q := Serialized(query, cx.schema, cx.engine);
      var j := SnapshotOf(RuntimePreds(runtime, cx, true), RuntimeTouched(runtime, cx, true), cx.remote, Join);
      Merged(q, j).Ok? && Keeps(Merged(q, j).value, cx.remote, workerRow)
  {
    var rs := RuntimePreds(runtime, cx, true);
    RuntimePredsFit(runtime, cx, true);
    RuntimePredsAreSound(runtime, cx, true, row);
    AllTrueMirrored(rs, row, workerRow);
    QueryPushdownIsSound(query, cx, row, workerRow);
    var q, j := Serialized(query, cx.schema, cx.engine), SnapshotOf(rs, RuntimeTouched(runtime, cx, true), cx.remote, Join);
    SnapshotMeaning(rs, RuntimeTouched(runtime, cx, true), cx.remote, Join, workerRow);
    SerializedIsClosed(query, cx.schema, cx.engine);
    SnapshotIsClosed(rs, RuntimeTouched(runtime, cx, true), cx.remote, Join);
    MergeIsConjunction(q, j, cx.remote, workerRow);
  }

  lemma SerializedIsClosed(query: seq<Expr>, schema: Schema, engine: Engine)
    ensures IsSnapshot(Serialized(query, schema, engine)) && Closed(Serialized(query, schema, engine))
  {
    var cx := Local(schema, engine);
    QueryPredsFit(query, cx);
    SnapshotIsClosed(QueryPreds(query, cx), QueryTouched(query, cx), schema, Query);
  }

  // ---------------------------------------------------------------------
  // The columns a pushdown asks for

  /** Every column that a spec reads is among `columns`. */
  ghost predicate Records(columns: seq<nat>, s: Spec) {
    forall r :: r in SpecColumns(s) ==> r.index in columns
  }

  /** The columns that a pushdown's predicates or updates read are sent along with it. */
  ghost predicate ColumnsRecorded(p: Pushdown) {
    match p.blob
    case None => true
    case Some(Snapshot(predicates, _)) => forall i :: 0 <= i < |predicates| ==> Records(p.columns, predicates[i].spec)
    case Some(Delta(updates, _)) => forall i :: 0 <= i < |updates| && updates[i].Upsert? ==> Records(p.columns, updates[i].spec)
  }

  ghost predicate Covers(touched: seq<nat>, ps: seq<Pred>) {
    forall i, c :: 0 <= i < |ps| && c in Columns(ps[i]) ==> c in touched
  }

  lemma CoversConcat(s: seq<nat>, a: seq<Pred>, t: seq<nat>, b: seq<Pred>)
    requires Covers(s, a) && Covers(t, b)
    ensures Covers(s + t, a + b)
  {
  }

  lemma {:induction false} QueryTouchedCovers(exprs: seq<Expr>, cx: Context)
    ensures Covers(QueryTouched(exprs, cx), QueryPreds(exprs, cx))
  {
    if exprs != [] {
      var init, e := exprs[..|exprs| - 1], exprs[|exprs| - 1];
      var p := Translate(e, cx, true);
      QueryTouchedCovers(init, cx);
      if p.Some? {
        ReadsOnlyTouched(e, cx, Logical);
      }
      CoversConcat(QueryTouched(init, cx), QueryPreds(init, cx), Touched(e, cx, Logical), if p.Some? then [p.value] else []);
    }
  }

  lemma {:induction false} MemberColumnsCover(ps: seq<Pred>)
    requires forall i :: 0 <= i < |ps| ==> ps[i].Member?
    ensures Covers(MemberColumns(ps), ps)
  {
    if ps != [] {
      var init, last := ps[..|ps| - 1], ps[|ps| - 1];
      MemberColumnsCover(init);
      CoversConcat(MemberColumns(init), init, [last.column], [last]);
      assert ps == init + [last];
    }
  }

  lemma {:induction false} TopTouchedCovers(e: Expr, cx: Context, sideKeys: bool)
    ensures Covers(TopTouched(e, cx, sideKeys), TopPreds(e, cx, sideKeys))
  {
    if e.BinaryExpr? && e.op.And? {
      TopTouchedCovers(e.left, cx, sideKeys);
      TopTouchedCovers(e.right, cx, sideKeys);
      CoversConcat(TopTouched(e.left, cx, sideKeys), TopPreds(e.left, cx, sideKeys),
                   TopTouched(e.right, cx, sideKeys), TopPreds(e.right, cx, sideKeys));
    } else if sideKeys && TupleMembers(e, cx).Some? {
      MemberColumnsCover(TupleMembers(e, cx).value);
    } else if Translate(e, cx, sideKeys).Some? {
      ReadsOnlyTouched(e, cx, Physical(sideKeys));
    }
  }

  lemma {:induction false} RuntimeTouchedCovers(exprs: seq<Expr>, cx: Context, sideKeys: bool)
    ensures Covers(RuntimeTouched(exprs, cx, sideKeys), RuntimePreds(exprs, cx, sideKeys))
  {
    if exprs != [] {
      var init, e := exprs[..|exprs| - 1], exprs[|exprs| - 1];
      RuntimeTouchedCovers(init, cx, sideKeys);
      TopTouchedCovers(e, cx, sideKeys);
      CoversConcat(RuntimeTouched(init, cx, sideKeys), RuntimePreds(init, cx, sideKeys),
                   TopTouched(e, cx, sideKeys), TopPreds(e, cx, sideKeys));
    }
  }

  lemma {:induction false} EncodeAllRecorded(ps: seq<Pred>, remote: Schema, c: nat, k: nat, touched: seq<nat>, i: nat)
    requires AllFitIn(ps, remote) && Covers(touched, ps) && i < |ps|
    ensures Records(AddAll([], touched), EncodeAll(ps, remote, c, k)[i])
  {
    var init, last := ps[..|ps| - 1], ps[|ps| - 1];
    if i < |init| {
      assert Covers(touched, init);
      EncodeAllRecorded(init, remote, c, k, touched, i);
    } else {
      EncodeColumns(last, remote, c + |AllConstants(init)|, k + |AllKeys(init, remote)|);
      AddAllExtends([], touched);
    }
  }

  // The columns of a query pushdown, of a runtime snapshot and of a delta.
  lemma SerializedRecordsColumns(query: seq<Expr>, schema: Schema, engine: Engine)
    ensures ColumnsRecorded(Serialized(query, schema, engine))
  {
    var cx := Local(schema, engine);
    QueryPredsFit(query, cx);
    QueryTouchedCovers(query, cx);
    SnapshotRecordsColumns(QueryPreds(query, cx), QueryTouched(query, cx), schema, Query);
  }

  lemma RuntimeRecordsColumns(runtime: seq<Expr>, cx: Context, sideKeys: bool)
    ensures AllFitIn(RuntimePreds(runtime, cx, sideKeys), cx.remote)
    ensures ColumnsRecorded(SnapshotOf(RuntimePreds(runtime, cx, sideKeys), RuntimeTouched(runtime, cx, sideKeys), cx.remote, Join))
  {
    RuntimePredsFit(runtime, cx, sideKeys);
    RuntimeTouchedCovers(runtime, cx, sideKeys);
    SnapshotRecordsColumns(RuntimePreds(runtime, cx, sideKeys), RuntimeTouched(runtime, cx, sideKeys), cx.remote, Join);
  }

  lemma SnapshotRecordsColumns(ps: seq<Pred>, touched: seq<nat>, remote: Schema, source: Source)
    requires AllFitIn(ps, remote) && Covers(touched, ps)
    ensures ColumnsRecorded(SnapshotOf(ps, touched, remote, source))
  {
    forall i | 0 <= i < |ps|
      ensures Records(AddAll([], touched), EncodeAll(ps, remote, 0, 0)[i])
    {
      EncodeAllRecorded(ps, remote, 0, 0, touched, i);
    }
  }

  lemma DeltaRecordsColumns(runtime: seq<Expr>, cx: Context, revision: nat, previous: nat)
    ensures AllFitIn(RuntimePreds(runtime, cx, false), cx.remote)
    ensures var ps, columns := RuntimePreds(runtime, cx, false), AddAll([], RuntimeTouched(runtime, cx, false));
      ColumnsRecorded(DeltaOf(EncodeAll(ps, cx.remote, 0, 0), AllConstants(ps), columns, revision, previous))
  {
    var ps := RuntimePreds(runtime, cx, false);
    RuntimePredsFit(runtime, cx, false);
    RuntimeTouchedCovers(runtime, cx, false);
    forall i | 0 <= i < |ps|
      ensures Records(AddAll([], RuntimeTouched(runtime, cx, false)), EncodeAll(ps, cx.remote, 0, 0)[i])
    {
      EncodeAllRecorded(ps, cx.remote, 0, 0, RuntimeTouched(runtime, cx, false), i);
    }
  }

  lemma {:induction false} ShiftKeepsColumns(s: Spec, c: nat, k: nat)
    ensures SpecColumns(Shift(s, c, k)) == SpecColumns(s)
  {
    if s.JunctionSpec? {
      ShiftKeepsColumns(s.left, c, k);
      ShiftKeepsColumns(s.right, c, k);
    }
  }

  // Merging loses no column.
  lemma MergeRecordsColumns(l: Pushdown, r: Pushdown)
    requires ColumnsRecorded(l) && ColumnsRecorded(r) && Merged(l, r).Ok?
    ensures ColumnsRecorded(Merged(l, r).value)
  {
    if l.blob.Some? && r.blob.Some? {
      var a, b, m := l.blob.value, r.blob.value, Merged(l, r).value;
      AddAllExtends(l.columns, r.columns);
      forall i | 0 <= i < |m.blob.value.predicates|
        ensures Records(m.columns, m.blob.value.predicates[i].spec)
      {
        if i < |a.predicates| {
          assert Records(l.columns, a.predicates[i].spec);
        } else {
          assert Records(r.columns, b.predicates[i - |a.predicates|].spec);
          ShiftKeepsColumns(b.predicates[i - |a.predicates|].spec, |a.constants|, |l.joinKeys|);
        }
      }
    }
  }
}
