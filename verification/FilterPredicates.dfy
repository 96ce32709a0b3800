/**
 What a predicate is translated to.

 `Pred` is the translated predicate with its constants in place. `Spec` is the
 wire form: constants are hoisted into numbered slots, and IN sets into numbered
 side batches. `Encode` numbers them; the lemmas say that this loses nothing.
 */
module FilterPredicates {
  import opened Wrappers
  import opened Expressions

  datatype Connective = Conj | Disj

  function Combine(kind: Connective, a: Truth, b: Truth): Truth {
    if kind == Conj then And3(a, b) else Or3(a, b)
  }

  datatype Pred =
    | Cmp(op: Comparison, column: nat, value: Scalar)
    | NullCheck(column: nat, negated: bool)
    | Member(column: nat, values: seq<Scalar>)
    | Junction(kind: Connective, left: Pred, right: Pred)

  /** A column by name and by position in the worker's bind schema. */
  datatype ColumnRef = ColumnRef(index: nat, name: string)

  datatype Spec =
    | ComparisonSpec(op: Comparison, column: ColumnRef, valueRef: nat)
    | IsNullSpec(column: ColumnRef, negated: bool)
    | InSpec(column: ColumnRef, batchIndex: nat)
    | JunctionSpec(kind: Connective, left: Spec, right: Spec)

  /** A side batch: one named column of IN values. */
  datatype JoinKeys = JoinKeys(column: string, values: seq<Scalar>)

  function Columns(p: Pred): set<nat> {
    match p
    case Cmp(_, column, _) => {column}
    case NullCheck(column, _) => {column}
    case Member(column, _) => {column}
    case Junction(_, left, right) => Columns(left) + Columns(right)
  }

  /** Every column lies in a schema of `width` fields. */
  predicate Fits(p: Pred, width: nat) {
    match p
    case Cmp(_, column, _) => column < width
    case NullCheck(column, _) => column < width
    case Member(column, _) => column < width
    case Junction(_, left, right) => Fits(left, width) && Fits(right, width)
  }

  predicate ContainsMember(p: Pred) {
    match p
    case Member(_, _) => true
    case Junction(_, left, right) => ContainsMember(left) || ContainsMember(right)
    case _ => false
  }

  /** No IN set occurs below an OR. */
  predicate NoMemberUnderOr(p: Pred) {
    match p
    case Junction(Conj, left, right) => NoMemberUnderOr(left) && NoMemberUnderOr(right)
    case Junction(Disj, left, right) => !ContainsMember(left) && !ContainsMember(right)
    case _ => true
  }

  function EvalPred(p: Pred, row: Row): Truth
    requires Fits(p, |row|)
  {
    match p
    case Cmp(op, column, value) => CompareScalars(op, row[column], value)
    case NullCheck(column, negated) => if row[column].datum.None? != negated then True else False
    case Member(column, values) => InTruth(row[column], values)
    case Junction(kind, left, right) => Combine(kind, EvalPred(left, row), EvalPred(right, row))
  }

  // ---------------------------------------------------------------------
  // Numbering

  function Constants(p: Pred): seq<Scalar> {
    match p
    case Cmp(_, _, value) => [value]
    case Junction(_, left, right) => Constants(left) + Constants(right)
    case _ => []
  }

  function Keys(p: Pred, remote: Schema): seq<JoinKeys>
    requires Fits(p, |remote|)
  {
    match p
    case Member(column, values) => [JoinKeys(remote[column].name, values)]
    case Junction(_, left, right) => Keys(left, remote) + Keys(right, remote)
    case _ => []
  }

  /** The wire form whose constants start at slot `c` and whose side batches start at `k`. */
  function Encode(p: Pred, remote: Schema, c: nat, k: nat): Spec
    requires Fits(p, |remote|)
  {
    match p
    case Cmp(op, column, _) => ComparisonSpec(op, ColumnRef(column, remote[column].name), c)
    case NullCheck(column, negated) => IsNullSpec(ColumnRef(column, remote[column].name), negated)
    case Member(column, _) => InSpec(ColumnRef(column, remote[column].name), k)
    case Junction(kind, left, right) =>
      JunctionSpec(kind, Encode(left, remote, c, k), Encode(right, remote, c + |Constants(left)|, k + |Keys(left, remote)|))
  }

  /** The slots and side batches a spec refers to, in order of occurrence. */
  function ValueRefs(s: Spec): seq<nat> {
    match s
    case ComparisonSpec(_, _, valueRef) => [valueRef]
    case JunctionSpec(_, left, right) => ValueRefs(left) + ValueRefs(right)
    case _ => []
  }

  function BatchRefs(s: Spec): seq<nat> {
    match s
    case InSpec(_, batchIndex) => [batchIndex]
    case JunctionSpec(_, left, right) => BatchRefs(left) + BatchRefs(right)
    case _ => []
  }

  function SpecColumns(s: Spec): set<ColumnRef> {
    match s
    case ComparisonSpec(_, column, _) => {column}
    case IsNullSpec(column, _) => {column}
    case InSpec(column, _) => {column}
    case JunctionSpec(_, left, right) => SpecColumns(left) + SpecColumns(right)
  }

  function Run(start: nat, length: nat): (r: seq<nat>)
    ensures |r| == length && forall i :: 0 <= i < length ==> r[i] == start + i
  {
    seq(length, i requires 0 <= i => start + i)
  }

  lemma RunConcat(start: nat, a: nat, b: nat)
    ensures Run(start, a) + Run(start + a, b) == Run(start, a + b)
  {}

  // A spec uses exactly the slots and batches it was given, each once and in order.
  lemma {:induction false} EncodeUsesEachOnce(p: Pred, remote: Schema, c: nat, k: nat)
    requires Fits(p, |remote|)
    ensures ValueRefs(Encode(p, remote, c, k)) == Run(c, |Constants(p)|)
    ensures BatchRefs(Encode(p, remote, c, k)) == Run(k, |Keys(p, remote)|)
  {
    match p
    case Junction(_, left, right) =>
      EncodeUsesEachOnce(left, remote, c, k);
      EncodeUsesEachOnce(right, remote, c + |Constants(left)|, k + |Keys(left, remote)|);
      RunConcat(c, |Constants(left)|, |Constants(right)|);
      RunConcat(k, |Keys(left, remote)|, |Keys(right, remote)|);
    case _ =>
  }

  // Every column reference names the field at its position.
  lemma {:induction false} EncodeColumns(p: Pred, remote: Schema, c: nat, k: nat)
    requires Fits(p, |remote|)
    ensures forall r :: r in SpecColumns(Encode(p, remote, c, k)) ==>
      r.index in Columns(p) && r.index < |remote| && r.name == remote[r.index].name
  {
    match p
    case Junction(_, left, right) =>
      EncodeColumns(left, remote, c, k);
      EncodeColumns(right, remote, c + |Constants(left)|, k + |Keys(left, remote)|);
    case _ =>
  }

  // ---------------------------------------------------------------------
  // The worker's evaluation

  ghost predicate DistinctNames(schema: Schema) {
    forall i, j :: 0 <= i < j < |schema| ==> schema[i].name != schema[j].name
  }

  /**
   The worker's verdict. It finds columns by name in its own schema; a reference
   to a missing column, constant or side batch has no verdict.
   */
  function EvalSpec(s: Spec, constants: seq<Scalar>, keys: seq<JoinKeys>, remote: Schema, row: Row): Option<Truth>
    requires |row| == |remote|
  {
    match s
    case ComparisonSpec(op, column, valueRef) =>
      var index := IndexOf(remote, column.name);
      if index.None? || |constants| <= valueRef then None
      else Some(CompareScalars(op, row[index.value], constants[valueRef]))
    case IsNullSpec(column, negated) =>
      var index := IndexOf(remote, column.name);
      if index.None? then None
      else Some(if row[index.value].datum.None? != negated then True else False)
    case InSpec(column, batchIndex) =>
      var index := IndexOf(remote, column.name);
      if index.None? || |keys| <= batchIndex then None
      else Some(InTruth(row[index.value], keys[batchIndex].values))
    case JunctionSpec(kind, left, right) =>
      var l := EvalSpec(left, constants, keys, remote, row);
      var r := EvalSpec(right, constants, keys, remote, row);
      if l.None? || r.None? then None else Some(Combine(kind, l.value, r.value))
  }

  lemma IndexOfDistinct(schema: Schema, i: nat)
    requires DistinctNames(schema) && i < |schema|
    ensures IndexOf(schema, schema[i].name) == Some(i)
  {
  }

  /** `part` stands in `s` at position `start`. */
  ghost predicate StandsAt<T>(part: seq<T>, s: seq<T>, start: nat) {
    start + |part| <= |s| && forall i :: 0 <= i < |part| ==> part[i] == s[start + i]
  }

  lemma StandsAtSplit<T>(a: seq<T>, b: seq<T>, s: seq<T>, start: nat)
    requires StandsAt(a + b, s, start)
    ensures StandsAt(a, s, start) && StandsAt(b, s, start + |a|)
  {
    assert forall i :: 0 <= i < |a| ==> a[i] == (a + b)[i];
    assert forall i :: 0 <= i < |b| ==> b[i] == (a + b)[|a| + i];
  }

  // ----- names from one schema, read in another

  /** Stands for a column that the worker does not have. */
  const NOTHING: Scalar := Scalar(Null, None)

  /** Where the worker finds the column that `schema` has at position `c`. */
  function FoundAt(schema: Schema, remote: Schema, c: nat): Option<nat>
    requires c < |schema|
  {
    IndexOf(remote, schema[c].name)
  }

  /** The worker's row as it appears to a predicate whose columns are named as in `schema`. */
  function Reread(row: Row, schema: Schema, remote: Schema): (r: Row)
    requires |row| == |remote|
    ensures |r| == |schema|
  {
    seq(|schema|, c requires 0 <= c < |schema| =>
      if FoundAt(schema, remote, c).Some? then row[FoundAt(schema, remote, c).value] else NOTHING)
  }

  /** The worker has a column of each name that the predicate uses. */
  predicate NamesPresent(p: Pred, schema: Schema, remote: Schema)
    requires Fits(p, |schema|)
  {
    match p
    case Cmp(_, column, _) => FoundAt(schema, remote, column).Some?
    case NullCheck(column, _) => FoundAt(schema, remote, column).Some?
    case Member(column, _) => FoundAt(schema, remote, column).Some?
    case Junction(_, left, right) => NamesPresent(left, schema, remote) && NamesPresent(right, schema, remote)
  }

  /** Each column that the predicate reads has the same name at the same position in both schemas. */
  predicate KeepsNames(p: Pred, schema: Schema, remote: Schema)
    requires Fits(p, |schema|)
  {
    forall c :: c in Columns(p) ==> c < |schema| && c < |remote| && schema[c].name == remote[c].name
  }

  // What the worker evaluates: the predicate, on the row its names pick out.
  lemma {:induction false} EncodeReread(p: Pred, schema: Schema, remote: Schema, c: nat, k: nat,
                                        constants: seq<Scalar>, keys: seq<JoinKeys>, row: Row)
    requires |row| == |remote| && Fits(p, |schema|)
    requires StandsAt(Constants(p), constants, c) && StandsAt(Keys(p, schema), keys, k)
    ensures EvalSpec(Encode(p, schema, c, k), constants, keys, remote, row)
         == if NamesPresent(p, schema, remote) then Some(EvalPred(p, Reread(row, schema, remote))) else None
  {
    match p
    case Cmp(_, column, value) =>
      assert Constants(p)[0] == constants[c];
    case NullCheck(column, _) =>
    case Member(column, _) =>
      assert Keys(p, schema)[0] == keys[k];
    case Junction(_, left, right) =>
      StandsAtSplit(Constants(left), Constants(right), constants, c);
      StandsAtSplit(Keys(left, schema), Keys(right, schema), keys, k);
      EncodeReread(left, schema, remote, c, k, constants, keys, row);
      EncodeReread(right, schema, remote, c + |Constants(left)|, k + |Keys(left, schema)|, constants, keys, row);
  }

  // A predicate whose columns keep their names is read as it was meant.
  lemma {:induction false} KeptNamesReadRight(p: Pred, schema: Schema, remote: Schema, row: Row, workerRow: Row)
    requires Fits(p, |schema|) && |row| == |schema| && |workerRow| == |remote| && DistinctNames(remote)
    requires KeepsNames(p, schema, remote) && forall c :: c in Columns(p) && c < |remote| ==> workerRow[c] == row[c]
    ensures NamesPresent(p, schema, remote)
    ensures EvalPred(p, Reread(workerRow, schema, remote)) == EvalPred(p, row)
  {
    match p
    case Junction(_, left, right) =>
      KeptNamesReadRight(left, schema, remote, row, workerRow);
      KeptNamesReadRight(right, schema, remote, row, workerRow);
    case _ =>
      assert p.column in Columns(p);
      IndexOfDistinct(remote, p.column);
  }

  // Hoisting constants and IN sets preserves the meaning, wherever the numbering starts.
  lemma EncodeMeaning(p: Pred, remote: Schema, c: nat, k: nat, constants: seq<Scalar>, keys: seq<JoinKeys>, row: Row)
    requires |row| == |remote| && DistinctNames(remote) && Fits(p, |remote|)
    requires StandsAt(Constants(p), constants, c) && StandsAt(Keys(p, remote), keys, k)
    ensures EvalSpec(Encode(p, remote, c, k), constants, keys, remote, row) == Some(EvalPred(p, row))
  {
    EncodeReread(p, remote, remote, c, k, constants, keys, row);
    ColumnsFit(p, |remote|);
    KeptNamesReadRight(p, remote, remote, row, row);
  }

  lemma {:induction false} ColumnsFit(p: Pred, width: nat)
    requires Fits(p, width)
    ensures forall c :: c in Columns(p) ==> c < width
  {
    if p.Junction? {
      ColumnsFit(p.left, width);
      ColumnsFit(p.right, width);
    }
  }

  // ---------------------------------------------------------------------
  // Renumbering

  /** Move all constant slots up by `c` and all side batches up by `k`. */
  function Shift(s: Spec, c: nat, k: nat): Spec {
    match s
    case ComparisonSpec(op, column, valueRef) => ComparisonSpec(op, column, valueRef + c)
    case IsNullSpec(column, negated) => s
    case InSpec(column, batchIndex) => InSpec(column, batchIndex + k)
    case JunctionSpec(kind, left, right) => JunctionSpec(kind, Shift(left, c, k), Shift(right, c, k))
  }

  lemma {:induction false} ShiftTwice(s: Spec, c: nat, k: nat, c': nat, k': nat)
    ensures Shift(Shift(s, c, k), c', k') == Shift(s, c + c', k + k')
  {
    match s
    case JunctionSpec(_, left, right) =>
      ShiftTwice(left, c, k, c', k');
      ShiftTwice(right, c, k, c', k');
    case _ =>
  }

  // A shifted spec behind longer lists means what the spec meant before.
  lemma {:induction false} ShiftMeaning(s: Spec, constants: seq<Scalar>, keys: seq<JoinKeys>,
                                        before: seq<Scalar>, keysBefore: seq<JoinKeys>, remote: Schema, row: Row)
    requires |row| == |remote|
    ensures EvalSpec(Shift(s, |before|, |keysBefore|), before + constants, keysBefore + keys, remote, row)
            == EvalSpec(s, constants, keys, remote, row)
  {
    match s
    case JunctionSpec(_, left, right) =>
      ShiftMeaning(left, constants, keys, before, keysBefore, remote, row);
      ShiftMeaning(right, constants, keys, before, keysBefore, remote, row);
    case _ =>
  }

  /** All references are in bounds. */
  predicate InBounds(s: Spec, c: nat, k: nat) {
    match s
    case ComparisonSpec(_, _, valueRef) => valueRef < c
    case IsNullSpec(_, _) => true
    case InSpec(_, batchIndex) => batchIndex < k
    case JunctionSpec(_, left, right) => InBounds(left, c, k) && InBounds(right, c, k)
  }

  // Appending constants and batches does not disturb a spec that is in bounds.
  lemma {:induction false} ExtendMeaning(s: Spec, constants: seq<Scalar>, keys: seq<JoinKeys>,
                                         more: seq<Scalar>, moreKeys: seq<JoinKeys>, remote: Schema, row: Row)
    requires |row| == |remote| && InBounds(s, |constants|, |keys|)
    ensures EvalSpec(s, constants + more, keys + moreKeys, remote, row) == EvalSpec(s, constants, keys, remote, row)
  {
    match s
    case JunctionSpec(_, left, right) =>
      ExtendMeaning(left, constants, keys, more, moreKeys, remote, row);
      ExtendMeaning(right, constants, keys, more, moreKeys, remote, row);
    case _ =>
  }

  lemma {:induction false} ShiftInBounds(s: Spec, c: nat, k: nat, c': nat, k': nat)
    ensures InBounds(Shift(s, c', k'), c + c', k + k') <==> InBounds(s, c, k)
  {
    match s
    case JunctionSpec(_, left, right) =>
      ShiftInBounds(left, c, k, c', k');
      ShiftInBounds(right, c, k, c', k');
    case _ =>
  }

  lemma {:induction false} InBoundsMonotone(s: Spec, c: nat, k: nat, c': nat, k': nat)
    requires InBounds(s, c, k) && c <= c' && k <= k'
    ensures InBounds(s, c', k')
  {
    match s
    case JunctionSpec(_, left, right) =>
      InBoundsMonotone(left, c, k, c', k');
      InBoundsMonotone(right, c, k, c', k');
    case _ =>
  }

  lemma {:induction false} EncodeInBounds(p: Pred, remote: Schema, c: nat, k: nat)
    requires Fits(p, |remote|)
    ensures InBounds(Encode(p, remote, c, k), c + |Constants(p)|, k + |Keys(p, remote)|)
  {
    match p
    case Junction(_, left, right) =>
      var c', k' := c + |Constants(left)|, k + |Keys(left, remote)|;
      EncodeInBounds(left, remote, c, k);
      EncodeInBounds(right, remote, c', k');
      InBoundsMonotone(Encode(left, remote, c, k), c', k', c' + |Constants(right)|, k' + |Keys(right, remote)|);
    case _ =>
  }
}
