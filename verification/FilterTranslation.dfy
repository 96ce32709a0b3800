/**
 Which predicates can be pushed down, and as what.

 `Translate` is the specification the filter builder is proved against. It says
 which conjuncts may be dropped (those of an AND) and which may not (those of an
 OR); the lemmas below show that dropping is sound and when nothing was lost.
 */
module FilterTranslation {
  import opened Wrappers
  import opened Expressions
  import opened FilterPredicates

  /** The engine's table schema, the worker's bind schema, and the engine's primitives. */
  datatype Context = Context(schema: Schema, remote: Schema, engine: Engine)

  // ---------------------------------------------------------------------
  // Constants

  predicate IntegerType(ty: DataType) {
    match ty
    case Int8 | Int16 | Int32 | Int64 | UInt8 | UInt16 | UInt32 | UInt64 => true
    case _ => false
  }

  predicate SupportedType(ty: DataType) {
    match ty
    case Null | Struct(_) | Nested => false
    case Dictionary(key, value) => IntegerType(key) && !value.Dictionary? && SupportedType(value)
    case _ => true
  }

  /** The value may travel as a typed constant: it is not null and its type is supported. */
  predicate Pushable(v: Scalar) {
    v.datum.Some? && SupportedType(v.ty)
  }

  // ---------------------------------------------------------------------
  // Operands

  /** The column an expression denotes; only a cast to the column's own type is seen through. */
  function ColumnName(e: Expr, schema: Schema): Option<string> {
    match e
    case Column(name) => Some(name)
    case Cast(inner, ty) =>
      var name := ColumnName(inner, schema);
      if name.None? then None
      else
        var index := IndexOf(schema, name.value);
        if index.Some? && schema[index.value].ty == ty then name else None
    case _ => None
  }

  function LiteralOf(e: Expr, engine: Engine): Option<Scalar> {
    match e
    case Literal(v) => Some(v)
    case Cast(inner, ty) =>
      var v := LiteralOf(inner, engine);
      if v.None? then None else engine.cast(v.value, ty)
    case _ => None
  }

  function RemoteColumn(name: string, cx: Context): Option<nat> {
    var index := IndexOf(cx.schema, name);
    if index.Some? && index.value < |cx.remote| then index else None
  }

  /** Mirror a comparison so that its operands can be exchanged. */
  function Flip(op: Operator): Option<Operator> {
    match op
    case Compare(Eq) => Some(Compare(Eq))
    case Compare(NotEq) => Some(Compare(NotEq))
    case Compare(Lt) => Some(Compare(Gt))
    case Compare(LtEq) => Some(Compare(GtEq))
    case Compare(Gt) => Some(Compare(Lt))
    case Compare(GtEq) => Some(Compare(LtEq))
    case _ => None
  }

  datatype Term = Term(name: string, value: Scalar, op: Operator)

  /** `column op literal`, or `literal op column` turned round. */
  function ColumnAgainstLiteral(left: Expr, op: Operator, right: Expr, cx: Context): Option<Term> {
    if ColumnName(left, cx.schema).Some? && LiteralOf(right, cx.engine).Some? then
      Some(Term(ColumnName(left, cx.schema).value, LiteralOf(right, cx.engine).value, op))
    else if LiteralOf(left, cx.engine).Some? && ColumnName(right, cx.schema).Some? && Flip(op).Some? then
      Some(Term(ColumnName(right, cx.schema).value, LiteralOf(left, cx.engine).value, Flip(op).value))
    else None
  }

  /** The terms of a disjunction that consists of `column = literal` alone. */
  function CollectEqualities(e: Expr, cx: Context): Option<seq<Term>> {
    if !e.BinaryExpr? then None
    else if e.op.Or? then
      var l := CollectEqualities(e.left, cx);
      var r := CollectEqualities(e.right, cx);
      if l.None? || r.None? then None else Some(l.value + r.value)
    else if e.op == Compare(Eq) then
      var term := ColumnAgainstLiteral(e.left, e.op, e.right, cx);
      if term.None? then None else Some([term.value])
    else None
  }

  predicate SameColumn(terms: seq<Term>) {
    terms != [] && forall i :: 0 <= i < |terms| ==> terms[i].name == terms[0].name
  }

  function Values(terms: seq<Term>): (r: seq<Scalar>)
    ensures |r| == |terms| && forall i :: 0 <= i < |r| ==> r[i] == terms[i].value
  {
    seq(|terms|, i requires 0 <= i < |terms| => terms[i].value)
  }

  datatype InSet = InSet(name: string, values: seq<Scalar>)

  /** An OR of equalities on one column, as a membership. */
  function OrEqualities(left: Expr, right: Expr, cx: Context): Option<InSet> {
    var l := CollectEqualities(left, cx);
    var r := CollectEqualities(right, cx);
    if l.None? || r.None? || !SameColumn(l.value + r.value) then None
    else Some(InSet((l.value + r.value)[0].name, Values(l.value + r.value)))
  }

  function LiteralsOf(es: seq<Expr>, engine: Engine): (r: Option<seq<Scalar>>)
    ensures r.Some? ==> |r.value| == |es| && forall i :: 0 <= i < |es| ==> LiteralOf(es[i], engine) == Some(r.value[i])
    ensures (forall i :: 0 <= i < |es| ==> LiteralOf(es[i], engine).Some?) ==> r.Some?
  {
    if es == [] then Some([])
    else
      var init := LiteralsOf(es[..|es| - 1], engine);
      var last := LiteralOf(es[|es| - 1], engine);
      if init.None? || last.None? then None else Some(init.value + [last.value])
  }

  predicate AllPushable(values: seq<Scalar>) {
    values != [] && forall i :: 0 <= i < |values| ==> Pushable(values[i])
  }

  /** One Arrow array can hold the values only if their types agree. */
  predicate OneType(values: seq<Scalar>) {
    forall i :: 0 <= i < |values| ==> values[i].ty == values[0].ty
  }

  function Membership(inSet: InSet, cx: Context): Option<Pred> {
    if AllPushable(inSet.values) && RemoteColumn(inSet.name, cx).Some? && OneType(inSet.values)
    then Some(Member(RemoteColumn(inSet.name, cx).value, inSet.values))
    else None
  }

  // ---------------------------------------------------------------------
  // Translation

  /**
   The predicate that is pushed down for `e`, if any. Without `sideKeys` there is
   no channel for IN sets.
   */
  function Translate(e: Expr, cx: Context, sideKeys: bool): (r: Option<Pred>)
    ensures r.Some? ==> Fits(r.value, |cx.schema|) && Fits(r.value, |cx.remote|)
  {
    match e
    case BinaryExpr(left, op, right) =>
      if op.And? then
        var l := Translate(left, cx, sideKeys);
        var r := Translate(right, cx, sideKeys);
        if l.Some? && r.Some? then Some(Junction(Conj, l.value, r.value))
        else if l.Some? then l else r
      else if op.Or? then
        if sideKeys && OrEqualities(left, right, cx).Some? then Membership(OrEqualities(left, right, cx).value, cx)
        else
          var l := Translate(left, cx, sideKeys);
          var r := Translate(right, cx, sideKeys);
          if l.Some? && r.Some? && !ContainsMember(l.value) && !ContainsMember(r.value)
          then Some(Junction(Disj, l.value, r.value))
          else None
      else
        var term := ColumnAgainstLiteral(left, op, right, cx);
        if term.Some? && RemoteColumn(term.value.name, cx).Some? && term.value.op.Compare? && Pushable(term.value.value)
        then Some(Cmp(term.value.op.cmp, RemoteColumn(term.value.name, cx).value, term.value.value))
        else None
    case IsNull(inner) =>
      var column := ColumnOf(inner, cx);
      if column.Some? then Some(NullCheck(column.value, false)) else None
    case IsNotNull(inner) =>
      var column := ColumnOf(inner, cx);
      if column.Some? then Some(NullCheck(column.value, true)) else None
    case InList(inner, list, negated) =>
      if sideKeys && !negated && ColumnName(inner, cx.schema).Some? && LiteralsOf(list, cx.engine).Some?
      then Membership(InSet(ColumnName(inner, cx.schema).value, LiteralsOf(list, cx.engine).value), cx)
      else None
    case _ => None
  }

  function ColumnOf(e: Expr, cx: Context): Option<nat> {
    var name := ColumnName(e, cx.schema);
    if name.Some? then RemoteColumn(name.value, cx) else None
  }

  /** No side of an AND was dropped on the way. */
  predicate NothingDropped(e: Expr, cx: Context, sideKeys: bool) {
    if !e.BinaryExpr? then true
    else if e.op.And? then
      && Translate(e.left, cx, sideKeys).Some? && Translate(e.right, cx, sideKeys).Some?
      && NothingDropped(e.left, cx, sideKeys) && NothingDropped(e.right, cx, sideKeys)
    else if e.op.Or? then
      (sideKeys && OrEqualities(e.left, e.right, cx).Some?)
      || (NothingDropped(e.left, cx, sideKeys) && NothingDropped(e.right, cx, sideKeys))
    else true
  }

  /** The adapter's test for offering a predicate at all. */
  predicate IsPushable(e: Expr, schema: Schema, engine: Engine) {
    Translate(e, Context(schema, schema, engine), true).Some?
  }

  // ---------------------------------------------------------------------
  // Meaning of the operands

  /** A row of the table, with the engine's no-op casts. */
  ghost predicate IsRow(row: Row, cx: Context) {
    Conforms(row, cx.schema) && NoOpCasts(cx.engine)
  }

  lemma {:induction false} ColumnNameMeaning(e: Expr, cx: Context, row: Row, name: string, i: nat)
    requires IsRow(row, cx) && ColumnName(e, cx.schema) == Some(name) && IndexOf(cx.schema, name) == Some(i)
    ensures Eval(e, cx.schema, row, cx.engine) == Some(row[i])
  {
    if e.Cast? {
      ColumnNameMeaning(e.inner, cx, row, name, i);
      assert cx.engine.cast(row[i], row[i].ty) == Some(row[i]);
    }
  }

  lemma {:induction false} LiteralMeaning(e: Expr, cx: Context, row: Row)
    requires |row| == |cx.schema| && LiteralOf(e, cx.engine).Some?
    ensures Eval(e, cx.schema, row, cx.engine) == LiteralOf(e, cx.engine)
  {
    if e.Cast? {
      LiteralMeaning(e.inner, cx, row);
    }
  }

  // Exchanging the operands of a comparison flips the operator.
  lemma FlipMeaning(op: Comparison, a: Scalar, b: Scalar)
    ensures Flip(Compare(op)).Some? && Flip(Compare(op)).value.Compare?
    ensures CompareScalars(Flip(Compare(op)).value.cmp, b, a) == CompareScalars(op, a, b)
  {}

  lemma {:induction false} TermMeaning(left: Expr, op: Comparison, right: Expr, cx: Context, row: Row, i: nat)
    requires IsRow(row, cx) && ColumnAgainstLiteral(left, Compare(op), right, cx).Some?
    requires IndexOf(cx.schema, ColumnAgainstLiteral(left, Compare(op), right, cx).value.name) == Some(i)
    ensures var term := ColumnAgainstLiteral(left, Compare(op), right, cx).value;
      && term.op.Compare?
      && Eval(BinaryExpr(left, Compare(op), right), cx.schema, row, cx.engine)
         == Some(FromTruth(CompareScalars(term.op.cmp, row[i], term.value)))
  {
    var name := ColumnAgainstLiteral(left, Compare(op), right, cx).value.name;
    if ColumnName(left, cx.schema).Some? && LiteralOf(right, cx.engine).Some? {
      ColumnNameMeaning(left, cx, row, name, i);
      LiteralMeaning(right, cx, row);
    } else {
      LiteralMeaning(left, cx, row);
      ColumnNameMeaning(right, cx, row, name, i);
      FlipMeaning(op, LiteralOf(left, cx.engine).value, row[i]);
    }
  }

  /** Every term is about the column at position `i`. */
  ghost predicate AllAbout(terms: seq<Term>, cx: Context, i: nat) {
    forall k :: 0 <= k < |terms| ==> IndexOf(cx.schema, terms[k].name) == Some(i)
  }

  ghost predicate EvaluatesTo(e: Expr, cx: Context, row: Row, t: Truth)
    requires |row| == |cx.schema|
  {
    var v := Eval(e, cx.schema, row, cx.engine);
    v.Some? && TruthOf(v.value) == t
  }

  // A disjunction of equalities on one column is SQL's IN.
  lemma {:induction false} EqualitiesAreIn(e: Expr, cx: Context, row: Row, i: nat)
    requires IsRow(row, cx) && i < |row| && CollectEqualities(e, cx).Some?
    requires AllAbout(CollectEqualities(e, cx).value, cx, i)
    ensures EvaluatesTo(e, cx, row, InTruth(row[i], Values(CollectEqualities(e, cx).value)))
  {
    if e.op.Or? {
      var l, r := CollectEqualities(e.left, cx).value, CollectEqualities(e.right, cx).value;
      AllAboutSplit(l, r, cx, i);
      EqualitiesAreIn(e.left, cx, row, i);
      EqualitiesAreIn(e.right, cx, row, i);
      OrOfIns(row[i], l, r);
    } else {
      var term := ColumnAgainstLiteral(e.left, e.op, e.right, cx).value;
      assert CollectEqualities(e, cx).value[0] == term;
      TermMeaning(e.left, Eq, e.right, cx, row, i);
      InOne(row[i], Values([term]));
    }
  }

  lemma AllAboutSplit(l: seq<Term>, r: seq<Term>, cx: Context, i: nat)
    requires AllAbout(l + r, cx, i)
    ensures AllAbout(l, cx, i) && AllAbout(r, cx, i)
  {
    assert forall k :: 0 <= k < |l| ==> l[k] == (l + r)[k];
    assert forall k :: 0 <= k < |r| ==> r[k] == (l + r)[|l| + k];
  }

  lemma OrOfIns(v: Scalar, l: seq<Term>, r: seq<Term>)
    ensures InTruth(v, Values(l + r)) == Or3(InTruth(v, Values(l)), InTruth(v, Values(r)))
  {
    assert Values(l + r) == Values(l) + Values(r);
    InTruthConcat(v, Values(l), Values(r));
  }

  lemma InOne(v: Scalar, values: seq<Scalar>)
    requires |values| == 1
    ensures InTruth(v, values) == CompareScalars(Eq, v, values[0])
  {
  }

  lemma {:induction false} OrEqualitiesMeaning(left: Expr, right: Expr, cx: Context, row: Row, i: nat)
    requires IsRow(row, cx) && OrEqualities(left, right, cx).Some?
    requires IndexOf(cx.schema, OrEqualities(left, right, cx).value.name) == Some(i)
    ensures var v := Eval(BinaryExpr(left, Or, right), cx.schema, row, cx.engine);
      v.Some? && TruthOf(v.value) == InTruth(row[i], OrEqualities(left, right, cx).value.values)
  {
    var e := BinaryExpr(left, Or, right);
    var terms := CollectEqualities(e, cx).value;
    assert forall k :: 0 <= k < |terms| ==> terms[k].name == terms[0].name;
    assert AllAbout(terms, cx, i);
    EqualitiesAreIn(e, cx, row, i);
  }

  lemma {:induction false} LiteralListMeaning(es: seq<Expr>, cx: Context, row: Row)
    requires |row| == |cx.schema| && LiteralsOf(es, cx.engine).Some?
    ensures EvalAll(es, cx.schema, row, cx.engine) == LiteralsOf(es, cx.engine)
  {
    var values := LiteralsOf(es, cx.engine).value;
    if es != [] {
      assert forall i :: 0 <= i < |es| - 1 ==> LiteralOf(es[1..][i], cx.engine) == Some(values[i + 1]);
      var rest := LiteralsOf(es[1..], cx.engine);
      LiteralListMeaning(es[1..], cx, row);
      LiteralMeaning(es[0], cx, row);
      forall i | 0 <= i < |rest.value|
        ensures rest.value[i] == values[i + 1]
      {
        assert LiteralOf(es[1..][i], cx.engine) == LiteralOf(es[i + 1], cx.engine);
      }
      assert values == [values[0]] + rest.value;
    }
  }

  // ---------------------------------------------------------------------
  // Exactness and soundness

  // Comparisons, null tests and value lists are translated exactly.
  lemma LeafIsExact(e: Expr, cx: Context, sideKeys: bool, row: Row)
    requires IsRow(row, cx) && Translate(e, cx, sideKeys).Some? && NothingDropped(e, cx, sideKeys)
    requires !(e.BinaryExpr? && (e.op.And? || e.op.Or?))
    ensures var v := Eval(e, cx.schema, row, cx.engine);
      v.Some? && TruthOf(v.value) == EvalPred(Translate(e, cx, sideKeys).value, row)
  {
    match e
    case BinaryExpr(left, op, right) =>
      var term := ColumnAgainstLiteral(left, op, right, cx).value;
      TermMeaning(left, op.cmp, right, cx, row, RemoteColumn(term.name, cx).value);
    case IsNull(inner) =>
      ColumnNameMeaning(inner, cx, row, ColumnName(inner, cx.schema).value, ColumnOf(inner, cx).value);
    case IsNotNull(inner) =>
      ColumnNameMeaning(inner, cx, row, ColumnName(inner, cx.schema).value, ColumnOf(inner, cx).value);
    case InList(inner, list, _) =>
      var name := ColumnName(inner, cx.schema).value;
      ColumnNameMeaning(inner, cx, row, name, RemoteColumn(name, cx).value);
      LiteralListMeaning(list, cx, row);
  }

  // When nothing was dropped, the pushed predicate has the truth value of the
  // original on every row, and the original cannot raise an error.
  lemma {:induction false} TranslationIsExact(e: Expr, cx: Context, sideKeys: bool, row: Row)
    requires IsRow(row, cx) && Translate(e, cx, sideKeys).Some? && NothingDropped(e, cx, sideKeys)
    ensures var v := Eval(e, cx.schema, row, cx.engine);
      v.Some? && TruthOf(v.value) == EvalPred(Translate(e, cx, sideKeys).value, row)
  {
    if e.BinaryExpr? && e.op.And? {
      TranslationIsExact(e.left, cx, sideKeys, row);
      TranslationIsExact(e.right, cx, sideKeys, row);
    } else if e.BinaryExpr? && e.op.Or? {
      var members := OrEqualities(e.left, e.right, cx);
      if sideKeys && members.Some? {
        OrEqualitiesMeaning(e.left, e.right, cx, row, RemoteColumn(members.value.name, cx).value);
      } else {
        TranslationIsExact(e.left, cx, sideKeys, row);
        TranslationIsExact(e.right, cx, sideKeys, row);
      }
    } else {
      LeafIsExact(e, cx, sideKeys, row);
    }
  }

  // Whatever was dropped, a row that satisfies the original satisfies the pushed
  // predicate.
  lemma {:induction false} TranslationIsSound(e: Expr, cx: Context, sideKeys: bool, row: Row)
    requires IsRow(row, cx) && Translate(e, cx, sideKeys).Some? && Satisfies(e, cx.schema, row, cx.engine)
    ensures EvalPred(Translate(e, cx, sideKeys).value, row) == True
  {
    if e.BinaryExpr? && e.op.And? {
      if Translate(e.left, cx, sideKeys).Some? {
        TranslationIsSound(e.left, cx, sideKeys, row);
      }
      if Translate(e.right, cx, sideKeys).Some? {
        TranslationIsSound(e.right, cx, sideKeys, row);
      }
    } else if e.BinaryExpr? && e.op.Or? && !(sideKeys && OrEqualities(e.left, e.right, cx).Some?) {
      if Satisfies(e.left, cx.schema, row, cx.engine) {
        TranslationIsSound(e.left, cx, sideKeys, row);
      } else {
        TranslationIsSound(e.right, cx, sideKeys, row);
      }
    } else {
      TranslationIsExact(e, cx, sideKeys, row);
    }
  }

  // A membership never ends up below an OR.
  lemma {:induction false} NoMemberBelowOr(e: Expr, cx: Context, sideKeys: bool)
    requires Translate(e, cx, sideKeys).Some?
    ensures NoMemberUnderOr(Translate(e, cx, sideKeys).value)
  {
    if e.BinaryExpr? && e.op.And? {
      if Translate(e.left, cx, sideKeys).Some? {
        NoMemberBelowOr(e.left, cx, sideKeys);
      }
      if Translate(e.right, cx, sideKeys).Some? {
        NoMemberBelowOr(e.right, cx, sideKeys);
      }
    }
  }

  // Being pushable does not make the pushed predicate exact: under an OR, an AND
  // may have lost a side. Here `(a > 1 AND flag) OR a > 9` is pushed as `a > 1 OR a > 9`.
  lemma PushableIsNotExact(engine: Engine)
    requires NoOpCasts(engine)
    ensures exists e, schema, row ::
      && IsRow(row, Context(schema, schema, engine)) && IsPushable(e, schema, engine)
      && EvalPred(Translate(e, Context(schema, schema, engine), true).value, row) == True
      && EvaluatesTo(e, Context(schema, schema, engine), row, False)
  {
    var schema := [Field("a", Int64), Field("flag", Boolean)];
    var cx := Context(schema, schema, engine);
    var row := [Scalar(Int64, Some(Atom(5))), Scalar(Boolean, Some(Atom(0)))];
    LosingSideIsPushed(cx, row);
    AboveNineIsPushed(cx, row);
    var e := BinaryExpr(LosingSide(), Or, AboveNine());
    assert IsRow(row, cx) && IsPushable(e, schema, engine);
  }

  function IntLiteral(n: int): Expr {
    Literal(Scalar(Int64, Some(Atom(n))))
  }

  /** `a > 1 AND flag`: the bare column cannot be pushed. */
  function LosingSide(): Expr {
    BinaryExpr(BinaryExpr(Column("a"), Compare(Gt), IntLiteral(1)), And, Column("flag"))
  }

  /** `a > 9`. */
  function AboveNine(): Expr {
    BinaryExpr(Column("a"), Compare(Gt), IntLiteral(9))
  }

  lemma LosingSideIsPushed(cx: Context, row: Row)
    requires cx.schema == cx.remote == [Field("a", Int64), Field("flag", Boolean)] && IsRow(row, cx)
    requires row[0].datum == Some(Atom(5)) && row[1].datum == Some(Atom(0))
    ensures var e := LosingSide();
      && Translate(e, cx, true).Some? && !ContainsMember(Translate(e, cx, true).value)
      && EvalPred(Translate(e, cx, true).value, row) == True && EvaluatesTo(e, cx, row, False)
      && CollectEqualities(e, cx).None?
  {
    var e := LosingSide();
    assert cx.schema[1..][0] == Field("flag", Boolean);
    assert IndexOf(cx.schema, "a") == Some(0) && IndexOf(cx.schema, "flag") == Some(1);
    assert Translate(e.left, cx, true) == Some(Cmp(Gt, 0, Scalar(Int64, Some(Atom(1)))));
  }

  lemma AboveNineIsPushed(cx: Context, row: Row)
    requires cx.schema == cx.remote == [Field("a", Int64), Field("flag", Boolean)] && IsRow(row, cx)
    requires row[0].datum == Some(Atom(5))
    ensures var e := AboveNine();
      && Translate(e, cx, true).Some? && !ContainsMember(Translate(e, cx, true).value)
      && EvaluatesTo(e, cx, row, False)
  {
    assert IndexOf(cx.schema, "a") == Some(0);
    assert Translate(AboveNine(), cx, true) == Some(Cmp(Gt, 0, Scalar(Int64, Some(Atom(9)))));
  }

  // ---------------------------------------------------------------------
  // Top-level physical predicates

  function NamesOf(es: seq<Expr>, schema: Schema): (r: Option<seq<string>>)
    ensures r.Some? ==> |r.value| == |es| && forall i :: 0 <= i < |es| ==> ColumnName(es[i], schema) == Some(r.value[i])
  {
    if es == [] then Some([])
    else
      var init := NamesOf(es[..|es| - 1], schema);
      var last := ColumnName(es[|es| - 1], schema);
      if init.None? || last.None? then None else Some(init.value + [last.value])
  }

  /** The columns of `struct(a, b, ...)`. */
  function StructColumns(e: Expr, schema: Schema): Option<seq<string>> {
    if e.Call? && e.func == "struct" then NamesOf(e.args, schema) else None
  }

  predicate Distinct(names: seq<string>) {
    forall i, j :: 0 <= i < j < |names| ==> names[i] != names[j]
  }

  /** A non-null tuple of `n` fields. */
  predicate TupleOf(v: Option<Scalar>, n: nat) {
    && v.Some? && v.value.ty.Struct? && v.value.datum.Some?
    && v.value.datum.value.Tuple? && |v.value.datum.value.fields| == n
  }

  predicate AllTuples(list: seq<Expr>, engine: Engine, n: nat) {
    forall i :: 0 <= i < |list| ==> TupleOf(LiteralOf(list[i], engine), n)
  }

  /** The values at field `k` of the listed tuples. */
  function FieldValues(list: seq<Expr>, engine: Engine, n: nat, k: nat): (r: seq<Scalar>)
    requires AllTuples(list, engine, n) && k < n
    ensures |r| == |list|
    ensures forall i :: 0 <= i < |r| ==> r[i] == LiteralOf(list[i], engine).value.datum.value.fields[k]
  {
    seq(|list|, i requires 0 <= i < |list| => LiteralOf(list[i], engine).value.datum.value.fields[k])
  }

  /** The IN sets of the first `k` fields; `None` if one of them cannot be pushed. */
  function FieldMembers(list: seq<Expr>, names: seq<string>, cx: Context, k: nat): (r: Option<seq<Pred>>)
    requires AllTuples(list, cx.engine, |names|) && k <= |names|
    ensures r.Some? ==> |r.value| == k && forall i :: 0 <= i < k ==>
      Membership(InSet(names[i], FieldValues(list, cx.engine, |names|, i)), cx) == Some(r.value[i])
  {
    if k == 0 then Some([])
    else
      var init := FieldMembers(list, names, cx, k - 1);
      var last := Membership(InSet(names[k - 1], FieldValues(list, cx.engine, |names|, k - 1)), cx);
      if init.None? || last.None? then None else Some(init.value + [last.value])
  }

  /** The shape `struct(a, b, ...) IN (tuples)` over at least two distinct columns. */
  predicate TupleList(e: Expr, cx: Context) {
    && e.InList? && !e.negated && e.list != []
    && var names := StructColumns(e.inner, cx.schema);
       names.Some? && 2 <= |names.value| && Distinct(names.value) && AllTuples(e.list, cx.engine, |names.value|)
  }

  /** A tuple membership as independent memberships of its fields. */
  function TupleMembers(e: Expr, cx: Context): Option<seq<Pred>> {
    if TupleList(e, cx) then
      var names := StructColumns(e.inner, cx.schema).value;
      FieldMembers(e.list, names, cx, |names|)
    else None
  }

  /** The conjuncts pushed down for a top-level physical predicate. */
  function TopPreds(e: Expr, cx: Context, sideKeys: bool): seq<Pred> {
    if e.BinaryExpr? && e.op.And? then TopPreds(e.left, cx, sideKeys) + TopPreds(e.right, cx, sideKeys)
    else if sideKeys && TupleMembers(e, cx).Some? then TupleMembers(e, cx).value
    else
      var p := Translate(e, cx, sideKeys);
      if p.Some? then [p.value] else []
  }

  ghost predicate AllFitIn(ps: seq<Pred>, schema: Schema) {
    forall i :: 0 <= i < |ps| ==> Fits(ps[i], |schema|)
  }

  lemma {:induction false} TopPredsFit(e: Expr, cx: Context, sideKeys: bool)
    ensures AllFitIn(TopPreds(e, cx, sideKeys), cx.schema) && AllFitIn(TopPreds(e, cx, sideKeys), cx.remote)
  {
    if e.BinaryExpr? && e.op.And? {
      TopPredsFit(e.left, cx, sideKeys);
      TopPredsFit(e.right, cx, sideKeys);
    }
  }

  ghost predicate AllTrue(ps: seq<Pred>, row: Row) {
    forall i :: 0 <= i < |ps| ==> Fits(ps[i], |row|) && EvalPred(ps[i], row) == True
  }

  // A tuple in the list puts each of its fields in that field's set.
  lemma {:induction false} TupleMembersAreSound(e: Expr, cx: Context, row: Row)
    requires IsRow(row, cx) && TupleMembers(e, cx).Some? && Satisfies(e, cx.schema, row, cx.engine)
    ensures AllTrue(TupleMembers(e, cx).value, row)
  {
    var ps := TupleMembers(e, cx).value;
    var j := MatchingTuple(e, cx, row);
    forall k | 0 <= k < |ps|
      ensures Fits(ps[k], |row|) && EvalPred(ps[k], row) == True
    {
      FieldIsMember(e, cx, row, j, k);
    }
  }

  /** Position of a listed tuple that equals the row's tuple. */
  lemma {:induction false} MatchingTuple(e: Expr, cx: Context, row: Row) returns (j: nat)
    requires IsRow(row, cx) && TupleList(e, cx) && Satisfies(e, cx.schema, row, cx.engine)
    ensures j < |e.list| && LiteralOf(e.list[j], cx.engine).Some?
    ensures EvalAll(e.inner.args, cx.schema, row, cx.engine).Some?
    ensures LiteralOf(e.list[j], cx.engine).value.datum == Some(Tuple(EvalAll(e.inner.args, cx.schema, row, cx.engine).value))
  {
    var v := Eval(e.inner, cx.schema, row, cx.engine).value;
    var tuples := EvalAll(e.list, cx.schema, row, cx.engine).value;
    InTruthIsMembership(v, tuples);
    j :| 0 <= j < |tuples| && CompareScalars(Eq, v, tuples[j]) == True;
    EvalAllAt(e.list, cx.schema, row, cx.engine, j);
    assert TupleOf(LiteralOf(e.list[j], cx.engine), |StructColumns(e.inner, cx.schema).value|);
    LiteralMeaning(e.list[j], cx, row);
  }

  lemma {:induction false} FieldIsMember(e: Expr, cx: Context, row: Row, j: nat, k: nat)
    requires IsRow(row, cx) && TupleMembers(e, cx).Some? && j < |e.list| && k < |TupleMembers(e, cx).value|
    requires LiteralOf(e.list[j], cx.engine).Some? && EvalAll(e.inner.args, cx.schema, row, cx.engine).Some?
    requires LiteralOf(e.list[j], cx.engine).value.datum == Some(Tuple(EvalAll(e.inner.args, cx.schema, row, cx.engine).value))
    ensures Fits(TupleMembers(e, cx).value[k], |row|)
    ensures EvalPred(TupleMembers(e, cx).value[k], row) == True
  {
    var names, p := StructColumns(e.inner, cx.schema).value, TupleMembers(e, cx).value[k];
    var values := FieldValues(e.list, cx.engine, |names|, k);
    assert Membership(InSet(names[k], values), cx) == Some(p);
    EvalAllAt(e.inner.args, cx.schema, row, cx.engine, k);
    ColumnNameMeaning(e.inner.args[k], cx, row, names[k], p.column);
    assert values[j] == row[p.column] && Pushable(values[j]);
    InTruthIsMembership(row[p.column], values);
  }

  // Every conjunct pushed for a satisfied physical predicate is TRUE.
  lemma {:induction false} TopPredsAreSound(e: Expr, cx: Context, sideKeys: bool, row: Row)
    requires IsRow(row, cx) && Satisfies(e, cx.schema, row, cx.engine)
    ensures AllTrue(TopPreds(e, cx, sideKeys), row)
  {
    if e.BinaryExpr? && e.op.And? {
      TopPredsAreSound(e.left, cx, sideKeys, row);
      TopPredsAreSound(e.right, cx, sideKeys, row);
    } else if sideKeys && TupleMembers(e, cx).Some? {
      TupleMembersAreSound(e, cx, row);
    } else if Translate(e, cx, sideKeys).Some? {
      TranslationIsSound(e, cx, sideKeys, row);
    }
  }
}
