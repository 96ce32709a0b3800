/**
 The filter builder: it walks a predicate, hoisting constants, IN sets and
 referenced columns into its own tables, and rolls them back when a part of the
 predicate turns out not to be expressible.
 */
module FilterBuilder {
  import opened Wrappers
  import opened Expressions
  import opened FilterPredicates
  import opened FilterTranslation

  /** Logical predicates, or physical ones with or without a channel for IN sets. */
  datatype Mode = Logical | Physical(sideKeys: bool)

  predicate HasSideKeys(mode: Mode) {
    mode.Logical? || mode.sideKeys
  }

  // ---------------------------------------------------------------------
  // First-seen unions

  function AddOne(refs: seq<nat>, column: nat): seq<nat> {
    if column in refs then refs else refs + [column]
  }

  function AddAll(refs: seq<nat>, columns: seq<nat>): seq<nat> {
    if columns == [] then refs else AddOne(AddAll(refs, columns[..|columns| - 1]), columns[|columns| - 1])
  }

  lemma {:induction false} AddAllConcat(refs: seq<nat>, a: seq<nat>, b: seq<nat>)
    ensures AddAll(refs, a + b) == AddAll(AddAll(refs, a), b)
  {
    if b == [] {
      assert a + b == a;
    } else {
      assert (a + b)[..|a + b| - 1] == a + b[..|b| - 1];
      AddAllConcat(refs, a, b[..|b| - 1]);
    }
  }

  lemma {:induction false} AddAllExtends(refs: seq<nat>, columns: seq<nat>)
    ensures refs <= AddAll(refs, columns)
    ensures forall c :: c in AddAll(refs, columns) <==> c in refs || c in columns
  {
    if columns != [] {
      AddAllExtends(refs, columns[..|columns| - 1]);
      assert columns == columns[..|columns| - 1] + [columns[|columns| - 1]];
    }
  }

  // ---------------------------------------------------------------------
  // What a translation leaves in the tables

  datatype Tables = Tables(constants: seq<Scalar>, referenced: seq<nat>, keys: seq<JoinKeys>)

  /** The tables after translating to `p` and looking at `touched` columns on the way. */
  function After(t: Tables, p: Option<Pred>, touched: seq<nat>, remote: Schema): Tables
    requires p.Some? ==> Fits(p.value, |remote|)
  {
    match p
    case None => t.(referenced := AddAll(t.referenced, touched))
    case Some(q) => Tables(t.constants + Constants(q), AddAll(t.referenced, touched), t.keys + Keys(q, remote))
  }

  /** The wire form of `p` when `c` constants and `k` side batches are already there. */
  function EncodeAt(p: Option<Pred>, remote: Schema, c: nat, k: nat): Option<Spec>
    requires p.Some? ==> Fits(p.value, |remote|)
  {
    if p.None? then None else Some(Encode(p.value, remote, c, k))
  }

  function ConstantCount(p: Option<Pred>): nat {
    if p.None? then 0 else |Constants(p.value)|
  }

  function KeyCount(p: Option<Pred>, remote: Schema): nat
    requires p.Some? ==> Fits(p.value, |remote|)
  {
    if p.None? then 0 else |Keys(p.value, remote)|
  }

  function MembershipTouches(inSet: InSet, cx: Context): seq<nat> {
    if AllPushable(inSet.values) && RemoteColumn(inSet.name, cx).Some? then [RemoteColumn(inSet.name, cx).value] else []
  }

  /**
   The columns that stay recorded after translating `e`. A comparison or membership
   that fails late leaves its column behind; an OR that fails leaves nothing.
   */
  function Touched(e: Expr, cx: Context, mode: Mode): seq<nat> {
    match e
    case BinaryExpr(left, op, right) =>
      if op.And? then
        if mode.Physical? && Translate(e, cx, HasSideKeys(mode)).None? then []
        else Touched(left, cx, mode) + Touched(right, cx, mode)
      else if op.Or? then
        if HasSideKeys(mode) && OrEqualities(left, right, cx).Some? then
          MembershipTouches(OrEqualities(left, right, cx).value, cx)
        else if Translate(e, cx, HasSideKeys(mode)).Some? then Touched(left, cx, mode) + Touched(right, cx, mode)
        else []
      else
        var term := ColumnAgainstLiteral(left, op, right, cx);
        if term.Some? && RemoteColumn(term.value.name, cx).Some? then [RemoteColumn(term.value.name, cx).value] else []
    case IsNull(inner) => if ColumnOf(inner, cx).Some? then [ColumnOf(inner, cx).value] else []
    case IsNotNull(inner) => if ColumnOf(inner, cx).Some? then [ColumnOf(inner, cx).value] else []
    case InList(inner, list, negated) =>
      if HasSideKeys(mode) && !negated && ColumnName(inner, cx.schema).Some? && LiteralsOf(list, cx.engine).Some?
      then MembershipTouches(InSet(ColumnName(inner, cx.schema).value, LiteralsOf(list, cx.engine).value), cx)
      else []
    case _ => []
  }

  // A pushed predicate only reads recorded columns.
  lemma {:induction false} ReadsOnlyTouched(e: Expr, cx: Context, mode: Mode)
    requires Translate(e, cx, HasSideKeys(mode)).Some?
    ensures forall c :: c in Columns(Translate(e, cx, HasSideKeys(mode)).value) ==> c in Touched(e, cx, mode)
  {
    if e.BinaryExpr? && (e.op.And? || (e.op.Or? && !(HasSideKeys(mode) && OrEqualities(e.left, e.right, cx).Some?))) {
      if Translate(e.left, cx, HasSideKeys(mode)).Some? {
        ReadsOnlyTouched(e.left, cx, mode);
      }
      if Translate(e.right, cx, HasSideKeys(mode)).Some? {
        ReadsOnlyTouched(e.right, cx, mode);
      }
    }
  }

  // A rejected membership leaves its column recorded exactly when its values are of
  // supported types, but not all of one type.
  lemma RejectedMembershipLeavesColumnIff(inner: Expr, list: seq<Expr>, cx: Context, mode: Mode)
    requires var e := InList(inner, list, false);
      && HasSideKeys(mode) && Translate(e, cx, true).None?
      && ColumnName(inner, cx.schema).Some? && LiteralsOf(list, cx.engine).Some?
    ensures var values := LiteralsOf(list, cx.engine).value;
      Touched(InList(inner, list, false), cx, mode) != []
      <==> AllPushable(values) && !OneType(values) && RemoteColumn(ColumnName(inner, cx.schema).value, cx).Some?
  {
  }

  // `a IN (1, 'x')` is not pushed, and `a` is requested from the worker all the same.
  lemma MixedTypesLeaveColumn(engine: Engine)
    ensures var cx := Context([Field("a", Int64)], [Field("a", Int64)], engine);
      var e := InList(Column("a"), [Literal(Scalar(Int64, Some(Atom(1)))), Literal(Scalar(Utf8, Some(Atom(0))))], false);
      Translate(e, cx, true).None? && Touched(e, cx, Logical) == [0]
  {
  }

  // ---------------------------------------------------------------------
  // Lists of conjuncts

  function AllConstants(ps: seq<Pred>): seq<Scalar> {
    if ps == [] then [] else AllConstants(ps[..|ps| - 1]) + Constants(ps[|ps| - 1])
  }

  ghost function AllKeys(ps: seq<Pred>, remote: Schema): seq<JoinKeys>
    requires AllFitIn(ps, remote)
  {
    if ps == [] then [] else AllKeys(ps[..|ps| - 1], remote) + Keys(ps[|ps| - 1], remote)
  }

  ghost function EncodeAll(ps: seq<Pred>, remote: Schema, c: nat, k: nat): (r: seq<Spec>)
    requires AllFitIn(ps, remote)
    ensures |r| == |ps|
  {
    if ps == [] then []
    else
      var init := ps[..|ps| - 1];
      EncodeAll(init, remote, c, k)
      + [Encode(ps[|ps| - 1], remote, c + |AllConstants(init)|, k + |AllKeys(init, remote)|)]
  }

  ghost function AfterAll(t: Tables, ps: seq<Pred>, touched: seq<nat>, remote: Schema): Tables
    requires AllFitIn(ps, remote)
  {
    Tables(t.constants + AllConstants(ps), AddAll(t.referenced, touched), t.keys + AllKeys(ps, remote))
  }

  lemma {:induction false} TablesConcat(a: seq<Pred>, b: seq<Pred>, remote: Schema)
    requires AllFitIn(a, remote) && AllFitIn(b, remote)
    ensures AllConstants(a + b) == AllConstants(a) + AllConstants(b)
    ensures AllKeys(a + b, remote) == AllKeys(a, remote) + AllKeys(b, remote)
  {
    if b == [] {
      assert a + b == a;
    } else {
      var init, last := b[..|b| - 1], b[|b| - 1];
      assert (a + b)[..|a + b| - 1] == a + init;
      TablesConcat(a, init, remote);
      Assoc(AllConstants(a), AllConstants(init), Constants(last));
      Assoc(AllKeys(a, remote), AllKeys(init, remote), Keys(last, remote));
    }
  }

  lemma {:induction false} EncodeAllConcat(a: seq<Pred>, b: seq<Pred>, remote: Schema, c: nat, k: nat)
    requires AllFitIn(a, remote) && AllFitIn(b, remote)
    ensures EncodeAll(a + b, remote, c, k) == EncodeAll(a, remote, c, k)
      + EncodeAll(b, remote, c + |AllConstants(a)|, k + |AllKeys(a, remote)|)
  {
    if b == [] {
      assert a + b == a;
    } else {
      var init := b[..|b| - 1];
      assert (a + b)[..|a + b| - 1] == a + init;
      EncodeAllConcat(a, init, remote, c, k);
      TablesConcat(a, init, remote);
    }
  }

  function TopTouched(e: Expr, cx: Context, sideKeys: bool): seq<nat> {
    if e.BinaryExpr? && e.op.And? then TopTouched(e.left, cx, sideKeys) + TopTouched(e.right, cx, sideKeys)
    else if sideKeys && TupleMembers(e, cx).Some? then MemberColumns(TupleMembers(e, cx).value)
    else Touched(e, cx, Physical(sideKeys))
  }

  function MemberColumns(ps: seq<Pred>): seq<nat> {
    if ps == [] then []
    else MemberColumns(ps[..|ps| - 1]) + if ps[|ps| - 1].Member? then [ps[|ps| - 1].column] else []
  }

  // ---------------------------------------------------------------------
  // The builder

  class Builder {
    const cx: Context
    var constants: seq<Scalar>
    /** Bind-schema positions of the columns a spec may read, in first-seen order. */
    var referencedColumns: seq<nat>
    var joinKeys: seq<JoinKeys>

    constructor (cx: Context)
      ensures this.cx == cx && State() == Tables([], [], [])
    {
      this.cx := cx;
      constants := [];
      referencedColumns := [];
      joinKeys := [];
    }

    function State(): Tables
      reads this
    {
      Tables(constants, referencedColumns, joinKeys)
    }

    method AddConstant(c: Scalar) returns (slot: nat)
      modifies this`constants
      ensures constants == old(constants) + [c] && slot == |old(constants)|
    {
      constants := constants + [c];
      slot := |constants| - 1;
    }

    method Checkpoint() returns (c: nat, r: nat, k: nat)
      ensures c == |constants| && r == |referencedColumns| && k == |joinKeys|
    {
      c, r, k := |constants|, |referencedColumns|, |joinKeys|;
    }

    method Rollback(c: nat, r: nat, k: nat)
      requires c <= |constants| && r <= |referencedColumns| && k <= |joinKeys|
      modifies this
      ensures State() == Tables(old(constants)[..c], old(referencedColumns)[..r], old(joinKeys)[..k])
    {
      constants := constants[..c];
      referencedColumns := referencedColumns[..r];
      joinKeys := joinKeys[..k];
    }

    /** Resolve a column and record that it is referenced. */
    method ResolveColumn(name: string) returns (column: Option<ColumnRef>)
      modifies this`referencedColumns
      ensures RemoteColumn(name, cx).None? ==> column.None? && referencedColumns == old(referencedColumns)
      ensures RemoteColumn(name, cx).Some? ==>
        && column == Some(ColumnRef(RemoteColumn(name, cx).value, cx.remote[RemoteColumn(name, cx).value].name))
        && referencedColumns == AddOne(old(referencedColumns), RemoteColumn(name, cx).value)
    {
      var index := IndexOf(cx.schema, name);
      if index.None? || |cx.remote| <= index.value {
        return None;
      }
      if index.value !in referencedColumns {
        referencedColumns := referencedColumns + [index.value];
      }
      column := Some(ColumnRef(index.value, cx.remote[index.value].name));
    }

    /** A side batch and a reference to it. */
    method PushMembership(inSet: InSet) returns (r: Option<Spec>)
      modifies this
      ensures r == EncodeAt(Membership(inSet, cx), cx.remote, |old(constants)|, |old(joinKeys)|)
      ensures State() == After(old(State()), Membership(inSet, cx), MembershipTouches(inSet, cx), cx.remote)
    {
      ghost var t := State();
      if !AllPushable(inSet.values) {
        return None;
      }
      var column := ResolveColumn(inSet.name);
      if column.None? {
        return None;
      }
      AddSingle(t.referenced, column.value.index);
      var batchIndex := |joinKeys|;
      if !OneType(inSet.values) {
        return None;
      }
      joinKeys := joinKeys + [JoinKeys(column.value.name, inSet.values)];
      r := Some(InSpec(column.value, batchIndex));
    }

    method NullTest(inner: Expr, negated: bool) returns (r: Option<Spec>)
      modifies this
      ensures var column := ColumnOf(inner, cx);
        var p := if column.Some? then Some(NullCheck(column.value, negated)) else None;
        && r == EncodeAt(p, cx.remote, |old(constants)|, |old(joinKeys)|)
        && State() == After(old(State()), p, if column.Some? then [column.value] else [], cx.remote)
    {
      var name := ColumnName(inner, cx.schema);
      if name.None? {
        return None;
      }
      ghost var t := State();
      var column := ResolveColumn(name.value);
      if column.None? {
        return None;
      }
      AddSingle(t.referenced, column.value.index);
      r := Some(IsNullSpec(column.value, negated));
    }

    /** `column op literal` in either order, for an operator other than AND and OR. */
    method CompareTest(left: Expr, op: Operator, right: Expr, ghost mode: Mode) returns (r: Option<Spec>)
      requires !op.And? && !op.Or?
      modifies this
      ensures r == EncodeAt(Translate(BinaryExpr(left, op, right), cx, HasSideKeys(mode)), cx.remote, |old(constants)|, |old(joinKeys)|)
      ensures State() == After(old(State()), Translate(BinaryExpr(left, op, right), cx, HasSideKeys(mode)),
                               Touched(BinaryExpr(left, op, right), cx, mode), cx.remote)
    {
      var term := ColumnAgainstLiteral(left, op, right, cx);
      if term.None? {
        return None;
      }
      ghost var t := State();
      var column := ResolveColumn(term.value.name);
      if column.None? {
        return None;
      }
      AddSingle(t.referenced, column.value.index);
      if !term.value.op.Compare? || !Pushable(term.value.value) {
        return None;
      }
      var slot := AddConstant(term.value.value);
      r := Some(ComparisonSpec(term.value.op.cmp, column.value, slot));
    }

    /** Translate a logical predicate. */
    method Build(e: Expr) returns (r: Option<Spec>)
      modifies this
      ensures r == EncodeAt(Translate(e, cx, true), cx.remote, |old(constants)|, |old(joinKeys)|)
      ensures State() == After(old(State()), Translate(e, cx, true), Touched(e, cx, Logical), cx.remote)
      decreases e, 1
    {
      match e
      case BinaryExpr(left, op, right) =>
        if op.And? {
          r := BuildAnd(left, right);
        } else if op.Or? {
          r := BuildOr(left, right);
        } else {
          r := CompareTest(left, op, right, Logical);
        }
      case IsNull(inner) =>
        r := NullTest(inner, false);
      case IsNotNull(inner) =>
        r := NullTest(inner, true);
      case InList(inner, list, negated) =>
        var name, values := ColumnName(inner, cx.schema), LiteralsOf(list, cx.engine);
        if negated || name.None? || values.None? {
          return None;
        }
        r := PushMembership(InSet(name.value, values.value));
      case _ =>
        r := None;
    }

    method BuildAnd(left: Expr, right: Expr) returns (r: Option<Spec>)
      modifies this
      ensures r == EncodeAt(Translate(BinaryExpr(left, And, right), cx, true), cx.remote, |old(constants)|, |old(joinKeys)|)
      ensures State() == After(old(State()), Translate(BinaryExpr(left, And, right), cx, true),
                               Touched(BinaryExpr(left, And, right), cx, Logical), cx.remote)
      decreases BinaryExpr(left, And, right), 0
    {
      ghost var t := State();
      var l := Build(left);
      var r' := Build(right);
      assert r' == SecondSpec(t, left, right, cx, Logical) && State() == AfterBoth(t, left, right, cx, Logical);
      AndBuilt(t, left, right, cx, Logical);
      r := AndResult(l, r');
    }

    method BuildOr(left: Expr, right: Expr) returns (r: Option<Spec>)
      modifies this
      ensures r == EncodeAt(Translate(BinaryExpr(left, Or, right), cx, true), cx.remote, |old(constants)|, |old(joinKeys)|)
      ensures State() == After(old(State()), Translate(BinaryExpr(left, Or, right), cx, true),
                               Touched(BinaryExpr(left, Or, right), cx, Logical), cx.remote)
      decreases BinaryExpr(left, Or, right), 0
    {
      var equalities := OrEqualities(left, right, cx);
      if equalities.Some? {
        r := PushMembership(equalities.value);
        return;
      }
      ghost var t := State();
      var c, n, k := Checkpoint();
      var l := Build(left);
      var r' := Build(right);
      assert r' == SecondSpec(t, left, right, cx, Logical) && State() == AfterBoth(t, left, right, cx, Logical);
      OrBuilt(t, left, right, cx, Logical);
      r := OrResult(l, r');
      if r.None? {
        Rollback(c, n, k);
      }
    }

    /** Translate a physical predicate. */
    method BuildPhysical(e: Expr, sideKeys: bool) returns (r: Option<Spec>)
      modifies this
      ensures r == EncodeAt(Translate(e, cx, sideKeys), cx.remote, |old(constants)|, |old(joinKeys)|)
      ensures State() == After(old(State()), Translate(e, cx, sideKeys), Touched(e, cx, Physical(sideKeys)), cx.remote)
      decreases e, 1
    {
      match e
      case BinaryExpr(left, op, right) =>
        if op.And? {
          r := PhysicalAnd(left, right, sideKeys);
        } else if op.Or? {
          r := PhysicalOr(left, right, sideKeys);
        } else {
          r := CompareTest(left, op, right, Physical(sideKeys));
        }
      case IsNull(inner) =>
        r := NullTest(inner, false);
      case IsNotNull(inner) =>
        r := NullTest(inner, true);
      case InList(inner, list, negated) =>
        var name, values := ColumnName(inner, cx.schema), LiteralsOf(list, cx.engine);
        if negated || list == [] || name.None? || values.None? || !sideKeys {
          return None;
        }
        r := PushMembership(InSet(name.value, values.value));
      case _ =>
        r := None;
    }

    method PhysicalAnd(left: Expr, right: Expr, sideKeys: bool) returns (r: Option<Spec>)
      modifies this
      ensures r == EncodeAt(Translate(BinaryExpr(left, And, right), cx, sideKeys), cx.remote, |old(constants)|, |old(joinKeys)|)
      ensures State() == After(old(State()), Translate(BinaryExpr(left, And, right), cx, sideKeys),
                               Touched(BinaryExpr(left, And, right), cx, Physical(sideKeys)), cx.remote)
      decreases BinaryExpr(left, And, right), 0
    {
      ghost var t := State();
      PhysicalAndBuilt(t, left, right, cx, sideKeys);
      var c, n, k := Checkpoint();
      var l := BuildPhysical(left, sideKeys);
      var r' := BuildPhysical(right, sideKeys);
      assert r' == SecondSpec(t, left, right, cx, Physical(sideKeys)) && State() == AfterBoth(t, left, right, cx, Physical(sideKeys));
      r := AndResult(l, r');
      if r.None? {
        Rollback(c, n, k);
      }
    }

    method PhysicalOr(left: Expr, right: Expr, sideKeys: bool) returns (r: Option<Spec>)
      modifies this
      ensures r == EncodeAt(Translate(BinaryExpr(left, Or, right), cx, sideKeys), cx.remote, |old(constants)|, |old(joinKeys)|)
      ensures State() == After(old(State()), Translate(BinaryExpr(left, Or, right), cx, sideKeys),
                               Touched(BinaryExpr(left, Or, right), cx, Physical(sideKeys)), cx.remote)
      decreases BinaryExpr(left, Or, right), 0
    {
      if sideKeys && OrEqualities(left, right, cx).Some? {
        r := PushMembership(OrEqualities(left, right, cx).value);
        return;
      }
      ghost var t := State();
      var c, n, k := Checkpoint();
      var l := BuildPhysical(left, sideKeys);
      var r' := BuildPhysical(right, sideKeys);
      assert r' == SecondSpec(t, left, right, cx, Physical(sideKeys));
      assert State() == AfterBoth(t, left, right, cx, Physical(sideKeys));
      OrBuilt(t, left, right, cx, Physical(sideKeys));
      r := OrResult(l, r');
      if r.None? {
        Rollback(c, n, k);
      }
    }

    /** Flatten a tuple membership; any field that cannot be pushed undoes all of them. */
    method StructMemberships(e: Expr) returns (r: Option<seq<Spec>>)
      modifies this
      ensures r.Some? <==> TupleMembers(e, cx).Some?
      ensures r.None? ==> State() == old(State())
      ensures r.Some? ==> AllFitIn(TupleMembers(e, cx).value, cx.remote)
      ensures r.Some? ==>
        r.value == EncodeAll(TupleMembers(e, cx).value, cx.remote, |old(constants)|, |old(joinKeys)|)
      ensures r.Some? ==> var ps := TupleMembers(e, cx).value;
        State() == AfterAll(old(State()), ps, MemberColumns(ps), cx.remote)
    {
      if !TupleList(e, cx) {
        return None;
      }
      var names := StructColumns(e.inner, cx.schema).value;
      ghost var t := State();
      var c, n, k := Checkpoint();
      var specs := [];
      NoConjuncts(t, [], cx.remote);
      for i := 0 to |names|
        invariant FieldsPushed(t, State(), specs, e.list, names, cx, i)
      {
        ghost var before := State();
        var spec := PushMembership(InSet(names[i], FieldValues(e.list, cx.engine, |names|, i)));
        if spec.None? {
          FieldFailed(t, before, specs, e.list, names, cx, i);
          Rollback(c, n, k);
          return None;
        }
        FieldPushed(t, before, specs, e.list, names, cx, i);
        specs := specs + [spec.value];
      }
      r := Some(specs);
    }

    /** Append the conjuncts of a top-level physical predicate. */
    method BuildPhysicalTop(e: Expr, sideKeys: bool, out: seq<Spec>) returns (r: seq<Spec>)
      modifies this
      ensures AllFitIn(TopPreds(e, cx, sideKeys), cx.remote)
      ensures r == out + EncodeAll(TopPreds(e, cx, sideKeys), cx.remote, |old(constants)|, |old(joinKeys)|)
      ensures State() == AfterAll(old(State()), TopPreds(e, cx, sideKeys), TopTouched(e, cx, sideKeys), cx.remote)
      decreases e
    {
      if e.BinaryExpr? && e.op.And? {
        ghost var t := State();
        var first := BuildPhysicalTop(e.left, sideKeys, out);
        r := BuildPhysicalTop(e.right, sideKeys, first);
        TopAnd(t, e, cx, sideKeys, out);
      } else {
        r := BuildConjuncts(e, sideKeys, out);
      }
    }

    /** Append what one predicate other than an AND contributes. */
    method BuildConjuncts(e: Expr, sideKeys: bool, out: seq<Spec>) returns (r: seq<Spec>)
      requires !(e.BinaryExpr? && e.op.And?)
      modifies this
      ensures AllFitIn(TopPreds(e, cx, sideKeys), cx.remote)
      ensures r == out + EncodeAll(TopPreds(e, cx, sideKeys), cx.remote, |old(constants)|, |old(joinKeys)|)
      ensures State() == AfterAll(old(State()), TopPreds(e, cx, sideKeys), TopTouched(e, cx, sideKeys), cx.remote)
      decreases e, 0
    {
      ghost var t := State();
      TopPredsFit(e, cx, sideKeys);
      if sideKeys {
        var specs := StructMemberships(e);
        if specs.Some? {
          return out + specs.value;
        }
      }
      var spec := BuildPhysical(e, sideKeys);
      SinglePred(t, Translate(e, cx, sideKeys), Touched(e, cx, Physical(sideKeys)), cx.remote);
      r := if spec.Some? then out + [spec.value] else out;
    }
  }

  // ---------------------------------------------------------------------
  // Facts the methods need

  lemma AddSingle(refs: seq<nat>, column: nat)
    ensures AddAll(refs, [column]) == AddOne(refs, column)
  {
  }

  /** A spec refers to a side batch. */
  predicate HasExternal(s: Spec) {
    match s
    case InSpec(_, _) => true
    case JunctionSpec(_, left, right) => HasExternal(left) || HasExternal(right)
    case _ => false
  }

  lemma {:induction false} ExternalIsMember(p: Pred, remote: Schema, c: nat, k: nat)
    requires Fits(p, |remote|)
    ensures HasExternal(Encode(p, remote, c, k)) <==> ContainsMember(p)
  {
    if p.Junction? {
      ExternalIsMember(p.left, remote, c, k);
      ExternalIsMember(p.right, remote, c + |Constants(p.left)|, k + |Keys(p.left, remote)|);
    }
  }

  /** An AND keeps whichever side is expressible. */
  function AndResult(l: Option<Spec>, r: Option<Spec>): Option<Spec> {
    if l.Some? && r.Some? then Some(JunctionSpec(Conj, l.value, r.value)) else if l.Some? then l else r
  }

  /** An OR keeps both sides or none, and no IN set below it. */
  function OrResult(l: Option<Spec>, r: Option<Spec>): Option<Spec> {
    if l.Some? && r.Some? && !HasExternal(JunctionSpec(Disj, l.value, r.value))
    then Some(JunctionSpec(Disj, l.value, r.value))
    else None
  }

  lemma Assoc<T>(a: seq<T>, b: seq<T>, c: seq<T>)
    ensures (a + b) + c == a + (b + c)
  {}

  // Two pushed operands leave what their junction leaves.
  lemma JunctionAfter(t: Tables, kind: Connective, l: Pred, tl: seq<nat>, r: Pred, tr: seq<nat>, remote: Schema)
    requires Fits(l, |remote|) && Fits(r, |remote|)
    ensures After(After(t, Some(l), tl, remote), Some(r), tr, remote) == After(t, Some(Junction(kind, l, r)), tl + tr, remote)
  {
    Assoc(t.constants, Constants(l), Constants(r));
    Assoc(t.keys, Keys(l, remote), Keys(r, remote));
    AddAllConcat(t.referenced, tl, tr);
  }

  /** What an AND is translated to, given its sides. */
  function AndPred(l: Option<Pred>, r: Option<Pred>): Option<Pred> {
    if l.Some? && r.Some? then Some(Junction(Conj, l.value, r.value)) else if l.Some? then l else r
  }

  /** What an OR that is not a membership is translated to, given its sides. */
  function OrPred(l: Option<Pred>, r: Option<Pred>): Option<Pred> {
    if l.Some? && r.Some? && !ContainsMember(l.value) && !ContainsMember(r.value)
    then Some(Junction(Disj, l.value, r.value))
    else None
  }

  lemma TranslateJunction(left: Expr, right: Expr, cx: Context, side: bool)
    ensures Translate(BinaryExpr(left, And, right), cx, side) == AndPred(Translate(left, cx, side), Translate(right, cx, side))
    ensures !(side && OrEqualities(left, right, cx).Some?) ==>
      Translate(BinaryExpr(left, Or, right), cx, side) == OrPred(Translate(left, cx, side), Translate(right, cx, side))
  {}

  // Translating both sides in turn leaves what the AND of the two leaves.
  lemma AndTables(t: Tables, l: Option<Pred>, tl: seq<nat>, r: Option<Pred>, tr: seq<nat>, remote: Schema)
    requires (l.Some? ==> Fits(l.value, |remote|)) && (r.Some? ==> Fits(r.value, |remote|))
    ensures After(After(t, l, tl, remote), r, tr, remote) == After(t, AndPred(l, r), tl + tr, remote)
  {
    AddAllConcat(t.referenced, tl, tr);
    if l.Some? && r.Some? {
      JunctionAfter(t, Conj, l.value, tl, r.value, tr, remote);
    }
  }

  lemma OrOfEncoded(l: Pred, r: Pred, remote: Schema, c: nat, k: nat)
    requires Fits(l, |remote|) && Fits(r, |remote|)
    ensures var ls, rs := Encode(l, remote, c, k), Encode(r, remote, c + |Constants(l)|, k + |Keys(l, remote)|);
      OrResult(Some(ls), Some(rs))
      == if OrPred(Some(l), Some(r)).Some? then Some(Encode(Junction(Disj, l, r), remote, c, k)) else None
  {
    ExternalIsMember(l, remote, c, k);
    ExternalIsMember(r, remote, c + |Constants(l)|, k + |Keys(l, remote)|);
  }

  // Combining the sides' wire forms gives the wire form of the combination.
  lemma JunctionSpecs(l: Option<Pred>, r: Option<Pred>, remote: Schema, c: nat, k: nat)
    requires (l.Some? ==> Fits(l.value, |remote|)) && (r.Some? ==> Fits(r.value, |remote|))
    ensures var ls, rs := EncodeAt(l, remote, c, k), EncodeAt(r, remote, c + ConstantCount(l), k + KeyCount(l, remote));
      && AndResult(ls, rs) == EncodeAt(AndPred(l, r), remote, c, k)
      && OrResult(ls, rs) == EncodeAt(OrPred(l, r), remote, c, k)
  {
    if l.Some? && r.Some? {
      OrOfEncoded(l.value, r.value, remote, c, k);
    }
  }

  // The same for an OR.
  lemma OrTables(t: Tables, l: Option<Pred>, tl: seq<nat>, r: Option<Pred>, tr: seq<nat>, remote: Schema)
    requires (l.Some? ==> Fits(l.value, |remote|)) && (r.Some? ==> Fits(r.value, |remote|))
    ensures OrPred(l, r).Some? ==> After(After(t, l, tl, remote), r, tr, remote) == After(t, OrPred(l, r), tl + tr, remote)
  {
    if OrPred(l, r).Some? {
      JunctionAfter(t, Disj, l.value, tl, r.value, tr, remote);
    }
  }

  lemma TwiceGrown(t: Tables, mid: Tables, end: Tables)
    requires Grown(t, mid) && Grown(mid, end)
    ensures Grown(t, end) && Cut(end, t) == t
  {
  }

  // What two sides leave, one after the other, in the tables and as wire forms.
  lemma BothSides(t: Tables, l: Option<Pred>, tl: seq<nat>, r: Option<Pred>, tr: seq<nat>, remote: Schema)
    requires (l.Some? ==> Fits(l.value, |remote|)) && (r.Some? ==> Fits(r.value, |remote|))
    ensures var t1 := After(t, l, tl, remote);
      var t2 := After(t1, r, tr, remote);
      var ls, rs := EncodeAt(l, remote, |t.constants|, |t.keys|), EncodeAt(r, remote, |t1.constants|, |t1.keys|);
      && AndResult(ls, rs) == EncodeAt(AndPred(l, r), remote, |t.constants|, |t.keys|)
      && OrResult(ls, rs) == EncodeAt(OrPred(l, r), remote, |t.constants|, |t.keys|)
      && t2 == After(t, AndPred(l, r), tl + tr, remote)
      && (OrPred(l, r).Some? ==> t2 == After(t, OrPred(l, r), tl + tr, remote))
      && Grown(t, t2) && Cut(t2, t) == t
  {
    var t1 := After(t, l, tl, remote);
    AfterCounts(t, l, tl, remote);
    JunctionSpecs(l, r, remote, |t.constants|, |t.keys|);
    AndTables(t, l, tl, r, tr, remote);
    OrTables(t, l, tl, r, tr, remote);
    AfterGrows(t, l, tl, remote);
    AfterGrows(t1, r, tr, remote);
    TwiceGrown(t, t1, After(t1, r, tr, remote));
  }

  /** The tables after building both operands, and the wire form of the second. */
  function AfterBoth(t: Tables, left: Expr, right: Expr, cx: Context, mode: Mode): Tables {
    After(After(t, Translate(left, cx, HasSideKeys(mode)), Touched(left, cx, mode), cx.remote),
          Translate(right, cx, HasSideKeys(mode)), Touched(right, cx, mode), cx.remote)
  }

  function SecondSpec(t: Tables, left: Expr, right: Expr, cx: Context, mode: Mode): Option<Spec> {
    var t1 := After(t, Translate(left, cx, HasSideKeys(mode)), Touched(left, cx, mode), cx.remote);
    EncodeAt(Translate(right, cx, HasSideKeys(mode)), cx.remote, |t1.constants|, |t1.keys|)
  }

  // Building both operands in turn builds the AND of the two.
  lemma AndBuilt(t: Tables, left: Expr, right: Expr, cx: Context, mode: Mode)
    ensures var side, c, k := HasSideKeys(mode), |t.constants|, |t.keys|;
      var ls, rs := EncodeAt(Translate(left, cx, side), cx.remote, c, k), SecondSpec(t, left, right, cx, mode);
      AndResult(ls, rs) == EncodeAt(Translate(BinaryExpr(left, And, right), cx, side), cx.remote, c, k)
    ensures AfterBoth(t, left, right, cx, mode)
         == After(t, Translate(BinaryExpr(left, And, right), cx, HasSideKeys(mode)),
                  Touched(left, cx, mode) + Touched(right, cx, mode), cx.remote)
    ensures Grown(t, AfterBoth(t, left, right, cx, mode))
    ensures Cut(AfterBoth(t, left, right, cx, mode), t) == After(t, None, [], cx.remote)
  {
    var side := HasSideKeys(mode);
    TranslateJunction(left, right, cx, side);
    BothSides(t, Translate(left, cx, side), Touched(left, cx, mode), Translate(right, cx, side), Touched(right, cx, mode), cx.remote);
  }

  // A physical AND of which nothing is pushed leaves nothing.
  lemma PhysicalAndBuilt(t: Tables, left: Expr, right: Expr, cx: Context, sideKeys: bool)
    ensures var e, mode, both := BinaryExpr(left, And, right), Physical(sideKeys), AfterBoth(t, left, right, cx, Physical(sideKeys));
      var spec := AndResult(EncodeAt(Translate(left, cx, sideKeys), cx.remote, |t.constants|, |t.keys|),
                            SecondSpec(t, left, right, cx, mode));
      && spec == EncodeAt(Translate(e, cx, sideKeys), cx.remote, |t.constants|, |t.keys|)
      && Grown(t, both)
      && (if spec.Some? then both else Cut(both, t)) == After(t, Translate(e, cx, sideKeys), Touched(e, cx, mode), cx.remote)
  {
    AndBuilt(t, left, right, cx, Physical(sideKeys));
  }

  // An OR that is not a membership is pushed as a whole or leaves nothing.
  lemma OrBuilt(t: Tables, left: Expr, right: Expr, cx: Context, mode: Mode)
    requires !(HasSideKeys(mode) && OrEqualities(left, right, cx).Some?)
    ensures var e, side, both := BinaryExpr(left, Or, right), HasSideKeys(mode), AfterBoth(t, left, right, cx, mode);
      var spec := OrResult(EncodeAt(Translate(left, cx, side), cx.remote, |t.constants|, |t.keys|),
                           SecondSpec(t, left, right, cx, mode));
      && spec == EncodeAt(Translate(e, cx, side), cx.remote, |t.constants|, |t.keys|)
      && Grown(t, both)
      && (if spec.Some? then both else Cut(both, t)) == After(t, Translate(e, cx, side), Touched(e, cx, mode), cx.remote)
  {
    var side := HasSideKeys(mode);
    TranslateJunction(left, right, cx, side);
    BothSides(t, Translate(left, cx, side), Touched(left, cx, mode), Translate(right, cx, side), Touched(right, cx, mode), cx.remote);
  }

  /** `t'` truncated to the lengths of `t`. */
  function Cut(t': Tables, t: Tables): Tables {
    if Grown(t, t') then
      Tables(t'.constants[..|t.constants|], t'.referenced[..|t.referenced|], t'.keys[..|t.keys|])
    else t'
  }

  lemma AfterCounts(t: Tables, p: Option<Pred>, touched: seq<nat>, remote: Schema)
    requires p.Some? ==> Fits(p.value, |remote|)
    ensures |After(t, p, touched, remote).constants| == |t.constants| + ConstantCount(p)
    ensures |After(t, p, touched, remote).keys| == |t.keys| + KeyCount(p, remote)
  {}

  lemma AfterGrows(t: Tables, p: Option<Pred>, touched: seq<nat>, remote: Schema)
    requires p.Some? ==> Fits(p.value, |remote|)
    ensures Grown(t, After(t, p, touched, remote))
  {
    AddAllExtends(t.referenced, touched);
  }

  /** The tables only grew, so truncating them gives the old ones back. */
  predicate Grown(t: Tables, t': Tables) {
    t.constants <= t'.constants && t.referenced <= t'.referenced && t.keys <= t'.keys
  }

  lemma NoConjuncts(t: Tables, touched: seq<nat>, remote: Schema)
    ensures After(t, None, touched, remote) == AfterAll(t, [], touched, remote)
  {
  }

  lemma OneConjunct(p: Pred, remote: Schema, c: nat, k: nat)
    requires Fits(p, |remote|)
    ensures AllConstants([p]) == Constants(p) && AllKeys([p], remote) == Keys(p, remote)
    ensures EncodeAll([p], remote, c, k) == [Encode(p, remote, c, k)]
  {
  }

  lemma SinglePred(t: Tables, p: Option<Pred>, touched: seq<nat>, remote: Schema)
    requires p.Some? ==> Fits(p.value, |remote|)
    ensures var ps := if p.Some? then [p.value] else [];
      && After(t, p, touched, remote) == AfterAll(t, ps, touched, remote)
      && EncodeAll(ps, remote, |t.constants|, |t.keys|)
         == if p.Some? then [Encode(p.value, remote, |t.constants|, |t.keys|)] else []
  {
    NoConjuncts(t, touched, remote);
    if p.Some? {
      OneConjunct(p.value, remote, |t.constants|, |t.keys|);
    }
  }

  // The conjuncts of two predicates in turn.
  lemma TwoLists(t: Tables, a: seq<Pred>, ta: seq<nat>, b: seq<Pred>, tb: seq<nat>, remote: Schema)
    requires AllFitIn(a, remote) && AllFitIn(b, remote)
    ensures AllFitIn(a + b, remote)
    ensures AfterAll(AfterAll(t, a, ta, remote), b, tb, remote) == AfterAll(t, a + b, ta + tb, remote)
    ensures var t' := AfterAll(t, a, ta, remote);
      EncodeAll(a + b, remote, |t.constants|, |t.keys|)
      == EncodeAll(a, remote, |t.constants|, |t.keys|) + EncodeAll(b, remote, |t'.constants|, |t'.keys|)
  {
    EncodeAllConcat(a, b, remote, |t.constants|, |t.keys|);
    TablesConcat(a, b, remote);
    AddAllConcat(t.referenced, ta, tb);
    Assoc(t.constants, AllConstants(a), AllConstants(b));
    Assoc(t.keys, AllKeys(a, remote), AllKeys(b, remote));
  }

  // One more conjunct.
  lemma OneMore(t: Tables, ps: seq<Pred>, touched: seq<nat>, p: Pred, more: seq<nat>, remote: Schema)
    requires AllFitIn(ps, remote) && Fits(p, |remote|)
    ensures AllFitIn(ps + [p], remote)
    ensures After(AfterAll(t, ps, touched, remote), Some(p), more, remote) == AfterAll(t, ps + [p], touched + more, remote)
    ensures EncodeAll(ps + [p], remote, |t.constants|, |t.keys|)
            == EncodeAll(ps, remote, |t.constants|, |t.keys|)
             + [Encode(p, remote, |t.constants + AllConstants(ps)|, |t.keys + AllKeys(ps, remote)|)]
  {
    var t' := AfterAll(t, ps, touched, remote);
    TwoLists(t, ps, touched, [p], more, remote);
    SinglePred(t', Some(p), more, remote);
  }

  /** The first `i` fields of a tuple membership are pushed. */
  ghost predicate FieldsPushed(t: Tables, state: Tables, specs: seq<Spec>, list: seq<Expr>, names: seq<string>, cx: Context, i: nat)
    requires AllTuples(list, cx.engine, |names|) && i <= |names|
  {
    var ps := FieldMembers(list, names, cx, i);
    && ps.Some? && AllFitIn(ps.value, cx.remote)
    && specs == EncodeAll(ps.value, cx.remote, |t.constants|, |t.keys|)
    && state == AfterAll(t, ps.value, MemberColumns(ps.value), cx.remote)
  }

  lemma FieldPushed(t: Tables, state: Tables, specs: seq<Spec>, list: seq<Expr>, names: seq<string>, cx: Context, i: nat)
    requires AllTuples(list, cx.engine, |names|) && i < |names| && FieldsPushed(t, state, specs, list, names, cx, i)
    requires Membership(InSet(names[i], FieldValues(list, cx.engine, |names|, i)), cx).Some?
    ensures var inSet := InSet(names[i], FieldValues(list, cx.engine, |names|, i));
      FieldsPushed(t, After(state, Membership(inSet, cx), MembershipTouches(inSet, cx), cx.remote),
                   specs + [Encode(Membership(inSet, cx).value, cx.remote, |state.constants|, |state.keys|)],
                   list, names, cx, i + 1)
  {
    var ps := FieldMembers(list, names, cx, i).value;
    var p := Membership(InSet(names[i], FieldValues(list, cx.engine, |names|, i)), cx).value;
    OneMore(t, ps, MemberColumns(ps), p, [p.column], cx.remote);
    assert (ps + [p])[..i] == ps;
  }

  lemma FieldFailed(t: Tables, state: Tables, specs: seq<Spec>, list: seq<Expr>, names: seq<string>, cx: Context, i: nat)
    requires AllTuples(list, cx.engine, |names|) && i < |names| && FieldsPushed(t, state, specs, list, names, cx, i)
    requires Membership(InSet(names[i], FieldValues(list, cx.engine, |names|, i)), cx).None?
    ensures FieldMembers(list, names, cx, |names|).None?
    ensures var touched := MembershipTouches(InSet(names[i], FieldValues(list, cx.engine, |names|, i)), cx);
      var t' := After(state, None, touched, cx.remote);
      Grown(t, t') && Cut(t', t) == t
  {
    var ps := FieldMembers(list, names, cx, i).value;
    var touched := MembershipTouches(InSet(names[i], FieldValues(list, cx.engine, |names|, i)), cx);
    FailedFieldFails(list, names, cx, i + 1, |names|);
    ConjunctsCut(t, ps, MemberColumns(ps), touched, cx.remote);
  }

  lemma ConjunctsCut(t: Tables, ps: seq<Pred>, touched: seq<nat>, more: seq<nat>, remote: Schema)
    requires AllFitIn(ps, remote)
    ensures var t' := After(AfterAll(t, ps, touched, remote), None, more, remote);
      Grown(t, t') && Cut(t', t) == t
  {
    AddAllExtends(t.referenced, touched);
    AddAllExtends(AddAll(t.referenced, touched), more);
  }

  lemma TopAnd(t: Tables, e: Expr, cx: Context, sideKeys: bool, out: seq<Spec>)
    requires e.BinaryExpr? && e.op.And?
    requires AllFitIn(TopPreds(e.left, cx, sideKeys), cx.remote) && AllFitIn(TopPreds(e.right, cx, sideKeys), cx.remote)
    ensures AllFitIn(TopPreds(e, cx, sideKeys), cx.remote)
    ensures var t' := AfterAll(t, TopPreds(e.left, cx, sideKeys), TopTouched(e.left, cx, sideKeys), cx.remote);
      && AfterAll(t', TopPreds(e.right, cx, sideKeys), TopTouched(e.right, cx, sideKeys), cx.remote)
         == AfterAll(t, TopPreds(e, cx, sideKeys), TopTouched(e, cx, sideKeys), cx.remote)
      && out + EncodeAll(TopPreds(e.left, cx, sideKeys), cx.remote, |t.constants|, |t.keys|)
             + EncodeAll(TopPreds(e.right, cx, sideKeys), cx.remote, |t'.constants|, |t'.keys|)
         == out + EncodeAll(TopPreds(e, cx, sideKeys), cx.remote, |t.constants|, |t.keys|)
  {
    var a, b := TopPreds(e.left, cx, sideKeys), TopPreds(e.right, cx, sideKeys);
    TwoLists(t, a, TopTouched(e.left, cx, sideKeys), b, TopTouched(e.right, cx, sideKeys), cx.remote);
    var t' := AfterAll(t, a, TopTouched(e.left, cx, sideKeys), cx.remote);
    Assoc(out, EncodeAll(a, cx.remote, |t.constants|, |t.keys|), EncodeAll(b, cx.remote, |t'.constants|, |t'.keys|));
  }

  // Once a field fails, the whole tuple does.
  lemma {:induction false} FailedFieldFails(list: seq<Expr>, names: seq<string>, cx: Context, k: nat, n: nat)
    requires AllTuples(list, cx.engine, |names|) && k <= n <= |names|
    requires FieldMembers(list, names, cx, k).None?
    ensures FieldMembers(list, names, cx, n).None?
  {
    if k < n {
      FailedFieldFails(list, names, cx, k, n - 1);
    }
  }
}
