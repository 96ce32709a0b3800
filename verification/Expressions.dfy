/** Predicates, rows and SQL's three-valued evaluation, on the query engine's side. */
module Expressions {
  import opened Wrappers

  datatype Truth = True | False | Unknown

  function And3(a: Truth, b: Truth): Truth {
    if a == False || b == False then False else if a == True && b == True then True else Unknown
  }

  function Or3(a: Truth, b: Truth): Truth {
    if a == True || b == True then True else if a == False && b == False then False else Unknown
  }

  function Not3(a: Truth): Truth {
    match a case True => False case False => True case Unknown => Unknown
  }

  datatype DataType =
    | Null | Boolean
    | Float16 | Float32 | Float64
    | Decimal32 | Decimal64 | Decimal128 | Decimal256
    | Int8 | Int16 | Int32 | Int64 | UInt8 | UInt16 | UInt32 | UInt64
    | Utf8 | Utf8View | LargeUtf8
    | Binary | BinaryView | FixedSizeBinary | LargeBinary
    | Date32 | Date64 | Time32 | Time64 | Timestamp | Interval | Duration
    | Dictionary(key: DataType, value: DataType)
    | Struct(fields: seq<DataType>)
    | Nested

  /** A typed value; `rank` is its position in the order Arrow compares values of its type with. */
  datatype Datum = Atom(rank: int) | Tuple(fields: seq<Scalar>)

  datatype Scalar = Scalar(ty: DataType, datum: Option<Datum>)

  datatype Comparison = Eq | NotEq | Lt | LtEq | Gt | GtEq

  datatype Operator = Compare(cmp: Comparison) | And | Or | Other(id: nat)

  datatype Expr =
    | Column(name: string)
    | Literal(value: Scalar)
    | Cast(inner: Expr, ty: DataType)
    | BinaryExpr(left: Expr, op: Operator, right: Expr)
    | IsNull(inner: Expr)
    | IsNotNull(inner: Expr)
    | InList(inner: Expr, list: seq<Expr>, negated: bool)
    | Call(func: string, args: seq<Expr>)

  datatype Field = Field(name: string, ty: DataType)

  type Schema = seq<Field>
  type Row = seq<Scalar>

  /** Engine primitives that are not modelled: casts, other operators and other functions. */
  datatype Engine = Engine(
    cast: (Scalar, DataType) -> Option<Scalar>,
    apply: (nat, Scalar, Scalar) -> Option<Scalar>,
    call: (string, seq<Scalar>) -> Option<Scalar>)

  /** Casting a value to the type it already has changes nothing. */
  ghost predicate NoOpCasts(engine: Engine) {
    forall v: Scalar :: engine.cast(v, v.ty) == Some(v)
  }

  /** Position of the first field called `name`. */
  function IndexOf(schema: Schema, name: string): (r: Option<nat>)
    ensures r.Some? ==> r.value < |schema| && schema[r.value].name == name
    ensures r.None? <==> forall i :: 0 <= i < |schema| ==> schema[i].name != name
  {
    if schema == [] then None
    else if schema[0].name == name then Some(0)
    else
      var rest := IndexOf(schema[1..], name);
      assert rest.None? ==> forall i :: 0 < i < |schema| ==> schema[i] == schema[1..][i - 1];
      assert rest.Some? ==> schema[rest.value + 1] == schema[1..][rest.value];
      if rest.None? then None else Some(rest.value + 1)
  }

  ghost predicate Conforms(row: Row, schema: Schema) {
    |row| == |schema| && forall i :: 0 <= i < |row| ==> row[i].ty == schema[i].ty
  }

  // ---------------------------------------------------------------------
  // Evaluation

  predicate CompareRanks(op: Comparison, a: int, b: int) {
    match op
    case Eq => a == b
    case NotEq => a != b
    case Lt => a < b
    case LtEq => a <= b
    case Gt => a > b
    case GtEq => a >= b
  }

  /** A comparison; unknown when an operand is null, and tuples support (in)equality only. */
  function CompareScalars(op: Comparison, a: Scalar, b: Scalar): Truth {
    if a.datum.None? || b.datum.None? then Unknown
    else if a.datum.value.Atom? && b.datum.value.Atom? then
      if CompareRanks(op, a.datum.value.rank, b.datum.value.rank) then True else False
    else match op
      case Eq => if a.datum == b.datum then True else False
      case NotEq => if a.datum == b.datum then False else True
      case _ => Unknown
  }

  /** `v IN (values)`, which SQL defines as the disjunction of the equalities. */
  function InTruth(v: Scalar, values: seq<Scalar>): Truth {
    if values == [] then False
    else Or3(InTruth(v, values[..|values| - 1]), CompareScalars(Eq, v, values[|values| - 1]))
  }

  function FromTruth(t: Truth): Scalar {
    match t
    case True => Scalar(Boolean, Some(Atom(1)))
    case False => Scalar(Boolean, Some(Atom(0)))
    case Unknown => Scalar(Boolean, None)
  }

  function TruthOf(s: Scalar): Truth {
    if s.datum.None? then Unknown else if s.datum == Some(Atom(1)) then True else False
  }

  function Types(values: seq<Scalar>): seq<DataType> {
    seq(|values|, i requires 0 <= i < |values| => values[i].ty)
  }

  /** The value of an expression on a row; `None` is an evaluation error. AND and OR stop early. */
  function Eval(e: Expr, schema: Schema, row: Row, engine: Engine): Option<Scalar>
    requires |row| == |schema|
    decreases e, 1
  {
    match e
    case Column(name) =>
      var index := IndexOf(schema, name);
      if index.Some? then Some(row[index.value]) else None
    case Literal(value) => Some(value)
    case Cast(inner, ty) =>
      var v := Eval(inner, schema, row, engine);
      if v.None? then None else engine.cast(v.value, ty)
    case BinaryExpr(left, op, right) =>
      var l := Eval(left, schema, row, engine);
      if l.None? then None
      else if op.And? && TruthOf(l.value) == False then Some(FromTruth(False))
      else if op.Or? && TruthOf(l.value) == True then Some(FromTruth(True))
      else
        var r := Eval(right, schema, row, engine);
        if r.None? then None
        else (
          match op
          case And => Some(FromTruth(And3(TruthOf(l.value), TruthOf(r.value))))
          case Or => Some(FromTruth(Or3(TruthOf(l.value), TruthOf(r.value))))
          case Compare(cmp) => Some(FromTruth(CompareScalars(cmp, l.value, r.value)))
          case Other(id) => engine.apply(id, l.value, r.value)
        )
    case IsNull(inner) =>
      var v := Eval(inner, schema, row, engine);
      if v.None? then None else Some(FromTruth(if v.value.datum.None? then True else False))
    case IsNotNull(inner) =>
      var v := Eval(inner, schema, row, engine);
      if v.None? then None else Some(FromTruth(if v.value.datum.None? then False else True))
    case InList(inner, list, negated) =>
      var v := Eval(inner, schema, row, engine);
      var values := EvalAll(list, schema, row, engine);
      if v.None? || values.None? then None
      else
        var t := InTruth(v.value, values.value);
        Some(FromTruth(if negated then Not3(t) else t))
    case Call(f, args) =>
      var values := EvalAll(args, schema, row, engine);
      if values.None? then None
      else if f == "struct" then Some(Scalar(Struct(Types(values.value)), Some(Tuple(values.value))))
      else engine.call(f, values.value)
  }

  function EvalAll(es: seq<Expr>, schema: Schema, row: Row, engine: Engine): (r: Option<seq<Scalar>>)
    requires |row| == |schema|
    ensures r.Some? ==> |r.value| == |es|
    decreases es, 0
  {
    if es == [] then Some([])
    else
      var v := Eval(es[0], schema, row, engine);
      var rest := EvalAll(es[1..], schema, row, engine);
      if v.None? || rest.None? then None else Some([v.value] + rest.value)
  }

  /** The row makes the predicate TRUE. */
  predicate Satisfies(e: Expr, schema: Schema, row: Row, engine: Engine)
    requires |row| == |schema|
  {
    var v := Eval(e, schema, row, engine);
    v.Some? && TruthOf(v.value) == True
  }

  // ---------------------------------------------------------------------
  // Facts about IN

  lemma {:induction false} InTruthConcat(v: Scalar, a: seq<Scalar>, b: seq<Scalar>)
    ensures InTruth(v, a + b) == Or3(InTruth(v, a), InTruth(v, b))
  {
    if b == [] {
      assert a + b == a;
    } else {
      assert (a + b)[..|a + b| - 1] == a + b[..|b| - 1];
      InTruthConcat(v, a, b[..|b| - 1]);
    }
  }

  lemma {:induction false} InTruthIsMembership(v: Scalar, values: seq<Scalar>)
    ensures InTruth(v, values) == True <==> exists i :: 0 <= i < |values| && CompareScalars(Eq, v, values[i]) == True
  {
    if values != [] {
      InTruthIsMembership(v, values[..|values| - 1]);
      if i :| 0 <= i < |values| && CompareScalars(Eq, v, values[i]) == True {
        assert i < |values| - 1 ==> values[..|values| - 1][i] == values[i];
      }
    }
  }

  lemma {:induction false} EvalAllAt(es: seq<Expr>, schema: Schema, row: Row, engine: Engine, i: nat)
    requires |row| == |schema| && i < |es| && EvalAll(es, schema, row, engine).Some?
    ensures Eval(es[i], schema, row, engine) == Some(EvalAll(es, schema, row, engine).value[i])
  {
    if i > 0 {
      EvalAllAt(es[1..], schema, row, engine, i - 1);
    }
  }
}
