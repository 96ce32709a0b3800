/**
 The Top-N hint: a local sort with a fetch tells the worker below it that it may
 stop early.

 Relations are maps from row identities to rows, so a plan's result says which
 rows it holds. The worker is free in everything but its contract: of each split
 it may drop rows only if it was given a limit and keeps a valid top of that split.
 */
module TopN {
  import opened Wrappers
  import opened CacheIdentity

  type Id = nat
  type Value = Option<int>
  type Name = n: Bytes | |n| < U64
  type Row = seq<Value>
  type Base = map<Name, Value>
  type Relation = map<Id, Row>

  const I64_MAX: nat := 0x7FFF_FFFF_FFFF_FFFF
  const USIZE_MAX: nat := 0xFFFF_FFFF_FFFF_FFFF

  // ---------------------------------------------------------------------
  // Orders

  predicate ValueLeq(a: Value, b: Value, direction: Direction, nulls: NullOrder) {
    match (a, b)
    case (None, None) => true
    case (None, Some(_)) => nulls == NullsFirst
    case (Some(_), None) => nulls == NullsLast
    case (Some(x), Some(y)) => if direction == Ascending then x <= y else y <= x
  }

  /** `leq` orders all of `all` totally, with ties. */
  ghost predicate IsOrder(leq: Order, all: set<Id>) {
    && (forall a, b :: a in all && b in all ==> Before(leq, a, b) || Before(leq, b, a))
    && (forall a, b, c :: a in all && b in all && c in all && Before(leq, a, b) && Before(leq, b, c) ==> Before(leq, a, c))
  }

  /** `top` is one of the possibly several sets of the `k` first rows. */
  ghost predicate IsTop(leq: Order, all: set<Id>, top: set<Id>, k: nat) {
    && top <= all
    && |top| == (if k <= |all| then k else |all|)
    && forall t, r :: t in top && r in all && r !in top ==> Before(leq, t, r)
  }

  ghost predicate AllBefore(leq: Order, front: set<Id>, r: Id) {
    forall t :: t in front ==> Before(leq, t, r)
  }

  /** At least `k` of the kept rows come no later than `r`. */
  ghost predicate Covered(leq: Order, kept: set<Id>, r: Id, k: nat) {
    exists front: set<Id> :: front <= kept && |front| == k && AllBefore(leq, front, r)
  }

  lemma SubsetIsSmaller(a: set<Id>, b: set<Id>)
    requires a <= b
    ensures |a| <= |b| && (|a| == |b| ==> a == b)
  {
    assert b == a + (b - a);
  }

  // Dropping only covered rows does not change what a top of the rest can be.
  lemma TopOfKeptIsTop(leq: Order, all: set<Id>, kept: set<Id>, top: set<Id>, k: nat)
    requires IsOrder(leq, all) && kept <= all && IsTop(leq, kept, top, k)
    requires forall r :: r in all && r !in kept ==> Covered(leq, kept, r, k)
    ensures IsTop(leq, all, top, k)
  {
    SubsetIsSmaller(kept, all);
    if kept == all {
      return;
    }
    forall r | r in all && r !in kept
      ensures |top| == k && forall t :: t in top ==> Before(leq, t, r)
    {
      var front: set<Id> :| front <= kept && |front| == k && AllBefore(leq, front, r);
      SubsetIsSmaller(front, kept);
      if front <= top {
        SubsetIsSmaller(front, top);
      } else {
        var t :| t in front && t !in top;
        assert forall u :: u in top ==> Before(leq, u, t);
      }
    }
    var r :| r in all && r !in kept;
    assert |top| == k;
  }

  // What a worker may drop of one split is covered by what it keeps of it.
  lemma DroppedIsCovered(leq: Order, split: set<Id>, kept: set<Id>, top: set<Id>, k: nat, r: Id)
    requires IsTop(leq, split, top, k) && top <= kept && r in split && r !in kept
    ensures Covered(leq, kept, r, k)
  {
    SubsetIsSmaller(top, split);
    assert |top| == k;
  }

  // ---------------------------------------------------------------------
  // Logical plans

  datatype KeyExpr = KeyColumn(index: nat) | KeyComputed(compute: Row -> Value)

  datatype SortKey = SortKey(expr: KeyExpr, direction: Direction, nulls: NullOrder)

  /** A field of a plan's schema; two fields may share a name if their qualifiers differ. */
  datatype Field = Field(qualifier: Option<Name>, name: Name)

  datatype ProjectExpr =
    | Direct(index: nat, field: Field)
    | Computed(compute: Row -> Value, field: Field)

  datatype Provider = Provider(columns: seq<Name>, mapping: map<Name, Name>, rows: map<Id, Base>, orderBy: Option<OrderBy>)

  datatype Plan =
    | Scan(table: Name, provider: Provider, projection: seq<nat>, filters: seq<Base -> bool>)
    | Filter(keep: Row -> bool, input: Plan)
    | Project(exprs: seq<ProjectExpr>, input: Plan)
    | Repartition(input: Plan)
    | Alias(alias: Name, input: Plan)
    | Sort(keys: seq<SortKey>, fetch: Option<nat>, input: Plan)
    | Other(fields: seq<Field>, combine: seq<Relation> -> Relation, inputs: seq<Plan>)

  function Schema(plan: Plan): seq<Field> {
    match plan
    case Scan(table, provider, projection, _) =>
      seq(|projection|, i requires 0 <= i < |projection| =>
        Field(Some(table), if projection[i] < |provider.columns| then provider.columns[projection[i]] else []))
    case Filter(_, input) => Schema(input)
    case Project(exprs, _) => seq(|exprs|, i requires 0 <= i < |exprs| => exprs[i].field)
    case Repartition(input) => Schema(input)
    case Alias(alias, input) =>
      var fields := Schema(input);
      seq(|fields|, i requires 0 <= i < |fields| => Field(Some(alias), fields[i].name))
    case Sort(_, _, input) => Schema(input)
    case Other(fields, _, _) => fields
  }

  /** The remote column behind a public one. */
  function RemoteName(provider: Provider, name: Name): Option<Name> {
    if name !in provider.columns then None
    else if name in provider.mapping then Some(provider.mapping[name])
    else Some(name)
  }

  function At(row: Row, index: nat): Value {
    if index < |row| then row[index] else None
  }

  function Cell(base: Base, name: Name): Value {
    if name in base then base[name] else None
  }

  function PublicCell(provider: Provider, base: Base, name: Name): Value {
    var remote := RemoteName(provider, name);
    if remote.Some? then Cell(base, remote.value) else None
  }

  function KeyValue(key: SortKey, row: Row): Value {
    match key.expr
    case KeyColumn(index) => At(row, index)
    case KeyComputed(compute) => compute(row)
  }

  predicate KeysLeq(keys: seq<SortKey>, a: Row, b: Row) {
    if keys == [] then
      true
    else
      var x, y := KeyValue(keys[0], a), KeyValue(keys[0], b);
      && ValueLeq(x, y, keys[0].direction, keys[0].nulls)
      && (ValueLeq(y, x, keys[0].direction, keys[0].nulls) ==> KeysLeq(keys[1..], a, b))
  }

  /** An order of rows: by sort keys, by one column, or by a worker's column. */
  datatype Order =
    | ByKeys(keys: seq<SortKey>, rel: Relation)
    | ByColumn(rel: Relation, index: nat, direction: Direction, nulls: NullOrder)
    | ByBase(order: OrderBy, rows: map<Id, Base>)

  predicate Before(leq: Order, a: Id, b: Id) {
    match leq
    case ByKeys(keys, rel) => a in rel && b in rel && KeysLeq(keys, rel[a], rel[b])
    case ByColumn(rel, p, direction, nulls) => a in rel && b in rel && ValueLeq(At(rel[a], p), At(rel[b], p), direction, nulls)
    case ByBase(order, rows) =>
      a in rows && b in rows && |order.column| < U64
      && ValueLeq(Cell(rows[a], order.column), Cell(rows[b], order.column), order.direction, order.nullOrder)
  }

  // ----- what a plan may yield

  function Limit(order: Option<OrderBy>): Option<nat> {
    if order.Some? && order.value.limit.Some? && order.value.limit.value >= 0 then Some(order.value.limit.value) else None
  }

  /** The worker's answer for one split, before the scan's own filters. */
  ghost predicate SplitMayYield(provider: Provider, split: set<Id>, sent: set<Id>) {
    if Limit(provider.orderBy).None? then
      split <= sent
    else
      exists top: set<Id> ::
        top <= sent && IsTop(ByBase(provider.orderBy.value, provider.rows), split, top, Limit(provider.orderBy).value)
  }

  /** The rows are cut into splits in some way, and each split is answered. */
  ghost predicate ScanMayYield(provider: Provider, splits: seq<set<Id>>, sent: set<Id>) {
    && sent <= provider.rows.Keys
    && (forall s :: 0 <= s < |splits| ==> splits[s] <= provider.rows.Keys && SplitMayYield(provider, splits[s], sent))
    && (forall id :: id in provider.rows ==> exists s :: 0 <= s < |splits| && id in splits[s])
  }

  ghost function ScanRow(provider: Provider, projection: seq<nat>, base: Base): Row {
    seq(|projection|, i requires 0 <= i < |projection| =>
      if projection[i] < |provider.columns| then PublicCell(provider, base, provider.columns[projection[i]]) else None)
  }

  ghost function ScanRelation(provider: Provider, projection: seq<nat>, filters: seq<Base -> bool>, sent: set<Id>): Relation {
    map id | id in sent && id in provider.rows && (forall i :: 0 <= i < |filters| ==> filters[i](provider.rows[id]))
      :: ScanRow(provider, projection, provider.rows[id])
  }

  ghost function ProjectRow(exprs: seq<ProjectExpr>, row: Row): Row {
    seq(|exprs|, i requires 0 <= i < |exprs| => if exprs[i].Direct? then At(row, exprs[i].index) else exprs[i].compute(row))
  }

  ghost function FilterRelation(keep: Row -> bool, rel: Relation): Relation {
    map id | id in rel && keep(rel[id]) :: rel[id]
  }

  ghost function ProjectRelation(exprs: seq<ProjectExpr>, rel: Relation): Relation {
    map id | id in rel :: ProjectRow(exprs, rel[id])
  }

  ghost function Restrict(rel: Relation, ids: set<Id>): Relation {
    map id | id in rel && id in ids :: rel[id]
  }

  ghost predicate MayYield(plan: Plan, rel: Relation) {
    match plan
    case Scan(_, provider, projection, filters) =>
      exists splits: seq<set<Id>>, sent: set<Id> ::
        ScanMayYield(provider, splits, sent) && rel == ScanRelation(provider, projection, filters, sent)
    case Filter(keep, input) => exists r: Relation :: MayYield(input, r) && rel == FilterRelation(keep, r)
    case Project(exprs, input) => exists r: Relation :: MayYield(input, r) && rel == ProjectRelation(exprs, r)
    case Repartition(input) => MayYield(input, rel)
    case Alias(_, input) => MayYield(input, rel)
    case Sort(keys, fetch, input) =>
      exists r: Relation, top: set<Id> ::
        MayYield(input, r) && SortMayKeep(keys, fetch, r, top) && rel == Restrict(r, top)
    case Other(_, combine, inputs) =>
      exists rels: seq<Relation> ::
        |rels| == |inputs| && (forall i :: 0 <= i < |inputs| ==> MayYield(inputs[i], rels[i])) && rel == combine(rels)
  }

  /** A sort with a fetch keeps some top of its input; without one it keeps everything. */
  ghost predicate SortMayKeep(keys: seq<SortKey>, fetch: Option<nat>, rel: Relation, top: set<Id>) {
    if fetch.None? then top == rel.Keys else IsTop(ByKeys(keys, rel), rel.Keys, top, fetch.value)
  }

  // ---------------------------------------------------------------------
  // The rewrite

  function PositionOf(fields: seq<Field>, name: Name): (p: Option<nat>)
    ensures p.Some? ==> p.value < |fields| && fields[p.value].name == name
  {
    if fields == [] then None
    else if fields[0].name == name then Some(0)
    else
      var rest := PositionOf(fields[1..], name);
      if rest.Some? then Some(rest.value + 1) else None
  }

  /** A scan below filters, projections, repartitions and aliases. */
  predicate IsChain(plan: Plan) {
    match plan
    case Scan(_, _, _, _) => true
    case Filter(_, input) => IsChain(input)
    case Project(_, input) => IsChain(input)
    case Repartition(input) => IsChain(input)
    case Alias(_, input) => IsChain(input)
    case _ => false
  }

  function ProviderOf(plan: Plan): Provider
    requires IsChain(plan)
  {
    if plan.Scan? then plan.provider else ProviderOf(plan.input)
  }

  /** The hint is looked up by name at every projection, without regard to qualifiers. */
  function HintInput(plan: Plan, hint: OrderBy): (r: Option<Plan>)
    requires |hint.column| < U64
    ensures r.Some? ==> IsChain(plan) && IsChain(r.value) && ProviderOf(r.value).orderBy.Some?
  {
    match plan
    case Scan(table, provider, projection, filters) =>
      var remote := RemoteName(provider, hint.column);
      if remote.None? then None
      else
        var limit := if filters != [] then None else hint.limit;
        Some(Scan(table, provider.(orderBy := Some(hint.(column := remote.value, limit := limit))), projection, filters))
    case Filter(keep, input) =>
      var child := HintInput(input, hint.(limit := None));
      if child.None? then None else Some(Filter(keep, child.value))
    case Project(exprs, input) =>
      var index := PositionOf(Schema(plan), hint.column);
      if index.None? || exprs[index.value].Computed? || exprs[index.value].index >= |Schema(input)| then None
      else
        var child := HintInput(input, hint.(column := Schema(input)[exprs[index.value].index].name));
        if child.None? then None else Some(Project(exprs, child.value))
    case Repartition(input) =>
      var child := HintInput(input, hint);
      if child.None? then None else Some(Repartition(child.value))
    case Alias(alias, input) =>
      var child := HintInput(input, hint);
      if child.None? then None else Some(Alias(alias, child.value))
    case _ => None
  }

  /** The hint of a sort whose first key is a column of its input. */
  function HintOf(keys: seq<SortKey>, fetch: nat, fields: seq<Field>): Option<OrderBy> {
    if keys == [] || keys[0].expr.KeyComputed? || keys[0].expr.index >= |fields| then None
    else Some(OrderBy(fields[keys[0].expr.index].name, keys[0].direction, keys[0].nulls,
                      if |keys| == 1 && fetch <= I64_MAX then Some(fetch) else None))
  }

  function HintSort(keys: seq<SortKey>, fetch: Option<nat>, input: Plan): (r: Option<Plan>)
    ensures r.Some? ==> IsChain(input) && IsChain(r.value) && ProviderOf(r.value).orderBy.Some?
  {
    if fetch.None? then None
    else
      var hint := HintOf(keys, fetch.value, Schema(input));
      if hint.None? then None else HintInput(input, hint.value)
  }

  /** Every sort that can be is hinted; below a hinted one the walk stops. */
  function HintPlan(plan: Plan): Plan {
    match plan
    case Sort(keys, fetch, input) =>
      var hinted := HintSort(keys, fetch, input);
      if hinted.Some? then Sort(keys, fetch, hinted.value) else Sort(keys, fetch, HintPlan(input))
    case Scan(_, _, _, _) => plan
    case Filter(keep, input) => Filter(keep, HintPlan(input))
    case Project(exprs, input) => Project(exprs, HintPlan(input))
    case Repartition(input) => Repartition(HintPlan(input))
    case Alias(alias, input) => Alias(alias, HintPlan(input))
    case Other(fields, combine, inputs) =>
      Other(fields, combine, seq(|inputs|, i requires 0 <= i < |inputs| => HintPlan(inputs[i])))
  }

  // ---------------------------------------------------------------------
  // When a hint is right

  /** The remote column that a chain passes through unchanged to its output position `p`. */
  function Source(plan: Plan, p: nat): Option<Name> {
    match plan
    case Scan(_, provider, projection, _) =>
      if p < |projection| && projection[p] < |provider.columns| then RemoteName(provider, provider.columns[projection[p]]) else None
    case Filter(_, input) => Source(input, p)
    case Project(exprs, input) => if p < |exprs| && exprs[p].Direct? then Source(input, exprs[p].index) else None
    case Repartition(input) => Source(input, p)
    case Alias(_, input) => Source(input, p)
    case _ => None
  }

  /** The hint that reaches the scan. */
  function OrderAtScan(keys: seq<SortKey>, fetch: Option<nat>, input: Plan): (order: OrderBy)
    requires HintSort(keys, fetch, input).Some?
    ensures |order.column| < U64
  {
    HintArrives(input, HintOf(keys, fetch.value, Schema(input)).value, HintSort(keys, fetch, input).value);
    ProviderOf(HintSort(keys, fetch, input).value).orderBy.value
  }

  /**
   No limit reaches the scan, or nothing is fetched, or the worker is asked to order
   by the very column that the sort key shows.
   */
  predicate Faithful(keys: seq<SortKey>, fetch: Option<nat>, input: Plan) {
    HintSort(keys, fetch, input).Some? ==>
      var order := OrderAtScan(keys, fetch, input);
      order.limit.None? || fetch == Some(0) || Source(input, keys[0].expr.index) == Some(order.column)
  }

  /** All hints of a plan are faithful; plans that no hint passes through may name columns as they like. */
  ghost predicate AllFaithful(plan: Plan) {
    match plan
    case Sort(keys, fetch, input) => Faithful(keys, fetch, input) && (HintSort(keys, fetch, input).None? ==> AllFaithful(input))
    case Scan(_, _, _, _) => true
    case Filter(_, input) => AllFaithful(input)
    case Project(_, input) => AllFaithful(input)
    case Repartition(input) => AllFaithful(input)
    case Alias(_, input) => AllFaithful(input)
    case Other(_, _, inputs) => forall i :: 0 <= i < |inputs| ==> AllFaithful(inputs[i])
  }

  /** No scan is hinted yet. */
  ghost predicate Unhinted(plan: Plan) {
    match plan
    case Scan(_, provider, _, _) => provider.orderBy.None?
    case Filter(_, input) => Unhinted(input)
    case Project(_, input) => Unhinted(input)
    case Repartition(input) => Unhinted(input)
    case Alias(_, input) => Unhinted(input)
    case Sort(_, _, input) => Unhinted(input)
    case Other(_, _, inputs) => forall i :: 0 <= i < |inputs| ==> Unhinted(inputs[i])
  }

  /** A filter, on the chain or in the scan, stands between the sort and the worker. */
  predicate Filtered(plan: Plan)
    requires IsChain(plan)
  {
    if plan.Scan? then plan.filters != [] else plan.Filter? || Filtered(plan.input)
  }

  // The hint arrives with the sort's direction, and with its limit exactly when
  // nothing filters on the way.
  lemma {:induction false} HintArrives(plan: Plan, hint: OrderBy, hinted: Plan)
    requires |hint.column| < U64 && HintInput(plan, hint) == Some(hinted)
    ensures var order := ProviderOf(hinted).orderBy.value;
      && ProviderOf(hinted) == ProviderOf(plan).(orderBy := Some(order))
      && |order.column| < U64 && order.direction == hint.direction && order.nullOrder == hint.nullOrder
      && order.limit == if Filtered(plan) then None else hint.limit
  {
    match plan
    case Filter(_, input) => HintArrives(input, hint.(limit := None), hinted.input);
    case Project(exprs, input) =>
      var index := PositionOf(Schema(plan), hint.column).value;
      HintArrives(input, hint.(column := Schema(input)[exprs[index].index].name), hinted.input);
    case Repartition(input) => HintArrives(input, hint, hinted.input);
    case Alias(_, input) => HintArrives(input, hint, hinted.input);
    case _ =>
  }

  // ---------------------------------------------------------------------
  // Soundness

  lemma CoveredElsewhere(leq: Order, leq': Order, kept: set<Id>, kept': set<Id>, r: Id, k: nat)
    requires Covered(leq, kept, r, k) && kept <= kept'
    requires forall t :: t in kept && Before(leq, t, r) ==> Before(leq', t, r)
    ensures Covered(leq', kept', r, k)
  {
  }

  /** `kept` is `rel` without some rows, each covered, in the worker's order, by as many kept ones as its limit. */
  ghost predicate Prunes(rel: Relation, kept: Relation, provider: Provider) {
    && kept.Keys <= rel.Keys <= provider.rows.Keys && kept == Restrict(rel, kept.Keys)
    && forall r :: r in rel && r !in kept ==>
         && Limit(provider.orderBy).Some?
         && Covered(ByBase(provider.orderBy.value, provider.rows), kept.Keys, r, Limit(provider.orderBy).value)
  }

  // The rows that a hinted scan drops are covered by those it sends.
  lemma ScanCovers(provider: Provider, splits: seq<set<Id>>, sent: set<Id>, r: Id)
    requires provider.orderBy.Some? && ScanMayYield(provider, splits, sent) && r in provider.rows && r !in sent
    ensures Limit(provider.orderBy).Some?
    ensures Covered(ByBase(provider.orderBy.value, provider.rows), sent, r, Limit(provider.orderBy).value)
  {
    var s :| 0 <= s < |splits| && r in splits[s];
    assert SplitMayYield(provider, splits[s], sent);
    var leq, k := ByBase(provider.orderBy.value, provider.rows), Limit(provider.orderBy).value;
    var top: set<Id> :| top <= sent && IsTop(leq, splits[s], top, k);
    DroppedIsCovered(leq, splits[s], sent, top, k, r);
  }

  lemma UnhintedScanYieldsAll(provider: Provider)
    requires provider.orderBy.None?
    ensures ScanMayYield(provider, [provider.rows.Keys], provider.rows.Keys)
  {
    assert [provider.rows.Keys][0] == provider.rows.Keys;
  }

  lemma UnfilteredScan(provider: Provider, projection: seq<nat>, filters: seq<Base -> bool>, sent: set<Id>)
    requires sent <= provider.rows.Keys
    ensures var rel := ScanRelation(provider, projection, filters, provider.rows.Keys);
      var kept := ScanRelation(provider, projection, filters, sent);
      && kept.Keys == rel.Keys * sent && (filters == [] ==> kept.Keys == sent) && kept == Restrict(rel, kept.Keys)
      && (forall id :: id in rel ==> id in provider.rows && rel[id] == ScanRow(provider, projection, provider.rows[id]))
  {
  }

  // What a provider yields depends on its hint only through what is sent.
  lemma HintKeepsRows(provider: Provider, hint: Option<OrderBy>, projection: seq<nat>, filters: seq<Base -> bool>, sent: set<Id>)
    ensures ScanRelation(provider.(orderBy := hint), projection, filters, sent) == ScanRelation(provider, projection, filters, sent)
  {
    forall base: Base
      ensures ScanRow(provider.(orderBy := hint), projection, base) == ScanRow(provider, projection, base)
    {
    }
  }

  lemma SentPrunes(plan: Plan, hinted: Provider, splits: seq<set<Id>>, sent: set<Id>)
    requires plan.Scan? && hinted.orderBy.Some? && hinted == plan.provider.(orderBy := hinted.orderBy)
    requires (plan.filters != [] ==> hinted.orderBy.value.limit.None?) && ScanMayYield(hinted, splits, sent)
    ensures Prunes(ScanRelation(plan.provider, plan.projection, plan.filters, plan.provider.rows.Keys),
                   ScanRelation(plan.provider, plan.projection, plan.filters, sent), hinted)
  {
    var rel := ScanRelation(plan.provider, plan.projection, plan.filters, plan.provider.rows.Keys);
    var kept := ScanRelation(plan.provider, plan.projection, plan.filters, sent);
    UnfilteredScan(plan.provider, plan.projection, plan.filters, sent);
    forall r | r in rel && r !in kept
      ensures Limit(hinted.orderBy).Some?
      ensures Covered(ByBase(hinted.orderBy.value, hinted.rows), kept.Keys, r, Limit(hinted.orderBy).value)
    {
      ScanCovers(hinted, splits, sent, r);
    }
  }

  lemma ScanPrunes(plan: Plan, hint: OrderBy, hinted: Plan, kept: Relation) returns (rel: Relation)
    requires plan.Scan? && Unhinted(plan) && |hint.column| < U64 && HintInput(plan, hint) == Some(hinted)
    requires MayYield(hinted, kept)
    ensures MayYield(plan, rel) && Prunes(rel, kept, hinted.provider)
  {
    var provider := plan.provider;
    var splits: seq<set<Id>>, sent: set<Id> :|
      ScanMayYield(hinted.provider, splits, sent) && kept == ScanRelation(hinted.provider, plan.projection, plan.filters, sent);
    HintKeepsRows(provider, hinted.provider.orderBy, plan.projection, plan.filters, sent);
    rel := ScanRelation(provider, plan.projection, plan.filters, provider.rows.Keys);
    UnhintedScanYieldsAll(provider);
    SentPrunes(plan, hinted.provider, splits, sent);
  }

  lemma ProjectPrunes(exprs: seq<ProjectExpr>, rel: Relation, kept: Relation, provider: Provider)
    requires Prunes(rel, kept, provider)
    ensures Prunes(ProjectRelation(exprs, rel), ProjectRelation(exprs, kept), provider)
  {
    assert ProjectRelation(exprs, kept).Keys == kept.Keys && ProjectRelation(exprs, rel).Keys == rel.Keys;
  }

  // The induction along the chain from the sort to the scan, whatever the columns are called.
  lemma {:induction false} ChainPrunes(plan: Plan, hint: OrderBy, hinted: Plan, kept: Relation) returns (rel: Relation)
    requires Unhinted(plan) && |hint.column| < U64 && HintInput(plan, hint) == Some(hinted) && MayYield(hinted, kept)
    ensures MayYield(plan, rel) && Prunes(rel, kept, ProviderOf(hinted))
    decreases plan
  {
    match plan
    case Scan(_, _, _, _) =>
      rel := ScanPrunes(plan, hint, hinted, kept);
    case Filter(keep, input) =>
      var k: Relation :| MayYield(hinted.input, k) && kept == FilterRelation(keep, k);
      var r := ChainPrunes(input, hint.(limit := None), hinted.input, k);
      HintArrives(input, hint.(limit := None), hinted.input);
      assert k == r;
      rel := kept;
    case Project(exprs, input) =>
      var k: Relation :| MayYield(hinted.input, k) && kept == ProjectRelation(exprs, k);
      var index := PositionOf(Schema(plan), hint.column).value;
      var r := ChainPrunes(input, hint.(column := Schema(input)[exprs[index].index].name), hinted.input, k);
      ProjectPrunes(exprs, r, k, ProviderOf(hinted.input));
      rel := ProjectRelation(exprs, r);
    case Repartition(input) =>
      rel := ChainPrunes(input, hint, hinted.input, kept);
    case Alias(_, input) =>
      rel := ChainPrunes(input, hint, hinted.input, kept);
    case _ =>
  }

  // The output position `p` shows the remote column it is traced to.
  lemma {:induction false} SourceCells(plan: Plan, rel: Relation, p: nat, column: Name)
    requires IsChain(plan) && MayYield(plan, rel) && Source(plan, p) == Some(column)
    ensures forall id :: id in rel ==> id in ProviderOf(plan).rows && At(rel[id], p) == Cell(ProviderOf(plan).rows[id], column)
    decreases plan
  {
    match plan
    case Scan(_, provider, projection, filters) =>
      var splits: seq<set<Id>>, sent: set<Id> :|
        ScanMayYield(provider, splits, sent) && rel == ScanRelation(provider, projection, filters, sent);
    case Filter(keep, input) =>
      var r: Relation :| MayYield(input, r) && rel == FilterRelation(keep, r);
      SourceCells(input, r, p, column);
    case Project(exprs, input) =>
      var r: Relation :| MayYield(input, r) && rel == ProjectRelation(exprs, r);
      SourceCells(input, r, exprs[p].index, column);
    case Repartition(input) => SourceCells(input, rel, p, column);
    case Alias(_, input) => SourceCells(input, rel, p, column);
    case _ =>
  }

  function ColumnOrder(rel: Relation, key: SortKey): Order
    requires key.expr.KeyColumn?
  {
    ByColumn(rel, key.expr.index, key.direction, key.nulls)
  }

  lemma ColumnOrderIsOrder(rel: Relation, key: SortKey)
    requires key.expr.KeyColumn?
    ensures IsOrder(ColumnOrder(rel, key), rel.Keys)
  {
  }

  lemma SingleKeyOrder(key: SortKey, rel: Relation, a: Id, b: Id)
    requires key.expr.KeyColumn?
    ensures Before(ByKeys([key], rel), a, b) == Before(ColumnOrder(rel, key), a, b)
  {
    if a in rel && b in rel {
      assert KeysLeq([key][1..], rel[a], rel[b]);
    }
  }

  /** The worker's order is the order of the sort key. */
  ghost predicate SameOrder(key: SortKey, rel: Relation, order: OrderBy, rows: map<Id, Base>) {
    && key.expr.KeyColumn? && order.direction == key.direction && order.nullOrder == key.nulls && |order.column| < U64
    && forall id :: id in rel ==> id in rows && At(rel[id], key.expr.index) == Cell(rows[id], order.column)
  }

  lemma PrunedSortIsTop(key: SortKey, rel: Relation, kept: Relation, provider: Provider, top: set<Id>, k: nat)
    requires provider.orderBy.Some? && SameOrder(key, rel, provider.orderBy.value, provider.rows)
    requires Limit(provider.orderBy) == Some(k) && Prunes(rel, kept, provider)
    requires IsTop(ByKeys([key], kept), kept.Keys, top, k)
    ensures IsTop(ByKeys([key], rel), rel.Keys, top, k)
  {
    var leq := ColumnOrder(rel, key);
    forall a, b
      ensures Before(ByKeys([key], rel), a, b) == Before(leq, a, b)
      ensures a in kept && b in kept ==> Before(ByKeys([key], kept), a, b) == Before(leq, a, b)
    {
      SingleKeyOrder(key, rel, a, b);
      SingleKeyOrder(key, kept, a, b);
    }
    forall r | r in rel && r !in kept
      ensures Covered(leq, kept.Keys, r, k)
    {
      CoveredElsewhere(ByBase(provider.orderBy.value, provider.rows), leq, kept.Keys, kept.Keys, r, k);
    }
    ColumnOrderIsOrder(rel, key);
    TopOfKeptIsTop(leq, rel.Keys, kept.Keys, top, k);
  }

  lemma SortOfPruned(keys: seq<SortKey>, k: nat, rel: Relation, kept: Relation, provider: Provider, top: set<Id>)
    requires keys != [] && provider.orderBy.Some? && Prunes(rel, kept, provider)
    requires var limit := provider.orderBy.value.limit;
      limit.None? || k == 0 || (limit == Some(k) && |keys| == 1 && SameOrder(keys[0], rel, provider.orderBy.value, provider.rows))
    requires IsTop(ByKeys(keys, kept), kept.Keys, top, k)
    ensures IsTop(ByKeys(keys, rel), rel.Keys, top, k) && Restrict(kept, top) == Restrict(rel, top)
  {
    if kept.Keys == rel.Keys {
      assert kept == rel;
    } else if k == 0 {
      assert top == {};
    } else {
      var r :| r in rel && r !in kept;
      assert keys == [keys[0]];
      PrunedSortIsTop(keys[0], rel, kept, provider, top, k);
    }
  }

  // Sorting and fetching over a faithfully hinted input is a valid Top-N of the original one.
  lemma HintedSortIsValid(keys: seq<SortKey>, fetch: Option<nat>, input: Plan, hinted: Plan, out: Relation)
    requires Unhinted(input) && Faithful(keys, fetch, input)
    requires HintSort(keys, fetch, input) == Some(hinted)
    requires MayYield(Sort(keys, fetch, hinted), out)
    ensures MayYield(Sort(keys, fetch, input), out)
  {
    var kept, top := SortYielded(keys, fetch, hinted, out);
    var rel := ChainPrunes(input, HintOf(keys, fetch.value, Schema(input)).value, hinted, kept);
    FaithfulOrder(keys, fetch, input, hinted, rel);
    SortOfPruned(keys, fetch.value, rel, kept, ProviderOf(hinted), top);
    SortYields(keys, fetch, input, rel, top);
  }

  lemma SortYielded(keys: seq<SortKey>, fetch: Option<nat>, input: Plan, out: Relation) returns (rel: Relation, top: set<Id>)
    requires MayYield(Sort(keys, fetch, input), out)
    ensures MayYield(input, rel) && SortMayKeep(keys, fetch, rel, top) && out == Restrict(rel, top)
  {
    rel, top :| MayYield(input, rel) && SortMayKeep(keys, fetch, rel, top) && out == Restrict(rel, top);
  }

  lemma SortYields(keys: seq<SortKey>, fetch: Option<nat>, input: Plan, rel: Relation, top: set<Id>)
    requires MayYield(input, rel) && SortMayKeep(keys, fetch, rel, top)
    ensures MayYield(Sort(keys, fetch, input), Restrict(rel, top))
  {
  }

  lemma FaithfulOrder(keys: seq<SortKey>, fetch: Option<nat>, input: Plan, hinted: Plan, rel: Relation)
    requires HintSort(keys, fetch, input) == Some(hinted) && Faithful(keys, fetch, input) && MayYield(input, rel)
    ensures var order, rows := ProviderOf(hinted).orderBy.value, ProviderOf(hinted).rows;
      order.limit.None? || fetch == Some(0) || (order.limit == fetch && |keys| == 1 && SameOrder(keys[0], rel, order, rows))
  {
    var order := OrderAtScan(keys, fetch, input);
    HintArrives(input, HintOf(keys, fetch.value, Schema(input)).value, hinted);
    if Source(input, keys[0].expr.index) == Some(order.column) {
      SourceCells(input, rel, keys[0].expr.index, order.column);
    }
  }

  // The whole rewrite: whatever the hinted plan may yield, the original plan may.
  lemma {:induction false} HintingRefines(plan: Plan, out: Relation)
    requires Unhinted(plan) && AllFaithful(plan) && MayYield(HintPlan(plan), out)
    ensures MayYield(plan, out)
    decreases plan
  {
    match plan
    case Sort(keys, fetch, input) =>
      var hinted := HintSort(keys, fetch, input);
      if hinted.Some? {
        HintedSortIsValid(keys, fetch, input, hinted.value, out);
      } else {
        var r: Relation, top: set<Id> :| MayYield(HintPlan(input), r) && SortMayKeep(keys, fetch, r, top) && out == Restrict(r, top);
        HintingRefines(input, r);
      }
    case Scan(_, _, _, _) =>
    case Filter(keep, input) =>
      var r: Relation :| MayYield(HintPlan(input), r) && out == FilterRelation(keep, r);
      HintingRefines(input, r);
    case Project(exprs, input) =>
      var r: Relation :| MayYield(HintPlan(input), r) && out == ProjectRelation(exprs, r);
      HintingRefines(input, r);
    case Repartition(input) => HintingRefines(input, out);
    case Alias(_, input) => HintingRefines(input, out);
    case Other(_, combine, inputs) =>
      var hinted := HintPlan(plan).inputs;
      var rels: seq<Relation> :|
        |rels| == |hinted| && (forall i :: 0 <= i < |hinted| ==> MayYield(hinted[i], rels[i])) && out == combine(rels);
      forall i | 0 <= i < |inputs|
        ensures MayYield(inputs[i], rels[i])
      {
        assert MayYield(hinted[i], rels[i]);
        HintingRefines(inputs[i], rels[i]);
      }
  }

  // ----- distinct names

  ghost predicate Distinct(fields: seq<Field>) {
    forall i, j :: 0 <= i < j < |fields| ==> fields[i].name != fields[j].name
  }

  /** Every schema on the chain names its fields differently, and the scan projects existing columns. */
  ghost predicate DistinctlyNamed(plan: Plan)
    requires IsChain(plan)
  {
    && Distinct(Schema(plan))
    && if plan.Scan? then forall i :: 0 <= i < |plan.projection| ==> plan.projection[i] < |plan.provider.columns|
       else DistinctlyNamed(plan.input)
  }

  lemma {:induction false} PositionIsFirst(fields: seq<Field>, p: nat)
    requires p < |fields| && Distinct(fields)
    ensures PositionOf(fields, fields[p].name) == Some(p)
  {
    if p > 0 {
      assert fields[1..][p - 1] == fields[p];
      forall i, j | 0 <= i < j < |fields[1..]|
        ensures fields[1..][i].name != fields[1..][j].name
      {
        assert fields[i + 1].name != fields[j + 1].name;
      }
      PositionIsFirst(fields[1..], p - 1);
      assert fields[0].name != fields[p].name;
    }
  }

  lemma {:induction false} DistinctNamesFind(plan: Plan, hint: OrderBy, hinted: Plan, p: nat)
    requires |hint.column| < U64 && HintInput(plan, hint) == Some(hinted) && DistinctlyNamed(plan)
    requires p < |Schema(plan)| && Schema(plan)[p].name == hint.column
    ensures Source(plan, p) == Some(ProviderOf(hinted).orderBy.value.column)
    decreases plan
  {
    match plan
    case Project(exprs, input) =>
      PositionIsFirst(Schema(plan), p);
      DistinctNamesFind(input, hint.(column := Schema(input)[exprs[p].index].name), hinted.input, exprs[p].index);
    case Filter(_, input) => DistinctNamesFind(input, hint.(limit := None), hinted.input, p);
    case Repartition(input) => DistinctNamesFind(input, hint, hinted.input, p);
    case Alias(_, input) => DistinctNamesFind(input, hint, hinted.input, p);
    case _ =>
  }

  // Distinct names along the chain make a hint faithful.
  lemma DistinctNamesAreFaithful(keys: seq<SortKey>, fetch: Option<nat>, input: Plan)
    requires IsChain(input) && DistinctlyNamed(input)
    ensures Faithful(keys, fetch, input)
  {
    var hinted := HintSort(keys, fetch, input);
    if hinted.Some? {
      DistinctNamesFind(input, HintOf(keys, fetch.value, Schema(input)).value, hinted.value, keys[0].expr.index);
    }
  }

  // ---------------------------------------------------------------------
  // An unfaithful hint goes wrong

  /** The same plan over other rows. */
  function WithRows(plan: Plan, rows: map<Id, Base>): (r: Plan)
    requires IsChain(plan)
    ensures IsChain(r)
  {
    match plan
    case Scan(table, provider, projection, filters) => Scan(table, provider.(rows := rows), projection, filters)
    case Filter(keep, input) => Filter(keep, WithRows(input, rows))
    case Project(exprs, input) => Project(exprs, WithRows(input, rows))
    case Repartition(input) => Repartition(WithRows(input, rows))
    case Alias(alias, input) => Alias(alias, WithRows(input, rows))
  }

  lemma {:induction false} RowsChangeNothingElse(plan: Plan, rows: map<Id, Base>, p: nat)
    requires IsChain(plan)
    ensures var r := WithRows(plan, rows);
      && Schema(r) == Schema(plan) && Source(r, p) == Source(plan, p) && ProviderOf(r) == ProviderOf(plan).(rows := rows)
      && Filtered(r) == Filtered(plan) && (Unhinted(plan) ==> Unhinted(r))
    decreases plan
  {
    match plan
    case Scan(_, _, _, _) =>
    case Project(exprs, input) => RowsChangeNothingElse(input, rows, if p < |exprs| && exprs[p].Direct? then exprs[p].index else 0);
    case Filter(_, input) => RowsChangeNothingElse(input, rows, p);
    case Repartition(input) => RowsChangeNothingElse(input, rows, p);
    case Alias(_, input) => RowsChangeNothingElse(input, rows, p);
  }

  lemma {:induction false} RowsDoNotChangeHints(plan: Plan, rows: map<Id, Base>, hint: OrderBy)
    requires |hint.column| < U64 && IsChain(plan)
    ensures HintInput(WithRows(plan, rows), hint)
         == var h := HintInput(plan, hint); if h.None? then None else Some(WithRows(h.value, rows))
    decreases plan
  {
    RowsChangeNothingElse(plan, rows, 0);
    match plan
    case Scan(_, _, _, _) =>
    case Filter(_, input) => RowsDoNotChangeHints(input, rows, hint.(limit := None));
    case Project(exprs, input) =>
      RowsChangeNothingElse(input, rows, 0);
      var index := PositionOf(Schema(plan), hint.column);
      if index.Some? && exprs[index.value].Direct? && exprs[index.value].index < |Schema(input)| {
        RowsDoNotChangeHints(input, rows, hint.(column := Schema(input)[exprs[index.value].index].name));
      }
    case Repartition(input) => RowsDoNotChangeHints(input, rows, hint);
    case Alias(_, input) => RowsDoNotChangeHints(input, rows, hint);
  }

  // Without a hint there is nothing that a worker may leave out.
  lemma UnhintedIsComplete(provider: Provider, splits: seq<set<Id>>, sent: set<Id>)
    requires provider.orderBy.None? && ScanMayYield(provider, splits, sent)
    ensures sent == provider.rows.Keys
  {
    forall id | id in provider.rows
      ensures id in sent
    {
      var s :| 0 <= s < |splits| && id in splits[s];
      assert SplitMayYield(provider, splits[s], sent);
    }
  }

  lemma {:induction false} UnhintedChainIsComplete(plan: Plan, rel: Relation)
    requires IsChain(plan) && Unhinted(plan) && !Filtered(plan) && MayYield(plan, rel)
    ensures rel.Keys == ProviderOf(plan).rows.Keys
    decreases plan
  {
    match plan
    case Scan(_, provider, projection, filters) =>
      var splits: seq<set<Id>>, sent: set<Id> :|
        ScanMayYield(provider, splits, sent) && rel == ScanRelation(provider, projection, filters, sent);
      UnhintedIsComplete(provider, splits, sent);
      UnfilteredScan(provider, projection, filters, provider.rows.Keys);
    case Project(exprs, input) =>
      var r: Relation :| MayYield(input, r) && rel == ProjectRelation(exprs, r);
      UnhintedChainIsComplete(input, r);
    case Repartition(input) => UnhintedChainIsComplete(input, rel);
    case Alias(_, input) => UnhintedChainIsComplete(input, rel);
  }

  // Whatever rows the worker chooses to send arrive at the top of an unfiltered chain.
  lemma {:induction false} SentRowsArrive(plan: Plan, splits: seq<set<Id>>, sent: set<Id>) returns (rel: Relation)
    requires IsChain(plan) && !Filtered(plan) && ScanMayYield(ProviderOf(plan), splits, sent)
    ensures MayYield(plan, rel) && rel.Keys == sent
    decreases plan
  {
    match plan
    case Scan(_, provider, projection, filters) =>
      rel := ScanRelation(provider, projection, filters, sent);
      UnfilteredScan(provider, projection, filters, sent);
    case Project(exprs, input) =>
      var r := SentRowsArrive(input, splits, sent);
      rel := ProjectRelation(exprs, r);
    case Repartition(input) => rel := SentRowsArrive(input, splits, sent);
    case Alias(_, input) => rel := SentRowsArrive(input, splits, sent);
  }

  /** A value that comes strictly before `Last`. */
  function First(direction: Direction): Value {
    Some(if direction == Ascending then 0 else 1)
  }

  function Last(direction: Direction): Value {
    Some(if direction == Ascending then 1 else 0)
  }

  function Others(k: nat): (ids: set<Id>)
    ensures |ids| == k && forall id :: id in ids <==> 1 <= id <= k
  {
    if k == 0 then {} else Others(k - 1) + {k}
  }

  function TwoCells(a: Name, x: Value, b: Name, y: Value): (r: Base)
    ensures a != b ==> Cell(r, a) == x && Cell(r, b) == y
  {
    var r: Base := map[a := x, b := y];
    r
  }

  /** Row 0 is first by `wanted` and last by `asked`; the `k` others are the other way round. */
  function Trap(wanted: Name, asked: Name, direction: Direction, k: nat): map<Id, Base> {
    map id | id in Others(k) + {0} ::
      if id == 0 then TwoCells(wanted, First(direction), asked, Last(direction))
      else TwoCells(wanted, Last(direction), asked, First(direction))
  }

  // The worker may answer the hint without row 0.
  lemma TrapCloses(provider: Provider, wanted: Name, order: OrderBy, k: nat)
    requires wanted != order.column && |order.column| < U64 && order.limit == Some(k)
    requires provider.orderBy == Some(order) && provider.rows == Trap(wanted, order.column, order.direction, k)
    ensures ScanMayYield(provider, [provider.rows.Keys], Others(k))
  {
    var all, leq := provider.rows.Keys, ByBase(order, provider.rows);
    assert all == Others(k) + {0};
    assert IsTop(leq, all, Others(k), k);
    assert SplitMayYield(provider, all, Others(k));
    assert [all][0] == all;
  }

  // But every Top-N of the rows has it.
  lemma TopHoldsRowZero(key: SortKey, rel: Relation, top: set<Id>, k: nat)
    requires key.expr.KeyColumn? && 0 in rel && 1 in top && 1 in rel && IsTop(ByKeys([key], rel), rel.Keys, top, k)
    requires At(rel[0], key.expr.index) == First(key.direction) && At(rel[1], key.expr.index) == Last(key.direction)
    ensures 0 in top
  {
    SingleKeyOrder(key, rel, 1, 0);
  }

  // Where a limit of at least one reaches the scan and the worker is asked to order by
  // another column than the key's, some rows and some legal answer of the worker give
  // a result that the original plan cannot give.
  lemma UnfaithfulHintMisleads(keys: seq<SortKey>, fetch: Option<nat>, input: Plan) returns (rows: map<Id, Base>, out: Relation)
    requires HintSort(keys, fetch, input).Some? && Unhinted(input) && !Faithful(keys, fetch, input)
    requires Source(input, keys[0].expr.index).Some?
    ensures HintSort(keys, fetch, WithRows(input, rows)).Some?
    ensures MayYield(Sort(keys, fetch, HintSort(keys, fetch, WithRows(input, rows)).value), out)
    ensures !MayYield(Sort(keys, fetch, WithRows(input, rows)), out)
  {
    var k, order, hinted := fetch.value, OrderAtScan(keys, fetch, input), HintSort(keys, fetch, input).value;
    var wanted := Source(input, keys[0].expr.index).value;
    rows := Trap(wanted, order.column, order.direction, k);
    HintOverRows(keys, fetch, input, hinted, rows);
    out := TrapYields(keys, k, WithRows(hinted, rows), wanted, order);
    if MayYield(Sort(keys, fetch, WithRows(input, rows)), out) {
      TrapIsEscaped(keys, k, WithRows(input, rows), wanted, order.column, out);
    }
  }

  lemma TrapYields(keys: seq<SortKey>, k: nat, hinted: Plan, wanted: Name, order: OrderBy) returns (out: Relation)
    requires IsChain(hinted) && !Filtered(hinted) && ProviderOf(hinted).orderBy == Some(order)
    requires wanted != order.column && |order.column| < U64 && order.limit == Some(k)
    requires ProviderOf(hinted).rows == Trap(wanted, order.column, order.direction, k)
    ensures MayYield(Sort(keys, Some(k), hinted), out) && out.Keys == Others(k)
  {
    TrapCloses(ProviderOf(hinted), wanted, order, k);
    var kept := SentRowsArrive(hinted, [ProviderOf(hinted).rows.Keys], Others(k));
    SortYields(keys, Some(k), hinted, kept, Others(k));
    out := Restrict(kept, Others(k));
  }

  // The same hint over other rows.
  lemma HintOverRows(keys: seq<SortKey>, fetch: Option<nat>, input: Plan, hinted: Plan, rows: map<Id, Base>)
    requires HintSort(keys, fetch, input) == Some(hinted) && Unhinted(input)
    ensures HintSort(keys, fetch, WithRows(input, rows)) == Some(WithRows(hinted, rows))
    ensures var order, p, i, h := OrderAtScan(keys, fetch, input), keys[0].expr.index, WithRows(input, rows), WithRows(hinted, rows);
      && order.direction == keys[0].direction && |order.column| < U64 && (order.limit.Some? ==> order.limit == fetch && |keys| == 1)
      && ProviderOf(i).rows == rows && ProviderOf(h).rows == rows && ProviderOf(h).orderBy == Some(order)
      && Unhinted(i) && Source(i, p) == Source(input, p) && OrderAtScan(keys, fetch, i) == order
      && (order.limit.Some? ==> !Filtered(i) && !Filtered(h))
  {
    var hint := HintOf(keys, fetch.value, Schema(input)).value;
    RowsChangeNothingElse(input, rows, keys[0].expr.index);
    RowsChangeNothingElse(hinted, rows, 0);
    RowsDoNotChangeHints(input, rows, hint);
    HintArrives(input, hint, hinted);
    HintKeepsFilters(input, hint, hinted);
  }

  lemma {:induction false} HintKeepsFilters(plan: Plan, hint: OrderBy, hinted: Plan)
    requires |hint.column| < U64 && HintInput(plan, hint) == Some(hinted)
    ensures Filtered(hinted) == Filtered(plan)
  {
    match plan
    case Filter(_, input) => HintKeepsFilters(input, hint.(limit := None), hinted.input);
    case Project(exprs, input) =>
      var index := PositionOf(Schema(plan), hint.column).value;
      HintKeepsFilters(input, hint.(column := Schema(input)[exprs[index].index].name), hinted.input);
    case Repartition(input) => HintKeepsFilters(input, hint, hinted.input);
    case Alias(_, input) => HintKeepsFilters(input, hint, hinted.input);
    case _ =>
  }

  lemma TrapIsEscaped(keys: seq<SortKey>, k: nat, input: Plan, wanted: Name, asked: Name, out: Relation)
    requires IsChain(input) && Unhinted(input) && !Filtered(input) && k > 0 && |keys| == 1 && keys[0].expr.KeyColumn?
    requires Source(input, keys[0].expr.index) == Some(wanted) && wanted != asked
    requires ProviderOf(input).rows == Trap(wanted, asked, keys[0].direction, k)
    requires MayYield(Sort(keys, Some(k), input), out) && 1 in out
    ensures 0 in out
  {
    var rel, top := SortYielded(keys, Some(k), input, out);
    UnhintedChainIsComplete(input, rel);
    SourceCells(input, rel, keys[0].expr.index, wanted);
    TrapRows(wanted, asked, keys[0].direction, k);
    assert keys == [keys[0]];
    TopHoldsRowZero(keys[0], rel, top, k);
  }

  lemma TrapRows(wanted: Name, asked: Name, direction: Direction, k: nat)
    requires wanted != asked && k > 0
    ensures var rows := Trap(wanted, asked, direction, k);
      0 in rows && 1 in rows && Cell(rows[0], wanted) == First(direction) && Cell(rows[1], wanted) == Last(direction)
  {
  }

  /** Over no rows and with no answer of the worker does the hinted plan yield what the original cannot. */
  ghost predicate AlwaysValid(keys: seq<SortKey>, fetch: Option<nat>, input: Plan)
    requires IsChain(input)
  {
    forall rows: map<Id, Base>, out: Relation ::
      HintSort(keys, fetch, WithRows(input, rows)).Some?
      && MayYield(Sort(keys, fetch, HintSort(keys, fetch, WithRows(input, rows)).value), out)
      ==> MayYield(Sort(keys, fetch, WithRows(input, rows)), out)
  }

  // For a sort key that is a column of the table, a hint is always valid exactly when
  // it is faithful, which can be read off the plan.
  lemma HintIsValidIff(keys: seq<SortKey>, fetch: Option<nat>, input: Plan)
    requires HintSort(keys, fetch, input).Some? && Unhinted(input) && Source(input, keys[0].expr.index).Some?
    ensures AlwaysValid(keys, fetch, input) <==> Faithful(keys, fetch, input)
  {
    if Faithful(keys, fetch, input) {
      forall rows: map<Id, Base>, out: Relation |
        HintSort(keys, fetch, WithRows(input, rows)).Some?
        && MayYield(Sort(keys, fetch, HintSort(keys, fetch, WithRows(input, rows)).value), out)
        ensures MayYield(Sort(keys, fetch, WithRows(input, rows)), out)
      {
        FaithfulOverAllRows(keys, fetch, input, rows);
        HintedSortIsValid(keys, fetch, WithRows(input, rows), HintSort(keys, fetch, WithRows(input, rows)).value, out);
      }
    } else {
      var rows, out := UnfaithfulHintMisleads(keys, fetch, input);
    }
  }

  lemma FaithfulOverAllRows(keys: seq<SortKey>, fetch: Option<nat>, input: Plan, rows: map<Id, Base>)
    requires HintSort(keys, fetch, input).Some? && Unhinted(input) && Faithful(keys, fetch, input)
    ensures Unhinted(WithRows(input, rows)) && Faithful(keys, fetch, WithRows(input, rows))
  {
    HintOverRows(keys, fetch, input, HintSort(keys, fetch, input).value, rows);
  }

  // ----- two fields of one name

  const A: Name := [97]
  const B: Name := [98]
  const N: Name := [110]

  /** The engine's own check of a schema: fields differ, and an unqualified name is not repeated. */
  ghost predicate WellNamed(fields: seq<Field>) {
    forall i, j :: 0 <= i < j < |fields| ==>
      fields[i] != fields[j] && (fields[i].qualifier.None? || fields[j].qualifier.None? ==> fields[i].name != fields[j].name)
  }

  const TWO_COLUMNS: Plan := Scan(A, Provider([A, B], map[], map[], None), [0, 1], [])

  /** Column `a` as `a.n` and column `b` as `b.n`, a schema that the engine admits. */
  const SAME_NAMES: Plan := Project([Direct(0, Field(Some(A), N)), Direct(1, Field(Some(B), N))], TWO_COLUMNS)

  const BY_SECOND: SortKey := SortKey(KeyColumn(1), Ascending, NullsLast)

  // Sorting by the second of two fields with one name and fetching one row: the worker
  // is asked to order by the first, and the result can be wrong.
  lemma RepeatedNamesMislead()
    ensures WellNamed(Schema(SAME_NAMES))
    ensures HintSort([BY_SECOND], Some(1), SAME_NAMES).Some? && !AlwaysValid([BY_SECOND], Some(1), SAME_NAMES)
  {
    var hint := OrderBy(N, Ascending, NullsLast, Some(1));
    var fields := Schema(SAME_NAMES);
    assert fields[0] == Field(Some(A), N) && fields[1] == Field(Some(B), N);
    assert A[0] != B[0];
    assert HintOf([BY_SECOND], 1, fields) == Some(hint);
    assert PositionOf(fields, N) == Some(0);
    assert Schema(TWO_COLUMNS)[0].name == A;
    var provider := TWO_COLUMNS.provider.(orderBy := Some(hint.(column := A)));
    assert HintInput(TWO_COLUMNS, hint.(column := A)) == Some(TWO_COLUMNS.(provider := provider));
    assert Source(SAME_NAMES, 1) == Some(B);
    HintIsValidIff([BY_SECOND], Some(1), SAME_NAMES);
  }

  // If the limit were divided among the splits, or pushed below a filter, the
  // worker could drop rows that the result needs: a row is only safe to drop when
  // as many kept rows as the whole limit come before it.
  lemma DroppingNeedsTheFullLimit(leq: Order, all: set<Id>, kept: set<Id>, r: Id, k: nat)
    requires IsOrder(leq, all) && kept <= all && r in all && r !in kept
    ensures (forall top :: IsTop(leq, kept, top, k) ==> IsTop(leq, all, top, k)) ==> Covered(leq, kept, r, k)
  {
    if forall top :: IsTop(leq, kept, top, k) ==> IsTop(leq, all, top, k) {
      var top := SomeTop(leq, all, kept, k);
      assert IsTop(leq, all, top, k);
      SubsetIsSmaller(kept + {r}, all);
      assert |kept + {r}| == |kept| + 1;
      assert |top| == k;
      assert AllBefore(leq, top, r);
    }
  }

  lemma {:induction false} SomeTop(leq: Order, all: set<Id>, rows: set<Id>, k: nat) returns (top: set<Id>)
    requires IsOrder(leq, all) && rows <= all
    ensures IsTop(leq, rows, top, k)
    decreases rows
  {
    if |rows| <= k {
      top := rows;
    } else {
      var last := SomeLast(leq, all, rows);
      top := SomeTop(leq, all, rows - {last}, k);
      forall t, r | t in top && r in rows && r !in top
        ensures Before(leq, t, r)
      {
      }
    }
  }

  lemma {:induction false} SomeLast(leq: Order, all: set<Id>, rows: set<Id>) returns (last: Id)
    requires IsOrder(leq, all) && rows <= all && rows != {}
    ensures last in rows && forall t :: t in rows ==> Before(leq, t, last)
    decreases rows
  {
    last :| last in rows;
    if rows != {last} {
      var other := SomeLast(leq, all, rows - {last});
      if Before(leq, last, other) {
        last := other;
      } else {
        forall t | t in rows
          ensures Before(leq, t, last)
        {
          assert t == last || Before(leq, t, other);
          assert Before(leq, other, last) && Before(leq, last, last);
        }
      }
    }
  }

  // ---------------------------------------------------------------------
  // The physical rule

  datatype PhysicalKey = PhysicalKey(column: Option<nat>, direction: Direction, nulls: NullOrder)

  datatype Exec =
    | VgiScanExec(schema: seq<Name>, known: seq<Name>, mapping: map<Name, Name>, orderBy: Option<OrderBy>)
    | ProjectionExec(columns: seq<Option<nat>>, input: Exec)
    | FilterExec(input: Exec)
    | PartitioningExec(input: Exec)
    | SortExec(keys: seq<PhysicalKey>, fetch: Option<nat>, input: Exec)
    | GlobalLimitExec(skip: nat, fetch: Option<nat>, input: Exec)
    | OtherExec(inputs: seq<Exec>)

  /** A scan takes up a hint only if it was planned with the very same one. */
  function WithOrderBy(scan: Exec, hint: OrderBy): Option<Exec>
    requires scan.VgiScanExec?
  {
    if scan.orderBy.None? || EncodeOrderBy(scan.orderBy.value) != EncodeOrderBy(hint) then None
    else Some(scan.(orderBy := Some(hint)))
  }

  function HintPhysicalInput(exec: Exec, column: nat, hint: OrderBy): Option<Exec> {
    match exec
    case VgiScanExec(schema, known, mapping, _) =>
      if column >= |schema| || schema[column] !in known then None
      else WithOrderBy(exec, hint.(column := if schema[column] in mapping then mapping[schema[column]] else schema[column]))
    case ProjectionExec(columns, input) =>
      if column >= |columns| || columns[column].None? then None
      else
        var child := HintPhysicalInput(input, columns[column].value, hint);
        if child.None? then None else Some(ProjectionExec(columns, child.value))
    case FilterExec(input) =>
      var child := HintPhysicalInput(input, column, hint.(limit := None));
      if child.None? then None else Some(FilterExec(child.value))
    case PartitioningExec(input) =>
      var child := HintPhysicalInput(input, column, hint);
      if child.None? then None else Some(PartitioningExec(child.value))
    case _ => None
  }

  function HintPhysicalSort(sort: Exec, fetch: nat): Option<Exec>
    requires sort.SortExec?
  {
    if sort.keys == [] || sort.keys[0].column.None? then None
    else
      var limit := if |sort.keys| == 1 && fetch <= I64_MAX then Some(fetch) else None;
      var child := HintPhysicalInput(sort.input, sort.keys[0].column.value,
                                     OrderBy([], sort.keys[0].direction, sort.keys[0].nulls, limit));
      if child.None? then None else Some(SortExec(sort.keys, sort.fetch, child.value))
  }

  /** The sort under a limit is hinted with everything the limit skips and fetches. */
  function HintPhysicalLimit(limit: Exec): Option<Exec>
    requires limit.GlobalLimitExec?
  {
    if limit.input.SortExec? && limit.fetch.Some? && limit.skip + limit.fetch.value <= USIZE_MAX then
      var sort := HintPhysicalSort(limit.input, limit.skip + limit.fetch.value);
      if sort.Some? then Some(GlobalLimitExec(limit.skip, limit.fetch, sort.value)) else None
    else None
  }

  function OptimizePhysical(exec: Exec): Exec {
    match exec
    case SortExec(keys, fetch, input) =>
      var hinted := if fetch.Some? then HintPhysicalSort(exec, fetch.value) else None;
      if hinted.Some? then hinted.value else SortExec(keys, fetch, OptimizePhysical(input))
    case GlobalLimitExec(skip, fetch, input) =>
      var hinted := HintPhysicalLimit(exec);
      if hinted.Some? then hinted.value else GlobalLimitExec(skip, fetch, OptimizePhysical(input))
    case VgiScanExec(_, _, _, _) => exec
    case ProjectionExec(columns, input) => ProjectionExec(columns, OptimizePhysical(input))
    case FilterExec(input) => FilterExec(OptimizePhysical(input))
    case PartitioningExec(input) => PartitioningExec(OptimizePhysical(input))
    case OtherExec(inputs) => OtherExec(seq(|inputs|, i requires 0 <= i < |inputs| => OptimizePhysical(inputs[i])))
  }

  /** Every hint that a scan carries fits the wire format. */
  ghost predicate WireHints(exec: Exec) {
    match exec
    case VgiScanExec(_, _, _, orderBy) => orderBy.Some? ==> Representable(orderBy.value)
    case OtherExec(inputs) => forall i :: 0 <= i < |inputs| ==> WireHints(inputs[i])
    case _ => WireHints(exec.input)
  }

  lemma {:induction false} PhysicalInputUnchanged(exec: Exec, column: nat, hint: OrderBy)
    requires WireHints(exec) && Representable(hint)
    ensures var hinted := HintPhysicalInput(exec, column, hint); hinted.Some? ==> hinted.value == exec
    decreases exec
  {
    match exec
    case VgiScanExec(schema, known, mapping, orderBy) =>
      if column < |schema| && schema[column] in known && orderBy.Some? {
        var remote := hint.(column := if schema[column] in mapping then mapping[schema[column]] else schema[column]);
        OrderByKeysAreUnique(orderBy.value, remote);
      }
    case ProjectionExec(columns, input) =>
      if column < |columns| && columns[column].Some? {
        PhysicalInputUnchanged(input, columns[column].value, hint);
      }
    case FilterExec(input) => PhysicalInputUnchanged(input, column, hint.(limit := None));
    case PartitioningExec(input) => PhysicalInputUnchanged(input, column, hint);
    case _ =>
  }

  lemma PhysicalSortUnchanged(sort: Exec, fetch: nat)
    requires sort.SortExec? && WireHints(sort)
    ensures var hinted := HintPhysicalSort(sort, fetch); hinted.Some? ==> hinted.value == sort
  {
    if sort.keys != [] && sort.keys[0].column.Some? {
      var limit := if |sort.keys| == 1 && fetch <= I64_MAX then Some(fetch) else None;
      PhysicalInputUnchanged(sort.input, sort.keys[0].column.value,
                             OrderBy([], sort.keys[0].direction, sort.keys[0].nulls, limit));
    }
  }

  // The physical rule runs after the splits were planned, and no run of it gives
  // any scan another hint than the one it was planned with.
  lemma {:induction false} PhysicalRuleKeepsHints(exec: Exec)
    requires WireHints(exec)
    ensures OptimizePhysical(exec) == exec
    decreases exec
  {
    match exec
    case SortExec(_, fetch, input) =>
      PhysicalRuleKeepsHints(input);
      if fetch.Some? {
        PhysicalSortUnchanged(exec, fetch.value);
      }
    case GlobalLimitExec(skip, fetch, input) =>
      PhysicalRuleKeepsHints(input);
      if input.SortExec? && fetch.Some? {
        PhysicalSortUnchanged(input, skip + fetch.value);
      }
    case VgiScanExec(_, _, _, _) =>
    case OtherExec(inputs) =>
      forall i | 0 <= i < |inputs|
        ensures OptimizePhysical(inputs[i]) == inputs[i]
      {
        PhysicalRuleKeepsHints(inputs[i]);
      }
    case _ => PhysicalRuleKeepsHints(exec.input);
  }
}
