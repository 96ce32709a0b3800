/**
 The retractable aggregate accumulator.

 Its state is its input: per argument a list of column chunks in arrival order.
 Updates append chunks, retraction drops rows from the front, and partial states
 are merged by concatenation.
 */
module Accumulator {
  import opened Wrappers

  datatype RetractError = LengthMismatch | RetractedMoreThanHeld

  /** The rows of a chunk list. */
  function Concat<V>(chunks: seq<seq<V>>): seq<V> {
    if chunks == [] then [] else chunks[0] + Concat(chunks[1..])
  }

  lemma {:induction false} ConcatAppend<V>(chunks: seq<seq<V>>, chunk: seq<V>)
    ensures Concat(chunks + [chunk]) == Concat(chunks) + chunk
  {
    if chunks == [] {
      assert Concat([chunk]) == chunk + Concat([chunk][1..]);
    } else {
      assert (chunks + [chunk])[1..] == chunks[1..] + [chunk];
      ConcatAppend(chunks[1..], chunk);
    }
  }

  // ---------------------------------------------------------------------
  // What the operations do to the columns

  /** Append one batch. The first batch decides how many columns are kept. */
  function PushColumns<V>(columns: seq<seq<V>>, values: seq<seq<V>>): (r: seq<seq<V>>)
    ensures |r| == if columns == [] then |values| else |columns|
  {
    if columns == [] then values
    else seq(|columns|, i requires 0 <= i < |columns| => columns[i] + if i < |values| then values[i] else [])
  }

  /** The valid lists of one state column, concatenated; null lists are skipped. */
  function ConcatValid<V>(lists: seq<Option<seq<V>>>): seq<V> {
    if lists == [] then []
    else
      var last := lists[|lists| - 1];
      ConcatValid(lists[..|lists| - 1]) + if last.Some? then last.value else []
  }

  function FlattenStates<V>(states: seq<seq<Option<seq<V>>>>): (r: seq<seq<V>>)
    ensures |r| == |states| && forall i :: 0 <= i < |r| ==> r[i] == ConcatValid(states[i])
  {
    seq(|states|, i requires 0 <= i < |states| => ConcatValid(states[i]))
  }

  /** Every column can give up `rows` rows. */
  predicate Holds<V>(columns: seq<seq<V>>, rows: nat) {
    forall i :: 0 <= i < |columns| ==> rows <= |columns[i]|
  }

  function DropRows<V>(columns: seq<seq<V>>, rows: nat): (r: seq<seq<V>>)
    requires Holds(columns, rows)
    ensures |r| == |columns| && forall i :: 0 <= i < |r| ==> r[i] == columns[i][rows..]
  {
    seq(|columns|, i requires 0 <= i < |columns| => columns[i][rows..])
  }

  /** One column per declared argument, empty where nothing was buffered. */
  function Declared<V>(columns: seq<seq<V>>, arity: nat): (r: seq<seq<V>>)
    ensures |r| == arity && forall i :: 0 <= i < arity ==> r[i] == if i < |columns| then columns[i] else []
  {
    seq(arity, i requires 0 <= i => if i < |columns| then columns[i] else [])
  }

  function RowsIn<V>(values: seq<seq<V>>): nat {
    if values == [] then 0 else |values[0]|
  }

  predicate SameLength<V>(values: seq<seq<V>>) {
    forall i :: 0 <= i < |values| ==> |values[i]| == RowsIn(values)
  }

  class VgiAccumulator<V> {
    const arity: nat
    /** `buffered[i]` are the chunks seen for argument `i`. */
    var buffered: seq<seq<seq<V>>>

    constructor (arity: nat)
      ensures this.arity == arity && Columns() == []
    {
      this.arity := arity;
      buffered := [];
    }

    function Columns(): (r: seq<seq<V>>)
      reads this
      ensures |r| == |buffered| && forall i :: 0 <= i < |r| ==> r[i] == Concat(buffered[i])
    {
      seq(|buffered|, i requires 0 <= i < |buffered| reads this => Concat(buffered[i]))
    }

    method UpdateBatch(values: seq<seq<V>>)
      modifies this`buffered
      ensures Columns() == PushColumns(old(Columns()), values)
    {
      ghost var was := Columns();
      if buffered == [] {
        buffered := seq(|values|, _ => []);
      }
      ghost var before := Columns();
      for i := 0 to |values|
        invariant |buffered| == |before|
        invariant forall j :: 0 <= j < |before| ==>
          Concat(buffered[j]) == if j < i then before[j] + values[j] else before[j]
      {
        if i < |buffered| {
          ConcatAppend(buffered[i], values[i]);
          buffered := buffered[i := buffered[i] + [values[i]]];
        }
      }
      assert forall j :: 0 <= j < |before| ==> Columns()[j] == PushColumns(was, values)[j];
    }

    method Collected() returns (r: seq<seq<V>>)
      ensures r == Declared(Columns(), arity)
    {
      r := [];
      for i := 0 to arity
        invariant |r| == i
        invariant forall j :: 0 <= j < i ==> r[j] == Declared(Columns(), arity)[j]
      {
        r := r + [if i < |buffered| && buffered[i] != [] then Concat(buffered[i]) else []];
      }
    }

    /** One list per argument, holding every row this accumulator saw. */
    method State() returns (r: seq<Option<seq<V>>>)
      ensures |r| == arity
      ensures forall i :: 0 <= i < arity ==> r[i] == Some(Declared(Columns(), arity)[i])
    {
      var columns := Collected();
      r := seq(|columns|, i requires 0 <= i < |columns| => Some(columns[i]));
    }

    method MergeBatch(states: seq<seq<Option<seq<V>>>>)
      modifies this`buffered
      ensures Columns() == PushColumns(old(Columns()), FlattenStates(states))
    {
      var flattened: seq<seq<V>> := [];
      for i := 0 to |states|
        invariant |flattened| == i && unchanged(this)
        invariant forall j :: 0 <= j < i ==> flattened[j] == ConcatValid(states[j])
      {
        var lists := states[i];
        var part: seq<V> := [];
        for k := 0 to |lists|
          invariant part == ConcatValid(lists[..k]) && unchanged(this)
        {
          assert lists[..k + 1][..k] == lists[..k];
          if lists[k].Some? {
            part := part + lists[k].value;
          }
        }
        assert lists[..|lists|] == lists;
        flattened := flattened + [part];
      }
      assert flattened == FlattenStates(states);
      UpdateBatch(flattened);
    }

    /**
     Drop as many leading rows as the batch `values` has. On a shortage the columns
     before the short one are already cut and the short one is empty.
     */
    method RetractBatch(values: seq<seq<V>>) returns (r: Result<(), RetractError>)
      modifies this`buffered
      ensures r == if !SameLength(values) then Err(LengthMismatch)
                   else if !Holds(old(Columns()), RowsIn(values)) then Err(RetractedMoreThanHeld)
                   else Ok(())
      ensures r.Ok? ==> Columns() == DropRows(old(Columns()), RowsIn(values))
      ensures r == Err(LengthMismatch) ==> Columns() == old(Columns())
      ensures r == Err(RetractedMoreThanHeld) ==>
        && |Columns()| == |old(Columns())|
        && exists j :: 0 <= j < |Columns()| && Columns()[j] == [] && |old(Columns())[j]| < RowsIn(values) &&
             forall i :: 0 <= i < |Columns()| && i != j ==>
               if i < j then RowsIn(values) <= |old(Columns())[i]| && Columns()[i] == old(Columns())[i][RowsIn(values)..]
               else Columns()[i] == old(Columns())[i]
    {
      var rows := RowsIn(values);
      if !SameLength(values) {
        return Err(LengthMismatch);
      }
      ghost var before := Columns();
      for i := 0 to |buffered|
        invariant |buffered| == |before| == |old(buffered)|
        invariant forall j :: i <= j < |before| ==> Concat(buffered[j]) == before[j]
        invariant forall j :: 0 <= j < i ==> rows <= |before[j]| && Concat(buffered[j]) == before[j][rows..]
      {
        var chunks, enough := DropFront(buffered[i], rows);
        buffered := buffered[i := chunks];
        if !enough {
          assert Columns()[i] == [];
          return Err(RetractedMoreThanHeld);
        }
      }
      assert Columns() == DropRows(before, rows);
      r := Ok(());
    }
  }

  /** Drop `rows` rows from the front of a chunk list, chunk by chunk. */
  method DropFront<V>(chunks: seq<seq<V>>, rows: nat) returns (rest: seq<seq<V>>, enough: bool)
    ensures enough <==> rows <= |Concat(chunks)|
    ensures Concat(rest) == if enough then Concat(chunks)[rows..] else []
  {
    rest := chunks;
    var remaining := rows;
    while remaining > 0
      invariant 0 <= remaining <= rows
      invariant |Concat(rest)| - remaining == |Concat(chunks)| - rows
      invariant rows - remaining <= |Concat(chunks)|
      invariant Concat(rest) == Concat(chunks)[rows - remaining..]
      decreases |rest|, remaining
    {
      if rest == [] {
        return rest, false;
      }
      var first := rest[0];
      if |first| <= remaining {
        remaining := remaining - |first|;
        rest := rest[1..];
      } else {
        rest := [first[remaining..]] + rest[1..];
        assert Concat(rest) == first[remaining..] + Concat(rest[1..]);
        remaining := 0;
      }
    }
    enough := true;
  }

  // ---------------------------------------------------------------------
  // Sliding windows

  datatype WindowOp<V> = Update(values: seq<seq<V>>) | Retract(rows: nat)

  /** Rows pushed so far. */
  function PushedRows<V>(ops: seq<WindowOp<V>>): nat {
    if ops == [] then 0
    else
      var op := ops[|ops| - 1];
      PushedRows(ops[..|ops| - 1]) + if op.Update? then RowsIn(op.values) else 0
  }

  function RetractedRows<V>(ops: seq<WindowOp<V>>): nat {
    if ops == [] then 0
    else
      var op := ops[|ops| - 1];
      RetractedRows(ops[..|ops| - 1]) + if op.Retract? then op.rows else 0
  }

  /** Everything ever pushed into column `i`. */
  function PushedInto<V>(ops: seq<WindowOp<V>>, i: nat): seq<V> {
    if ops == [] then []
    else
      var op := ops[|ops| - 1];
      PushedInto(ops[..|ops| - 1], i) + if op.Update? && i < |op.values| then op.values[i] else []
  }

  /** Updates carry `arity` aligned columns and no prefix retracts more than it pushed. */
  ghost predicate LegalWindow<V>(ops: seq<WindowOp<V>>, arity: nat) {
    forall k :: 0 <= k < |ops| ==>
      match ops[k]
      case Update(values) => |values| == arity && SameLength(values)
      case Retract(rows) => RetractedRows(ops[..k]) + rows <= PushedRows(ops[..k])
  }

  /** The columns after running `ops` on a fresh accumulator, as the methods' contracts give them. */
  function Window<V>(ops: seq<WindowOp<V>>): seq<seq<V>> {
    if ops == [] then []
    else
      var columns := Window(ops[..|ops| - 1]);
      match ops[|ops| - 1]
      case Update(values) => PushColumns(columns, values)
      case Retract(rows) => if Holds(columns, rows) then DropRows(columns, rows) else columns
  }

  lemma {:induction false} LegalPrefix<V>(ops: seq<WindowOp<V>>, arity: nat)
    requires LegalWindow(ops, arity) && ops != []
    ensures LegalWindow(ops[..|ops| - 1], arity)
  {
    var rest := ops[..|ops| - 1];
    assert forall k :: 0 <= k < |rest| ==> rest[..k] == ops[..k];
  }

  lemma {:induction false} HeldRows<V>(ops: seq<WindowOp<V>>, arity: nat, i: nat)
    requires LegalWindow(ops, arity) && i < arity
    ensures |PushedInto(ops, i)| == PushedRows(ops)
    ensures RetractedRows(ops) <= PushedRows(ops)
  {
    if ops != [] {
      LegalPrefix(ops, arity);
      HeldRows(ops[..|ops| - 1], arity, i);
    }
  }

  /** The columns hold exactly the pushed rows minus the retracted prefix. */
  ghost predicate IsSuffix<V>(ops: seq<WindowOp<V>>, columns: seq<seq<V>>, arity: nat) {
    && (|columns| == arity || (columns == [] && PushedRows(ops) == 0))
    && forall i :: 0 <= i < |columns| ==>
         RetractedRows(ops) <= |PushedInto(ops, i)| && columns[i] == PushedInto(ops, i)[RetractedRows(ops)..]
  }

  // The accumulator is a sliding window: what was pushed minus the retracted
  // prefix, in every column, so the columns stay aligned.
  lemma {:induction false} WindowIsSuffix<V>(ops: seq<WindowOp<V>>, arity: nat)
    requires LegalWindow(ops, arity)
    ensures IsSuffix(ops, Window(ops), arity)
    ensures forall i :: 0 <= i < |Window(ops)| ==> |Window(ops)[i]| == PushedRows(ops) - RetractedRows(ops)
  {
    if ops != [] {
      var rest := ops[..|ops| - 1];
      LegalPrefix(ops, arity);
      WindowIsSuffix(rest, arity);
      if ops[|ops| - 1].Update? {
        WindowAfterUpdate(ops, arity);
      } else {
        WindowAfterRetract(ops, arity);
      }
    }
    forall i | 0 <= i < |Window(ops)|
      ensures |Window(ops)[i]| == PushedRows(ops) - RetractedRows(ops)
    {
      HeldRows(ops, arity, i);
    }
  }

  lemma {:induction false} WindowAfterUpdate<V>(ops: seq<WindowOp<V>>, arity: nat)
    requires LegalWindow(ops, arity) && ops != [] && ops[|ops| - 1].Update?
    requires IsSuffix(ops[..|ops| - 1], Window(ops[..|ops| - 1]), arity)
    ensures IsSuffix(ops, Window(ops), arity)
  {
    var rest, values := ops[..|ops| - 1], ops[|ops| - 1].values;
    LegalPrefix(ops, arity);
    forall i | 0 <= i < |Window(ops)|
      ensures RetractedRows(ops) <= |PushedInto(ops, i)|
      ensures Window(ops)[i] == PushedInto(ops, i)[RetractedRows(ops)..]
    {
      HeldRows(rest, arity, i);
      assert PushedInto(ops, i) == PushedInto(rest, i) + values[i];
    }
  }

  // A legal retraction is never refused.
  lemma {:induction false} WindowAfterRetract<V>(ops: seq<WindowOp<V>>, arity: nat)
    requires LegalWindow(ops, arity) && ops != [] && ops[|ops| - 1].Retract?
    requires IsSuffix(ops[..|ops| - 1], Window(ops[..|ops| - 1]), arity)
    ensures Holds(Window(ops[..|ops| - 1]), ops[|ops| - 1].rows)
    ensures IsSuffix(ops, Window(ops), arity)
  {
    var rest, rows := ops[..|ops| - 1], ops[|ops| - 1].rows;
    LegalPrefix(ops, arity);
    forall i | 0 <= i < |Window(rest)|
      ensures rows <= |Window(rest)[i]|
      ensures PushedInto(ops, i) == PushedInto(rest, i)
    {
      HeldRows(rest, arity, i);
    }
  }

  // ---------------------------------------------------------------------
  // Partial aggregation

  /** How an accumulator came about: by updates, and by merging the states of others. */
  datatype Partial<V> =
    | Fresh
    | Updated(before: Partial<V>, values: seq<seq<V>>)
    | Merged(before: Partial<V>, parts: Parts<V>)

  datatype Parts<V> = NoParts | Part(init: Parts<V>, last: Partial<V>)

  predicate WellFormed<V>(t: Partial<V>, arity: nat) {
    match t
    case Fresh => true
    case Updated(before, values) => WellFormed(before, arity) && |values| == arity
    case Merged(before, parts) => WellFormed(before, arity) && WellFormedParts(parts, arity)
  }

  predicate WellFormedParts<V>(parts: Parts<V>, arity: nat) {
    parts.Part? ==> WellFormedParts(parts.init, arity) && WellFormed(parts.last, arity)
  }

  /** The buffered columns, as the methods' contracts give them. */
  function Buffers<V>(t: Partial<V>, arity: nat): seq<seq<V>> {
    match t
    case Fresh => []
    case Updated(before, values) => PushColumns(Buffers(before, arity), values)
    case Merged(before, parts) => PushColumns(Buffers(before, arity), FlattenStates(StateColumns(parts, arity)))
  }

  /** One state column per argument, with one list per merged accumulator. */
  function StateColumns<V>(parts: Parts<V>, arity: nat): (r: seq<seq<Option<seq<V>>>>)
    ensures |r| == arity
  {
    match parts
    case NoParts => seq(arity, _ => [])
    case Part(init, last) =>
      var lists := StateColumns(init, arity);
      var state := Declared(Buffers(last, arity), arity);
      seq(arity, i requires 0 <= i < arity => lists[i] + [Some(state[i])])
  }

  /** Every input of argument `i`, in order, over the whole tree. */
  function Inputs<V>(t: Partial<V>, i: nat): seq<V> {
    match t
    case Fresh => []
    case Updated(before, values) => Inputs(before, i) + if i < |values| then values[i] else []
    case Merged(before, parts) => Inputs(before, i) + PartInputs(parts, i)
  }

  function PartInputs<V>(parts: Parts<V>, i: nat): seq<V> {
    match parts
    case NoParts => []
    case Part(init, last) => PartInputs(init, i) + Inputs(last, i)
  }

  // However partial states are merged, the final buffer is the concatenation of
  // all inputs: no row is lost, duplicated or moved between columns.
  lemma {:induction false} MergingIsLossless<V>(t: Partial<V>, arity: nat)
    requires WellFormed(t, arity)
    ensures Buffers(t, arity) == [] || |Buffers(t, arity)| == arity
    ensures forall i :: 0 <= i < arity ==> Declared(Buffers(t, arity), arity)[i] == Inputs(t, i)
    decreases t
  {
    match t
    case Fresh =>
    case Updated(before, values) =>
      MergingIsLossless(before, arity);
      PushedDeclared(Buffers(before, arity), values, arity);
    case Merged(before, parts) =>
      MergingIsLossless(before, arity);
      StatesAreLossless(parts, arity);
      PushedDeclared(Buffers(before, arity), FlattenStates(StateColumns(parts, arity)), arity);
  }

  lemma PushedDeclared<V>(columns: seq<seq<V>>, values: seq<seq<V>>, arity: nat)
    requires (columns == [] || |columns| == arity) && |values| == arity
    ensures forall i :: 0 <= i < arity ==>
      Declared(PushColumns(columns, values), arity)[i] == Declared(columns, arity)[i] + values[i]
  {}

  lemma {:induction false} StatesAreLossless<V>(parts: Parts<V>, arity: nat)
    requires WellFormedParts(parts, arity)
    ensures forall i :: 0 <= i < arity ==> ConcatValid(StateColumns(parts, arity)[i]) == PartInputs(parts, i)
    decreases parts
  {
    match parts
    case NoParts =>
    case Part(init, last) =>
      StatesAreLossless(init, arity);
      MergingIsLossless(last, arity);
      forall i | 0 <= i < arity
        ensures ConcatValid(StateColumns(parts, arity)[i]) == PartInputs(parts, i)
      {
        var lists := StateColumns(parts, arity)[i];
        assert lists[..|lists| - 1] == StateColumns(init, arity)[i];
      }
  }
}
