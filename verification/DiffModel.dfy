/** A list model that follows the core's vector through a stream of diffs, and tells
    its views about every change it makes. */
module DiffModel {
  datatype Json = Null | Bool(b: bool) | Int(i: int) | Str(s: string)

  type Row = map<string, Json>

  /** One operation as it arrives; the index of an unknown one is only reported. */
  datatype Op =
    | Append(values: seq<Row>)
    | Insert(index: int, value: Row)
    | Set(index: int, value: Row)
    | Remove(index: int)
    | PopBack
    | Truncate(length: int)
    | Clear
    | Reset(values: seq<Row>)
    | Unknown(index: int)

  datatype Signal =
    | Inserted(first: nat, last: nat)
    | Removed(first: nat, last: nat)
    | Changed(row: nat)
    | ModelReset
    | CountChanged
    | OutOfStep

  /** A signal together with the rows a slot can read while it runs. */
  datatype Emission = Emission(signal: Signal, rows: seq<Row>)

  datatype Model = Model(rows: seq<Row>, outOfStep: bool)

  // ------------------------------------------------ what an operation does

  /** Whether `n` rows can satisfy the operation. */
  predicate Fits(op: Op, n: nat) {
    match op
    case Insert(i, _) => 0 <= i <= n
    case Set(i, _) => 0 <= i < n
    case Remove(i) => 0 <= i < n
    case PopBack => n > 0
    case Truncate(k) => 0 <= k <= n
    case Unknown(_) => false
    case _ => true
  }

  /** The rows after an operation; one that does not fit changes nothing. */
  function After(rows: seq<Row>, op: Op): seq<Row> {
    if !Fits(op, |rows|) then rows else
    match op
    case Append(values) => rows + values
    case Insert(i, v) => rows[..i] + [v] + rows[i..]
    case Set(i, v) => rows[i := v]
    case Remove(i) => rows[..i] + rows[i + 1..]
    case PopBack => rows[..|rows| - 1]
    case Truncate(k) => rows[..k]
    case Clear => []
    case Reset(values) => values
    case Unknown(_) => rows
  }

  predicate Resets(op: Op) { op.Clear? || op.Reset? }

  function Applied(m: Model, op: Op): Model {
    Model(After(m.rows, op), if Resets(op) then false else m.outOfStep || !Fits(op, |m.rows|))
  }

  function AppliedAll(m: Model, ops: seq<Op>): Model
    decreases |ops|
  {
    if ops == [] then m else Applied(AppliedAll(m, ops[..|ops| - 1]), ops[|ops| - 1])
  }

  /** The signals of one operation. Nothing is said where nothing changes. */
  function Emitted(m: Model, op: Op): seq<Emission> {
    var rows, after := m.rows, After(m.rows, op);
    if !Fits(op, |rows|) then if m.outOfStep then [] else [Emission(OutOfStep, rows)]
    else match op
      case Append(values) => if values == [] then [] else [Emission(Inserted(|rows|, |after| - 1), after)]
      case Insert(i, _) => [Emission(Inserted(i, i), after)]
      case Set(i, v) => if rows[i] == v then [] else [Emission(Changed(i), after)]
      case Remove(i) => [Emission(Removed(i, i), after)]
      case PopBack => [Emission(Removed(|rows| - 1, |rows| - 1), after)]
      case Truncate(k) => if k == |rows| then [] else [Emission(Removed(k, |rows| - 1), after)]
      case Clear => if rows == [] then [] else [Emission(ModelReset, after)]
      case Reset(_) => [Emission(ModelReset, after)]
      case Unknown(_) => []
  }

  function EmittedAll(m: Model, ops: seq<Op>): seq<Emission>
    decreases |ops|
  {
    if ops == [] then []
    else
      var before := ops[..|ops| - 1];
      EmittedAll(m, before) + Emitted(AppliedAll(m, before), ops[|ops| - 1])
  }

  // ------------------------------------------------ an observer

  /** A view that moves its own rows as told and reads only the rows a signal names. */
  function Follow(view: seq<Row>, e: Emission): seq<Row> {
    match e.signal
    case Inserted(first, last) =>
      if first <= |view| && first <= last < |e.rows|
      then view[..first] + e.rows[first..last + 1] + view[first..] else view
    case Removed(first, last) =>
      if first <= last < |view| then view[..first] + view[last + 1..] else view
    case Changed(row) =>
      if row < |view| && row < |e.rows| then view[row := e.rows[row]] else view
    case ModelReset => e.rows
    case _ => view
  }

  function FollowAll(view: seq<Row>, es: seq<Emission>): seq<Row>
    decreases |es|
  {
    if es == [] then view else Follow(FollowAll(view, es[..|es| - 1]), es[|es| - 1])
  }

  lemma {:induction false} FollowConcat(view: seq<Row>, a: seq<Emission>, b: seq<Emission>)
    ensures FollowAll(view, a + b) == FollowAll(FollowAll(view, a), b)
    decreases |b|
  {
    if b == [] {
      assert a + b == a;
    } else {
      assert (a + b)[..|a + b| - 1] == a + b[..|b| - 1];
      FollowConcat(view, a, b[..|b| - 1]);
    }
  }

  lemma ViewFollowsOne(m: Model, op: Op)
    ensures FollowAll(m.rows, Emitted(m, op)) == Applied(m, op).rows
  {
    var es := Emitted(m, op);
    assert es == [] || (|es| == 1 && es[..0] == []);
    assert FollowAll(m.rows, es) == if es == [] then m.rows else Follow(m.rows, es[0]);
    if Fits(op, |m.rows|) {
      match op
      case Truncate(k) => assert m.rows[..k] == m.rows[..k] + m.rows[|m.rows|..];
      case _ =>
    }
  }

  /** A view that follows only the signals holds the model's rows after any operations. */
  lemma {:induction false} ViewFollows(m: Model, ops: seq<Op>)
    ensures FollowAll(m.rows, EmittedAll(m, ops)) == AppliedAll(m, ops).rows
    decreases |ops|
  {
    if ops != [] {
      var before, op := ops[..|ops| - 1], ops[|ops| - 1];
      ViewFollows(m, before);
      ViewFollowsOne(AppliedAll(m, before), op);
      FollowConcat(m.rows, EmittedAll(m, before), Emitted(AppliedAll(m, before), op));
    }
  }

  /** No change without a signal: whoever listens misses nothing. */
  lemma ChangeIsSaid(m: Model, op: Op)
    ensures |Emitted(m, op)| <= 1
    ensures Applied(m, op).rows != m.rows ==>
      Emitted(m, op) != [] && !Emitted(m, op)[0].signal.OutOfStep?
    ensures Emitted(m, op) != [] ==> Emitted(m, op)[0].rows == Applied(m, op).rows
  {
    if op.Truncate? && op.length == |m.rows| {
      assert m.rows[..|m.rows|] == m.rows;
    } else if op.Append? && op.values == [] {
      assert m.rows + [] == m.rows;
    }
  }

  // ------------------------------------------------ drift

  function Drifts(es: seq<Emission>): nat
    decreases |es|
  {
    if es == [] then 0
    else Drifts(es[..|es| - 1]) + if es[|es| - 1].signal.OutOfStep? then 1 else 0
  }

  function ResetCount(ops: seq<Op>): nat
    decreases |ops|
  {
    if ops == [] then 0 else ResetCount(ops[..|ops| - 1]) + if Resets(ops[|ops| - 1]) then 1 else 0
  }

  lemma {:induction false} DriftsConcat(a: seq<Emission>, b: seq<Emission>)
    ensures Drifts(a + b) == Drifts(a) + Drifts(b)
    decreases |b|
  {
    if b == [] {
      assert a + b == a;
    } else {
      assert (a + b)[..|a + b| - 1] == a + b[..|b| - 1];
      DriftsConcat(a, b[..|b| - 1]);
    }
  }

  lemma DriftsOne(m: Model, op: Op)
    ensures Drifts(Emitted(m, op)) == if !Fits(op, |m.rows|) && !m.outOfStep then 1 else 0
  {
    var es := Emitted(m, op);
    assert es == [] || (|es| == 1 && es[..0] == []);
  }

  /** What no operation can do to so many rows. */
  predicate Refused(op: Op, n: nat) {
    match op
    case Insert(i, _) => i < 0 || i > n
    case Set(i, _) => i < 0 || i >= n
    case Remove(i) => i < 0 || i >= n
    case PopBack => n == 0
    case Truncate(k) => k < 0 || k > n
    case Unknown(_) => true
    case _ => false
  }

  /** Drift begins exactly where an operation is refused, which changes no row, and lasts until
      the rows are said anew; it is reported exactly where it begins. */
  lemma DriftExactly(m: Model, op: Op)
    ensures var w, e := Applied(m, op), Emitted(m, op);
      && (w.outOfStep <==> !op.Clear? && !op.Reset? && (m.outOfStep || Refused(op, |m.rows|)))
      && (Refused(op, |m.rows|) ==> w.rows == m.rows)
      && ((exists x :: x in e && x.signal.OutOfStep?) <==> Refused(op, |m.rows|) && !m.outOfStep)
  {
    if Refused(op, |m.rows|) && !m.outOfStep {
      assert Emitted(m, op)[0].signal.OutOfStep?;
    }
  }

  /** Drift is reported at most once before the next reset or clear. */
  lemma {:induction false} DriftOncePerReset(m: Model, ops: seq<Op>)
    ensures Drifts(EmittedAll(m, ops)) + (if m.outOfStep then 1 else 0)
         <= ResetCount(ops) + (if AppliedAll(m, ops).outOfStep then 1 else 0)
    decreases |ops|
  {
    hide Emitted, After;
    if ops != [] {
      var before, op := ops[..|ops| - 1], ops[|ops| - 1];
      DriftOncePerReset(m, before);
      DriftsConcat(EmittedAll(m, before), Emitted(AppliedAll(m, before), op));
      DriftsOne(AppliedAll(m, before), op);
    }
  }

  // ------------------------------------------------ the core's vector

  /** The SDK's change stream, encoded as operations by the core. */
  datatype VectorDiff =
    | VAppend(values: seq<Row>)
    | VClear
    | VPushFront(value: Row)
    | VPushBack(value: Row)
    | VPopFront
    | VPopBack
    | VInsert(index: nat, value: Row)
    | VSet(index: nat, value: Row)
    | VRemove(index: nat)
    | VTruncate(length: nat)
    | VReset(values: seq<Row>)

  predicate Possible(d: VectorDiff, v: seq<Row>) {
    match d
    case VPopFront => v != []
    case VPopBack => v != []
    case VInsert(i, _) => i <= |v|
    case VSet(i, _) => i < |v|
    case VRemove(i) => i < |v|
    case VTruncate(n) => n <= |v|
    case _ => true
  }

  /** What the diff says happened to the vector. */
  function Happened(v: seq<Row>, d: VectorDiff): seq<Row>
    requires Possible(d, v)
  {
    match d
    case VAppend(values) => v + values
    case VClear => []
    case VPushFront(x) => [x] + v
    case VPushBack(x) => v + [x]
    case VPopFront => v[1..]
    case VPopBack => v[..|v| - 1]
    case VInsert(i, x) => v[..i] + [x] + v[i..]
    case VSet(i, x) => v[i := x]
    case VRemove(i) => v[..i] + v[i + 1..]
    case VTruncate(n) => v[..n]
    case VReset(values) => values
  }

  function Encode(d: VectorDiff): Op {
    match d
    case VAppend(values) => Append(values)
    case VClear => Clear
    case VPushFront(x) => Insert(0, x)
    case VPushBack(x) => Append([x])
    case VPopFront => Remove(0)
    case VPopBack => PopBack
    case VInsert(i, x) => Insert(i, x)
    case VSet(i, x) => Set(i, x)
    case VRemove(i) => Remove(i)
    case VTruncate(n) => Truncate(n)
    case VReset(values) => Reset(values)
  }

  function EncodeAll(ds: seq<VectorDiff>): (ops: seq<Op>)
    ensures |ops| == |ds|
  {
    seq(|ds|, i requires 0 <= i < |ds| => Encode(ds[i]))
  }

  ghost predicate PossibleAll(v: seq<Row>, ds: seq<VectorDiff>)
    decreases |ds|, 0
  {
    ds == [] || (PossibleAll(v, ds[..|ds| - 1]) && Possible(ds[|ds| - 1], HappenedAll(v, ds[..|ds| - 1])))
  }

  ghost function HappenedAll(v: seq<Row>, ds: seq<VectorDiff>): seq<Row>
    requires PossibleAll(v, ds)
    decreases |ds|, 1
  {
    if ds == [] then v else Happened(HappenedAll(v, ds[..|ds| - 1]), ds[|ds| - 1])
  }

  /** The encoding preserves meaning on a model of as many rows as the vector has. */
  lemma EncodingKeepsMeaning(v: seq<Row>, d: VectorDiff)
    requires Possible(d, v)
    ensures Fits(Encode(d), |v|) && After(v, Encode(d)) == Happened(v, d)
  {
  }

  /** A model in step stays in step, and never reports drift, along any stream. */
  lemma {:induction false} InStep(v: seq<Row>, ds: seq<VectorDiff>)
    requires PossibleAll(v, ds)
    ensures AppliedAll(Model(v, false), EncodeAll(ds)) == Model(HappenedAll(v, ds), false)
    ensures Drifts(EmittedAll(Model(v, false), EncodeAll(ds))) == 0
    decreases |ds|
  {
    if ds != [] {
      var before, d := ds[..|ds| - 1], ds[|ds| - 1];
      InStep(v, before);
      assert EncodeAll(ds)[..|ds| - 1] == EncodeAll(before);
      EncodingKeepsMeaning(HappenedAll(v, before), d);
      var m := Model(HappenedAll(v, before), false);
      DriftsConcat(EmittedAll(Model(v, false), EncodeAll(before)), Emitted(m, Encode(d)));
      DriftsOne(m, Encode(d));
    }
  }

  /** Drift is real: where a possible diff is refused, the rows are not the vector's,
      not even in number. */
  lemma DriftIsReal(m: Model, v: seq<Row>, d: VectorDiff)
    requires Possible(d, v)
    requires !Fits(Encode(d), |m.rows|)
    ensures |m.rows| != |v|
  {
  }

  // ------------------------------------------------ the model itself

  lemma CountChangedIsSilent(rows: seq<Row>)
    ensures FollowAll(rows, []) == FollowAll(rows, [Emission(CountChanged, rows)]) == rows
  {
    assert [Emission(CountChanged, rows)][..0] == [];
  }

  class DiffListModel {
    var rows: seq<Row>
    var outOfStep: bool
    /** Everything emitted so far. */
    var log: seq<Emission>

    ghost function State(): Model
      reads this
    {
      Model(rows, outOfStep)
    }

    constructor ()
      ensures State() == Model([], false) && log == []
    {
      rows, outOfStep, log := [], false, [];
    }

    method ReportDrift()
      modifies this
      ensures rows == old(rows) && outOfStep
      ensures log == old(log) + if old(outOfStep) then [] else [Emission(OutOfStep, rows)]
    {
      if !outOfStep {
        outOfStep := true;
        log := log + [Emission(OutOfStep, rows)];
      }
    }

    method ClearRows()
      modifies this
      ensures State() == Model([], false)
      ensures log == old(log) + if old(rows) == [] then [] else [Emission(ModelReset, [])]
    {
      outOfStep := false;
      if rows != [] {
        rows := [];
        log := log + [Emission(ModelReset, rows)];
      }
    }

    method AppendRows(values: seq<Row>)
      modifies `rows
      ensures rows == old(rows) + values
    {
      for i := 0 to |values|
        invariant rows == old(rows) + values[..i]
      {
        rows := rows + [values[i]];
      }
    }

    method ApplyOperation(op: Op)
      modifies this
      ensures State() == Applied(old(State()), op)
      ensures log == old(log) + Emitted(old(State()), op)
    {
      match op
      case Append(values) =>
        if values != [] {
          var first := |rows|;
          AppendRows(values);
          log := log + [Emission(Inserted(first, |rows| - 1), rows)];
        }
      case Insert(i, v) =>
        if i < 0 || i > |rows| {
          ReportDrift();
        } else {
          rows := rows[..i] + [v] + rows[i..];
          log := log + [Emission(Inserted(i, i), rows)];
        }
      case Set(i, v) =>
        if i < 0 || i >= |rows| {
          ReportDrift();
        } else if rows[i] != v {
          rows := rows[i := v];
          log := log + [Emission(Changed(i), rows)];
        }
      case Remove(i) =>
        if i < 0 || i >= |rows| {
          ReportDrift();
        } else {
          rows := rows[..i] + rows[i + 1..];
          log := log + [Emission(Removed(i, i), rows)];
        }
      case PopBack =>
        if rows == [] {
          ReportDrift();
        } else {
          var last := |rows| - 1;
          rows := rows[..last];
          log := log + [Emission(Removed(last, last), rows)];
        }
      case Truncate(k) =>
        if k < 0 || k > |rows| {
          ReportDrift();
        } else if k < |rows| {
          var last := |rows| - 1;
          rows := rows[..k];
          log := log + [Emission(Removed(k, last), rows)];
        }
      case Clear =>
        ClearRows();
      case Reset(values) =>
        rows := [];
        AppendRows(values);
        outOfStep := false;
        log := log + [Emission(ModelReset, rows)];
      case Unknown(_) =>
        ReportDrift();
    }

    method ApplyOperations(ops: seq<Op>)
      modifies this
      ensures State() == AppliedAll(old(State()), ops)
      ensures log == old(log) + EmittedAll(old(State()), ops)
                   + if |rows| != |old(rows)| then [Emission(CountChanged, rows)] else []
      ensures old(log) <= log && FollowAll(old(rows), log[|old(log)|..]) == rows
    {
      hide Applied, Emitted, FollowAll, Follow;
      var before := |rows|;
      for i := 0 to |ops|
        invariant State() == AppliedAll(old(State()), ops[..i])
        invariant log == old(log) + EmittedAll(old(State()), ops[..i])
      {
        assert ops[..i + 1][..i] == ops[..i];
        ApplyOperation(ops[i]);
      }
      assert ops[..|ops|] == ops;
      ViewFollows(old(State()), ops);
      ghost var tail := if |rows| != before then [Emission(CountChanged, rows)] else [];
      CountChangedIsSilent(rows);
      if |rows| != before {
        log := log + [Emission(CountChanged, rows)];
      }
      assert log[|old(log)|..] == EmittedAll(old(State()), ops) + tail;
      FollowConcat(old(rows), EmittedAll(old(State()), ops), tail);
    }

    /** What the core learns after the diff, written into one row. */
    method PatchField(row: int, field: string, value: Json)
      modifies this
      ensures outOfStep == old(outOfStep)
      ensures rows == PatchedRow(old(rows), row, field, value)
      ensures old(log) <= log && FollowAll(old(rows), log[|old(log)|..]) == rows
    {
      assert log[|old(log)|..] == [];
      if row < 0 || row >= |rows| {
        return;
      }
      if field in rows[row] && rows[row][field] == value {
        assert rows[row][field := value] == rows[row];
        return;
      }
      rows := rows[row := rows[row][field := value]];
      var e := Emission(Changed(row), rows);
      log := log + [e];
      assert log[|old(log)|..] == [e] && [e][..0] == [];
    }
  }

  function PatchedRow(rows: seq<Row>, row: int, field: string, value: Json): seq<Row> {
    if 0 <= row < |rows| then rows[row := rows[row][field := value]] else rows
  }

  /** A patch gives one row one value, and no other row or field another. */
  lemma PatchedIs(rows: seq<Row>, row: int, field: string, value: Json, i: nat, k: string)
    requires i < |rows|
    ensures |PatchedRow(rows, row, field, value)| == |rows|
    ensures var r := PatchedRow(rows, row, field, value)[i];
      if i == row && k == field then k in r && r[k] == value
      else (k in r <==> k in rows[i]) && (k in r ==> r[k] == rows[i][k])
  {
  }
}
