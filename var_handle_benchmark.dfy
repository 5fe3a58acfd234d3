/** The benchmark's state and operations, one call at a time: `Model` holds the
    shared cell and the candidate pool, `Handles` the outcome counters and the
    six update variants, and the six benchmark methods each make one step.
    Every variant is proved to do what `CasSpec.Attempt` says, and every step
    what `CasSpec.BenchmarkStep` says. */
module VarHandleBenchmark {
  import opened JavaSemantics
  import opened CasSpec
  import TrialReport

  /** The length of each candidate buffer, `new byte[3][100_000]`. */
  const BufferLength: nat := 100000

  /** `Arrays.fill(a, v)`. */
  method Fill(a: array<JByte>, v: JByte)
    modifies a
    ensures forall k :: 0 <= k < a.Length ==> a[k] == v
  {
    for k := 0 to a.Length
      invariant forall j :: 0 <= j < k ==> a[j] == v
    {
      a[k] := v;
    }
  }

  /** The fill byte of candidate `i`, `(byte) ('A' + i)`. */
  function FillByte(i: nat): (b: JByte)
    requires i < PoolSize
    ensures b as int == 'A' as int + i
  {
    ToByte('A' as int + i)
  }

  class Model {
    /** `Model.PREPARED`, the pool of candidate buffers. The Java array is a
        `static final` field; one `Model` exists per trial, so it is a
        constant field of that one object here. */
    const prepared: array<array<JByte>>

    /** `Model.data`, the shared cell; `null` until `Setup` runs. */
    var data: Buffer

    ghost predicate Valid()
      reads prepared
    {
      prepared.Length == PoolSize &&
      forall i :: 0 <= i < PoolSize ==> prepared[i].Length == BufferLength
    }

    /** The JVM's initial values: `data` is null and `PREPARED` holds three
        zeroed buffers of `BufferLength` bytes. */
    constructor ()
      ensures Valid() && data == null
      ensures fresh(prepared)
      ensures forall i :: 0 <= i < PoolSize ==> fresh(prepared[i])
      ensures forall i, k :: 0 <= i < PoolSize && 0 <= k < BufferLength ==> prepared[i][k] == 0
    {
      var a0 := new JByte[BufferLength](_ => 0);
      var a1 := new JByte[BufferLength](_ => 0);
      var a2 := new JByte[BufferLength](_ => 0);
      prepared := new array<JByte>[PoolSize][a0, a1, a2];
      data := null;
    }

    /** `setup()`: replaces each candidate by a new buffer of the same length
        filled with `'A' + i`, leaving the cell at the last one. */
    method Setup()
      requires Valid()
      modifies this`data, prepared
      ensures Valid()
      ensures forall i :: 0 <= i < PoolSize ==> fresh(prepared[i])
      ensures forall i, j :: 0 <= i < j < PoolSize ==> prepared[i] != prepared[j]
      ensures forall i, k :: 0 <= i < PoolSize && 0 <= k < BufferLength ==> prepared[i][k] == FillByte(i)
      ensures data == prepared[PoolSize - 1]
    {
      for i := 0 to PoolSize
        invariant Valid()
        invariant forall j :: 0 <= j < i ==> fresh(prepared[j])
        invariant forall j, j' :: 0 <= j < j' < i ==> prepared[j] != prepared[j']
        invariant forall j, k :: 0 <= j < i && 0 <= k < BufferLength ==> prepared[j][k] == FillByte(j)
        invariant i > 0 ==> data == prepared[i - 1]
      {
        data := new JByte[prepared[i].Length];
        Fill(data, FillByte(i));
        prepared[i] := data;
      }
    }

    /** `VarHandle.compareAndSet` on this model's `data` field. */
    method CompareAndSetData(expected: Buffer, newValue: Buffer) returns (swapped: bool)
      modifies this`data
      ensures (swapped, data) == CompareAndSet(old(data), expected, newValue)
    {
      swapped := data == expected;
      if swapped {
        data := newValue;
      }
    }
  }

  /** What one trial observes of a model and its counters. */
  ghost function Observe(model: Model, handles: Handles): State
    reads model, handles
  {
    State(model.data, handles.success, handles.fail)
  }

  class Handles {
    /** `Handles.success` and `Handles.fail`, the outcome counters. */
    var success: nat
    var fail: nat

    constructor ()
      ensures success == 0 && fail == 0
    {
      success, fail := 0, 0;
    }

    /** `stats()`: the teardown line; the model gives it back instead of
        printing it. */
    method Stats() returns (line: string)
      ensures line == TrialReport.Stats(success, fail)
      ensures TrialReport.ParseStats(line) == TrialReport.Some(TrialReport.Tally(success, fail, success + fail))
    {
      line := TrialReport.Stats(success, fail);
      TrialReport.StatsRoundTrip(success, fail);
    }

    // The six variants below differ only in how they reach `model.data` and
    // in their threading guarantees; one call at a time, each is `Attempt`.
    // Their frame lets them write the cell and the counters and no buffer.

    /** `executeN`: plain field read and write, no lock. */
    method ExecuteN(model: Model, oldValue: Buffer, newValue: Buffer) returns (r: Buffer)
      modifies this, model`data
      ensures Outcome(Observe(model, this), r) == Attempt(old(Observe(model, this)), oldValue, newValue)
    {
      if model.data == oldValue {
        model.data := newValue;
        success := success + 1;
        return newValue;
      } else {
        fail := fail + 1;
      }
      return oldValue;
    }

    /** `executeSN`: as `executeN`, holding the `Handles` monitor. */
    method ExecuteSN(model: Model, oldValue: Buffer, newValue: Buffer) returns (r: Buffer)
      modifies this, model`data
      ensures Outcome(Observe(model, this), r) == Attempt(old(Observe(model, this)), oldValue, newValue)
    {
      if model.data == oldValue {
        model.data := newValue;
        success := success + 1;
        return newValue;
      } else {
        fail := fail + 1;
      }
      return oldValue;
    }

    /** `executeVH`: reads and writes the cell through the variable handle,
        as two separate accesses. */
    method ExecuteVH(model: Model, oldValue: Buffer, newValue: Buffer) returns (r: Buffer)
      modifies this, model`data
      ensures Outcome(Observe(model, this), r) == Attempt(old(Observe(model, this)), oldValue, newValue)
    {
      var current := model.data;
      if current == oldValue {
        model.data := newValue;
        success := success + 1;
        return newValue;
      } else {
        fail := fail + 1;
      }
      return oldValue;
    }

    /** `executeSVH`: one compare-and-set through the variable handle. */
    method ExecuteSVH(model: Model, oldValue: Buffer, newValue: Buffer) returns (r: Buffer)
      modifies this, model`data
      ensures Outcome(Observe(model, this), r) == Attempt(old(Observe(model, this)), oldValue, newValue)
    {
      var swapped := model.CompareAndSetData(oldValue, newValue);
      if swapped {
        success := success + 1;
        return newValue;
      } else {
        fail := fail + 1;
      }
      return oldValue;
    }

    /** `executeF`: reads and writes the cell through the reflective `Field`. */
    method ExecuteF(model: Model, oldValue: Buffer, newValue: Buffer) returns (r: Buffer)
      modifies this, model`data
      ensures Outcome(Observe(model, this), r) == Attempt(old(Observe(model, this)), oldValue, newValue)
    {
      var current := model.data;
      if current == oldValue {
        model.data := newValue;
        success := success + 1;
        return newValue;
      } else {
        fail := fail + 1;
      }
      return oldValue;
    }

    /** `executeSF`: as `executeF`, holding the `Handles` monitor. */
    method ExecuteSF(model: Model, oldValue: Buffer, newValue: Buffer) returns (r: Buffer)
      modifies this, model`data
      ensures Outcome(Observe(model, this), r) == Attempt(old(Observe(model, this)), oldValue, newValue)
    {
      var current := model.data;
      if current == oldValue {
        model.data := newValue;
        success := success + 1;
        return newValue;
      } else {
        fail := fail + 1;
      }
      return oldValue;
    }
  }

  /** The six benchmark methods, one per variant. */
  datatype Variant = Native | SafeNative | VarHandle | SafeVarHandle | Field | SafeField

  /** `testNative`; the result is what the source hands to the black hole. */
  method TestNative(model: Model, handles: Handles) returns (consumed: Buffer)
    requires model.Valid()
    modifies handles, model`data
    ensures Outcome(Observe(model, handles), consumed)
         == BenchmarkStep(model.prepared[..], old(Observe(model, handles)))
  {
    consumed := handles.ExecuteN(model, model.data, model.prepared[SlotIndex(handles.success)]);
  }

  /** `testSafeNative`. */
  method TestSafeNative(model: Model, handles: Handles) returns (consumed: Buffer)
    requires model.Valid()
    modifies handles, model`data
    ensures Outcome(Observe(model, handles), consumed)
         == BenchmarkStep(model.prepared[..], old(Observe(model, handles)))
  {
    consumed := handles.ExecuteSN(model, model.data, model.prepared[SlotIndex(handles.success)]);
  }

  /** `testVarHandle`. */
  method TestVarHandle(model: Model, handles: Handles) returns (consumed: Buffer)
    requires model.Valid()
    modifies handles, model`data
    ensures Outcome(Observe(model, handles), consumed)
         == BenchmarkStep(model.prepared[..], old(Observe(model, handles)))
  {
    consumed := handles.ExecuteVH(model, model.data, model.prepared[SlotIndex(handles.success)]);
  }

  /** `testSafeVarHandle`. */
  method TestSafeVarHandle(model: Model, handles: Handles) returns (consumed: Buffer)
    requires model.Valid()
    modifies handles, model`data
    ensures Outcome(Observe(model, handles), consumed)
         == BenchmarkStep(model.prepared[..], old(Observe(model, handles)))
  {
    consumed := handles.ExecuteSVH(model, model.data, model.prepared[SlotIndex(handles.success)]);
  }

  /** `testField`. */
  method TestField(model: Model, handles: Handles) returns (consumed: Buffer)
    requires model.Valid()
    modifies handles, model`data
    ensures Outcome(Observe(model, handles), consumed)
         == BenchmarkStep(model.prepared[..], old(Observe(model, handles)))
  {
    consumed := handles.ExecuteF(model, model.data, model.prepared[SlotIndex(handles.success)]);
  }

  /** `testSafeField`. */
  method TestSafeField(model: Model, handles: Handles) returns (consumed: Buffer)
    requires model.Valid()
    modifies handles, model`data
    ensures Outcome(Observe(model, handles), consumed)
         == BenchmarkStep(model.prepared[..], old(Observe(model, handles)))
  {
    consumed := handles.ExecuteSF(model, model.data, model.prepared[SlotIndex(handles.success)]);
  }

  /** The benchmark method for variant `v`. */
  method Benchmark(v: Variant, model: Model, handles: Handles) returns (consumed: Buffer)
    requires model.Valid()
    modifies handles, model`data
    ensures Outcome(Observe(model, handles), consumed)
         == BenchmarkStep(model.prepared[..], old(Observe(model, handles)))
  {
    match v
    case Native => consumed := TestNative(model, handles);
    case SafeNative => consumed := TestSafeNative(model, handles);
    case VarHandle => consumed := TestVarHandle(model, handles);
    case SafeVarHandle => consumed := TestSafeVarHandle(model, handles);
    case Field => consumed := TestField(model, handles);
    case SafeField => consumed := TestSafeField(model, handles);
  }

  /** One trial with a single worker thread: fresh state, `setup`, `k` calls
      of the benchmark method for `v` (the loop stands for the framework's
      invocations), then the teardown report. Every call succeeds, and the
      cell ends at the candidate the last call chose. */
  method RunTrial(v: Variant, k: nat) returns (model: Model, handles: Handles, report: string)
    ensures fresh(model) && fresh(handles)
    ensures model.Valid()
    ensures forall i, j :: 0 <= i < j < PoolSize ==> model.prepared[i] != model.prepared[j]
    ensures forall i, n :: 0 <= i < PoolSize && 0 <= n < BufferLength ==> model.prepared[i][n] == FillByte(i)
    ensures handles.success == k && handles.fail == 0
    ensures model.data == model.prepared[(k + PoolSize - 1) % PoolSize]
    ensures report == TrialReport.Stats(k, 0)
  {
    model := new Model();
    handles := new Handles();
    model.Setup();
    ghost var pool: seq<Buffer> := model.prepared[..];
    ghost var start := Observe(model, handles);
    assert start == State(pool[PoolSize - 1], 0, 0);
    var i := 0;
    while i < k
      invariant 0 <= i <= k
      invariant model.Valid() && model.prepared[..] == pool
      invariant forall i, j :: 0 <= i < j < PoolSize ==> model.prepared[i] != model.prepared[j]
      invariant forall i, n :: 0 <= i < PoolSize && 0 <= n < BufferLength ==> model.prepared[i][n] == FillByte(i)
      invariant Observe(model, handles) == Run(pool, start, i)
    {
      var _ := Benchmark(v, model, handles);
      i := i + 1;
    }
    SingleThreadedTrial(pool, k);
    report := handles.Stats();
  }
}
