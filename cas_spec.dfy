/** The benchmark's sequential semantics on values: the shared cell and the two
    outcome counters as one `State`, one update attempt, one benchmark step,
    and a run of `k` steps on a single thread. The classes in module
    `VarHandleBenchmark` are proved against these functions. */
module CasSpec {
  import opened JavaSemantics

  /** A Java `byte[]` reference. Equality on it is reference identity, which
      is what every update variant compares; it may be `null`. */
  type Buffer = array?<JByte>

  /** The number of candidate buffers, `Model.PREPARED.length`. */
  const PoolSize: nat := 3

  /** What one trial observes: the cell `Model.data` and the counters
      `Handles.success` and `Handles.fail`. */
  datatype State = State(data: Buffer, success: nat, fail: nat)

  /** The state after an update attempt, and the reference the attempt returns. */
  datatype Outcome = Outcome(after: State, returned: Buffer)

  /** One update attempt, as `executeN`, `executeSN`, `executeVH` and
      `executeF` write it: read the cell, and if it holds `oldValue` write
      `newValue` into it. Exactly one counter grows; a mismatch is counted,
      never an error, and never writes the cell. */
  function Attempt(s: State, oldValue: Buffer, newValue: Buffer): (o: Outcome)
    ensures o.after.success + o.after.fail == s.success + s.fail + 1
    ensures o.after.success == s.success + 1 <==> s.data == oldValue
    ensures o.after.fail == s.fail + 1 <==> s.data != oldValue
    ensures s.data == oldValue ==> o.after.data == newValue && o.returned == newValue
    ensures s.data != oldValue ==> o.after.data == s.data && o.returned == oldValue
  {
    if s.data == oldValue then
      Outcome(State(newValue, s.success + 1, s.fail), newValue)
    else
      Outcome(State(s.data, s.success, s.fail + 1), oldValue)
  }

  /** `VarHandle.compareAndSet`: one indivisible compare-and-swap on the cell;
      it reports whether it swapped, and gives the cell's new content. */
  function CompareAndSet(data: Buffer, expected: Buffer, newValue: Buffer): (r: (bool, Buffer))
    ensures r.0 <==> data == expected
    ensures r.0 ==> r.1 == newValue
    ensures !r.0 ==> r.1 == data
  {
    if data == expected then (true, newValue) else (false, data)
  }

  /** `executeSVH`: swap with the primitive, then count by its verdict. */
  function AttemptByCas(s: State, oldValue: Buffer, newValue: Buffer): (o: Outcome)
    ensures o.after.success + o.after.fail == s.success + s.fail + 1
    ensures o.after.success == s.success + 1 <==> s.data == oldValue
    ensures o.after.fail == s.fail + 1 <==> s.data != oldValue
    ensures s.data == oldValue ==> o.after.data == newValue
    ensures s.data != oldValue ==> o.after.data == s.data
    ensures o.returned == (if o.after.success == s.success + 1 then newValue else oldValue)
  {
    var (swapped, data) := CompareAndSet(s.data, oldValue, newValue);
    if swapped then
      Outcome(State(data, s.success + 1, s.fail), newValue)
    else
      Outcome(State(data, s.success, s.fail + 1), oldValue)
  }

  /** Run one call at a time, the atomic compare-and-swap variant and the
      read-compare-write variants cannot be told apart. */
  lemma CasAgreesWithReadCompareWrite(s: State, oldValue: Buffer, newValue: Buffer)
    ensures AttemptByCas(s, oldValue, newValue) == Attempt(s, oldValue, newValue)
  {
  }

  /** The candidate a step offers, `PREPARED[success % 3]`, with the
      remainder taken on the counter's full value (see `SlotIndexAsWritten`
      for the source's narrowing to `int` first). */
  function SlotIndex(success: nat): (i: nat)
    ensures i < PoolSize
    ensures JavaRem(success, PoolSize) == i
  {
    success % PoolSize
  }

  /** The index as the source computes it, `success.intValue() % 3`: the
      counter is narrowed to a 32-bit `int` before Java's remainder. */
  function SlotIndexAsWritten(success: nat): (r: int)
    ensures -(PoolSize as int) < r < PoolSize
    ensures IntValue(success) >= 0 ==> r >= 0
    ensures IntValue(success) < 0 ==> r <= 0
  {
    JavaRem(IntValue(success), PoolSize)
  }

  /** While the counter fits in an `int`, the two index computations agree. */
  lemma SlotIndexAsWrittenBelowTwoTo31(success: nat)
    requires success < TwoTo31
    ensures SlotIndexAsWritten(success) == SlotIndex(success)
  {
  }

  /** The 2^31-th success makes the source's index negative: `intValue()`
      gives -2^31, and Java's `-2147483648 % 3` is -2, which is no index of
      the pool. */
  lemma SlotIndexAsWrittenOutOfRange()
    ensures SlotIndexAsWritten(TwoTo31) == -2
  {
    assert IntValue(TwoTo31) == -TwoTo31;
  }

  /** One benchmark method call (`testNative` and its five siblings): the
      current cell is passed as the expected old value and the candidate at
      `SlotIndex(success)` as the new one. On its own, a step therefore always
      succeeds. */
  function BenchmarkStep(pool: seq<Buffer>, s: State): (o: Outcome)
    requires |pool| == PoolSize
    ensures o.after == State(pool[s.success % PoolSize], s.success + 1, s.fail)
    ensures o.returned == o.after.data
  {
    Attempt(s, s.data, pool[SlotIndex(s.success)])
  }

  /** `k` benchmark steps, one after the other, on a single thread. Every
      step is counted once, as a success or a failure. */
  function Run(pool: seq<Buffer>, s: State, k: nat): (t: State)
    requires |pool| == PoolSize
    ensures t.success + t.fail == s.success + s.fail + k
    decreases k
  {
    if k == 0 then s else BenchmarkStep(pool, Run(pool, s, k - 1)).after
  }

  /** From any state, `k` steps add `k` successes, no failure, and leave the
      cell at the candidate the last step chose. */
  lemma {:induction false} RunFromState(pool: seq<Buffer>, s: State, k: nat)
    requires |pool| == PoolSize
    ensures Run(pool, s, k).success == s.success + k
    ensures Run(pool, s, k).fail == s.fail
    ensures k >= 1 ==> Run(pool, s, k).data == pool[(s.success + k - 1) % PoolSize]
    ensures k == 0 ==> Run(pool, s, k).data == s.data
  {
    if k > 0 {
      RunFromState(pool, s, k - 1);
    }
  }

  /** The single-thread trial: after `setup` the cell holds the last
      candidate and both counters are zero; after `k` steps `success == k`,
      `fail == 0` and the cell holds candidate `(k - 1) % 3` (candidate 2,
      the initial one, when `k == 0`). */
  lemma SingleThreadedTrial(pool: seq<Buffer>, k: nat)
    requires |pool| == PoolSize
    ensures Run(pool, State(pool[PoolSize - 1], 0, 0), k)
         == State(pool[(k + PoolSize - 1) % PoolSize], k, 0)
  {
    RunFromState(pool, State(pool[PoolSize - 1], 0, 0), k);
  }
}
