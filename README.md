# VarHandle compare-and-set benchmark: a sequential model

The repository is a JMH micro-benchmark that times six ways of doing a
compare-and-set on one shared field, `Model.data`, a `byte[]` reference. Each
way compares the cell with an expected reference (identity, not content), swaps
in a new reference if they match, and bumps one of two counters, `success` or
`fail`. The benchmark methods always pass the cell's current value as the
expected one and `PREPARED[success.intValue() % 3]` as the new one (see
"## Findings" for what that index does once the counter passes 2^31). At teardown the counters
are printed as `<<<Passed: s. Failed: f. Total: s+f>>>`.

This project models that harness one call at a time and proves:

- each of the six update variants does exactly what `CasSpec.Attempt` says.
  The cell changes to the new reference, the result is the new reference and
  `success` grows by one exactly when the cell held the expected reference.
  Otherwise the cell is untouched, the result is the expected reference and
  `fail` grows by one. So all six are observationally identical when run
  sequentially.
- every call grows `success + fail` by exactly one. A mismatch is counted,
  never an error. The methods' frames allow writes to the counters and to `Model.data` only, so no
  buffer's bytes change.
- `setup` leaves three fresh, pairwise distinct buffers of 100000 bytes, buffer
  `i` filled with `'A' + i`, and the cell at buffer 2.
- on one thread, `k` benchmark steps from fresh counters give `k` successes,
  no failure, and the cell at `PREPARED[(k - 1) % 3]`.
- the teardown line can be read back into its three numbers, so it determines
  the counters and its total is their sum.

Files:

- `java_semantics.dfy` (module `JavaSemantics`): Java's signed `byte`, the
  narrowing casts `(byte)` and `AtomicLong.intValue()`, and Java's truncating `/` and
  `%`.
- `cas_spec.dfy` (module `CasSpec`): the value-level semantics. It has the
  state, one attempt, the compare-and-set primitive, one benchmark step, a
  run of `k` steps, and the candidate index as written and as corrected.
- `trial_report.dfy` (module `TrialReport`): the teardown line, with Java's
  decimal rendering of a counter, and a reader for it.
- `var_handle_benchmark.dfy` (module `VarHandleBenchmark`): the classes
  `Model` and `Handles`, `Arrays.fill`, the six `test*` methods and a
  single-thread trial driver.

On a failed compare each variant returns its `oldValue` argument
(VarHandleBenchmark.java:66), not the value the cell holds.

## Model

| member | source | states |
|---|---|---|
| JavaSemantics.ToByte | src/main/java/com/codegans/jmh/vh/VarHandleBenchmark.java:144 | `(byte) x` keeps `x` modulo 256, and keeps `x` itself when it is in the byte range |
| JavaSemantics.IntValue | src/main/java/com/codegans/jmh/vh/VarHandleBenchmark.java:153 | `intValue()` gives a 32-bit `int` congruent to the `long` modulo 2^32, equal to it when it fits |
| JavaSemantics.JavaRem | src/main/java/com/codegans/jmh/vh/VarHandleBenchmark.java:153 | Java's `%` takes the sign of the dividend, is smaller than the divisor in magnitude, and satisfies `(a / b) * b + a % b == a` with truncating `/` |
| CasSpec.Attempt | src/main/java/com/codegans/jmh/vh/VarHandleBenchmark.java:57-67 | one attempt grows `success + fail` by one; it swaps and counts a success iff the cell holds `oldValue` (by reference), returning `newValue`; otherwise it leaves the cell, counts a failure and returns `oldValue` |
| CasSpec.CompareAndSet | src/main/java/com/codegans/jmh/vh/VarHandleBenchmark.java:94 | `compareAndSet` reports true iff the cell holds the expected reference, and then the cell holds the new one; otherwise the cell is unchanged |
| CasSpec.AttemptByCas | src/main/java/com/codegans/jmh/vh/VarHandleBenchmark.java:93-102 | `executeSVH` on values: one compare-and-set, then one counter grows; it counts a success iff the cell holds `oldValue`, and then the cell holds `newValue`; it counts a failure iff the cell holds anything else, and then `success` and the cell are unchanged; it returns `newValue` on success and `oldValue` otherwise |
| CasSpec.CasAgreesWithReadCompareWrite | src/main/java/com/codegans/jmh/vh/VarHandleBenchmark.java:57-126 | run alone, the compare-and-set variant `executeSVH` and the read-compare-write variants give the same state and result |
| CasSpec.SlotIndex | src/main/java/com/codegans/jmh/vh/VarHandleBenchmark.java:153 | the corrected candidate index is a valid pool index and equals Java's `success % 3` on the full counter |
| CasSpec.SlotIndexAsWritten | src/main/java/com/codegans/jmh/vh/VarHandleBenchmark.java:153 | `success.intValue() % 3` as written lies strictly between -3 and 3, and is negative only when `intValue()` is |
| CasSpec.SlotIndexAsWrittenBelowTwoTo31 | src/main/java/com/codegans/jmh/vh/VarHandleBenchmark.java:153 | while `success < 2^31`, `success.intValue() % 3` is the corrected index |
| CasSpec.SlotIndexAsWrittenOutOfRange | src/main/java/com/codegans/jmh/vh/VarHandleBenchmark.java:153 | at `success == 2^31`, `success.intValue() % 3` is -2, not an index of the pool |
| CasSpec.BenchmarkStep | src/main/java/com/codegans/jmh/vh/VarHandleBenchmark.java:151-154 | a step that passes the current cell as old always succeeds: the cell becomes `PREPARED[success % 3]`, `success` grows by one, `fail` is unchanged, and the step returns the new cell |
| CasSpec.Run | src/main/java/com/codegans/jmh/vh/VarHandleBenchmark.java:151-179 | `k` sequential benchmark calls count exactly `k` attempts: `success + fail` grows by `k` |
| CasSpec.RunFromState | src/main/java/com/codegans/jmh/vh/VarHandleBenchmark.java:151-179 | `k` sequential steps from any state add `k` successes and no failure and leave the cell at `PREPARED[(success + k - 1) % 3]` |
| CasSpec.SingleThreadedTrial | src/main/java/com/codegans/jmh/vh/VarHandleBenchmark.java:139-179 | from the state `setup` leaves (cell at `PREPARED[2]`, counters zero), `k` steps give `success == k`, `fail == 0` and the cell at `PREPARED[(k - 1) % 3]` |
| TrialReport.DecimalString | src/main/java/com/codegans/jmh/vh/VarHandleBenchmark.java:54 | a counter prints as a non-empty string of decimal digits with no leading zero |
| TrialReport.DecimalRoundTrip | src/main/java/com/codegans/jmh/vh/VarHandleBenchmark.java:54 | reading the printed digits back gives the counter |
| TrialReport.Stats | src/main/java/com/codegans/jmh/vh/VarHandleBenchmark.java:54 | the teardown line starts with `<<<Passed: ` and ends with `>>>` |
| TrialReport.StatsRoundTrip | src/main/java/com/codegans/jmh/vh/VarHandleBenchmark.java:54 | the teardown line reads back as `Passed` = success, `Failed` = fail, `Total` = success + fail |
| TrialReport.StatsInjective | src/main/java/com/codegans/jmh/vh/VarHandleBenchmark.java:54 | two different pairs of counters never print the same teardown line |
| TrialReport.StatsExample | src/main/java/com/codegans/jmh/vh/VarHandleBenchmark.java:54 | 7 successes and 3 failures print `<<<Passed: 7. Failed: 3. Total: 10>>>` |
| VarHandleBenchmark.Fill | src/main/java/com/codegans/jmh/vh/VarHandleBenchmark.java:144 | `Arrays.fill` sets every element of the array to the value |
| VarHandleBenchmark.FillByte | src/main/java/com/codegans/jmh/vh/VarHandleBenchmark.java:144 | the fill byte of candidate `i` is `'A' + i` |
| VarHandleBenchmark.Model.constructor | src/main/java/com/codegans/jmh/vh/VarHandleBenchmark.java:131-133 | initially the cell is null and the pool holds three fresh zeroed buffers of 100000 bytes |
| VarHandleBenchmark.Model.Setup | src/main/java/com/codegans/jmh/vh/VarHandleBenchmark.java:139-148 | after `setup` each `PREPARED[i]` is a fresh buffer of 100000 bytes all equal to `'A' + i`, the three are pairwise distinct, and the cell holds `PREPARED[2]` |
| VarHandleBenchmark.Model.CompareAndSetData | src/main/java/com/codegans/jmh/vh/VarHandleBenchmark.java:94 | the field-level compare-and-set does what `CasSpec.CompareAndSet` says to `data` and changes nothing else |
| VarHandleBenchmark.Handles.constructor | src/main/java/com/codegans/jmh/vh/VarHandleBenchmark.java:41-50 | both counters start at zero |
| VarHandleBenchmark.Handles.Stats | src/main/java/com/codegans/jmh/vh/VarHandleBenchmark.java:52-55 | the teardown line is the report of the current counters, and it reads back as those counters and their sum |
| VarHandleBenchmark.Handles.ExecuteN | src/main/java/com/codegans/jmh/vh/VarHandleBenchmark.java:57-67 | the new cell, counters and result are those of `Attempt`; no buffer is written |
| VarHandleBenchmark.Handles.ExecuteSN | src/main/java/com/codegans/jmh/vh/VarHandleBenchmark.java:69-79 | the new cell, counters and result are those of `Attempt`; no buffer is written |
| VarHandleBenchmark.Handles.ExecuteVH | src/main/java/com/codegans/jmh/vh/VarHandleBenchmark.java:81-91 | the new cell, counters and result are those of `Attempt`; no buffer is written |
| VarHandleBenchmark.Handles.ExecuteSVH | src/main/java/com/codegans/jmh/vh/VarHandleBenchmark.java:93-102 | through one compare-and-set, the new cell, counters and result are those of `Attempt`; no buffer is written |
| VarHandleBenchmark.Handles.ExecuteF | src/main/java/com/codegans/jmh/vh/VarHandleBenchmark.java:104-114 | the new cell, counters and result are those of `Attempt`; no buffer is written |
| VarHandleBenchmark.Handles.ExecuteSF | src/main/java/com/codegans/jmh/vh/VarHandleBenchmark.java:116-126 | the new cell, counters and result are those of `Attempt`; no buffer is written |
| VarHandleBenchmark.TestNative | src/main/java/com/codegans/jmh/vh/VarHandleBenchmark.java:151-154 | one call is one `BenchmarkStep`, so it always succeeds and moves the cell to `PREPARED[success % 3]` |
| VarHandleBenchmark.TestSafeNative | src/main/java/com/codegans/jmh/vh/VarHandleBenchmark.java:156-159 | one call is one `BenchmarkStep` |
| VarHandleBenchmark.TestVarHandle | src/main/java/com/codegans/jmh/vh/VarHandleBenchmark.java:161-164 | one call is one `BenchmarkStep` |
| VarHandleBenchmark.TestSafeVarHandle | src/main/java/com/codegans/jmh/vh/VarHandleBenchmark.java:166-169 | one call is one `BenchmarkStep` |
| VarHandleBenchmark.TestField | src/main/java/com/codegans/jmh/vh/VarHandleBenchmark.java:171-174 | one call is one `BenchmarkStep` |
| VarHandleBenchmark.TestSafeField | src/main/java/com/codegans/jmh/vh/VarHandleBenchmark.java:176-179 | one call is one `BenchmarkStep` |
| VarHandleBenchmark.Benchmark | src/main/java/com/codegans/jmh/vh/VarHandleBenchmark.java:151-179 | whichever of the six benchmark methods runs, one call is the same `BenchmarkStep` |
| VarHandleBenchmark.RunTrial | src/main/java/com/codegans/jmh/vh/VarHandleBenchmark.java:139-179 | a single-thread trial on fresh `Model` and `Handles` objects, of `k` calls of any variant keeps the three candidates pairwise distinct and filled with `'A' + i`, and ends with `success == k`, `fail == 0`, the cell at `PREPARED[(k - 1) % 3]` (at `PREPARED[2]` when `k == 0`), and the report `Stats(k, 0)` |

## Left out

- Concurrency: thread interleavings, `volatile` visibility of `data`, the `synchronized` monitors, the atomicity of `compareAndSet` and of `AtomicLong` increments, and the six-thread run. Each call is modelled as one atomic step, so races between calls are not modelled.
- Reflection and handle binding in the `Handles` constructor (`getDeclaredField`, `findVarHandle`, the `IllegalStateException` wrapping): these are foreign calls. `Field.get/set` and `VarHandle.get/set` are modelled as plain reads and writes of `data`, so `IllegalAccessException` never arises.
- JMH plumbing: annotations, `Blackhole.consume` (the consumed reference is returned instead), `main` with `Runner`/`OptionsBuilder`, and the `System.out.print` side effect (`Stats` returns the line instead).
- `Model.test`: its body is empty, so it has no behaviour to model.
- `PREPARED` is a static field shared by all `Model` objects. It is modelled as a constant field of the one `Model` a trial uses.
- Counters are unbounded `nat`s. The 64-bit `AtomicLong` wrap-around at 2^63 is not modelled.
- The benchmark methods use the corrected index `success % 3` (see Findings). The source's exception at a negative index is shown by `CasSpec.SlotIndexAsWrittenOutOfRange` and not carried into the stateful model.

## Findings

| source | as written | input that shows it | evidently intended | confidence | as-written member | corrected member |
|---|---|---|---|---|---|---|
| src/main/java/com/codegans/jmh/vh/VarHandleBenchmark.java:153 | `handles.success.intValue() % 3` narrows the `long` counter to a 32-bit `int` before the remainder (the same in lines 158, 163, 168, 173 and 178) | `success == 2147483648`: `intValue()` is -2147483648, and Java's `-2147483648 % 3` is -2, so `PREPARED[-2]` throws `ArrayIndexOutOfBoundsException` | the candidate index `success % 3`, always in 0..2 | medium; not executed | CasSpec.SlotIndexAsWritten | CasSpec.SlotIndex |
