# SimpleJavaPerformance runners, modelled in Dafny

SimpleJavaPerformance is a micro-benchmark harness. A *runnable method* wraps one
candidate operation. It calls the operation on its own thread until the thread's
CPU time reaches a shared budget. It then records its throughput in operations
per second and adds that throughput to a shared total. A *runnable test* is an
ordered, duplicate-free list of runnable methods. It starts them all, joins them
in order, and scores each as `outof * ops / total`.

This project models those two classes and proves what their code promises.

- `java_types.dfy` (module `JavaTypes`): Java's `long`, `int` and `char`
  ranges, strings as UTF-16 code units, and the two's-complement wrap-around of
  `long` arithmetic.
- `method_runner.dfy` (module `MethodRunner`): `AbstractRunnableMethod`.
  - The class's static fields (budget, budget lock, thread registry, liveness
    flag, running total) become one `SharedContext` object. Every runner holds a
    reference to it.
  - The measurement loop is the method `Measure`. It is proved against the
    specification function `Measured`.
  - `RunnableMethod.Run` is the whole `run()`: it sets the lock, measures,
    computes throughput, adds it to the total, scans the registry and maybe
    releases the lock.
- `test_suite.dfy` (module `TestSuite`): `RunnableTest`.
  - The runner list is a `seq` field. `AddMethod` and `RemoveMethod` are proved
    against the functions `Added` and `Removed`.
  - `Run` and `Evaluate` return the start and join events in the order they
    happen, and `Evaluate` returns the report as data.

Inputs that the real program reads from the machine are parameters here:

- the thread's CPU clock is a sequence of samples, one per loop iteration;
- each registered thread's `isAlive()` answer is one flag per registry entry;
- `System.nanoTime()` is a `now` argument;
- an `InterruptedException` during the joins is an optional index of the
  interrupted join.

Behaviour of the code as written that a reader might not expect:

- The running total is process-wide. Every runner constructor resets it to zero.
  The scores add up to `outof` when, since the last constructor ran, exactly
  the listed runners added to the total, each exactly once, and their sum
  neither overflowed nor is zero (`ScoresAfterFullRunSumToOutof`). A runner
  outside this suite that finishes in that time adds to the same total, so this
  suite's scores can then add up to less.
- `evaluate(highscore)` scales scores by the suite's `outof`. `highscore` only
  chooses one or two printed decimals.
- An interrupted join is caught and printed. Because the `try` encloses the
  whole join loop, the remaining runners are not joined. Scoring still goes on.
- A total of zero gives a non-finite score (NaN or an infinity in the source).
  It is not reported as an error.

The lock can only be released when no registered thread reports alive. A runner
started with `start()` scans the registry from its own thread, which is
registered and alive while it scans. So in the source the release at
AbstractRunnableMethod.java:101 never happens for a started runner: the budget
stays locked. The model's `Run` takes the `isAlive()` answers as input and clears
the lock whenever every one of them is false. For a started runner its own
entry is true, and the model then keeps the lock set as well. All answers are
false only when `run()` is called directly, on a runner whose thread is not
running (never started, or already finished), while no other registered thread
is running.

Names are Java strings: sequences of UTF-16 code units (`JString`). Truncation
to fifteen code units can therefore cut a surrogate pair in half, exactly as
`substring(0, 15)` does.

## Model

| member | source | states |
|---|---|---|
| `JavaTypes.Wrap` | SimpleJavaPerformance/src/simplejavaperformance/runnables/AbstractRunnableMethod.java:132 | the result is a `long` congruent to the exact value modulo 2^64, and equals the exact value when that is in `long` range |
| `JavaTypes.WrapAdd` | SimpleJavaPerformance/src/simplejavaperformance/runnables/AbstractRunnableMethod.java:92 | wrapping after each `+=` gives the same `long` as wrapping the exact sum once |
| `MethodRunner.TruncateName` | SimpleJavaPerformance/src/simplejavaperformance/runnables/AbstractRunnableMethod.java:67 | the stored name is a prefix of the given name, at most 15 UTF-16 code units long; it is exactly 15 when the input has at least 15 code units, and the whole input otherwise |
| `MethodRunner.BudgetNanos` | SimpleJavaPerformance/src/simplejavaperformance/runnables/AbstractRunnableMethod.java:130-133 | the stored budget is `t * 10^9` modulo 2^64 |
| `MethodRunner.BudgetFromIntIsExact` | SimpleJavaPerformance/src/simplejavaperformance/runnables/AbstractRunnableMethod.java:57-68 | a budget passed as a Java `int` number of seconds, as both constructors do, becomes exactly `seconds * 10^9` nanoseconds, with no overflow |
| `MethodRunner.StopIndex` | SimpleJavaPerformance/src/simplejavaperformance/runnables/AbstractRunnableMethod.java:84-87 | the loop stops at the first sample that reaches the budget: every earlier sample is below it; there is no such index exactly when every sample is below the budget |
| `MethodRunner.Measured` | SimpleJavaPerformance/src/simplejavaperformance/runnables/AbstractRunnableMethod.java:83-87 | on exit `cpuTime >= executionTime`; with a positive budget, `op` is the number of calls and of samples taken, `cpuTime` is the last sample, and every earlier sample was below the budget; with a budget of zero or less the body never runs (`op = 0`, `cpuTime = 0`); there is no outcome exactly when the clock never reaches the budget |
| `MethodRunner.Measure` | SimpleJavaPerformance/src/simplejavaperformance/runnables/AbstractRunnableMethod.java:83-87 | the loop ends exactly when `Measured` has an outcome, and its final `op` and `cpuTime` are that outcome; if the samples run out first, all of them were taken |
| `MethodRunner.Throughput` | SimpleJavaPerformance/src/simplejavaperformance/runnables/AbstractRunnableMethod.java:89-90 | operations per second is non-negative and is the floor of `op * 10^9 / cpuTime`, saturated at `Long.MAX_VALUE`; with zero CPU time it is 0 when no operation ran (NaN cast to 0) and `Long.MAX_VALUE` otherwise |
| `MethodRunner.ThroughputIsScaleFree` | SimpleJavaPerformance/src/simplejavaperformance/runnables/AbstractRunnableMethod.java:89-90 | throughput is per CPU-second: scaling both the operation count and the CPU time by the same factor leaves it unchanged |
| `MethodRunner.AccumulateIsWrappedSum` | SimpleJavaPerformance/src/simplejavaperformance/runnables/AbstractRunnableMethod.java:92 | after runners finish one after another, each adding its throughput, the total is the wrapped sum of all their throughputs |
| `MethodRunner.SharedContext.constructor` | SimpleJavaPerformance/src/simplejavaperformance/runnables/AbstractRunnableMethod.java:48-51 | class initialisation leaves an empty thread registry, budget 0, lock clear and total 0 |
| `MethodRunner.SharedContext.SetExecutionTime` | SimpleJavaPerformance/src/simplejavaperformance/runnables/AbstractRunnableMethod.java:130-133 | when the lock is clear the budget becomes `t` seconds in nanoseconds; when it is set the budget is unchanged; nothing else changes |
| `MethodRunner.SharedContext.GetExecutionTime` | SimpleJavaPerformance/src/simplejavaperformance/runnables/AbstractRunnableMethod.java:135-137 | returns the stored budget and changes nothing |
| `MethodRunner.SharedContext.GetTotalTimeTaken` | SimpleJavaPerformance/src/simplejavaperformance/runnables/AbstractRunnableMethod.java:139-141 | returns the accumulated total and changes nothing |
| `MethodRunner.RunnableMethod.constructor` | SimpleJavaPerformance/src/simplejavaperformance/runnables/AbstractRunnableMethod.java:66-73 | stores the truncated name; sets the budget to `exectime` seconds unless locked; resets the total to 0; appends exactly one new thread to the registry; leaves the lock and the liveness flag alone |
| `MethodRunner.RunnableMethod.WithDefaultBudget` | SimpleJavaPerformance/src/simplejavaperformance/runnables/AbstractRunnableMethod.java:57-59 | the same as the two-argument constructor, with a budget of 10 seconds |
| `MethodRunner.RunnableMethod.Run` | SimpleJavaPerformance/src/simplejavaperformance/runnables/AbstractRunnableMethod.java:79-102 | the lock is set before measuring; if the clock never reaches the budget, nothing else has changed; otherwise the throughput of the measured outcome is stored, the total grows by exactly that throughput (wrapped), the liveness flag says whether some registered thread is alive, and the lock ends clear exactly when none is; the budget and the registry never change |
| `MethodRunner.RunnableMethod.GetName` | SimpleJavaPerformance/src/simplejavaperformance/runnables/AbstractRunnableMethod.java:116-118 | returns the stored name, which is the truncated given name: a prefix of at most 15 code units; changes nothing |
| `MethodRunner.RunnableMethod.GetOpsPerSec` | SimpleJavaPerformance/src/simplejavaperformance/runnables/AbstractRunnableMethod.java:120-122 | returns the stored throughput, which is never negative, changing nothing |
| `TestSuite.Added` | SimpleJavaPerformance/src/simplejavaperformance/runnables/RunnableTest.java:48-54 | `e` is in the result; an absent `e` is appended at the end after the unchanged old list; a present `e` leaves the list unchanged; a duplicate-free list stays duplicate-free |
| `TestSuite.Removed` | SimpleJavaPerformance/src/simplejavaperformance/runnables/RunnableTest.java:63-69 | an absent `e` leaves the list unchanged; a present `e` is cut out at its first position, with the rest in their old order; on a duplicate-free list, `e` is gone, no other element is lost and the result stays duplicate-free |
| `TestSuite.AddIsIdempotent` | SimpleJavaPerformance/src/simplejavaperformance/runnables/RunnableTest.java:48-54 | adding twice equals adding once |
| `TestSuite.RemoveIsIdempotent` | SimpleJavaPerformance/src/simplejavaperformance/runnables/RunnableTest.java:63-69 | on a duplicate-free list, removing twice equals removing once |
| `TestSuite.RemoveUndoesAdd` | SimpleJavaPerformance/src/simplejavaperformance/runnables/RunnableTest.java:48-69 | removing a runner that was not listed before and was just added restores the list |
| `TestSuite.ScoreOf` | SimpleJavaPerformance/src/simplejavaperformance/runnables/RunnableTest.java:127 | a score is undefined exactly when the total is zero; otherwise the score times the total is `outof` times the runner's throughput |
| `TestSuite.ScoreFollowsThroughput` | SimpleJavaPerformance/src/simplejavaperformance/runnables/RunnableTest.java:127 | with a positive total and a non-negative scale, a runner with more throughput never scores lower |
| `TestSuite.TotalScoreIsShare` | SimpleJavaPerformance/src/simplejavaperformance/runnables/RunnableTest.java:110-127 | the rows' scores added up, times the total, equal `outof` times the rows' throughputs added up |
| `TestSuite.ScoresSumToOutof` | SimpleJavaPerformance/src/simplejavaperformance/runnables/RunnableTest.java:110-127 | when the total equals the listed runners' throughputs and is not zero, the scores add up to `outof` |
| `TestSuite.ScoresAfterFullRunSumToOutof` | SimpleJavaPerformance/src/simplejavaperformance/runnables/RunnableTest.java:110 | if the total started at 0 and then exactly the listed runners added to it, each exactly once, with a sum that neither overflows nor is zero, the scores add up to `outof` |
| `TestSuite.RunnableTest.constructor` | SimpleJavaPerformance/src/simplejavaperformance/runnables/RunnableTest.java:29-32 | an empty runner list, scores out of the argument |
| `TestSuite.RunnableTest.Default` | SimpleJavaPerformance/src/simplejavaperformance/runnables/RunnableTest.java:37-39 | an empty runner list, scores out of 10 |
| `TestSuite.RunnableTest.AddMethod` | SimpleJavaPerformance/src/simplejavaperformance/runnables/RunnableTest.java:48-54 | the list becomes `Added(old list, e)` and stays duplicate-free; the suite itself is returned, for chaining |
| `TestSuite.RunnableTest.RemoveMethod` | SimpleJavaPerformance/src/simplejavaperformance/runnables/RunnableTest.java:63-69 | the list becomes `Removed(old list, e)` and stays duplicate-free; the suite itself is returned, for chaining |
| `TestSuite.RunnableTest.Run` | SimpleJavaPerformance/src/simplejavaperformance/runnables/RunnableTest.java:74-80 | records the start time, then starts every listed runner exactly once, in list order |
| `TestSuite.RunnableTest.Evaluate` | SimpleJavaPerformance/src/simplejavaperformance/runnables/RunnableTest.java:96-131 | joins the runners in list order; an interrupted join ends the joins and evaluation goes on; the elapsed time is `now - start` (wrapped); every listed runner gets a row, in list order, with its name, its throughput and the score `outof * ops / total` read from the shared total that every listed runner holds; `highscore` only picks one or two decimals |
| `TestSuite.RunnableTest.EvaluateDefault` | SimpleJavaPerformance/src/simplejavaperformance/runnables/RunnableTest.java:86-88 | the same as `Evaluate` with `highscore` 1: the same joins and rows, printed with two decimals |

## Left out

- Threads are not modelled. `start()` and `join()` (AbstractRunnableMethod.java:104-110) are events that `RunnableTest.Run` and `RunnableTest.Evaluate` return in order.
- A second `start()` of the same thread is not modelled. Java throws `IllegalThreadStateException` there.
- `join(long)` (AbstractRunnableMethod.java:112-114) is not modelled, because nothing in these two classes calls it.
- Thread liveness is an input. The model does not derive it from the threads' states.
- The CPU clock is a sequence of natural-number samples. Two other outcomes of `getCurrentThreadCpuTime()` are not modelled: it returns -1 when CPU-time measurement is disabled, and it throws `UnsupportedOperationException` when the virtual machine does not support it, which ends `run()` with the lock set and the total not incremented.
- The system clock is an argument (`now`).
- The candidate operation `method()` is user code. Its effects are not modelled; each call is only counted.
- MethodRunner.RunnableMethod.Run: a clock that never reaches the budget makes the source loop forever. The model instead reports `finished == false` once the samples run out, with only the lock set.
- MethodRunner.Throughput: computed exactly as the floor of a rational number. The source divides in `double` precision and then truncates, so its result can differ from the model's by one in either direction whenever the exact quotient is an integer or close to one, at any size: 33 operations in 1.1 seconds give 29 in the source and 30 here, and 129870131 operations in 10000000077 nanoseconds (just below 12987013 per second) give 12987013 in the source and 12987012 here; for very large counts the rounding of the operands can move it further.
- The operation counter `op` is a `long` in the source. Its overflow is not modelled.
- TestSuite.ScoreOf: the score is a real number, not a `double`. The non-finite cases (NaN, positive and negative infinity) are merged into `Undefined`.
- Printing is left out: the "Time taken" line, the table header, the tab alignment and `DecimalFormat`. The report returns the elapsed nanoseconds, the number of decimals and the rows as data.
- The printed stack trace of an interrupted join is left out. Only the fact that the joins stop is modelled.
- Races on the static fields are not modelled. Each method is modelled by its sequential meaning, with one shared context standing in for the statics.
