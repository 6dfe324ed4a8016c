/** One benchmark candidate (AbstractRunnableMethod.java): a runner that calls
    its candidate operation until the thread's CPU time reaches the shared
    budget, records operations per second and adds them to a shared total.

    The Java class keeps its budget, budget lock, thread registry, liveness
    flag and running total in static fields. Here one `SharedContext` object
    stands for those statics; every runner holds a reference to it. The CPU
    clock and the threads' liveness are inputs: a sequence of clock samples
    and one flag per registered thread. */
module MethodRunner {
  import opened JavaTypes

  datatype Option<T> = None | Some(value: T)

  /** Longest display name a runner keeps. */
  const MaxNameLength: nat := 15
  /** Nanoseconds per second, the source's `StoNS`. */
  const NanosPerSecond: nat := 1_000_000_000
  /** Budget in seconds of the one-argument constructor. */
  const DefaultBudgetSeconds: int32 := 10

  /** The name a runner stores: at most the first fifteen UTF-16 code units,
      so it may end in the first half of a surrogate pair, as in Java. */
  function TruncateName(name: JString): (r: JString)
    ensures |r| <= MaxNameLength
    ensures |r| <= |name| && r == name[..|r|]
    ensures |name| >= MaxNameLength ==> |r| == MaxNameLength
    ensures |name| < MaxNameLength ==> r == name
  {
    if |name| >= MaxNameLength then name[..MaxNameLength] else name
  }

  /** The budget in nanoseconds that `setExecutionTime(t)` stores: `t * StoNS`
      computed in `long` arithmetic. */
  function BudgetNanos(seconds: long): (r: long)
    ensures (seconds * NanosPerSecond - r) % Modulus == 0
  {
    Wrap(seconds * NanosPerSecond)
  }

  /** A budget given in Java `int` seconds, as the constructors pass it, is
      converted without overflow. */
  lemma BudgetFromIntIsExact(seconds: int32)
    ensures BudgetNanos(seconds) == seconds * NanosPerSecond
  {
  }

  /** Index of the first clock sample that reaches the budget, if any. */
  function StopIndex(samples: seq<nat>, budget: int): (k: Option<nat>)
    ensures k.Some? ==> k.value < |samples| && samples[k.value] >= budget
    ensures k.Some? ==> forall j :: 0 <= j < k.value ==> samples[j] < budget
    ensures k.None? ==> forall j :: 0 <= j < |samples| ==> samples[j] < budget
  {
    if samples == [] then None
    else if samples[0] >= budget then Some(0)
    else match StopIndex(samples[1..], budget)
      case None => None
      case Some(k) => Some(k + 1)
  }

  /** What the measurement loop ends with: `op` operations and the last CPU
      time sample. */
  datatype Measurement = Measurement(op: nat, cpuTime: nat)

  /** The outcome of the measurement loop for a given clock, or None while the
      samples never reach the budget (the loop is then still running). A
      non-positive budget stops the loop before the first call. */
  function Measured(samples: seq<nat>, budget: int): (m: Option<Measurement>)
    ensures budget <= 0 ==> m == Some(Measurement(0, 0))
    ensures m.Some? ==> m.value.cpuTime >= budget
    ensures budget > 0 && m.Some? ==>
      && 1 <= m.value.op <= |samples|
      && m.value.cpuTime == samples[m.value.op - 1]
      && forall j :: 0 <= j < m.value.op - 1 ==> samples[j] < budget
    ensures budget > 0 ==> (m.None? <==> forall j :: 0 <= j < |samples| ==> samples[j] < budget)
  {
    if budget <= 0 then Some(Measurement(0, 0))
    else match StopIndex(samples, budget)
      case None => None
      case Some(k) => Some(Measurement(k + 1, samples[k]))
  }

  /** The measurement loop: call the candidate, count the call, sample the CPU
      clock, until a sample reaches the budget. `finished` is false when the
      samples run out first; all of them have then been taken. */
  method Measure(samples: seq<nat>, budget: int) returns (op: nat, cpuTime: nat, finished: bool)
    ensures finished <==> Measured(samples, budget).Some?
    ensures finished ==> Measured(samples, budget) == Some(Measurement(op, cpuTime))
    ensures !finished ==> op == |samples|
  {
    op, cpuTime := 0, 0;
    while cpuTime < budget
      invariant op <= |samples|
      invariant op == 0 ==> cpuTime == 0
      invariant budget <= 0 ==> op == 0
      invariant op > 0 ==> cpuTime == samples[op - 1]
      invariant forall j :: 0 <= j < op - 1 ==> samples[j] < budget
      decreases |samples| - op
    {
      if op == |samples| {
        return op, cpuTime, false;
      }
      // The candidate operation runs here; its effect is not modelled.
      cpuTime := samples[op];
      op := op + 1;
    }
    if budget > 0 {
      assert op > 0 && samples[op - 1] >= budget;
      assert StopIndex(samples, budget) == Some(op - 1);
    }
    finished := true;
  }

  /** Operations per second, `(long) (op / (cpuTime / 1e9))`: the floor of
      op * 10^9 / cpuTime, saturated at Long.MAX_VALUE as Java's cast from
      double does. With no CPU time the quotient is NaN (cast to 0) when no
      operation ran, and +Infinity (cast to Long.MAX_VALUE) otherwise. */
  function Throughput(op: nat, cpuTime: nat): (r: long)
    ensures r >= 0
    ensures cpuTime == 0 ==> r == (if op == 0 then 0 else LongMax)
    ensures cpuTime > 0 && r < LongMax ==>
      r * cpuTime <= op * NanosPerSecond < (r + 1) * cpuTime
    ensures cpuTime > 0 && r == LongMax ==> LongMax * cpuTime <= op * NanosPerSecond
  {
    if cpuTime == 0 then (if op == 0 then 0 else LongMax)
    else if op * NanosPerSecond / cpuTime >= LongMax then LongMax
    else op * NanosPerSecond / cpuTime
  }

  /** Throughput is a rate: scaling the operation count and the CPU time by
      the same factor leaves it unchanged. */
  lemma ThroughputIsScaleFree(op: nat, cpuTime: nat, k: nat)
    requires cpuTime > 0 && k > 0
    ensures Throughput(k * op, k * cpuTime) == Throughput(op, cpuTime)
  {
    assert (k * op) * NanosPerSecond == k * (op * NanosPerSecond);
    ScaledQuotient(op * NanosPerSecond, cpuTime, k);
  }

  /** A common positive factor cancels in a floor quotient. */
  lemma ScaledQuotient(a: nat, c: nat, k: nat)
    requires c > 0 && k > 0
    ensures (k * a) / (k * c) == a / c
  {
    var q := a / c;
    assert q * c <= a < (q + 1) * c;
    assert k * (q * c) <= k * a < k * ((q + 1) * c) by {
      MulMonotone(q * c, a, k);
      MulMonotone(a + 1, (q + 1) * c, k);
    }
    assert k * (q * c) == q * (k * c) && k * ((q + 1) * c) == (q + 1) * (k * c);
    DivUnique(k * a, k * c, q);
  }

  /** The shared total after runners with throughputs `ops` finished, one
      after another, starting from `total`: each performs `totalTime += ops`. */
  function Accumulate(total: long, ops: seq<long>): (r: long)
    decreases |ops|
  {
    if ops == [] then total else Accumulate(Wrap(total + ops[0]), ops[1..])
  }

  function Sum(xs: seq<long>): int
  {
    if xs == [] then 0 else xs[0] + Sum(xs[1..])
  }

  /** The shared total is the wrapped sum of every finished runner's
      throughput, whatever the interleaving of completions. */
  lemma {:induction false} AccumulateIsWrappedSum(total: long, ops: seq<long>)
    ensures Accumulate(total, ops) == Wrap(total + Sum(ops))
    decreases |ops|
  {
    if ops != [] {
      AccumulateIsWrappedSum(Wrap(total + ops[0]), ops[1..]);
      WrapAdd(total + ops[0], Sum(ops[1..]));
    }
  }

  /** A thread object; only its identity matters here. */
  class Thread {
    constructor ()
    {
    }
  }

  /** The static state of AbstractRunnableMethod. */
  class SharedContext {
    /** The budget in nanoseconds, `executionTime`. */
    var executionTime: long
    /** While set, budget changes are ignored, `executionTimeLock`. */
    var executionTimeLock: bool
    /** Every runner's thread, in construction order, `threads`. */
    var threads: seq<Thread>
    /** Result of the last registry scan, `anyThreadIsAlive`. */
    var anyThreadIsAlive: bool
    /** Sum of throughputs since the last runner was constructed, `totalTime`. */
    var totalTime: long

    /** The state after class initialisation: an empty registry, every
        other static at Java's default value. */
    constructor ()
      ensures threads == [] && executionTime == 0 && !executionTimeLock
      ensures !anyThreadIsAlive && totalTime == 0
    {
      threads := [];
      executionTime := 0;
      executionTimeLock := false;
      anyThreadIsAlive := false;
      totalTime := 0;
    }

    /** `setExecutionTime(t)`: sets the budget to `t` seconds unless locked,
        in which case it silently does nothing. */
    method SetExecutionTime(t: long)
      modifies this`executionTime
      ensures !executionTimeLock ==> executionTime == BudgetNanos(t)
      ensures executionTimeLock ==> executionTime == old(executionTime)
    {
      if !executionTimeLock {
        executionTime := BudgetNanos(t);
      }
    }

    /** `getExecutionTime()`: the budget in nanoseconds. */
    function GetExecutionTime(): (r: long)
      reads this
      ensures r == executionTime
    {
      executionTime
    }

    /** `getTotalTimeTaken()`: the accumulated throughput. */
    function GetTotalTimeTaken(): (r: long)
      reads this
      ensures r == totalTime
    {
      totalTime
    }
  }

  class RunnableMethod {
    /** The name as given to the constructor, before truncation. */
    ghost const givenName: JString
    const name: JString
    const thread: Thread
    /** The statics this runner shares with all others. */
    const ctx: SharedContext
    var operationsPerSecond: long

    ghost predicate Valid()
      reads this
    {
      name == TruncateName(givenName) && operationsPerSecond >= 0
    }

    /** `AbstractRunnableMethod(name, exectime)`: stores the truncated name,
        tries to set the budget, resets the shared total and registers one
        new thread. */
    constructor (ctx: SharedContext, name: JString, exectime: int32)
      modifies ctx
      ensures Valid() && givenName == name && this.ctx == ctx
      ensures operationsPerSecond == 0
      ensures ctx.executionTime ==
        if old(ctx.executionTimeLock) then old(ctx.executionTime) else exectime * NanosPerSecond
      ensures ctx.executionTimeLock == old(ctx.executionTimeLock)
      ensures ctx.totalTime == 0
      ensures fresh(thread) && ctx.threads == old(ctx.threads) + [thread]
      ensures ctx.anyThreadIsAlive == old(ctx.anyThreadIsAlive)
    {
      givenName := name;
      this.name := TruncateName(name);
      this.ctx := ctx;
      operationsPerSecond := 0;
      thread := new Thread();
      new;
      BudgetFromIntIsExact(exectime);
      ctx.SetExecutionTime(exectime);
      ctx.totalTime := 0;
      ctx.threads := ctx.threads + [thread];
    }

    /** `AbstractRunnableMethod(name)`: the same with the default budget of
        ten seconds. */
    constructor WithDefaultBudget(ctx: SharedContext, name: JString)
      modifies ctx
      ensures Valid() && givenName == name && this.ctx == ctx
      ensures operationsPerSecond == 0
      ensures ctx.executionTime ==
        if old(ctx.executionTimeLock) then old(ctx.executionTime) else 10 * NanosPerSecond
      ensures ctx.executionTimeLock == old(ctx.executionTimeLock)
      ensures ctx.totalTime == 0
      ensures fresh(thread) && ctx.threads == old(ctx.threads) + [thread]
      ensures ctx.anyThreadIsAlive == old(ctx.anyThreadIsAlive)
    {
      givenName := name;
      this.name := TruncateName(name);
      this.ctx := ctx;
      operationsPerSecond := 0;
      thread := new Thread();
      new;
      BudgetFromIntIsExact(DefaultBudgetSeconds);
      ctx.SetExecutionTime(DefaultBudgetSeconds);
      ctx.totalTime := 0;
      ctx.threads := ctx.threads + [thread];
    }

    /** `run()` on the runner's own thread. `samples` are the successive
        readings of the thread's CPU clock, `alive[i]` is what the i-th
        registered thread reports when the registry is scanned. When the
        samples run out before the budget is reached the loop is still
        running: only the lock has been set. */
    method Run(samples: seq<nat>, alive: seq<bool>) returns (finished: bool)
      requires Valid()
      requires |alive| == |ctx.threads|
      modifies this, ctx
      ensures Valid()
      ensures ctx.executionTime == old(ctx.executionTime) && ctx.threads == old(ctx.threads)
      ensures finished <==> Measured(samples, old(ctx.executionTime)).Some?
      ensures !finished ==>
        && ctx.executionTimeLock
        && ctx.totalTime == old(ctx.totalTime)
        && ctx.anyThreadIsAlive == old(ctx.anyThreadIsAlive)
        && operationsPerSecond == old(operationsPerSecond)
      ensures finished ==>
        var m := Measured(samples, old(ctx.executionTime)).value;
        && operationsPerSecond == Throughput(m.op, m.cpuTime)
        && ctx.totalTime == Wrap(old(ctx.totalTime) + operationsPerSecond)
        && ctx.anyThreadIsAlive == (true in alive)
        && ctx.executionTimeLock == (true in alive)
    {
      ctx.executionTimeLock := true;
      var op, cpuTime, done := Measure(samples, ctx.executionTime);
      if !done {
        return false;
      }
      operationsPerSecond := Throughput(op, cpuTime);
      ctx.totalTime := Wrap(ctx.totalTime + operationsPerSecond);

      ctx.anyThreadIsAlive := false;
      var i := 0;
      while i < |ctx.threads|
        invariant i <= |ctx.threads| == |alive|
        invariant ctx.anyThreadIsAlive == (true in alive[..i])
        invariant ctx.executionTimeLock
        invariant ctx.threads == old(ctx.threads) && ctx.executionTime == old(ctx.executionTime)
        invariant ctx.totalTime == Wrap(old(ctx.totalTime) + operationsPerSecond)
        invariant operationsPerSecond == Throughput(op, cpuTime)
      {
        if alive[i] {
          ctx.anyThreadIsAlive := true;
        }
        assert alive[..i + 1] == alive[..i] + [alive[i]];
        i := i + 1;
      }
      assert alive[..i] == alive;
      if !ctx.anyThreadIsAlive {
        ctx.executionTimeLock := false;
      }
      finished := true;
    }

    /** `getName()`: the stored name, at most fifteen code units, a prefix of
        the given name. */
    function GetName(): (r: JString)
      requires Valid()
      reads this
      ensures r == name && r == TruncateName(givenName)
      ensures |r| <= MaxNameLength && |r| <= |givenName| && r == givenName[..|r|]
    {
      name
    }

    /** `getOpsPerSec()`: the last measured throughput, zero before any run. */
    function GetOpsPerSec(): (r: long)
      requires Valid()
      reads this
      ensures r == operationsPerSecond && r >= 0
    {
      operationsPerSecond
    }
  }
}
