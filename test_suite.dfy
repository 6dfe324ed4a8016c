/** A benchmark suite (RunnableTest.java): an ordered, duplicate-free list of
    runners that are started together, joined in order, and scored against
    the shared total of their throughputs.

    Starting and joining a thread are events: `Run` returns the runners in
    the order it starts them and `Evaluate` the runners in the order it joins
    them. Wall-clock readings (`System.nanoTime()`) are parameters. */
module TestSuite {
  import opened JavaTypes
  import opened MethodRunner

  /** No element occurs twice. */
  predicate NoDuplicates<T(==)>(s: seq<T>)
  {
    forall i, j :: 0 <= i < j < |s| ==> s[i] != s[j]
  }

  /** `addMethod`: `e` is appended unless it is already listed. */
  function Added<T(==)>(s: seq<T>, e: T): (r: seq<T>)
    ensures e in r
    ensures e in s ==> r == s
    ensures e !in s ==> |r| == |s| + 1 && r[..|s|] == s && r[|s|] == e
    ensures NoDuplicates(s) ==> NoDuplicates(r)
  {
    if e in s then s else s + [e]
  }

  /** Position of the first occurrence of `e`. */
  function IndexOf<T(==)>(s: seq<T>, e: T): (i: nat)
    requires e in s
    ensures i < |s| && s[i] == e
    ensures forall j :: 0 <= j < i ==> s[j] != e
  {
    if s[0] == e then 0 else 1 + IndexOf(s[1..], e)
  }

  /** `removeMethod`: the first occurrence of `e` is dropped, as
      `ArrayList.remove(Object)` does; the others keep their order. */
  function Removed<T(==)>(s: seq<T>, e: T): (r: seq<T>)
    ensures e !in s ==> r == s
    ensures e in s ==> r == s[..IndexOf(s, e)] + s[IndexOf(s, e) + 1..]
    ensures NoDuplicates(s) ==> NoDuplicates(r) && e !in r
    ensures forall k :: 0 <= k < |r| ==> r[k] in s
    ensures forall k :: 0 <= k < |s| && s[k] != e ==> s[k] in r
  {
    if e !in s then s
    else
      var i := IndexOf(s, e);
      RemovedAtKeepsNoDuplicates(s, i);
      s[..i] + s[i + 1..]
  }

  /** Cutting out position `i` loses only the element there. */
  lemma RemovedAtKeepsNoDuplicates<T>(s: seq<T>, i: nat)
    requires i < |s|
    ensures NoDuplicates(s) ==> NoDuplicates(s[..i] + s[i + 1..]) && s[i] !in s[..i] + s[i + 1..]
    ensures forall k :: 0 <= k < |s| && k != i ==> s[k] in s[..i] + s[i + 1..]
  {
  }

  /** Adding a runner twice is the same as adding it once. */
  lemma AddIsIdempotent<T>(s: seq<T>, e: T)
    ensures Added(Added(s, e), e) == Added(s, e)
  {
  }

  /** On a duplicate-free list, removing twice is the same as removing once. */
  lemma RemoveIsIdempotent<T>(s: seq<T>, e: T)
    requires NoDuplicates(s)
    ensures Removed(Removed(s, e), e) == Removed(s, e)
  {
  }

  /** Removing a runner that was just added restores the list. */
  lemma {:induction false} RemoveUndoesAdd<T>(s: seq<T>, e: T)
    requires e !in s
    ensures Removed(Added(s, e), e) == s
  {
  }

  /** A runner's score. The source computes it in double precision; when the
      total is zero it is not a number (NaN or an infinity). */
  datatype Score = Finite(value: real) | Undefined

  /** The score `outof * (ops / sum)` of a runner with throughput `ops`
      against the total `sum`. */
  function ScoreOf(outof: int, ops: int, sum: int): (s: Score)
    ensures sum == 0 <==> s.Undefined?
    ensures s.Finite? ==> s.value * (sum as real) == (outof as real) * (ops as real)
  {
    if sum == 0 then Undefined
    else Finite((outof as real) * ((ops as real) / (sum as real)))
  }

  /** With a positive total and a non-negative scale, more throughput never
      scores lower. */
  lemma ScoreFollowsThroughput(outof: int, a: int, b: int, sum: int)
    requires sum > 0 && outof >= 0 && a <= b
    ensures ScoreOf(outof, a, sum).value <= ScoreOf(outof, b, sum).value
  {
  }

  /** One line of the report: name, score and raw throughput. */
  datatype Row = Row(name: JString, score: Score, ops: long)

  /** What `evaluate` reports: elapsed wall time in nanoseconds, the number of
      decimals the scores are printed with, and one row per runner. */
  datatype Report = Report(elapsed: long, fractionDigits: nat, rows: seq<Row>)

  function OpsOf(rows: seq<Row>): (ops: seq<long>)
    ensures |ops| == |rows|
  {
    if rows == [] then [] else [rows[0].ops] + OpsOf(rows[1..])
  }

  /** Sum of the finite scores of the rows. */
  function TotalScore(rows: seq<Row>): real
  {
    if rows == [] then 0.0
    else (if rows[0].score.Finite? then rows[0].score.value else 0.0) + TotalScore(rows[1..])
  }

  /** Scores are proportional to throughput: together, times the total,
      they are `outof` times the rows' throughput. */
  lemma {:induction false} TotalScoreIsShare(rows: seq<Row>, outof: int, sum: int)
    requires sum != 0
    requires forall i :: 0 <= i < |rows| ==> rows[i].score == ScoreOf(outof, rows[i].ops, sum)
    ensures TotalScore(rows) * (sum as real) == (outof as real) * (Sum(OpsOf(rows)) as real)
  {
    if rows != [] {
      TotalScoreIsShare(rows[1..], outof, sum);
      var ops := OpsOf(rows);
      assert ops[0] == rows[0].ops && ops[1..] == OpsOf(rows[1..]);
      var s, o := sum as real, outof as real;
      var v, a := rows[0].score.value, rows[0].ops as real;
      var t, b := TotalScore(rows[1..]), Sum(OpsOf(rows[1..])) as real;
      assert TotalScore(rows) == v + t;
      assert Sum(ops) as real == a + b;
      assert v * s == o * a;
      assert t * s == o * b;
      assert (v + t) * s == v * s + t * s;
      assert o * (a + b) == o * a + o * b;
    }
  }

  /** When the total is exactly the rows' throughputs and not zero, the
      scores add up to `outof`. */
  lemma {:induction false} ScoresSumToOutof(rows: seq<Row>, outof: int, sum: int)
    requires sum != 0 && sum == Sum(OpsOf(rows))
    requires forall i :: 0 <= i < |rows| ==> rows[i].score == ScoreOf(outof, rows[i].ops, sum)
    ensures TotalScore(rows) == outof as real
  {
    TotalScoreIsShare(rows, outof, sum);
    var t, o, r := TotalScore(rows), outof as real, sum as real;
    assert Sum(OpsOf(rows)) as real == r;
    assert t * r == o * r;
    CancelFactor(t, o, r);
  }

  /** A non-zero factor cancels. */
  lemma CancelFactor(x: real, y: real, s: real)
    requires s != 0.0 && x * s == y * s
    ensures x == y
  {
  }

  /** If the shared total was reset to zero and then every listed runner
      added its throughput, without overflow and not all zero, the report's
      scores add up to `outof`. */
  lemma {:induction false} ScoresAfterFullRunSumToOutof(rows: seq<Row>, outof: int, sum: long)
    requires sum == Accumulate(0, OpsOf(rows))
    requires LongMin <= Sum(OpsOf(rows)) <= LongMax && Sum(OpsOf(rows)) != 0
    requires forall i :: 0 <= i < |rows| ==> rows[i].score == ScoreOf(outof, rows[i].ops, sum)
    ensures TotalScore(rows) == outof as real
  {
    AccumulateIsWrappedSum(0, OpsOf(rows));
    ScoresSumToOutof(rows, outof, sum);
  }

  /** Default scale of the suite's scores. */
  const DefaultOutOf: int32 := 10

  class RunnableTest {
    /** The runners, in registration order, `listMethod`. */
    var listMethod: seq<RunnableMethod>
    /** Start time, then elapsed wall time, in nanoseconds. */
    var timeElapsed: long
    /** Scores are out of this value. */
    var outof: int32

    predicate Valid()
      reads this
    {
      NoDuplicates(listMethod)
    }

    /** `RunnableTest(outof)`: an empty suite scoring out of `outof`. */
    constructor (outof: int32)
      ensures Valid() && listMethod == [] && this.outof == outof && timeElapsed == 0
    {
      listMethod := [];
      timeElapsed := 0;
      this.outof := outof;
    }

    /** `RunnableTest()`: an empty suite scoring out of ten. */
    constructor Default()
      ensures Valid() && listMethod == [] && outof == DefaultOutOf && timeElapsed == 0
    {
      listMethod := [];
      timeElapsed := 0;
      outof := DefaultOutOf;
    }

    /** `addMethod(e)`: registers `e` once, at the end, and returns the suite. */
    method AddMethod(e: RunnableMethod) returns (self: RunnableTest)
      requires Valid()
      modifies this`listMethod
      ensures Valid() && self == this
      ensures listMethod == Added(old(listMethod), e)
    {
      if e !in listMethod {
        listMethod := listMethod + [e];
      }
      self := this;
    }

    /** `removeMethod(e)`: unregisters `e` if present and returns the suite. */
    method RemoveMethod(e: RunnableMethod) returns (self: RunnableTest)
      requires Valid()
      modifies this`listMethod
      ensures Valid() && self == this
      ensures listMethod == Removed(old(listMethod), e)
    {
      if e in listMethod {
        var i := IndexOf(listMethod, e);
        listMethod := listMethod[..i] + listMethod[i + 1..];
      }
      self := this;
    }

    /** `run()`: records the start time `now` and starts every runner once, in
        list order; `started` is the sequence of start events. */
    method Run(now: long) returns (started: seq<RunnableMethod>)
      modifies this`timeElapsed
      ensures timeElapsed == now
      ensures started == listMethod
    {
      timeElapsed := now;
      started := [];
      for i := 0 to |listMethod|
        invariant started == listMethod[..i]
      {
        started := started + [listMethod[i]];
      }
    }

    /** `evaluate(highscore)`: joins the runners in list order, stopping at
        the join that `interruptedAt` says is interrupted (the exception is
        printed and evaluation goes on), then reports every runner's score
        against the shared total `ctx.totalTime`. `highscore` only chooses the
        number of printed decimals. `ctx` is the shared state every listed
        runner holds. */
    method Evaluate(ctx: SharedContext, highscore: int32, now: long, interruptedAt: Option<nat>)
      returns (joined: seq<RunnableMethod>, report: Report)
      requires forall r :: r in listMethod ==> r.Valid() && r.ctx == ctx
      modifies this`timeElapsed
      ensures timeElapsed == Wrap(now - old(timeElapsed))
      ensures joined <= listMethod
      ensures |joined| ==
        if interruptedAt.Some? && interruptedAt.value < |listMethod|
        then interruptedAt.value + 1 else |listMethod|
      ensures report.elapsed == timeElapsed
      ensures report.fractionDigits == if highscore >= 10 then 1 else 2
      ensures |report.rows| == |listMethod|
      ensures forall i :: 0 <= i < |listMethod| ==>
        report.rows[i] == Row(listMethod[i].name,
                              ScoreOf(outof, listMethod[i].operationsPerSecond, ctx.totalTime),
                              listMethod[i].operationsPerSecond)
    {
      joined := [];
      var k := 0;
      while k < |listMethod|
        invariant k <= |listMethod| && joined == listMethod[..k]
        invariant interruptedAt.Some? ==> k <= interruptedAt.value
      {
        joined := joined + [listMethod[k]];
        if interruptedAt == Some(k) {
          break;
        }
        k := k + 1;
      }

      timeElapsed := Wrap(now - timeElapsed);
      var sum := ctx.GetTotalTimeTaken();
      var rows: seq<Row> := [];
      for i := 0 to |listMethod|
        invariant |rows| == i
        invariant forall j :: 0 <= j < i ==>
          rows[j] == Row(listMethod[j].name,
                         ScoreOf(outof, listMethod[j].operationsPerSecond, sum),
                         listMethod[j].operationsPerSecond)
      {
        var r := listMethod[i];
        var ops := r.GetOpsPerSec();
        rows := rows + [Row(r.GetName(), ScoreOf(outof, ops, sum), ops)];
      }
      report := Report(timeElapsed, if highscore >= 10 then 1 else 2, rows);
    }

    /** `evaluate()`: `evaluate(1)`, so scores are printed with two decimals. */
    method EvaluateDefault(ctx: SharedContext, now: long, interruptedAt: Option<nat>)
      returns (joined: seq<RunnableMethod>, report: Report)
      requires forall r :: r in listMethod ==> r.Valid() && r.ctx == ctx
      modifies this`timeElapsed
      ensures timeElapsed == Wrap(now - old(timeElapsed))
      ensures joined <= listMethod
      ensures |joined| ==
        if interruptedAt.Some? && interruptedAt.value < |listMethod|
        then interruptedAt.value + 1 else |listMethod|
      ensures report.elapsed == timeElapsed && report.fractionDigits == 2
      ensures |report.rows| == |listMethod|
      ensures forall i :: 0 <= i < |listMethod| ==>
        report.rows[i] == Row(listMethod[i].name,
                              ScoreOf(outof, listMethod[i].operationsPerSecond, ctx.totalTime),
                              listMethod[i].operationsPerSecond)
    {
      joined, report := Evaluate(ctx, 1, now, interruptedAt);
    }
  }
}
