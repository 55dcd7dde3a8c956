/** The gas-metered Collatz program: its 43 statements as data, a reference definition of
    what a run returns, the same loop written as a method, and the properties of the
    returned gas and step count. */
module Collatz {
  import opened Sierra

  // The libfunc declarations of the program.
  const StoreTempInt := StoreTemp(IntTy)
  const StoreTempGb := StoreTemp(GasBuiltinTy)
  const IntConst0 := IntConst(0)
  const IntConstMinus1 := IntConst(-1)
  const IntMod2 := IntArith(Mod, 2)
  const IntDiv2 := IntArith(Div, 2)
  const IntMul3 := IntArith(Mul, 3)
  const IntAdd1 := IntArith(Add, 1)
  const IntSub1 := IntArith(Sub, 1)
  const GetGas11 := GetGas(11)
  const RefundGas1 := RefundGas(1)
  const AlignTempsInt := AlignTemps(IntTy)

  /** `f(args) -> (results)`: a single branch that falls through. */
  function Simple(f: LibFunc, args: seq<string>, results: seq<string>): Statement
  {
    Invocation(f, args, [Branch(Fallthrough, results)])
  }

  /** `jump() { target() }`. */
  function JumpTo(target: nat): Statement
  {
    Invocation(Jump, [], [Branch(Goto(target), [])])
  }

  /** Statements #0-#4: keep `n` and `gb`, start `counter` at 0 and jump to the
      termination test. */
  function EntryCode(j: nat): Statement
    requires j < 5
  {
    [
      Simple(StoreTempInt, ["n"], ["n"]),
      Simple(StoreTempGb, ["gb"], ["gb"]),
      Simple(IntConst0, [], ["counter"]),
      Simple(StoreTempInt, ["counter"], ["counter"]),
      JumpTo(34)
    ][j]
  }

  /** Statements #5-#7: drop the non-zero witness of the termination test and pay for one
      iteration, going on at #14 when the balance covers it. */
  function PayCode(j: nat): Statement
    requires j < 3
  {
    [
      Simple(UnwrapNz, ["to_drop"], ["to_drop"]),
      Simple(IntIgnore, ["to_drop"], []),
      Invocation(GetGas11, ["gb"], [Branch(Goto(14), ["gb"]), Branch(Fallthrough, ["gb"])])
    ][j]
  }

  /** Statements #8-#13: out of gas, return `gb` and -1. */
  function OutOfGasCode(j: nat): Statement
    requires j < 6
  {
    [
      Simple(IntIgnore, ["n"], []),
      Simple(IntIgnore, ["counter"], []),
      Simple(StoreTempGb, ["gb"], ["gb"]),
      Simple(IntConstMinus1, [], ["err"]),
      Simple(StoreTempInt, ["err"], ["err"]),
      Return(["gb", "err"])
    ][j]
  }

  /** Statements #14-#18: test the parity of `n`, going on at #24 when it is odd. */
  function ParityCode(j: nat): Statement
    requires j < 5
  {
    [
      Simple(IntDup, ["n"], ["n", "parity"]),
      Simple(IntMod2, ["parity"], ["parity"]),
      Simple(StoreTempInt, ["parity"], ["parity"]),
      Simple(StoreTempGb, ["gb"], ["gb"]),
      Invocation(IntJumpNz, ["parity"], [Branch(Goto(24), ["to_drop"]), Branch(Fallthrough, [])])
    ][j]
  }

  /** Statements #19-#23: halve an even `n` and jump to #32. */
  function EvenCode(j: nat): Statement
    requires j < 5
  {
    [
      Simple(AlignTempsInt, [], []),
      Simple(IntDiv2, ["n"], ["n"]),
      Simple(StoreTempInt, ["n"], ["n"]),
      Simple(StoreTempGb, ["gb"], ["gb"]),
      JumpTo(32)
    ][j]
  }

  /** Statements #24-#31: replace an odd `n` by `3n + 1` and refund one unit of gas. */
  function OddCode(j: nat): Statement
    requires j < 8
  {
    [
      Simple(UnwrapNz, ["to_drop"], ["to_drop"]),
      Simple(IntIgnore, ["to_drop"], []),
      Simple(IntMul3, ["n"], ["n"]),
      Simple(StoreTempInt, ["n"], ["n"]),
      Simple(IntAdd1, ["n"], ["n"]),
      Simple(StoreTempInt, ["n"], ["n"]),
      Simple(RefundGas1, ["gb"], ["gb"]),
      Simple(StoreTempGb, ["gb"], ["gb"])
    ][j]
  }

  /** Statements #32-#33: add one to `counter`. */
  function CountCode(j: nat): Statement
    requires j < 2
  {
    [
      Simple(IntAdd1, ["counter"], ["counter"]),
      Simple(StoreTempInt, ["counter"], ["counter"])
    ][j]
  }

  /** Statements #34-#37: test `n - 1`, jumping back to #5 when it is not zero. */
  function TestCode(j: nat): Statement
    requires j < 4
  {
    [
      Simple(IntDup, ["n"], ["n", "n_1"]),
      Simple(IntSub1, ["n_1"], ["n_1"]),
      Simple(StoreTempInt, ["n_1"], ["n_1"]),
      Invocation(IntJumpNz, ["n_1"], [Branch(Goto(5), ["to_drop"]), Branch(Fallthrough, [])])
    ][j]
  }

  /** Statements #38-#42: with `n` equal to 1, refund one unit of gas and return `gb` and
      `counter`. */
  function ExitCode(j: nat): Statement
    requires j < 5
  {
    [
      Simple(IntIgnore, ["n"], []),
      Simple(RefundGas1, ["gb"], ["gb"]),
      Simple(StoreTempGb, ["gb"], ["gb"]),
      Simple(StoreTempInt, ["counter"], ["counter"]),
      Return(["gb", "counter"])
    ][j]
  }

  /** The number of statements of the program. */
  const Size: nat := 43

  /** Statement `i` of the program, taken from the block that holds it. */
  function Code(i: nat): Statement
    requires i < Size
  {
    if i < 5 then EntryCode(i)
    else if i < 8 then PayCode(i - 5)
    else if i < 14 then OutOfGasCode(i - 8)
    else if i < 19 then ParityCode(i - 14)
    else if i < 24 then EvenCode(i - 19)
    else if i < 32 then OddCode(i - 24)
    else if i < 34 then CountCode(i - 32)
    else if i < 38 then TestCode(i - 34)
    else ExitCode(i - 38)
  }

  /** The statements of the program, in order. */
  const Statements: seq<Statement> := seq(Size, i requires 0 <= i < Size => Code(i))

  /** `Collatz@0(gb: GasBuiltin, n: int) -> (GasBuiltin, int)`. */
  const CollatzFunction := Function("Collatz", 0, [Param("gb", GasBuiltinTy), Param("n", IntTy)], [GasBuiltinTy, IntTy])

  const CollatzProgram := Program(Statements, [CollatzFunction])

  /** Gas paid for one iteration, refunded for an odd step, and refunded on a normal exit. */
  const IterationCost := 11
  const OddRefund := 1
  const ExitRefund := 1
  /** The result returned when the gas runs out. */
  const OutOfGas := -1

  /** What a run returns: the remaining gas and the step count, or `OutOfGas`. */
  datatype Answer = Answer(gas: int, value: int)

  /** One Collatz step. */
  function CollatzNext(n: int): int
  {
    if n % 2 == 0 then n / 2 else 3 * n + 1
  }

  /** The gas an iteration from `n` gets back: one unit for an odd step. */
  function Refund(n: int): int
  {
    if n % 2 == 0 then 0 else OddRefund
  }

  /** The reference semantics of the loop, entered at the termination test (#34) with the
      current `n`, `counter` and gas. A non-negative balance never goes negative, and the
      value is either the sentinel or a count no smaller than the starting counter. */
  function Loop(n: int, counter: int, gb: int): (r: Answer)
    ensures gb >= 0 ==> r.gas >= 0
    ensures r.gas <= gb + ExitRefund
    ensures r.value == OutOfGas || r.value >= counter
    decreases gb
  {
    if n == 1 then Answer(gb + ExitRefund, counter)
    else if gb < IterationCost then Answer(gb, OutOfGas)
    else Loop(CollatzNext(n), counter + 1, gb - IterationCost + Refund(n))
  }

  /** What running `Collatz` on gas `gb` and input `n` returns. */
  function RunCollatz(gb: int, n: int): Answer
  {
    Loop(n, 0, gb)
  }

  /** The program's loop over `(n, counter, gb)`, written as the jumps of the program
      drive it. */
  method CollatzLoop(gb0: int, n0: int) returns (gb: int, result: int)
    ensures Answer(gb, result) == RunCollatz(gb0, n0)
  {
    var n, counter := n0, 0;
    gb := gb0;
    while n != 1
      invariant Loop(n, counter, gb) == RunCollatz(gb0, n0)
      decreases gb
    {
      if gb < IterationCost {
        return gb, OutOfGas;
      }
      gb := gb - IterationCost;
      if n % 2 == 0 {
        n := n / 2;
      } else {
        n := n * 3 + 1;
        gb := gb + OddRefund;
      }
      counter := counter + 1;
    }
    return gb + ExitRefund, counter;
  }

  /** The value after `k` Collatz steps from `n`. */
  function Iterate(n: int, k: nat): int
    decreases k
  {
    if k == 0 then n else Iterate(CollatzNext(n), k - 1)
  }

  /** The number of odd values among the first `k` values of the trajectory from `n`. */
  function OddSteps(n: int, k: nat): nat
    decreases k
  {
    if k == 0 then 0 else Refund(n) + OddSteps(CollatzNext(n), k - 1)
  }

  /** Net gas spent on `k` iterations from `n`. */
  function GasUsed(n: int, k: nat): int
  {
    IterationCost * k - OddSteps(n, k)
  }

  /** Each of the first `k` iterations was entered with `n` different from 1 and paid
      for out of the remaining gas. */
  ghost predicate Affordable(n: int, gb: int, k: nat)
  {
    forall j :: 0 <= j < k ==> Iterate(n, j) != 1 && gb - GasUsed(n, j) >= IterationCost
  }

  /** Every iteration costs between 10 and 11 units of gas, so the gas is a measure that
      bounds the number of iterations. */
  lemma {:induction false} GasUsedBounds(n: int, k: nat)
    ensures 10 * k <= GasUsed(n, k) <= 11 * k
    decreases k
  {
    if k > 0 {
      GasUsedBounds(CollatzNext(n), k - 1);
    }
  }

  /** After `k` affordable iterations the loop continues from the `k`-th Collatz value with
      the counter advanced by `k` and `GasUsed(n, k)` spent. */
  lemma {:induction false} LoopAfter(n: int, counter: int, gb: int, k: nat)
    requires Affordable(n, gb, k)
    ensures Loop(n, counter, gb) == Loop(Iterate(n, k), counter + k, gb - GasUsed(n, k))
    decreases k
  {
    if k > 0 {
      assert Iterate(n, 0) != 1 && gb - GasUsed(n, 0) >= IterationCost;
      var gb' := gb - IterationCost + Refund(n);
      forall j | 0 <= j < k - 1
        ensures Iterate(CollatzNext(n), j) != 1 && gb' - GasUsed(CollatzNext(n), j) >= IterationCost
      {
        assert Iterate(n, j + 1) != 1 && gb - GasUsed(n, j + 1) >= IterationCost;
      }
      LoopAfter(CollatzNext(n), counter + 1, gb', k - 1);
    }
  }

  /** A normal return after `k` affordable iterations that reach 1: the value is `k`, the
      number of Collatz steps, and the gas is `gb - 11k + oddSteps + 1`. */
  lemma NormalReturn(gb: int, n: int, k: nat)
    requires Affordable(n, gb, k) && Iterate(n, k) == 1
    ensures RunCollatz(gb, n) == Answer(gb - IterationCost * k + OddSteps(n, k) + ExitRefund, k)
  {
    LoopAfter(n, 0, gb, k);
  }

  /** An out-of-gas return after `k` affordable iterations: the value is the sentinel and
      the gas is `gb - 11k + oddSteps`, without the exit refund. */
  lemma OutOfGasReturn(gb: int, n: int, k: nat)
    requires Affordable(n, gb, k) && Iterate(n, k) != 1 && gb - GasUsed(n, k) < IterationCost
    ensures RunCollatz(gb, n) == Answer(gb - IterationCost * k + OddSteps(n, k), OutOfGas)
  {
    LoopAfter(n, 0, gb, k);
  }

  /** Every run ends: some number of affordable iterations reaches either 1 or a balance
      too small for the next iteration. */
  lemma {:induction false} RunEnds(gb: int, n: int)
    ensures exists k: nat :: Affordable(n, gb, k) && (Iterate(n, k) == 1 || gb - GasUsed(n, k) < IterationCost)
    decreases gb
  {
    if n == 1 || gb < IterationCost {
      assert Affordable(n, gb, 0) && (Iterate(n, 0) == 1 || gb - GasUsed(n, 0) < IterationCost);
    } else {
      var gb' := gb - IterationCost + Refund(n);
      RunEnds(gb', CollatzNext(n));
      var k: nat :| Affordable(CollatzNext(n), gb', k) && (Iterate(CollatzNext(n), k) == 1 || gb' - GasUsed(CollatzNext(n), k) < IterationCost);
      forall j | 0 <= j < k + 1
        ensures Iterate(n, j) != 1 && gb - GasUsed(n, j) >= IterationCost
      {
        if j > 0 {
          assert Iterate(CollatzNext(n), j - 1) != 1 && gb' - GasUsed(CollatzNext(n), j - 1) >= IterationCost;
        }
      }
      assert Affordable(n, gb, k + 1) && (Iterate(n, k + 1) == 1 || gb - GasUsed(n, k + 1) < IterationCost);
    }
  }

  /** The whole behaviour: a run performs some number `k` of affordable iterations and
      returns either `k` with the exit refund, when the `k`-th value is 1 (so `k` is the
      first index of 1 in the trajectory), or the sentinel without it, when the remaining
      gas cannot pay for another iteration. */
  lemma CollatzOutcome(gb: int, n: int)
    ensures exists k: nat ::
      (Affordable(n, gb, k) &&
       ((Iterate(n, k) == 1 && RunCollatz(gb, n) == Answer(gb - GasUsed(n, k) + ExitRefund, k)) ||
        (Iterate(n, k) != 1 && gb - GasUsed(n, k) < IterationCost && RunCollatz(gb, n) == Answer(gb - GasUsed(n, k), OutOfGas))))
  {
    RunEnds(gb, n);
    var k: nat :| Affordable(n, gb, k) && (Iterate(n, k) == 1 || gb - GasUsed(n, k) < IterationCost);
    LoopAfter(n, 0, gb, k);
  }

  /** `n = 1` returns `(gb + 1, 0)` at once: the entry jumps straight to the termination test. */
  lemma OneNeedsNoGas(gb: int)
    ensures RunCollatz(gb, 1) == Answer(gb + 1, 0)
  {
  }

  /** 5 -> 16 -> 8 -> 4 -> 2 -> 1: five steps, one of them odd. */
  lemma CollatzOfFive()
    ensures Iterate(5, 5) == 1 && OddSteps(5, 5) == 1
    ensures RunCollatz(100, 5) == Answer(47, 5)
  {
    assert Affordable(5, 100, 5) by {
      assert Iterate(5, 1) == 16 && Iterate(5, 2) == 8 && Iterate(5, 3) == 4 && Iterate(5, 4) == 2;
    }
    NormalReturn(100, 5, 5);
  }

  /** 7 reaches 1 in sixteen steps, five of them odd: with gas 200 the run returns 30 and 16. */
  lemma CollatzOfSeven()
    ensures RunCollatz(200, 7) == Answer(30, 16)
  {
    // The trajectory 7, 22, 11, 34, 17, 52, 26, 13, 40, 20, 10, 5, 16, 8, 4, 2, 1, two steps at a time.
    assert Loop(1, 16, 29) == Answer(30, 16);
    assert Loop(4, 14, 51) == Loop(1, 16, 29);
    assert Loop(16, 12, 73) == Loop(4, 14, 51);
    assert Loop(10, 10, 94) == Loop(16, 12, 73);
    assert Loop(40, 8, 116) == Loop(10, 10, 94);
    assert Loop(26, 6, 137) == Loop(40, 8, 116);
    assert Loop(17, 4, 158) == Loop(26, 6, 137);
    assert Loop(11, 2, 179) == Loop(17, 4, 158);
    assert Loop(7, 0, 200) == Loop(11, 2, 179);
  }

  /** With gas 100 and n = 7, nine iterations leave 5 units, too few for the tenth: the
      run returns the balance and the sentinel. */
  lemma SevenRunsOutOfGas()
    ensures RunCollatz(100, 7) == Answer(5, OutOfGas)
  {
    assert Loop(20, 9, 5) == Answer(5, OutOfGas);
    assert Loop(40, 8, 16) == Loop(20, 9, 5);
    assert Loop(26, 6, 37) == Loop(40, 8, 16);
    assert Loop(17, 4, 58) == Loop(26, 6, 37);
    assert Loop(11, 2, 79) == Loop(17, 4, 58);
    assert Loop(7, 0, 100) == Loop(11, 2, 79);
  }
}
