/** Running the Collatz program statement by statement in the simulator gives, for every
    gas balance and every input, what the reference loop `Collatz.Loop` gives. Each
    statement and then each block of statements is shown to do its part of one iteration;
    along the way every variable a statement reads is bound when it runs, `to_drop`
    included. */
module CollatzSimulation {
  import opened Sierra
  import opened Collatz

  /** The first `k` statements of `p` are those of the Collatz program. Stated one
      statement at a time, so that a proof about one statement only looks at that one. */
  ghost predicate Prefix(p: Program, k: nat)
    decreases k
  {
    k == 0 || (k <= |p.statements| && k <= Size && p.statements[k - 1] == Code(k - 1) && Prefix(p, k - 1))
  }

  lemma {:induction false} PrefixAt(p: Program, k: nat, i: nat)
    requires Prefix(p, k) && i < k
    ensures i < |p.statements| && i < Size && p.statements[i] == Code(i)
    decreases k
  {
    if i < k - 1 {
      PrefixAt(p, k - 1, i);
    }
  }

  lemma {:induction false} CollatzPrefix(k: nat)
    requires k <= Size
    ensures Prefix(CollatzProgram, k)
    decreases k
  {
    if k > 0 {
      CollatzPrefix(k - 1);
    }
  }

  predicate Has(env: Env, x: string, v: Value)
  {
    x in env && env[x] == v
  }

  /** The variables live across the loop: the current value, the step count and the gas. */
  predicate LoopVars(env: Env, n: int, counter: int, gb: int)
  {
    Has(env, "n", IntV(n)) && Has(env, "counter", IntV(counter)) && Has(env, "gb", GasV(gb))
  }

  // One lemma per statement: it takes one unit of fuel and hands back the environment
  // after the statement with what it holds, so that a block of statements is proved
  // without running any of them again.

  // Statements #0-#4: the entry binds `counter` and jumps to the termination test.

  /** #0 stores `n`. */
  lemma At0(p: Program, env: Env, n: int, gb: int, rest: nat) returns (env': Env)
    requires Prefix(p, Size) && Has(env, "n", IntV(n)) && Has(env, "gb", GasV(gb))
    ensures Has(env', "n", IntV(n)) && Has(env', "gb", GasV(gb))
    ensures Exec(p, Config(0, env), rest + 1) == Exec(p, Config(1, env'), rest)
  {
    PrefixAt(p, Size, 0);
    StoreTempStep(p, 0, env, "n");
    var c := Advance(p, Config(0, env), rest + 1);
    env' := c.env;
  }

  /** #1 stores `gb`. */
  lemma At1(p: Program, env: Env, n: int, gb: int, rest: nat) returns (env': Env)
    requires Prefix(p, Size) && Has(env, "n", IntV(n)) && Has(env, "gb", GasV(gb))
    ensures Has(env', "n", IntV(n)) && Has(env', "gb", GasV(gb))
    ensures Exec(p, Config(1, env), rest + 1) == Exec(p, Config(2, env'), rest)
  {
    PrefixAt(p, Size, 1);
    StoreTempStep(p, 1, env, "gb");
    var c := Advance(p, Config(1, env), rest + 1);
    env' := c.env;
  }

  /** #2 binds `counter` to 0. */
  lemma At2(p: Program, env: Env, n: int, gb: int, rest: nat) returns (env': Env)
    requires Prefix(p, Size) && Has(env, "n", IntV(n)) && Has(env, "gb", GasV(gb))
    ensures LoopVars(env', n, 0, gb)
    ensures Exec(p, Config(2, env), rest + 1) == Exec(p, Config(3, env'), rest)
  {
    PrefixAt(p, Size, 2);
    ConstStep(p, 2, env, "counter", 0);
    var c := Advance(p, Config(2, env), rest + 1);
    env' := c.env;
  }

  /** #3 stores `counter`. */
  lemma At3(p: Program, env: Env, n: int, counter: int, gb: int, rest: nat) returns (env': Env)
    requires Prefix(p, Size) && LoopVars(env, n, counter, gb)
    ensures LoopVars(env', n, counter, gb)
    ensures Exec(p, Config(3, env), rest + 1) == Exec(p, Config(4, env'), rest)
  {
    PrefixAt(p, Size, 3);
    StoreTempStep(p, 3, env, "counter");
    var c := Advance(p, Config(3, env), rest + 1);
    env' := c.env;
  }

  /** #4 jumps to the termination test. */
  lemma At4(p: Program, env: Env, n: int, counter: int, gb: int, rest: nat) returns (env': Env)
    requires Prefix(p, Size) && LoopVars(env, n, counter, gb)
    ensures LoopVars(env', n, counter, gb)
    ensures Exec(p, Config(4, env), rest + 1) == Exec(p, Config(34, env'), rest)
  {
    PrefixAt(p, Size, 4);
    ControlStep(p, 4, env, Goto(34));
    var c := Advance(p, Config(4, env), rest + 1);
    env' := c.env;
  }

  // Statements #5-#7: the witness of the test is dropped and an iteration is paid for.

  /** #5 unwraps the witness `to_drop`. */
  lemma At5(p: Program, env: Env, n: int, counter: int, gb: int, w: int, rest: nat) returns (env': Env)
    requires Prefix(p, Size) && LoopVars(env, n, counter, gb) && Has(env, "to_drop", NonZeroV(w))
    ensures LoopVars(env', n, counter, gb) && Has(env', "to_drop", IntV(w))
    ensures Exec(p, Config(5, env), rest + 1) == Exec(p, Config(6, env'), rest)
  {
    PrefixAt(p, Size, 5);
    UnwrapStep(p, 5, env, "to_drop");
    var c := Advance(p, Config(5, env), rest + 1);
    env' := c.env;
  }

  /** #6 drops the witness. */
  lemma At6(p: Program, env: Env, n: int, counter: int, gb: int, w: int, rest: nat) returns (env': Env)
    requires Prefix(p, Size) && LoopVars(env, n, counter, gb) && Has(env, "to_drop", IntV(w))
    ensures LoopVars(env', n, counter, gb)
    ensures env' == env - {"to_drop"}
    ensures Exec(p, Config(6, env), rest + 1) == Exec(p, Config(7, env'), rest)
  {
    PrefixAt(p, Size, 6);
    IgnoreStep(p, 6, env, "to_drop");
    var c := Advance(p, Config(6, env), rest + 1);
    env' := c.env;
  }

  /** #7 withdraws 11 units from `gb`, going on at #14 when they are there and at #8 otherwise. */
  lemma At7(p: Program, env: Env, n: int, counter: int, gb: int, rest: nat) returns (env': Env)
    requires Prefix(p, Size) && LoopVars(env, n, counter, gb)
    ensures LoopVars(env', n, counter, if gb >= 11 then gb - 11 else gb)
    ensures env' == env["gb" := GasV(if gb >= 11 then gb - 11 else gb)]
    ensures Exec(p, Config(7, env), rest + 1) == Exec(p, Config(if gb >= 11 then 14 else 8, env'), rest)
  {
    PrefixAt(p, Size, 7);
    GetGasStep(p, 7, env, "gb", 11, 14);
    var c := Advance(p, Config(7, env), rest + 1);
    env' := c.env;
  }

  // Statements #8-#13: out of gas, the function returns the balance and -1.

  /** #8 drops `n`. */
  lemma At8(p: Program, env: Env, n: int, counter: int, gb: int, rest: nat) returns (env': Env)
    requires Prefix(p, Size) && LoopVars(env, n, counter, gb)
    ensures Has(env', "counter", IntV(counter)) && Has(env', "gb", GasV(gb))
    ensures env' == env - {"n"}
    ensures Exec(p, Config(8, env), rest + 1) == Exec(p, Config(9, env'), rest)
  {
    PrefixAt(p, Size, 8);
    IgnoreStep(p, 8, env, "n");
    var c := Advance(p, Config(8, env), rest + 1);
    env' := c.env;
  }

  /** #9 drops `counter`. */
  lemma At9(p: Program, env: Env, counter: int, gb: int, rest: nat) returns (env': Env)
    requires Prefix(p, Size) && Has(env, "counter", IntV(counter)) && Has(env, "gb", GasV(gb))
    ensures Has(env', "gb", GasV(gb))
    ensures env' == env - {"counter"}
    ensures Exec(p, Config(9, env), rest + 1) == Exec(p, Config(10, env'), rest)
  {
    PrefixAt(p, Size, 9);
    IgnoreStep(p, 9, env, "counter");
    var c := Advance(p, Config(9, env), rest + 1);
    env' := c.env;
  }

  /** #10 stores `gb`. */
  lemma At10(p: Program, env: Env, gb: int, rest: nat) returns (env': Env)
    requires Prefix(p, Size) && Has(env, "gb", GasV(gb))
    ensures Has(env', "gb", GasV(gb))
    ensures Exec(p, Config(10, env), rest + 1) == Exec(p, Config(11, env'), rest)
  {
    PrefixAt(p, Size, 10);
    StoreTempStep(p, 10, env, "gb");
    var c := Advance(p, Config(10, env), rest + 1);
    env' := c.env;
  }

  /** #11 binds `err` to -1. */
  lemma At11(p: Program, env: Env, gb: int, rest: nat) returns (env': Env)
    requires Prefix(p, Size) && Has(env, "gb", GasV(gb))
    ensures Has(env', "gb", GasV(gb)) && Has(env', "err", IntV(-1))
    ensures Exec(p, Config(11, env), rest + 1) == Exec(p, Config(12, env'), rest)
  {
    PrefixAt(p, Size, 11);
    ConstStep(p, 11, env, "err", -1);
    var c := Advance(p, Config(11, env), rest + 1);
    env' := c.env;
  }

  /** #12 stores `err`. */
  lemma At12(p: Program, env: Env, gb: int, rest: nat) returns (env': Env)
    requires Prefix(p, Size) && Has(env, "gb", GasV(gb)) && Has(env, "err", IntV(-1))
    ensures Has(env', "gb", GasV(gb)) && Has(env', "err", IntV(-1))
    ensures Exec(p, Config(12, env), rest + 1) == Exec(p, Config(13, env'), rest)
  {
    PrefixAt(p, Size, 12);
    StoreTempStep(p, 12, env, "err");
    var c := Advance(p, Config(12, env), rest + 1);
    env' := c.env;
  }

  /** #13 returns `gb` and `err`. */
  lemma At13(p: Program, env: Env, gb: int, rest: nat)
    requires Prefix(p, Size) && Has(env, "gb", GasV(gb)) && Has(env, "err", IntV(-1))
    ensures Exec(p, Config(13, env), rest + 1) == Ok([GasV(gb), IntV(-1)])
  {
    PrefixAt(p, Size, 13);
    ReturnStep(p, 13, env, "gb", "err");
    ReturnEnds(p, Config(13, env), [GasV(gb), IntV(-1)], rest + 1);
  }

  // Statements #14-#18: the parity test on a copy of `n`.

  /** #14 copies `n` into `parity`. */
  lemma At14(p: Program, env: Env, n: int, counter: int, gb: int, rest: nat) returns (env': Env)
    requires Prefix(p, Size) && LoopVars(env, n, counter, gb)
    ensures LoopVars(env', n, counter, gb) && Has(env', "parity", IntV(n))
    ensures Exec(p, Config(14, env), rest + 1) == Exec(p, Config(15, env'), rest)
  {
    PrefixAt(p, Size, 14);
    DupStep(p, 14, env, "n", "parity");
    var c := Advance(p, Config(14, env), rest + 1);
    env' := c.env;
  }

  /** #15 takes `parity` modulo 2. */
  lemma At15(p: Program, env: Env, n: int, counter: int, gb: int, m: int, rest: nat) returns (env': Env)
    requires Prefix(p, Size) && LoopVars(env, n, counter, gb) && Has(env, "parity", IntV(m))
    ensures LoopVars(env', n, counter, gb) && Has(env', "parity", IntV(m % 2))
    ensures Exec(p, Config(15, env), rest + 1) == Exec(p, Config(16, env'), rest)
  {
    PrefixAt(p, Size, 15);
    ArithStep(p, 15, env, "parity", Mod, 2);
    var c := Advance(p, Config(15, env), rest + 1);
    env' := c.env;
  }

  /** #16 stores `parity`. */
  lemma At16(p: Program, env: Env, n: int, counter: int, gb: int, m: int, rest: nat) returns (env': Env)
    requires Prefix(p, Size) && LoopVars(env, n, counter, gb) && Has(env, "parity", IntV(m))
    ensures LoopVars(env', n, counter, gb) && Has(env', "parity", IntV(m))
    ensures Exec(p, Config(16, env), rest + 1) == Exec(p, Config(17, env'), rest)
  {
    PrefixAt(p, Size, 16);
    StoreTempStep(p, 16, env, "parity");
    var c := Advance(p, Config(16, env), rest + 1);
    env' := c.env;
  }

  /** #17 stores `gb`. */
  lemma At17(p: Program, env: Env, n: int, counter: int, gb: int, m: int, rest: nat) returns (env': Env)
    requires Prefix(p, Size) && LoopVars(env, n, counter, gb) && Has(env, "parity", IntV(m))
    ensures LoopVars(env', n, counter, gb) && Has(env', "parity", IntV(m))
    ensures Exec(p, Config(17, env), rest + 1) == Exec(p, Config(18, env'), rest)
  {
    PrefixAt(p, Size, 17);
    StoreTempStep(p, 17, env, "gb");
    var c := Advance(p, Config(17, env), rest + 1);
    env' := c.env;
  }

  /** #18 jumps to #24 on a non-zero `parity`, keeping it as `to_drop`, and falls through otherwise. */
  lemma At18(p: Program, env: Env, n: int, counter: int, gb: int, m: int, rest: nat) returns (env': Env)
    requires Prefix(p, Size) && LoopVars(env, n, counter, gb) && Has(env, "parity", IntV(m))
    ensures LoopVars(env', n, counter, gb)
    ensures m != 0 ==> Has(env', "to_drop", NonZeroV(m))
    ensures Exec(p, Config(18, env), rest + 1) == Exec(p, Config(if m != 0 then 24 else 19, env'), rest)
  {
    PrefixAt(p, Size, 18);
    JumpNzStep(p, 18, env, "parity", "to_drop", 24);
    var c := Advance(p, Config(18, env), rest + 1);
    env' := c.env;
  }

  // Statements #19-#23: an even `n` is halved.

  /** #19 aligns the temporaries. */
  lemma At19(p: Program, env: Env, n: int, counter: int, gb: int, rest: nat) returns (env': Env)
    requires Prefix(p, Size) && LoopVars(env, n, counter, gb)
    ensures LoopVars(env', n, counter, gb)
    ensures Exec(p, Config(19, env), rest + 1) == Exec(p, Config(20, env'), rest)
  {
    PrefixAt(p, Size, 19);
    ControlStep(p, 19, env, Fallthrough);
    var c := Advance(p, Config(19, env), rest + 1);
    env' := c.env;
  }

  /** #20 halves `n`. */
  lemma At20(p: Program, env: Env, n: int, counter: int, gb: int, rest: nat) returns (env': Env)
    requires Prefix(p, Size) && LoopVars(env, n, counter, gb)
    ensures LoopVars(env', n / 2, counter, gb)
    ensures Exec(p, Config(20, env), rest + 1) == Exec(p, Config(21, env'), rest)
  {
    PrefixAt(p, Size, 20);
    ArithStep(p, 20, env, "n", Div, 2);
    var c := Advance(p, Config(20, env), rest + 1);
    env' := c.env;
  }

  /** #21 stores `n`. */
  lemma At21(p: Program, env: Env, n: int, counter: int, gb: int, rest: nat) returns (env': Env)
    requires Prefix(p, Size) && LoopVars(env, n, counter, gb)
    ensures LoopVars(env', n, counter, gb)
    ensures Exec(p, Config(21, env), rest + 1) == Exec(p, Config(22, env'), rest)
  {
    PrefixAt(p, Size, 21);
    StoreTempStep(p, 21, env, "n");
    var c := Advance(p, Config(21, env), rest + 1);
    env' := c.env;
  }

  /** #22 stores `gb`. */
  lemma At22(p: Program, env: Env, n: int, counter: int, gb: int, rest: nat) returns (env': Env)
    requires Prefix(p, Size) && LoopVars(env, n, counter, gb)
    ensures LoopVars(env', n, counter, gb)
    ensures Exec(p, Config(22, env), rest + 1) == Exec(p, Config(23, env'), rest)
  {
    PrefixAt(p, Size, 22);
    StoreTempStep(p, 22, env, "gb");
    var c := Advance(p, Config(22, env), rest + 1);
    env' := c.env;
  }

  /** #23 jumps to #32. */
  lemma At23(p: Program, env: Env, n: int, counter: int, gb: int, rest: nat) returns (env': Env)
    requires Prefix(p, Size) && LoopVars(env, n, counter, gb)
    ensures LoopVars(env', n, counter, gb)
    ensures Exec(p, Config(23, env), rest + 1) == Exec(p, Config(32, env'), rest)
  {
    PrefixAt(p, Size, 23);
    ControlStep(p, 23, env, Goto(32));
    var c := Advance(p, Config(23, env), rest + 1);
    env' := c.env;
  }

  // Statements #24-#31: an odd `n` becomes `3n + 1` and one unit of gas is refunded.

  /** #24 unwraps the witness `to_drop`. */
  lemma At24(p: Program, env: Env, n: int, counter: int, gb: int, w: int, rest: nat) returns (env': Env)
    requires Prefix(p, Size) && LoopVars(env, n, counter, gb) && Has(env, "to_drop", NonZeroV(w))
    ensures LoopVars(env', n, counter, gb) && Has(env', "to_drop", IntV(w))
    ensures Exec(p, Config(24, env), rest + 1) == Exec(p, Config(25, env'), rest)
  {
    PrefixAt(p, Size, 24);
    UnwrapStep(p, 24, env, "to_drop");
    var c := Advance(p, Config(24, env), rest + 1);
    env' := c.env;
  }

  /** #25 drops the witness. */
  lemma At25(p: Program, env: Env, n: int, counter: int, gb: int, w: int, rest: nat) returns (env': Env)
    requires Prefix(p, Size) && LoopVars(env, n, counter, gb) && Has(env, "to_drop", IntV(w))
    ensures LoopVars(env', n, counter, gb)
    ensures env' == env - {"to_drop"}
    ensures Exec(p, Config(25, env), rest + 1) == Exec(p, Config(26, env'), rest)
  {
    PrefixAt(p, Size, 25);
    IgnoreStep(p, 25, env, "to_drop");
    var c := Advance(p, Config(25, env), rest + 1);
    env' := c.env;
  }

  /** #26 triples `n`. */
  lemma At26(p: Program, env: Env, n: int, counter: int, gb: int, rest: nat) returns (env': Env)
    requires Prefix(p, Size) && LoopVars(env, n, counter, gb)
    ensures LoopVars(env', n * 3, counter, gb)
    ensures Exec(p, Config(26, env), rest + 1) == Exec(p, Config(27, env'), rest)
  {
    PrefixAt(p, Size, 26);
    ArithStep(p, 26, env, "n", Mul, 3);
    var c := Advance(p, Config(26, env), rest + 1);
    env' := c.env;
  }

  /** #27 stores `n`. */
  lemma At27(p: Program, env: Env, n: int, counter: int, gb: int, rest: nat) returns (env': Env)
    requires Prefix(p, Size) && LoopVars(env, n, counter, gb)
    ensures LoopVars(env', n, counter, gb)
    ensures Exec(p, Config(27, env), rest + 1) == Exec(p, Config(28, env'), rest)
  {
    PrefixAt(p, Size, 27);
    StoreTempStep(p, 27, env, "n");
    var c := Advance(p, Config(27, env), rest + 1);
    env' := c.env;
  }

  /** #28 adds one to `n`. */
  lemma At28(p: Program, env: Env, n: int, counter: int, gb: int, rest: nat) returns (env': Env)
    requires Prefix(p, Size) && LoopVars(env, n, counter, gb)
    ensures LoopVars(env', n + 1, counter, gb)
    ensures Exec(p, Config(28, env), rest + 1) == Exec(p, Config(29, env'), rest)
  {
    PrefixAt(p, Size, 28);
    ArithStep(p, 28, env, "n", Add, 1);
    var c := Advance(p, Config(28, env), rest + 1);
    env' := c.env;
  }

  /** #29 stores `n`. */
  lemma At29(p: Program, env: Env, n: int, counter: int, gb: int, rest: nat) returns (env': Env)
    requires Prefix(p, Size) && LoopVars(env, n, counter, gb)
    ensures LoopVars(env', n, counter, gb)
    ensures Exec(p, Config(29, env), rest + 1) == Exec(p, Config(30, env'), rest)
  {
    PrefixAt(p, Size, 29);
    StoreTempStep(p, 29, env, "n");
    var c := Advance(p, Config(29, env), rest + 1);
    env' := c.env;
  }

  /** #30 refunds one unit to `gb`. */
  lemma At30(p: Program, env: Env, n: int, counter: int, gb: int, rest: nat) returns (env': Env)
    requires Prefix(p, Size) && LoopVars(env, n, counter, gb)
    ensures LoopVars(env', n, counter, gb + 1)
    ensures Exec(p, Config(30, env), rest + 1) == Exec(p, Config(31, env'), rest)
  {
    PrefixAt(p, Size, 30);
    RefundStep(p, 30, env, "gb", 1);
    var c := Advance(p, Config(30, env), rest + 1);
    env' := c.env;
  }

  /** #31 stores `gb`. */
  lemma At31(p: Program, env: Env, n: int, counter: int, gb: int, rest: nat) returns (env': Env)
    requires Prefix(p, Size) && LoopVars(env, n, counter, gb)
    ensures LoopVars(env', n, counter, gb)
    ensures Exec(p, Config(31, env), rest + 1) == Exec(p, Config(32, env'), rest)
  {
    PrefixAt(p, Size, 31);
    StoreTempStep(p, 31, env, "gb");
    var c := Advance(p, Config(31, env), rest + 1);
    env' := c.env;
  }

  // Statements #32-#33: the step count goes up by one.

  /** #32 adds one to `counter`. */
  lemma At32(p: Program, env: Env, n: int, counter: int, gb: int, rest: nat) returns (env': Env)
    requires Prefix(p, Size) && LoopVars(env, n, counter, gb)
    ensures LoopVars(env', n, counter + 1, gb)
    ensures Exec(p, Config(32, env), rest + 1) == Exec(p, Config(33, env'), rest)
  {
    PrefixAt(p, Size, 32);
    ArithStep(p, 32, env, "counter", Add, 1);
    var c := Advance(p, Config(32, env), rest + 1);
    env' := c.env;
  }

  /** #33 stores `counter`. */
  lemma At33(p: Program, env: Env, n: int, counter: int, gb: int, rest: nat) returns (env': Env)
    requires Prefix(p, Size) && LoopVars(env, n, counter, gb)
    ensures LoopVars(env', n, counter, gb)
    ensures Exec(p, Config(33, env), rest + 1) == Exec(p, Config(34, env'), rest)
  {
    PrefixAt(p, Size, 33);
    StoreTempStep(p, 33, env, "counter");
    var c := Advance(p, Config(33, env), rest + 1);
    env' := c.env;
  }

  // Statements #34-#37: the termination test on a copy of `n` minus one.

  /** #34 copies `n` into `n_1`. */
  lemma At34(p: Program, env: Env, n: int, counter: int, gb: int, rest: nat) returns (env': Env)
    requires Prefix(p, Size) && LoopVars(env, n, counter, gb)
    ensures LoopVars(env', n, counter, gb) && Has(env', "n_1", IntV(n))
    ensures Exec(p, Config(34, env), rest + 1) == Exec(p, Config(35, env'), rest)
  {
    PrefixAt(p, Size, 34);
    DupStep(p, 34, env, "n", "n_1");
    var c := Advance(p, Config(34, env), rest + 1);
    env' := c.env;
  }

  /** #35 subtracts one from `n_1`. */
  lemma At35(p: Program, env: Env, n: int, counter: int, gb: int, m: int, rest: nat) returns (env': Env)
    requires Prefix(p, Size) && LoopVars(env, n, counter, gb) && Has(env, "n_1", IntV(m))
    ensures LoopVars(env', n, counter, gb) && Has(env', "n_1", IntV(m - 1))
    ensures Exec(p, Config(35, env), rest + 1) == Exec(p, Config(36, env'), rest)
  {
    PrefixAt(p, Size, 35);
    ArithStep(p, 35, env, "n_1", Sub, 1);
    var c := Advance(p, Config(35, env), rest + 1);
    env' := c.env;
  }

  /** #36 stores `n_1`. */
  lemma At36(p: Program, env: Env, n: int, counter: int, gb: int, m: int, rest: nat) returns (env': Env)
    requires Prefix(p, Size) && LoopVars(env, n, counter, gb) && Has(env, "n_1", IntV(m))
    ensures LoopVars(env', n, counter, gb) && Has(env', "n_1", IntV(m))
    ensures Exec(p, Config(36, env), rest + 1) == Exec(p, Config(37, env'), rest)
  {
    PrefixAt(p, Size, 36);
    StoreTempStep(p, 36, env, "n_1");
    var c := Advance(p, Config(36, env), rest + 1);
    env' := c.env;
  }

  /** #37 jumps back to #5 on a non-zero `n_1`, keeping it as `to_drop`, and falls through otherwise. */
  lemma At37(p: Program, env: Env, n: int, counter: int, gb: int, m: int, rest: nat) returns (env': Env)
    requires Prefix(p, Size) && LoopVars(env, n, counter, gb) && Has(env, "n_1", IntV(m))
    ensures LoopVars(env', n, counter, gb)
    ensures m != 0 ==> Has(env', "to_drop", NonZeroV(m))
    ensures Exec(p, Config(37, env), rest + 1) == Exec(p, Config(if m != 0 then 5 else 38, env'), rest)
  {
    PrefixAt(p, Size, 37);
    JumpNzStep(p, 37, env, "n_1", "to_drop", 5);
    var c := Advance(p, Config(37, env), rest + 1);
    env' := c.env;
  }

  // Statements #38-#42: `n` is 1, the function returns the refunded balance and the count.

  /** #38 drops `n`. */
  lemma At38(p: Program, env: Env, n: int, counter: int, gb: int, rest: nat) returns (env': Env)
    requires Prefix(p, Size) && LoopVars(env, n, counter, gb)
    ensures Has(env', "counter", IntV(counter)) && Has(env', "gb", GasV(gb))
    ensures env' == env - {"n"}
    ensures Exec(p, Config(38, env), rest + 1) == Exec(p, Config(39, env'), rest)
  {
    PrefixAt(p, Size, 38);
    IgnoreStep(p, 38, env, "n");
    var c := Advance(p, Config(38, env), rest + 1);
    env' := c.env;
  }

  /** #39 refunds one unit to `gb`. */
  lemma At39(p: Program, env: Env, counter: int, gb: int, rest: nat) returns (env': Env)
    requires Prefix(p, Size) && Has(env, "counter", IntV(counter)) && Has(env, "gb", GasV(gb))
    ensures Has(env', "counter", IntV(counter)) && Has(env', "gb", GasV(gb + 1))
    ensures Exec(p, Config(39, env), rest + 1) == Exec(p, Config(40, env'), rest)
  {
    PrefixAt(p, Size, 39);
    RefundStep(p, 39, env, "gb", 1);
    var c := Advance(p, Config(39, env), rest + 1);
    env' := c.env;
  }

  /** #40 stores `gb`. */
  lemma At40(p: Program, env: Env, counter: int, gb: int, rest: nat) returns (env': Env)
    requires Prefix(p, Size) && Has(env, "counter", IntV(counter)) && Has(env, "gb", GasV(gb))
    ensures Has(env', "counter", IntV(counter)) && Has(env', "gb", GasV(gb))
    ensures Exec(p, Config(40, env), rest + 1) == Exec(p, Config(41, env'), rest)
  {
    PrefixAt(p, Size, 40);
    StoreTempStep(p, 40, env, "gb");
    var c := Advance(p, Config(40, env), rest + 1);
    env' := c.env;
  }

  /** #41 stores `counter`. */
  lemma At41(p: Program, env: Env, counter: int, gb: int, rest: nat) returns (env': Env)
    requires Prefix(p, Size) && Has(env, "counter", IntV(counter)) && Has(env, "gb", GasV(gb))
    ensures Has(env', "counter", IntV(counter)) && Has(env', "gb", GasV(gb))
    ensures Exec(p, Config(41, env), rest + 1) == Exec(p, Config(42, env'), rest)
  {
    PrefixAt(p, Size, 41);
    StoreTempStep(p, 41, env, "counter");
    var c := Advance(p, Config(41, env), rest + 1);
    env' := c.env;
  }

  /** #42 returns `gb` and `counter`. */
  lemma At42(p: Program, env: Env, counter: int, gb: int, rest: nat)
    requires Prefix(p, Size) && Has(env, "counter", IntV(counter)) && Has(env, "gb", GasV(gb))
    ensures Exec(p, Config(42, env), rest + 1) == Ok([GasV(gb), IntV(counter)])
  {
    PrefixAt(p, Size, 42);
    ReturnStep(p, 42, env, "gb", "counter");
    ReturnEnds(p, Config(42, env), [GasV(gb), IntV(counter)], rest + 1);
  }

  // The blocks of the program, each in terms of the loop variables. `rest` is the fuel
  // left once the block has run.

  /** Statements #0-#4: with `n` and `gb` bound from the parameters, the entry sets the
      step count to 0 and goes to the termination test. */
  lemma EntryBlock(p: Program, env: Env, n: int, gb: int, rest: nat) returns (env': Env)
    requires Prefix(p, Size) && Has(env, "n", IntV(n)) && Has(env, "gb", GasV(gb))
    ensures LoopVars(env', n, 0, gb)
    ensures Exec(p, Config(0, env), rest + 5) == Exec(p, Config(34, env'), rest)
  {
    var e := At0(p, env, n, gb, rest + 4);
    e := At1(p, e, n, gb, rest + 3);
    e := At2(p, e, n, gb, rest + 2);
    e := At3(p, e, n, 0, gb, rest + 1);
    env' := At4(p, e, n, 0, gb, rest);
  }

  /** Statements #34-#37: the test goes on at #38 when `n` is 1 and otherwise jumps back
      to #5, binding `to_drop` to the non-zero witness `n - 1`. */
  lemma TestBlock(p: Program, env: Env, n: int, counter: int, gb: int, rest: nat) returns (env': Env)
    requires Prefix(p, Size) && LoopVars(env, n, counter, gb)
    ensures LoopVars(env', n, counter, gb)
    ensures n != 1 ==> Has(env', "to_drop", NonZeroV(n - 1))
    ensures Exec(p, Config(34, env), rest + 4) == Exec(p, Config(if n == 1 then 38 else 5, env'), rest)
  {
    var e := At34(p, env, n, counter, gb, rest + 3);
    e := At35(p, e, n, counter, gb, n, rest + 2);
    e := At36(p, e, n, counter, gb, n - 1, rest + 1);
    env' := At37(p, e, n, counter, gb, n - 1, rest);
  }

  /** Statements #38-#42: the run returns the balance plus the exit refund, and the step
      count. */
  lemma ExitBlock(p: Program, env: Env, n: int, counter: int, gb: int, rest: nat)
    requires Prefix(p, Size) && LoopVars(env, n, counter, gb)
    ensures Exec(p, Config(38, env), rest + 5) == Ok([GasV(gb + ExitRefund), IntV(counter)])
  {
    var e := At38(p, env, n, counter, gb, rest + 4);
    e := At39(p, e, counter, gb, rest + 3);
    e := At40(p, e, counter, gb + 1, rest + 2);
    e := At41(p, e, counter, gb + 1, rest + 1);
    At42(p, e, counter, gb + 1, rest);
  }

  /** Statements #5-#7: the witness is dropped and the iteration's cost is withdrawn when
      the balance covers it; otherwise the balance is left as it is and the run goes on
      at #8. */
  lemma GasBlock(p: Program, env: Env, n: int, counter: int, gb: int, w: int, rest: nat) returns (env': Env)
    requires Prefix(p, Size) && LoopVars(env, n, counter, gb) && Has(env, "to_drop", NonZeroV(w))
    ensures LoopVars(env', n, counter, if gb >= IterationCost then gb - IterationCost else gb)
    ensures "to_drop" !in env'
    ensures Exec(p, Config(5, env), rest + 3) == Exec(p, Config(if gb >= IterationCost then 14 else 8, env'), rest)
  {
    var e := At5(p, env, n, counter, gb, w, rest + 2);
    e := At6(p, e, n, counter, gb, w, rest + 1);
    env' := At7(p, e, n, counter, gb, rest);
  }

  /** Statements #8-#13: out of gas, the run returns the balance and the sentinel. */
  lemma OutOfGasBlock(p: Program, env: Env, n: int, counter: int, gb: int, rest: nat)
    requires Prefix(p, Size) && LoopVars(env, n, counter, gb)
    ensures Exec(p, Config(8, env), rest + 6) == Ok([GasV(gb), IntV(OutOfGas)])
  {
    var e := At8(p, env, n, counter, gb, rest + 5);
    e := At9(p, e, counter, gb, rest + 4);
    e := At10(p, e, gb, rest + 3);
    e := At11(p, e, gb, rest + 2);
    e := At12(p, e, gb, rest + 1);
    At13(p, e, gb, rest);
  }

  /** Statements #14-#18: an even `n` goes on at #19, an odd one at #24 with `to_drop`
      bound to the non-zero remainder. */
  lemma ParityBlock(p: Program, env: Env, n: int, counter: int, gb: int, rest: nat) returns (env': Env)
    requires Prefix(p, Size) && LoopVars(env, n, counter, gb)
    ensures LoopVars(env', n, counter, gb)
    ensures n % 2 != 0 ==> Has(env', "to_drop", NonZeroV(n % 2))
    ensures Exec(p, Config(14, env), rest + 5) == Exec(p, Config(if n % 2 == 0 then 19 else 24, env'), rest)
  {
    var e := At14(p, env, n, counter, gb, rest + 4);
    e := At15(p, e, n, counter, gb, n, rest + 3);
    e := At16(p, e, n, counter, gb, n % 2, rest + 2);
    e := At17(p, e, n, counter, gb, n % 2, rest + 1);
    env' := At18(p, e, n, counter, gb, n % 2, rest);
  }

  /** Statements #19-#23: an even `n` is halved. */
  lemma EvenBlock(p: Program, env: Env, n: int, counter: int, gb: int, rest: nat) returns (env': Env)
    requires Prefix(p, Size) && LoopVars(env, n, counter, gb)
    ensures LoopVars(env', n / 2, counter, gb)
    ensures Exec(p, Config(19, env), rest + 5) == Exec(p, Config(32, env'), rest)
  {
    var e := At19(p, env, n, counter, gb, rest + 4);
    e := At20(p, e, n, counter, gb, rest + 3);
    e := At21(p, e, n / 2, counter, gb, rest + 2);
    e := At22(p, e, n / 2, counter, gb, rest + 1);
    env' := At23(p, e, n / 2, counter, gb, rest);
  }

  /** Statements #24-#31: an odd `n` becomes `3n + 1` and the odd step's refund is added
      to the balance. */
  lemma OddBlock(p: Program, env: Env, n: int, counter: int, gb: int, w: int, rest: nat) returns (env': Env)
    requires Prefix(p, Size) && LoopVars(env, n, counter, gb) && Has(env, "to_drop", NonZeroV(w))
    ensures LoopVars(env', 3 * n + 1, counter, gb + OddRefund)
    ensures Exec(p, Config(24, env), rest + 8) == Exec(p, Config(32, env'), rest)
  {
    var e := At24(p, env, n, counter, gb, w, rest + 7);
    e := At25(p, e, n, counter, gb, w, rest + 6);
    e := At26(p, e, n, counter, gb, rest + 5);
    e := At27(p, e, n * 3, counter, gb, rest + 4);
    e := At28(p, e, n * 3, counter, gb, rest + 3);
    e := At29(p, e, n * 3 + 1, counter, gb, rest + 2);
    e := At30(p, e, n * 3 + 1, counter, gb, rest + 1);
    env' := At31(p, e, n * 3 + 1, counter, gb + 1, rest);
  }

  /** Statements #32-#33: the step count goes up by one. */
  lemma CountBlock(p: Program, env: Env, n: int, counter: int, gb: int, rest: nat) returns (env': Env)
    requires Prefix(p, Size) && LoopVars(env, n, counter, gb)
    ensures LoopVars(env', n, counter + 1, gb)
    ensures Exec(p, Config(32, env), rest + 2) == Exec(p, Config(34, env'), rest)
  {
    var e := At32(p, env, n, counter, gb, rest + 1);
    env' := At33(p, e, n, counter + 1, gb, rest);
  }

  /** The number of statements one paid iteration runs, from #5 back to #34. */
  function IterationLength(n: int): nat
  {
    if n % 2 == 0 then 15 else 18
  }

  /** One paid iteration, from #5 back to the termination test at #34: `n` takes its
      Collatz step, the count goes up by one and the balance loses the iteration's cost
      less the odd step's refund. */
  lemma Iteration(p: Program, env: Env, n: int, counter: int, gb: int, w: int, rest: nat) returns (env': Env)
    requires Prefix(p, Size) && LoopVars(env, n, counter, gb) && Has(env, "to_drop", NonZeroV(w))
    requires gb >= IterationCost
    ensures LoopVars(env', CollatzNext(n), counter + 1, gb - IterationCost + Refund(n))
    ensures Exec(p, Config(5, env), rest + IterationLength(n)) == Exec(p, Config(34, env'), rest)
  {
    if n % 2 == 0 {
      var e := GasBlock(p, env, n, counter, gb, w, rest + 12);
      e := ParityBlock(p, e, n, counter, gb - IterationCost, rest + 7);
      e := EvenBlock(p, e, n, counter, gb - IterationCost, rest + 2);
      env' := CountBlock(p, e, n / 2, counter, gb - IterationCost, rest);
    } else {
      var e := GasBlock(p, env, n, counter, gb, w, rest + 15);
      e := ParityBlock(p, e, n, counter, gb - IterationCost, rest + 10);
      e := OddBlock(p, e, n, counter, gb - IterationCost, n % 2, rest + 2);
      env' := CountBlock(p, e, 3 * n + 1, counter, gb - IterationCost + OddRefund, rest);
    }
  }

  /** Fuel enough for a run from the termination test with balance `gb`: each iteration
      runs at most 22 statements and costs at least 10 units of gas. */
  function Budget(gb: int): nat
  {
    if gb <= 0 then 13 else 3 * gb + 13
  }

  /** From the termination test, the simulator returns what the reference loop returns. */
  lemma {:induction false} FromTest(p: Program, env: Env, n: int, counter: int, gb: int, fuel: nat)
    requires Prefix(p, Size) && LoopVars(env, n, counter, gb) && fuel >= Budget(gb)
    ensures Exec(p, Config(34, env), fuel) == Ok([GasV(Loop(n, counter, gb).gas), IntV(Loop(n, counter, gb).value)])
    decreases gb, 1
  {
    var e := TestBlock(p, env, n, counter, gb, fuel - 4);
    if n == 1 {
      ExitBlock(p, e, n, counter, gb, fuel - 9);
    } else {
      FromTop(p, e, n, counter, gb, n - 1, fuel - 4);
    }
  }

  /** From the top of the loop body at #5, with `n` not 1, the simulator returns what the
      reference loop returns. */
  lemma {:induction false} FromTop(p: Program, env: Env, n: int, counter: int, gb: int, w: int, fuel: nat)
    requires Prefix(p, Size) && LoopVars(env, n, counter, gb) && Has(env, "to_drop", NonZeroV(w))
    requires n != 1 && fuel + 4 >= Budget(gb)
    ensures Exec(p, Config(5, env), fuel) == Ok([GasV(Loop(n, counter, gb).gas), IntV(Loop(n, counter, gb).value)])
    decreases gb, 0
  {
    if gb < IterationCost {
      var e := GasBlock(p, env, n, counter, gb, w, fuel - 3);
      OutOfGasBlock(p, e, n, counter, gb, fuel - 9);
    } else {
      var e := Iteration(p, env, n, counter, gb, w, fuel - IterationLength(n));
      FromTest(p, e, CollatzNext(n), counter + 1, gb - IterationCost + Refund(n), fuel - IterationLength(n));
    }
  }

  /** The refinement theorem: for every gas balance and every input, running `Collatz` in
      the simulator returns `RunCollatz`'s balance and value, given fuel for the
      statements it runs. */
  lemma SimulationMatchesLoop(gb: int, n: int, fuel: nat)
    requires fuel >= Budget(gb) + 5
    ensures Run(CollatzProgram, "Collatz", [GasV(gb), IntV(n)], fuel)
         == Ok([GasV(RunCollatz(gb, n).gas), IntV(RunCollatz(gb, n).value)])
  {
    var p := CollatzProgram;
    CollatzPrefix(Size);
    assert FindFunction(p.functions, "Collatz") == Some(CollatzFunction);
    assert ParamNames(CollatzFunction.params) == ["gb", "n"];
    assert Types([GasV(gb), IntV(n)]) == ParamTypes(CollatzFunction.params);
    var env := Bind(map[], ["gb", "n"], [GasV(gb), IntV(n)]);
    assert Has(env, "n", IntV(n)) && Has(env, "gb", GasV(gb));
    var e := EntryBlock(p, env, n, gb, fuel - 5);
    FromTest(p, e, n, 0, gb, fuel - 5);
    var a := RunCollatz(gb, n);
    assert Types([GasV(a.gas), IntV(a.value)]) == CollatzFunction.rets;
  }

  /** The three runs the program's tests expect: (100, 5) gives (47, 5), (200, 7) gives
      (30, 16), and (100, 7) runs out of gas with (5, -1). */
  lemma SimulatedVectors()
    ensures Run(CollatzProgram, "Collatz", [GasV(100), IntV(5)], 400) == Ok([GasV(47), IntV(5)])
    ensures Run(CollatzProgram, "Collatz", [GasV(200), IntV(7)], 700) == Ok([GasV(30), IntV(16)])
    ensures Run(CollatzProgram, "Collatz", [GasV(100), IntV(7)], 400) == Ok([GasV(5), IntV(-1)])
  {
    SimulationMatchesLoop(100, 5, 400);
    CollatzOfFive();
    SimulationMatchesLoop(200, 7, 700);
    CollatzOfSeven();
    SimulationMatchesLoop(100, 7, 400);
    SevenRunsOutOfGas();
  }
}
