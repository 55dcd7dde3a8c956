# Gas-metered Collatz in Sierra, modelled in Dafny

The repository's Sierra test suite carries a small program, `Collatz@0(gb: GasBuiltin, n: int) -> (GasBuiltin, int)`. It counts the Collatz steps from `n` down to 1 and pays 11 units of gas per iteration with `get_gas<11>`. An odd step gets one unit back with `refund_gas<1>`, and so does the normal exit. When the gas runs short, the program returns its balance and the sentinel -1. The tests run it in the Sierra simulator: `(100, 5)` gives `(47, 5)`, `(200, 7)` gives `(30, 16)`, and `(100, 7)` gives `(5, -1)`.

The model has three modules.

- `sierra.dfy` (module `Sierra`) is the part of the simulator this program exercises:
  - runtime values tagged with their concrete type (`int`, `GasBuiltin`, `NonZero<int>`);
  - the semantics and signature of each libfunc the program declares;
  - statements with explicit branches (target and output names);
  - a variable environment from which every read removes the variable;
  - execution as a fuel-bounded function `Exec` and the lookup-and-check wrapper `Run`;
  - the simulator's loop as the method `Execute`, which changes a cursor and an environment step by step, and the method `Simulate`; both are proved equal to the functions.
- `collatz.dfy` (module `Collatz`) holds the program text as data: 43 statements in the program's blocks, and the function declaration. It also holds:
  - the reference semantics `Loop`/`RunCollatz` over `(n, counter, gb)`;
  - the same loop as the method `CollatzLoop`;
  - the gas and step-count properties: each iteration costs 10 or 11 units, the exact gas formulas for both kinds of return, termination by gas, `n = 1` needing no gas, and the three expected results.
- `collatz_simulation.dfy` (module `CollatzSimulation`) runs the program text in the simulator model.
  - One lemma per statement (`At0` … `At42`) says what that statement does to the live variables.
  - One lemma per block combines them.
  - `SimulationMatchesLoop` proves that, for every gas balance and every input, `Run` of the program returns `RunCollatz`'s balance and value, with no missing variable along the way.
  - `SimulatedVectors` gives the three test runs at the statement level.

Fuel is a step budget of the model only: it makes `Exec` a total function. `SimulationMatchesLoop` states how much fuel suffices: `3·gb + 18` for a positive balance and 18 otherwise. `MoreFuelSameResult` shows that more fuel never changes a result.

## Model

| member | source | states |
|---|---|---|
| Sierra.Apply | crates/sierra/tests/collatz_test.rs:14-30 | a libfunc's evaluation succeeds exactly when its arguments have the signature's input types and it does not divide by a zero constant; a success names one of the signature's branches and its outputs have that branch's types; a failure is a type mismatch or an arithmetic error |
| Sierra.GetGasAllOrNothing | crates/sierra/tests/collatz_test.rs:27 | `get_gas<k>` deducts exactly `k` and takes its first branch when the balance covers `k`, and otherwise leaves the balance unchanged and takes the shortfall branch; a non-negative balance stays non-negative |
| Sierra.JumpNzRoutes | crates/sierra/tests/collatz_test.rs:25 | `int_jump_nz` sends a non-zero operand to its first branch wrapped as `NonZero`, and zero to its second branch with no outputs |
| Sierra.TakeArgs | crates/sierra/tests/collatz_test.rs:51 | reading arguments gives one value per name or fails with a missing variable |
| Sierra.TakeArgsConsumes | crates/sierra/tests/collatz_test.rs:51 | reading succeeds exactly when every name is bound and no name repeats; the values come back in order and the remaining environment is the old one minus the names read |
| Sierra.BindBinds | crates/sierra/tests/collatz_test.rs:51 | binding outputs adds exactly the named variables, keeps every other variable, and gives each of distinct names its value |
| Sierra.MoreFuelSameResult | crates/sierra/tests/collatz_test.rs:111-116 | a run that ends within its fuel gives the same result with any larger fuel |
| Sierra.StoreTempStep | crates/sierra/tests/collatz_test.rs:14-15 | `store_temp<T>(x) -> (x)` leaves the environment unchanged and falls through |
| Sierra.ControlStep | crates/sierra/tests/collatz_test.rs:29-30 | `jump` and `align_temps` change no variable and only move the cursor to their target |
| Sierra.ConstStep | crates/sierra/tests/collatz_test.rs:16-17 | `int_const<c>() -> (x)` binds `x` to `c` |
| Sierra.ArithStep | crates/sierra/tests/collatz_test.rs:18-22 | `int_<op><c>(x) -> (x)` replaces the integer in `x` by `x op c` |
| Sierra.DupStep | crates/sierra/tests/collatz_test.rs:23 | `int_dup(x) -> (x, y)` keeps `x` and binds `y` to the same integer |
| Sierra.IgnoreStep | crates/sierra/tests/collatz_test.rs:24 | `int_ignore(x) -> ()` removes `x` and nothing else |
| Sierra.JumpNzStep | crates/sierra/tests/collatz_test.rs:25 | `int_jump_nz(x) { t(y) fallthrough() }` consumes `x`; a non-zero value jumps to `t` with `y` bound to its `NonZero` wrapper, zero falls through |
| Sierra.UnwrapStep | crates/sierra/tests/collatz_test.rs:26 | `unwrap_nz<int>(x) -> (x)` turns the `NonZero` wrapper back into the same integer |
| Sierra.GetGasStep | crates/sierra/tests/collatz_test.rs:27 | `get_gas<k>(x) { t(x) fallthrough(x) }` deducts `k` and jumps to `t` when the balance covers `k`, and otherwise leaves the environment as it was and falls through |
| Sierra.RefundStep | crates/sierra/tests/collatz_test.rs:28 | `refund_gas<k>(x) -> (x)` adds `k` to the balance in `x` |
| Sierra.ReturnStep | crates/sierra/tests/collatz_test.rs:84 | `return(x, y)` ends the run with the values of `x` and `y`, in that order |
| Sierra.FindFunction | crates/sierra/tests/collatz_test.rs:113 | a found function is one of the program's functions and has the requested name; not found means no function has that name |
| Sierra.Run | crates/sierra/tests/collatz_test.rs:109-117 | a successful run found the named function, was given inputs of its parameter types, and returns values of its declared return types |
| Sierra.Consume | crates/sierra/tests/collatz_test.rs:51 | the imperative read of the arguments gives exactly `TakeArgs` |
| Sierra.BindAll | crates/sierra/tests/collatz_test.rs:51 | the imperative binding of the outputs gives exactly `Bind` |
| Sierra.Execute | crates/sierra/tests/collatz_test.rs:32-84 | the simulator's fetch-consume-apply-bind loop returns exactly `Exec` for the same fuel |
| Sierra.Simulate | crates/sierra/tests/collatz_test.rs:111-116 | looking up the function, binding its parameters, executing and checking the return types gives exactly `Run` |
| Collatz.Loop | crates/sierra/tests/collatz_test.rs:74-84 | the reference loop from the termination test keeps a non-negative balance non-negative, never returns more than the balance plus the exit refund, and returns either the sentinel -1 or a count no smaller than the starting counter |
| Collatz.CollatzLoop | crates/sierra/tests/collatz_test.rs:32-84 | the loop over `(n, counter, gb)`, driven by the program's jumps, returns exactly `RunCollatz` |
| Collatz.GasUsedBounds | crates/sierra/tests/collatz_test.rs:42 | each iteration costs between 10 and 11 units of gas (11 withdrawn, at most 1 refunded at #30) |
| Collatz.LoopAfter | crates/sierra/tests/collatz_test.rs:51-73 | after `k` paid iterations the loop goes on from the `k`-th Collatz value, with the counter up by `k` and `11k - oddSteps` gas spent |
| Collatz.NormalReturn | crates/sierra/tests/collatz_test.rs:81 | a normal return after `k` steps reaching 1 gives the count `k` and the gas `gb - 11k + oddSteps + 1` |
| Collatz.OutOfGasReturn | crates/sierra/tests/collatz_test.rs:42-49 | an out-of-gas return after `k` paid iterations gives the sentinel -1 and the gas `gb - 11k + oddSteps`, without the exit refund |
| Collatz.RunEnds | crates/sierra/tests/collatz_test.rs:42 | every run ends: some number of paid iterations reaches 1 or leaves a balance below 11 |
| Collatz.CollatzOutcome | crates/sierra/tests/collatz_test.rs:74-84 | every run does some number `k` of paid iterations and returns either the count `k` with the refund, when the `k`-th value is 1 and none before it was, or -1 when the balance cannot pay for another iteration |
| Collatz.OneNeedsNoGas | crates/sierra/tests/collatz_test.rs:37 | with `n = 1` the run returns `(gb + 1, 0)` without withdrawing any gas |
| Collatz.CollatzOfFive | crates/sierra/tests/collatz_test.rs:101-102 | 5 reaches 1 in five steps, one of them odd, and the run with gas 100 returns (47, 5) |
| Collatz.CollatzOfSeven | crates/sierra/tests/collatz_test.rs:103-106 | the run on 7 with gas 200 returns (30, 16) |
| Collatz.SevenRunsOutOfGas | crates/sierra/tests/collatz_test.rs:107-108 | the run on 7 with gas 100 returns (5, -1): running out of gas is a normal return with the sentinel |
| CollatzSimulation.At0 | crates/sierra/tests/collatz_test.rs:33 | #0 stores `n`, keeps the other variables the run needs, and goes on at #1 for one unit of fuel |
| CollatzSimulation.At1 | crates/sierra/tests/collatz_test.rs:34 | #1 stores `gb`, keeps the other variables the run needs, and goes on at #2 for one unit of fuel |
| CollatzSimulation.At2 | crates/sierra/tests/collatz_test.rs:35 | #2 binds `counter` to 0, keeps the other variables the run needs, and goes on at #3 for one unit of fuel |
| CollatzSimulation.At3 | crates/sierra/tests/collatz_test.rs:36 | #3 stores `counter`, keeps the other variables the run needs, and goes on at #4 for one unit of fuel |
| CollatzSimulation.At4 | crates/sierra/tests/collatz_test.rs:37 | #4 jumps to the termination test, keeps the other variables the run needs, and goes on at #34 for one unit of fuel |
| CollatzSimulation.At5 | crates/sierra/tests/collatz_test.rs:40 | #5 unwraps the witness `to_drop`, keeps the other variables the run needs, and goes on at #6 for one unit of fuel |
| CollatzSimulation.At6 | crates/sierra/tests/collatz_test.rs:41 | #6 drops the witness, keeps the other variables the run needs, and goes on at #7 for one unit of fuel |
| CollatzSimulation.At7 | crates/sierra/tests/collatz_test.rs:42 | #7 withdraws 11 units from `gb`, going on at #14 when they are there and at #8 otherwise, keeps the other variables the run needs, and goes on at #14 when the balance covers the 11 units and #8 otherwise for one unit of fuel |
| CollatzSimulation.At8 | crates/sierra/tests/collatz_test.rs:44 | #8 drops `n`, keeps the other variables the run needs, and goes on at #9 for one unit of fuel |
| CollatzSimulation.At9 | crates/sierra/tests/collatz_test.rs:45 | #9 drops `counter`, keeps the other variables the run needs, and goes on at #10 for one unit of fuel |
| CollatzSimulation.At10 | crates/sierra/tests/collatz_test.rs:46 | #10 stores `gb`, keeps the other variables the run needs, and goes on at #11 for one unit of fuel |
| CollatzSimulation.At11 | crates/sierra/tests/collatz_test.rs:47 | #11 binds `err` to -1, keeps the other variables the run needs, and goes on at #12 for one unit of fuel |
| CollatzSimulation.At12 | crates/sierra/tests/collatz_test.rs:48 | #12 stores `err`, keeps the other variables the run needs, and goes on at #13 for one unit of fuel |
| CollatzSimulation.At13 | crates/sierra/tests/collatz_test.rs:49 | #13 returns `gb` and `err`, ending the run with their values |
| CollatzSimulation.At14 | crates/sierra/tests/collatz_test.rs:51 | #14 copies `n` into `parity`, keeps the other variables the run needs, and goes on at #15 for one unit of fuel |
| CollatzSimulation.At15 | crates/sierra/tests/collatz_test.rs:52 | #15 takes `parity` modulo 2, keeps the other variables the run needs, and goes on at #16 for one unit of fuel |
| CollatzSimulation.At16 | crates/sierra/tests/collatz_test.rs:53 | #16 stores `parity`, keeps the other variables the run needs, and goes on at #17 for one unit of fuel |
| CollatzSimulation.At17 | crates/sierra/tests/collatz_test.rs:54 | #17 stores `gb`, keeps the other variables the run needs, and goes on at #18 for one unit of fuel |
| CollatzSimulation.At18 | crates/sierra/tests/collatz_test.rs:55 | #18 jumps to #24 on a non-zero `parity`, keeping it as `to_drop`, and falls through otherwise, keeps the other variables the run needs, and goes on at #24 when `parity` is non-zero and #19 otherwise for one unit of fuel |
| CollatzSimulation.At19 | crates/sierra/tests/collatz_test.rs:57 | #19 aligns the temporaries, keeps the other variables the run needs, and goes on at #20 for one unit of fuel |
| CollatzSimulation.At20 | crates/sierra/tests/collatz_test.rs:58 | #20 halves `n`, keeps the other variables the run needs, and goes on at #21 for one unit of fuel |
| CollatzSimulation.At21 | crates/sierra/tests/collatz_test.rs:59 | #21 stores `n`, keeps the other variables the run needs, and goes on at #22 for one unit of fuel |
| CollatzSimulation.At22 | crates/sierra/tests/collatz_test.rs:60 | #22 stores `gb`, keeps the other variables the run needs, and goes on at #23 for one unit of fuel |
| CollatzSimulation.At23 | crates/sierra/tests/collatz_test.rs:61 | #23 jumps to #32, keeps the other variables the run needs, and goes on at #32 for one unit of fuel |
| CollatzSimulation.At24 | crates/sierra/tests/collatz_test.rs:63 | #24 unwraps the witness `to_drop`, keeps the other variables the run needs, and goes on at #25 for one unit of fuel |
| CollatzSimulation.At25 | crates/sierra/tests/collatz_test.rs:64 | #25 drops the witness, keeps the other variables the run needs, and goes on at #26 for one unit of fuel |
| CollatzSimulation.At26 | crates/sierra/tests/collatz_test.rs:65 | #26 triples `n`, keeps the other variables the run needs, and goes on at #27 for one unit of fuel |
| CollatzSimulation.At27 | crates/sierra/tests/collatz_test.rs:66 | #27 stores `n`, keeps the other variables the run needs, and goes on at #28 for one unit of fuel |
| CollatzSimulation.At28 | crates/sierra/tests/collatz_test.rs:67 | #28 adds one to `n`, keeps the other variables the run needs, and goes on at #29 for one unit of fuel |
| CollatzSimulation.At29 | crates/sierra/tests/collatz_test.rs:68 | #29 stores `n`, keeps the other variables the run needs, and goes on at #30 for one unit of fuel |
| CollatzSimulation.At30 | crates/sierra/tests/collatz_test.rs:69 | #30 refunds one unit to `gb`, keeps the other variables the run needs, and goes on at #31 for one unit of fuel |
| CollatzSimulation.At31 | crates/sierra/tests/collatz_test.rs:70 | #31 stores `gb`, keeps the other variables the run needs, and goes on at #32 for one unit of fuel |
| CollatzSimulation.At32 | crates/sierra/tests/collatz_test.rs:72 | #32 adds one to `counter`, keeps the other variables the run needs, and goes on at #33 for one unit of fuel |
| CollatzSimulation.At33 | crates/sierra/tests/collatz_test.rs:73 | #33 stores `counter`, keeps the other variables the run needs, and goes on at #34 for one unit of fuel |
| CollatzSimulation.At34 | crates/sierra/tests/collatz_test.rs:75 | #34 copies `n` into `n_1`, keeps the other variables the run needs, and goes on at #35 for one unit of fuel |
| CollatzSimulation.At35 | crates/sierra/tests/collatz_test.rs:76 | #35 subtracts one from `n_1`, keeps the other variables the run needs, and goes on at #36 for one unit of fuel |
| CollatzSimulation.At36 | crates/sierra/tests/collatz_test.rs:77 | #36 stores `n_1`, keeps the other variables the run needs, and goes on at #37 for one unit of fuel |
| CollatzSimulation.At37 | crates/sierra/tests/collatz_test.rs:78 | #37 jumps back to #5 on a non-zero `n_1`, keeping it as `to_drop`, and falls through otherwise, keeps the other variables the run needs, and goes on at #5 when `n_1` is non-zero and #38 otherwise for one unit of fuel |
| CollatzSimulation.At38 | crates/sierra/tests/collatz_test.rs:80 | #38 drops `n`, keeps the other variables the run needs, and goes on at #39 for one unit of fuel |
| CollatzSimulation.At39 | crates/sierra/tests/collatz_test.rs:81 | #39 refunds one unit to `gb`, keeps the other variables the run needs, and goes on at #40 for one unit of fuel |
| CollatzSimulation.At40 | crates/sierra/tests/collatz_test.rs:82 | #40 stores `gb`, keeps the other variables the run needs, and goes on at #41 for one unit of fuel |
| CollatzSimulation.At41 | crates/sierra/tests/collatz_test.rs:83 | #41 stores `counter`, keeps the other variables the run needs, and goes on at #42 for one unit of fuel |
| CollatzSimulation.At42 | crates/sierra/tests/collatz_test.rs:84 | #42 returns `gb` and `counter`, ending the run with their values |
| CollatzSimulation.EntryBlock | crates/sierra/tests/collatz_test.rs:33-37 | the entry binds `counter` to 0, keeps `n` and `gb`, and reaches the termination test at #34 after five statements |
| CollatzSimulation.TestBlock | crates/sierra/tests/collatz_test.rs:75-78 | the test keeps the loop variables and goes to #38 when `n` is 1, and otherwise back to #5 with `to_drop` bound to the non-zero `n - 1` |
| CollatzSimulation.GasBlock | crates/sierra/tests/collatz_test.rs:40-42 | the bound `to_drop` is dropped, and 11 units are withdrawn with a jump to #14 when the balance covers them; otherwise the balance is kept and the run goes on at #8 |
| CollatzSimulation.OutOfGasBlock | crates/sierra/tests/collatz_test.rs:44-49 | out of gas, the run returns the balance unchanged and -1 |
| CollatzSimulation.ParityBlock | crates/sierra/tests/collatz_test.rs:51-55 | an even `n` goes on at #19, an odd one at #24 with `to_drop` bound to the non-zero remainder |
| CollatzSimulation.EvenBlock | crates/sierra/tests/collatz_test.rs:57-61 | an even `n` is halved and the run goes on at #32 |
| CollatzSimulation.OddBlock | crates/sierra/tests/collatz_test.rs:63-70 | an odd `n` becomes `3n + 1`, one unit of gas is refunded, and the run goes on at #32 |
| CollatzSimulation.CountBlock | crates/sierra/tests/collatz_test.rs:72-73 | the step count goes up by one and the run goes on at the termination test |
| CollatzSimulation.ExitBlock | crates/sierra/tests/collatz_test.rs:80-84 | with `n = 1` the run returns the balance plus one and the step count |
| CollatzSimulation.Iteration | crates/sierra/tests/collatz_test.rs:40-73 | one paid iteration from #5 to #34 takes `n` to its Collatz successor, adds one to the count, and spends 11 units less the odd refund |
| CollatzSimulation.FromTest | crates/sierra/tests/collatz_test.rs:74-84 | from the termination test the simulator returns exactly what the reference loop returns, for every `n`, count and balance |
| CollatzSimulation.FromTop | crates/sierra/tests/collatz_test.rs:38-73 | from the top of the loop body, with `n` not 1 and `to_drop` bound, the simulator returns exactly what the reference loop returns |
| CollatzSimulation.SimulationMatchesLoop | crates/sierra/tests/collatz_test.rs:109-117 | for every gas balance and input, running `Collatz` in the simulator succeeds (no variable is ever missing, `to_drop` included) and returns `RunCollatz`'s balance and value |
| CollatzSimulation.SimulatedVectors | crates/sierra/tests/collatz_test.rs:101-117 | the simulator returns (47, 5) for (100, 5), (30, 16) for (200, 7), and (5, -1) for (100, 7) |

## Left out

- Parsing the program text (`sierra::ProgramParser`) and building the `ProgramRegistry` are not modelled. Their implementations are not part of this model. The program is written out as already-resolved data: each declared libfunc is a `LibFunc` value with its generic arguments.
- The generic libfunc and type specialisation machinery is not modelled. Only the libfuncs the program declares have semantics, and each is taken from its name, its generic constant and its use in the program.
- The simulator's own source (`simulation::run`) is not part of this model. `Sierra.Run` and `Sierra.Exec` give it the meaning the program's comments and expected results imply. The `Error` values are the model's own names for the ways a run can fail.
- `store_temp`, `align_temps` and `jump` are identity and goto steps. Memory layout and the temporaries they arrange are not modelled.
- Integers are unbounded. The tests pass `i64` values, and 64-bit overflow of `int_mul<3>` or `int_add<1>` is not modelled.
- `int_div<2>` and `int_mod<2>` use Dafny's Euclidean `/` and `%`, not Rust's truncating operators. The two agree wherever the program uses them: it divides only even numbers, and it only tests the remainder against zero.
- Sierra.Run: takes one value per parameter and returns one value per return position. The source passes each argument as a vector of values (`vec![vec![gb.into()], vec![n.into()]]`, one element each) and expects the results grouped the same way (`vec![vec![new_gb.into()], vec![index.into()]]`); multi-value arguments and results are not modelled.
- Sierra.Bind: binding a name that is already bound overwrites it. The simulator's behaviour in that case is not shown. The Collatz program never rebinds a bound name, but the model does not prove this.
- Sierra.Exec: variables still bound at a `return` are not checked. The Collatz program leaves none at either return, but the model does not prove this.
- Fuel (`OutOfFuel`) has no counterpart in the simulator. It is only a bound on the number of statements a run may take.
- `crates/semantic/src/test_utils.rs` is not part of this model. It is test plumbing over the compiler's query database and has no logic of its own that this program uses.
