/** The part of the Sierra simulator that the Collatz program exercises: runtime values
    tagged with their concrete type, the semantics of each library function ("libfunc")
    the program declares, statements with explicit branches, a variable environment that
    is consumed on read, and the statement-by-statement execution loop. */
module Sierra {

  /** The concrete types the program declares: `int`, `GasBuiltin` and `NonZero<int>`. */
  datatype Ty = IntTy | GasBuiltinTy | NonZeroIntTy

  /** A runtime value, tagged with its concrete type. */
  datatype Value = IntV(i: int) | GasV(gas: int) | NonZeroV(nz: int)

  function TypeOf(v: Value): Ty
  {
    match v
    case IntV(_) => IntTy
    case GasV(_) => GasBuiltinTy
    case NonZeroV(_) => NonZeroIntTy
  }

  function Types(vs: seq<Value>): (ts: seq<Ty>)
    ensures vs == [] ==> ts == []
    ensures |vs| == 1 ==> ts == [TypeOf(vs[0])]
  {
    seq(|vs|, i requires 0 <= i < |vs| => TypeOf(vs[i]))
  }

  /** The arithmetic libfunc families; each bakes its second operand in as a generic constant. */
  datatype ArithOp = Add | Sub | Mul | Div | Mod

  /** The concrete libfuncs the program declares, each with its generic arguments. */
  datatype LibFunc =
    | StoreTemp(ty: Ty)
    | AlignTemps(ty: Ty)
    | Jump
    | IntConst(c: int)
    | IntArith(op: ArithOp, c: int)
    | IntDup
    | IntIgnore
    | IntJumpNz
    | UnwrapNz
    | GetGas(cost: int)
    | RefundGas(amount: int)

  /** The run-time failures of a simulation. `OutOfFuel` belongs to the model only: it is
      the step budget that makes execution a total function. */
  datatype Error =
    | UnknownStatement(pc: nat)
    | UnknownFunction(fname: string)
    | MissingVariable(name: string)
    | TypeMismatch
    | OutputArityMismatch
    | ArithmeticError
    | OutOfFuel

  datatype Result<T> = Ok(value: T) | Err(error: Error)

  datatype Option<T> = None | Some(value: T)

  /** Which branch a libfunc invocation took, and the values that branch carries. */
  datatype Outcome = Outcome(branch: nat, outputs: seq<Value>)

  /** A resolved libfunc signature: the input types and, per branch, the output types. */
  datatype Signature = Signature(inputs: seq<Ty>, branches: seq<seq<Ty>>)

  function SignatureOf(f: LibFunc): Signature
  {
    match f
    case StoreTemp(ty) => Signature([ty], [[ty]])
    case AlignTemps(_) => Signature([], [[]])
    case Jump => Signature([], [[]])
    case IntConst(_) => Signature([], [[IntTy]])
    case IntArith(_, _) => Signature([IntTy], [[IntTy]])
    case IntDup => Signature([IntTy], [[IntTy, IntTy]])
    case IntIgnore => Signature([IntTy], [[]])
    case IntJumpNz => Signature([IntTy], [[NonZeroIntTy], []])
    case UnwrapNz => Signature([NonZeroIntTy], [[IntTy]])
    case GetGas(_) => Signature([GasBuiltinTy], [[GasBuiltinTy], [GasBuiltinTy]])
    case RefundGas(_) => Signature([GasBuiltinTy], [[GasBuiltinTy]])
  }

  /** True of the libfuncs whose evaluation divides by their generic constant, and it is zero. */
  predicate DividesByZero(f: LibFunc)
  {
    f.IntArith? && (f.op == Div || f.op == Mod) && f.c == 0
  }

  /** `a op c` on unbounded integers. Dafny's `/` and `%` are Euclidean, unlike Rust's
      truncating operators; the Collatz program divides only even numbers by 2 and only
      tests `n % 2` against zero, where the two agree. */
  function Arith(op: ArithOp, a: int, c: int): Result<int>
  {
    match op
    case Add => Ok(a + c)
    case Sub => Ok(a - c)
    case Mul => Ok(a * c)
    case Div => if c == 0 then Err(ArithmeticError) else Ok(a / c)
    case Mod => if c == 0 then Err(ArithmeticError) else Ok(a % c)
  }

  /** The built-in semantics of a libfunc. Every successful evaluation respects the
      libfunc's signature; evaluation fails exactly when the arguments do not have the
      signature's input types, or when a division by a zero constant is reached. */
  function Apply(f: LibFunc, args: seq<Value>): (r: Result<Outcome>)
    ensures r.Ok? <==> Types(args) == SignatureOf(f).inputs && !DividesByZero(f)
    ensures r.Ok? ==> r.value.branch < |SignatureOf(f).branches|
    ensures r.Ok? ==> Types(r.value.outputs) == SignatureOf(f).branches[r.value.branch]
    ensures r.Err? ==> r.error == TypeMismatch || r.error == ArithmeticError
  {
    match f
    case StoreTemp(ty) =>
      if |args| == 1 && TypeOf(args[0]) == ty then Ok(Outcome(0, args)) else Err(TypeMismatch)
    case AlignTemps(_) =>
      if args == [] then Ok(Outcome(0, [])) else Err(TypeMismatch)
    case Jump =>
      if args == [] then Ok(Outcome(0, [])) else Err(TypeMismatch)
    case IntConst(c) =>
      if args == [] then Ok(Outcome(0, [IntV(c)])) else Err(TypeMismatch)
    case IntArith(op, c) =>
      if |args| == 1 && args[0].IntV? then
        match Arith(op, args[0].i, c)
        case Ok(v) => Ok(Outcome(0, [IntV(v)]))
        case Err(e) => Err(e)
      else Err(TypeMismatch)
    case IntDup =>
      if |args| == 1 && args[0].IntV? then Ok(Outcome(0, [args[0], args[0]])) else Err(TypeMismatch)
    case IntIgnore =>
      if |args| == 1 && args[0].IntV? then Ok(Outcome(0, [])) else Err(TypeMismatch)
    case IntJumpNz =>
      if |args| == 1 && args[0].IntV? then
        if args[0].i != 0 then Ok(Outcome(0, [NonZeroV(args[0].i)])) else Ok(Outcome(1, []))
      else Err(TypeMismatch)
    case UnwrapNz =>
      if |args| == 1 && args[0].NonZeroV? then Ok(Outcome(0, [IntV(args[0].nz)])) else Err(TypeMismatch)
    case GetGas(cost) =>
      if |args| == 1 && args[0].GasV? then
        if args[0].gas >= cost then Ok(Outcome(0, [GasV(args[0].gas - cost)]))
        else Ok(Outcome(1, [GasV(args[0].gas)]))
      else Err(TypeMismatch)
    case RefundGas(amount) =>
      if |args| == 1 && args[0].GasV? then Ok(Outcome(0, [GasV(args[0].gas + amount)])) else Err(TypeMismatch)
  }

  /** Gas acquisition is all-or-nothing: with enough balance it deducts exactly `cost` and
      takes the first branch, otherwise the balance is untouched and the shortfall branch
      is taken. A non-negative balance therefore stays non-negative. */
  lemma GetGasAllOrNothing(cost: int, g: int)
    ensures var r := Apply(GetGas(cost), [GasV(g)]);
      r.Ok? && |r.value.outputs| == 1 && r.value.outputs[0].GasV? &&
      (r.value.branch == 0 <==> g >= cost) &&
      (r.value.branch == 0 ==> r.value.outputs[0].gas == g - cost) &&
      (r.value.branch != 0 ==> r.value.outputs[0].gas == g) &&
      (g >= 0 && cost >= 0 ==> r.value.outputs[0].gas >= 0)
  {
  }

  /** A zero test sends non-zero operands to the first branch, wrapped as `NonZero`, and
      zero to the second branch with no outputs. */
  lemma JumpNzRoutes(a: int)
    ensures var r := Apply(IntJumpNz, [IntV(a)]);
      r.Ok? && (a != 0 ==> r.value == Outcome(0, [NonZeroV(a)])) &&
      (a == 0 ==> r.value == Outcome(1, []))
  {
  }

  predicate Distinct(names: seq<string>)
  {
    forall i, j :: 0 <= i < j < |names| ==> names[i] != names[j]
  }

  function Prepend(vs: seq<Value>, r: Result<(seq<Value>, Env)>): Result<(seq<Value>, Env)>
  {
    match r
    case Ok((ws, e)) => Ok((vs + ws, e))
    case Err(e) => Err(e)
  }

  lemma PrependNothing(r: Result<(seq<Value>, Env)>)
    ensures Prepend([], r) == r
  {
    if r.Ok? {
      assert [] + r.value.0 == r.value.0;
    }
  }

  lemma PrependTwice(us: seq<Value>, vs: seq<Value>, r: Result<(seq<Value>, Env)>)
    ensures Prepend(us, Prepend(vs, r)) == Prepend(us + vs, r)
  {
    if r.Ok? {
      assert us + (vs + r.value.0) == (us + vs) + r.value.0;
    }
  }

  /** The variable environment; reading a variable removes it. */
  type Env = map<string, Value>

  /** Reads the named variables in order, removing each from the environment. */
  function TakeArgs(env: Env, names: seq<string>): (r: Result<(seq<Value>, Env)>)
    ensures r.Ok? ==> |r.value.0| == |names|
    ensures r.Err? ==> r.error.MissingVariable?
    decreases |names|
  {
    if names == [] then Ok(([], env))
    else if names[0] !in env then Err(MissingVariable(names[0]))
    else Prepend([env[names[0]]], TakeArgs(env - {names[0]}, names[1..]))
  }

  /** Linear ownership: reading succeeds exactly when every name is bound and no name is
      read twice; the values come back in order, and the remaining environment is the old
      one without the names read. */
  lemma {:induction false} TakeArgsConsumes(env: Env, names: seq<string>)
    ensures var r := TakeArgs(env, names);
      (r.Ok? <==> Distinct(names) && forall i :: 0 <= i < |names| ==> names[i] in env) &&
      (r.Ok? ==> forall i :: 0 <= i < |names| ==> r.value.0[i] == env[names[i]]) &&
      (r.Ok? ==> forall x :: x in r.value.1 <==> x in env && x !in names) &&
      (r.Ok? ==> forall x :: x in r.value.1 ==> r.value.1[x] == env[x])
    decreases |names|
  {
    if names != [] && names[0] in env {
      TakeArgsConsumes(env - {names[0]}, names[1..]);
      assert forall x :: x in names <==> x == names[0] || x in names[1..];
    }
  }

  /** Binds the names to the values, in order. */
  function Bind(env: Env, names: seq<string>, vals: seq<Value>): (r: Env)
    requires |names| == |vals|
    decreases |names|
  {
    if names == [] then env else Bind(env[names[0] := vals[0]], names[1..], vals[1..])
  }

  /** Binding adds exactly the named variables, leaves every other one as it was and,
      when the names are distinct, gives each name its value. */
  lemma {:induction false} BindBinds(env: Env, names: seq<string>, vals: seq<Value>)
    requires |names| == |vals|
    ensures var r := Bind(env, names, vals);
      (forall x :: x in r <==> x in env || x in names) &&
      (forall x :: x in env && x !in names ==> r[x] == env[x]) &&
      (Distinct(names) ==> forall i :: 0 <= i < |names| ==> r[names[i]] == vals[i])
    decreases |names|
  {
    if names != [] {
      var env' := env[names[0] := vals[0]];
      BindBinds(env', names[1..], vals[1..]);
      assert Bind(env, names, vals) == Bind(env', names[1..], vals[1..]);
      assert names == [names[0]] + names[1..];
      assert forall x :: x in names <==> x == names[0] || x in names[1..];
    }
  }

  /** Where a branch continues: the next statement, or a given statement index. */
  datatype Target = Fallthrough | Goto(pc: nat)

  datatype Branch = Branch(target: Target, results: seq<string>)

  datatype Statement =
    | Invocation(libfunc: LibFunc, args: seq<string>, branches: seq<Branch>)
    | Return(vars: seq<string>)

  datatype Param = Param(name: string, ty: Ty)

  /** A function declaration `name@entry(params) -> (rets)`. */
  datatype Function = Function(name: string, entry: nat, params: seq<Param>, rets: seq<Ty>)

  datatype Program = Program(statements: seq<Statement>, functions: seq<Function>)

  datatype Config = Config(pc: nat, env: Env)

  datatype StepResult = Next(next: Config) | Returned(values: seq<Value>) | Failed(error: Error)

  function NextPc(t: Target, pc: nat): nat
  {
    match t
    case Fallthrough => pc + 1
    case Goto(target) => target
  }

  /** Executes the statement at the cursor. */
  function Step(p: Program, c: Config): StepResult
  {
    if c.pc >= |p.statements| then Failed(UnknownStatement(c.pc))
    else Effect(p.statements[c.pc], c)
  }

  /** What statement `s` does with the cursor on it: a `return` ends the run with the
      values it reads; an invocation reads its arguments, evaluates its libfunc, binds the
      outputs of the branch taken and moves the cursor to that branch's target. */
  function Effect(s: Statement, c: Config): StepResult
  {
    match s
    case Return(vars) =>
      (match TakeArgs(c.env, vars)
       case Err(e) => Failed(e)
       case Ok((vals, _)) => Returned(vals))
    case Invocation(f, args, branches) =>
      match TakeArgs(c.env, args)
      case Err(e) => Failed(e)
      case Ok((vals, rest)) =>
        match Apply(f, vals)
        case Err(e) => Failed(e)
        case Ok(o) =>
          if o.branch < |branches| && |branches[o.branch].results| == |o.outputs| then
            Next(Config(NextPc(branches[o.branch].target, c.pc),
                        Bind(rest, branches[o.branch].results, o.outputs)))
          else Failed(OutputArityMismatch)
  }

  /** Runs from a configuration for at most `fuel` statements: each statement costs one
      unit, and the run stops with `OutOfFuel` when none is left. */
  function Exec(p: Program, c: Config, fuel: nat): Result<seq<Value>>
    decreases fuel, 0
  {
    if fuel == 0 then Err(OutOfFuel) else Fetch(p, c, fuel - 1)
  }

  /** Fetches the statement at the cursor, with `fuel` left once it has run. */
  function Fetch(p: Program, c: Config, fuel: nat): Result<seq<Value>>
    decreases fuel, 2
  {
    if c.pc >= |p.statements| then Err(UnknownStatement(c.pc))
    else Perform(p, p.statements[c.pc], c, fuel)
  }

  /** Runs statement `s` and goes on from where it leads. */
  function Perform(p: Program, s: Statement, c: Config, fuel: nat): Result<seq<Value>>
    decreases fuel, 1
  {
    match Effect(s, c)
    case Next(c') => Exec(p, c', fuel)
    case Returned(vals) => Ok(vals)
    case Failed(e) => Err(e)
  }

  /** A run with fuel left goes as far as the statement at the cursor takes it. */
  lemma Unfold(p: Program, c: Config, fuel: nat)
    requires fuel > 0
    ensures Exec(p, c, fuel) == match Step(p, c)
      case Next(c') => Exec(p, c', fuel - 1)
      case Returned(vals) => Ok(vals)
      case Failed(e) => Err(e)
  {
    if c.pc < |p.statements| {
      assert Exec(p, c, fuel) == Perform(p, p.statements[c.pc], c, fuel - 1);
    }
  }

  /** The fuel is only a budget: once a run ends within it, more fuel gives the same result. */
  lemma {:induction false} MoreFuelSameResult(p: Program, c: Config, fuel: nat, more: nat)
    requires Exec(p, c, fuel) != Err(OutOfFuel)
    ensures Exec(p, c, fuel + more) == Exec(p, c, fuel)
    decreases fuel
  {
    var s := Step(p, c);
    assert fuel > 0;
    Unfold(p, c, fuel);
    Unfold(p, c, fuel + more);
    if s.Next? {
      MoreFuelSameResult(p, s.next, fuel - 1, more);
    }
  }

  /** A statement that moves on costs one unit of fuel, and the run goes on from the
      configuration it moves to. */
  lemma Advance(p: Program, c: Config, fuel: nat) returns (c': Config)
    requires fuel > 0 && Step(p, c).Next?
    ensures c' == Step(p, c).next
    ensures Exec(p, c, fuel) == Exec(p, c', fuel - 1)
  {
    c' := Step(p, c).next;
    Unfold(p, c, fuel);
  }

  /** A statement that returns ends the run with its values. */
  lemma ReturnEnds(p: Program, c: Config, vals: seq<Value>, fuel: nat)
    requires Step(p, c) == Returned(vals) && fuel > 0
    ensures Exec(p, c, fuel) == Ok(vals)
  {
    Unfold(p, c, fuel);
  }

  /** Reading a single bound variable. */
  lemma TakeOne(env: Env, x: string)
    requires x in env
    ensures TakeArgs(env, [x]) == Ok(([env[x]], env - {x}))
  {
    assert [x][1..] == [];
    assert [env[x]] + [] == [env[x]];
  }

  /** Binding a single variable. */
  lemma BindOne(env: Env, x: string, v: Value)
    ensures Bind(env, [x], [v]) == env[x := v]
  {
  }

  // One statement, by the shape of its libfunc invocation: what each kind of statement
  // the Collatz program uses does to the environment and the cursor.

  /** `store_temp<T>(x) -> (x)` leaves the environment as it was. */
  lemma StoreTempStep(p: Program, pc: nat, env: Env, x: string)
    requires pc < |p.statements| && x in env
    requires p.statements[pc] == Invocation(StoreTemp(TypeOf(env[x])), [x], [Branch(Fallthrough, [x])])
    ensures Step(p, Config(pc, env)) == Next(Config(pc + 1, env))
  {
    TakeOne(env, x);
    BindOne(env - {x}, x, env[x]);
    assert (env - {x})[x := env[x]] == env;
  }

  /** A libfunc without inputs or outputs (`jump`, `align_temps`) only moves the cursor. */
  lemma ControlStep(p: Program, pc: nat, env: Env, target: Target)
    requires pc < |p.statements| && p.statements[pc].Invocation?
    requires p.statements[pc].libfunc == Jump || p.statements[pc].libfunc.AlignTemps?
    requires p.statements[pc].args == [] && p.statements[pc].branches == [Branch(target, [])]
    ensures Step(p, Config(pc, env)) == Next(Config(NextPc(target, pc), env))
  {
  }

  /** `int_const<c>() -> (x)` binds `x` to `c`. */
  lemma ConstStep(p: Program, pc: nat, env: Env, x: string, c: int)
    requires pc < |p.statements| && p.statements[pc] == Invocation(IntConst(c), [], [Branch(Fallthrough, [x])])
    ensures Step(p, Config(pc, env)) == Next(Config(pc + 1, env[x := IntV(c)]))
  {
    assert TakeArgs(env, []) == Ok(([], env));
    BindOne(env, x, IntV(c));
  }

  /** `int_<op><c>(x) -> (x)` replaces the integer in `x` by `x op c`. */
  lemma ArithStep(p: Program, pc: nat, env: Env, x: string, op: ArithOp, c: int)
    requires pc < |p.statements| && x in env && env[x].IntV?
    requires p.statements[pc] == Invocation(IntArith(op, c), [x], [Branch(Fallthrough, [x])])
    requires Arith(op, env[x].i, c).Ok?
    ensures Step(p, Config(pc, env)) == Next(Config(pc + 1, env[x := IntV(Arith(op, env[x].i, c).value)]))
  {
    var v := IntV(Arith(op, env[x].i, c).value);
    TakeOne(env, x);
    BindOne(env - {x}, x, v);
    assert (env - {x})[x := v] == env[x := v];
  }

  /** `int_dup(x) -> (x, y)` keeps `x` and binds `y` to the same integer. */
  lemma DupStep(p: Program, pc: nat, env: Env, x: string, y: string)
    requires pc < |p.statements| && x in env && env[x].IntV? && x != y
    requires p.statements[pc] == Invocation(IntDup, [x], [Branch(Fallthrough, [x, y])])
    ensures Step(p, Config(pc, env)) == Next(Config(pc + 1, env[y := env[x]]))
  {
    var v := env[x];
    TakeOne(env, x);
    assert [x, y][1..] == [y] && [v, v][1..] == [v];
    BindOne((env - {x})[x := v], y, v);
    assert (env - {x})[x := v][y := v] == env[y := v];
  }

  /** `int_ignore(x) -> ()` drops `x`. */
  lemma IgnoreStep(p: Program, pc: nat, env: Env, x: string)
    requires pc < |p.statements| && x in env && env[x].IntV?
    requires p.statements[pc] == Invocation(IntIgnore, [x], [Branch(Fallthrough, [])])
    ensures Step(p, Config(pc, env)) == Next(Config(pc + 1, env - {x}))
  {
    TakeOne(env, x);
  }

  /** `unwrap_nz<int>(x) -> (x)` turns the non-zero wrapper back into a plain integer. */
  lemma UnwrapStep(p: Program, pc: nat, env: Env, x: string)
    requires pc < |p.statements| && x in env && env[x].NonZeroV?
    requires p.statements[pc] == Invocation(UnwrapNz, [x], [Branch(Fallthrough, [x])])
    ensures Step(p, Config(pc, env)) == Next(Config(pc + 1, env[x := IntV(env[x].nz)]))
  {
    var v := IntV(env[x].nz);
    TakeOne(env, x);
    BindOne(env - {x}, x, v);
    assert (env - {x})[x := v] == env[x := v];
  }

  /** `refund_gas<k>(x) -> (x)` adds `k` to the gas in `x`. */
  lemma RefundStep(p: Program, pc: nat, env: Env, x: string, k: int)
    requires pc < |p.statements| && x in env && env[x].GasV?
    requires p.statements[pc] == Invocation(RefundGas(k), [x], [Branch(Fallthrough, [x])])
    ensures Step(p, Config(pc, env)) == Next(Config(pc + 1, env[x := GasV(env[x].gas + k)]))
  {
    var v := GasV(env[x].gas + k);
    TakeOne(env, x);
    BindOne(env - {x}, x, v);
    assert (env - {x})[x := v] == env[x := v];
  }

  /** `get_gas<k>(x) { t(x) fallthrough(x) }` either deducts `k` and jumps to `t`, or
      leaves the environment as it was and falls through. */
  lemma GetGasStep(p: Program, pc: nat, env: Env, x: string, k: int, t: nat)
    requires pc < |p.statements| && x in env && env[x].GasV?
    requires p.statements[pc] == Invocation(GetGas(k), [x], [Branch(Goto(t), [x]), Branch(Fallthrough, [x])])
    ensures env[x].gas >= k ==> Step(p, Config(pc, env)) == Next(Config(t, env[x := GasV(env[x].gas - k)]))
    ensures env[x].gas < k ==> Step(p, Config(pc, env)) == Next(Config(pc + 1, env))
  {
    var g := env[x].gas;
    TakeOne(env, x);
    if g >= k {
      BindOne(env - {x}, x, GasV(g - k));
      assert (env - {x})[x := GasV(g - k)] == env[x := GasV(g - k)];
    } else {
      BindOne(env - {x}, x, GasV(g));
      assert (env - {x})[x := GasV(g)] == env;
    }
  }

  /** `int_jump_nz(x) { t(y) fallthrough() }` consumes `x`; a non-zero value goes to `t`
      with `y` bound to its `NonZero` wrapper, zero falls through. */
  lemma JumpNzStep(p: Program, pc: nat, env: Env, x: string, y: string, t: nat)
    requires pc < |p.statements| && x in env && env[x].IntV?
    requires p.statements[pc] == Invocation(IntJumpNz, [x], [Branch(Goto(t), [y]), Branch(Fallthrough, [])])
    ensures env[x].i != 0 ==> Step(p, Config(pc, env)) == Next(Config(t, (env - {x})[y := NonZeroV(env[x].i)]))
    ensures env[x].i == 0 ==> Step(p, Config(pc, env)) == Next(Config(pc + 1, env - {x}))
  {
    TakeOne(env, x);
    BindOne(env - {x}, y, NonZeroV(env[x].i));
  }

  /** `return(x, y)` ends the run with the values of `x` and `y`. */
  lemma ReturnStep(p: Program, pc: nat, env: Env, x: string, y: string)
    requires pc < |p.statements| && x in env && y in env && x != y
    requires p.statements[pc] == Return([x, y])
    ensures Step(p, Config(pc, env)) == Returned([env[x], env[y]])
  {
    var rest := env - {x};
    TakeOne(rest, y);
    assert [x, y][1..] == [y];
    assert [env[x]] + [env[y]] == [env[x], env[y]];
  }

  function FindFunction(fs: seq<Function>, name: string): (r: Option<Function>)
    ensures r.Some? ==> r.value in fs && r.value.name == name
    ensures r.None? ==> forall i :: 0 <= i < |fs| ==> fs[i].name != name
  {
    if fs == [] then None
    else if fs[0].name == name then Some(fs[0])
    else FindFunction(fs[1..], name)
  }

  function ParamNames(ps: seq<Param>): (names: seq<string>)
    ensures |names| == |ps|
  {
    seq(|ps|, i requires 0 <= i < |ps| => ps[i].name)
  }

  function ParamTypes(ps: seq<Param>): (tys: seq<Ty>)
    ensures |tys| == |ps|
  {
    seq(|ps|, i requires 0 <= i < |ps| => ps[i].ty)
  }

  /** Runs the named function on one input value per parameter. The inputs must have the
      parameter types, and the returned values must have the declared return types. */
  function Run(p: Program, name: string, inputs: seq<Value>, fuel: nat): (r: Result<seq<Value>>)
    ensures r.Ok? ==> FindFunction(p.functions, name).Some?
    ensures r.Ok? ==> Types(inputs) == ParamTypes(FindFunction(p.functions, name).value.params)
    ensures r.Ok? ==> Types(r.value) == FindFunction(p.functions, name).value.rets
  {
    match FindFunction(p.functions, name)
    case None => Err(UnknownFunction(name))
    case Some(f) =>
      if Types(inputs) != ParamTypes(f.params) then Err(TypeMismatch)
      else
        match Exec(p, Config(f.entry, Bind(map[], ParamNames(f.params), inputs)), fuel)
        case Err(e) => Err(e)
        case Ok(outs) =>
          if |outs| != |f.rets| then Err(OutputArityMismatch)
          else if Types(outs) != f.rets then Err(TypeMismatch)
          else Ok(outs)
  }

  /** Reads the named variables one by one, removing each from a local environment. */
  method Consume(env0: Env, names: seq<string>) returns (r: Result<(seq<Value>, Env)>)
    ensures r == TakeArgs(env0, names)
  {
    var env := env0;
    var vals: seq<Value> := [];
    PrependNothing(TakeArgs(env, names));
    for i := 0 to |names|
      invariant TakeArgs(env0, names) == Prepend(vals, TakeArgs(env, names[i..]))
    {
      var x := names[i];
      assert names[i..][1..] == names[i + 1..];
      if x !in env {
        return Err(MissingVariable(x));
      }
      PrependTwice(vals, [env[x]], TakeArgs(env - {x}, names[i + 1..]));
      vals := vals + [env[x]];
      env := env - {x};
    }
    assert names[|names|..] == [] && vals + [] == vals;
    return Ok((vals, env));
  }

  /** Binds the outputs of a branch one by one. */
  method BindAll(env0: Env, names: seq<string>, vals: seq<Value>) returns (env: Env)
    requires |names| == |vals|
    ensures env == Bind(env0, names, vals)
  {
    env := env0;
    for i := 0 to |names|
      invariant Bind(env0, names, vals) == Bind(env, names[i..], vals[i..])
    {
      assert names[i..][1..] == names[i + 1..] && vals[i..][1..] == vals[i + 1..];
      env := env[names[i] := vals[i]];
    }
  }

  /** The simulator's loop: fetch the statement at the cursor, consume its inputs, evaluate
      the libfunc, bind the chosen branch's outputs and move the cursor, until a `return`. */
  method Execute(p: Program, start: Config, fuel: nat) returns (r: Result<seq<Value>>)
    ensures r == Exec(p, start, fuel)
  {
    var pc: nat, env: Env, budget: nat := start.pc, start.env, fuel;
    while budget > 0
      invariant Exec(p, Config(pc, env), budget) == Exec(p, start, fuel)
      decreases budget
    {
      if pc >= |p.statements| {
        return Err(UnknownStatement(pc));
      }
      var stmt := p.statements[pc];
      Unfold(p, Config(pc, env), budget);
      var names := if stmt.Return? then stmt.vars else stmt.args;
      var taken := Consume(env, names);
      if taken.Err? {
        return Err(taken.error);
      }
      var vals, rest := taken.value.0, taken.value.1;
      if stmt.Return? {
        return Ok(vals);
      }
      var applied := Apply(stmt.libfunc, vals);
      if applied.Err? {
        return Err(applied.error);
      }
      var o := applied.value;
      if o.branch >= |stmt.branches| || |stmt.branches[o.branch].results| != |o.outputs| {
        return Err(OutputArityMismatch);
      }
      var br := stmt.branches[o.branch];
      env := BindAll(rest, br.results, o.outputs);
      pc := NextPc(br.target, pc);
      budget := budget - 1;
    }
    r := Err(OutOfFuel);
  }

  /** `run(program, function, inputs)`: look up the function, bind its parameters, execute
      from its entry statement and check the returned values against its return types. */
  method Simulate(p: Program, name: string, inputs: seq<Value>, fuel: nat) returns (r: Result<seq<Value>>)
    ensures r == Run(p, name, inputs, fuel)
  {
    var found := FindFunction(p.functions, name);
    if found.None? {
      return Err(UnknownFunction(name));
    }
    var f := found.value;
    if Types(inputs) != ParamTypes(f.params) {
      return Err(TypeMismatch);
    }
    var env := BindAll(map[], ParamNames(f.params), inputs);
    var outs := Execute(p, Config(f.entry, env), fuel);
    if outs.Err? {
      return Err(outs.error);
    }
    if |outs.value| != |f.rets| {
      return Err(OutputArityMismatch);
    }
    if Types(outs.value) != f.rets {
      return Err(TypeMismatch);
    }
    r := Ok(outs.value);
  }
}
