/**
 * The evaluator (interpreter.go).
 *
 * A non-empty List or Vector is a call: its elements are evaluated left to
 * right, the first failure aborts, and the evaluated head must be a Symbol
 * bound to a builtin in the global table. Every other value, and every
 * empty collection, evaluates to itself. The builtins `+`, `-`, `*` and
 * `/` are left folds over their arguments; `+` also concatenates strings.
 *
 * `Evaluate`, `Dispatch`, `Invoke` and `Fold` are the specification; the
 * methods `Eval`, `EvalFunc`, `Add`, `Agg`, `Sub`, `Mul` and `Div` follow
 * the Go code's loops and are proved equal to it.
 */
module Interpreter {
  import opened Values
  import opened Strconv
  import opened Environment

  datatype EvalError =
    | NotASymbol(head: Value)      // "Function call is not a symbol"
    | NoSuchFunction(name: string) // "Function does not exist"
    | NotAFunction(name: string)   // "Value is not a function"
    | InvalidOperand(operand: Value)

  /**
   * The outcome of evaluating: a value or an error, as in Go, plus the
   * runtime panic of an integer division by zero, and the point where `+`
   * would format a float as text, which the model does not follow.
   */
  datatype Result =
    | Ok(value: Value)
    | Err(error: EvalError)
    | DivideByZeroPanic
    | FloatFormatting

  /** The global table's initial bindings (interpreter.go:12-21). */
  function DefaultBindings(): map<string, Binding> {
    map["+" := Builtin(Plus), "-" := Builtin(Minus), "*" := Builtin(Times), "/" := Builtin(Quotient)]
  }

  /** init (interpreter.go:14-21): the global table, later shared by every root scope. */
  method DefaultEnv() returns (globals: SymbolTable)
    ensures fresh(globals) && globals.symbols == DefaultBindings()
  {
    globals := new SymbolTable(DefaultBindings());
  }

  // ----- the builtins -----

  /** Go's machine-int operation: wraps modulo 2^64, and `/` truncates and panics on zero. */
  function IntOp(op: Primitive, r: int, x: int): (res: Result)
    ensures res.Ok? ==> res.value.Int? && InInt64(res.value.i)
    ensures res == DivideByZeroPanic <==> op == Quotient && x == 0
  {
    match op
    case Plus => Ok(Int(Wrap64(r + x)))
    case Minus => Ok(Int(Wrap64(r - x)))
    case Times => Ok(Int(Wrap64(r * x)))
    case Quotient => if x == 0 then DivideByZeroPanic else Ok(Int(Wrap64(TruncDiv(r, x))))
  }

  /**
   * One step of add (interpreter.go:91-119): numbers add, and a string on
   * either side makes the result a string. The model stops where Go would
   * format a float as text.
   */
  function AddStep(ret: Value, arg: Value): (r: Result)
    ensures r != DivideByZeroPanic
    ensures r.Ok? ==> r.value.Int? || r.value.Float? || r.value.Str?
    ensures r.Ok? && (ret.Str? || arg.Str?) ==> r.value.Str?
    ensures r == FloatFormatting <==> (ret.Float? && arg.Str?) || (ret.Str? && arg.Float?)
  {
    if ret.Int? && arg.Int? then Ok(Int(Wrap64(ret.i + arg.i)))
    else if ret.Int? && arg.Float? then Ok(Float(Apply(Plus, OfInt(ret.i), arg.f)))
    else if ret.Int? && arg.Str? then Ok(Str(Itoa(ret.i) + arg.s))
    else if ret.Float? && arg.Int? then Ok(Float(Apply(Plus, ret.f, OfInt(arg.i))))
    else if ret.Float? && arg.Float? then Ok(Float(Apply(Plus, ret.f, arg.f)))
    else if ret.Float? && arg.Str? then FloatFormatting
    else if ret.Str? && arg.Int? then Ok(Str(ret.s + Itoa(arg.i)))
    else if ret.Str? && arg.Float? then FloatFormatting
    else if ret.Str? && arg.Str? then Ok(Str(ret.s + arg.s))
    else Err(InvalidOperand(arg))
  }

  /**
   * One step of agg (interpreter.go:132-148), `op` standing for the two
   * closures: an integer result needs two integers, and only an integer
   * zero divisor panics.
   */
  function AggStep(op: Primitive, ret: Value, arg: Value): (r: Result)
    ensures r != FloatFormatting
    ensures r.Ok? ==> r.value.Int? || r.value.Float?
    ensures r.Ok? && r.value.Int? ==> ret.Int? && arg.Int?
    ensures r == DivideByZeroPanic <==> op == Quotient && ret.Int? && arg == Int(0)
  {
    if ret.Int? && arg.Int? then IntOp(op, ret.i, arg.i)
    else if ret.Int? && arg.Float? then Ok(Float(Apply(op, OfInt(ret.i), arg.f)))
    else if ret.Float? && arg.Int? then Ok(Float(Apply(op, ret.f, OfInt(arg.i))))
    else if ret.Float? && arg.Float? then Ok(Float(Apply(op, ret.f, arg.f)))
    else Err(InvalidOperand(arg))
  }

  function FoldStep(op: Primitive, ret: Value, arg: Value): Result {
    if op == Plus then AddStep(ret, arg) else AggStep(op, ret, arg)
  }

  /**
   * The accumulator loop from `ret` over the remaining arguments; the first
   * failure stops it. After at least one step the result is a number, or
   * for `+` a string.
   */
  function Fold(op: Primitive, ret: Value, args: seq<Value>): (r: Result)
    ensures r.Ok? && args != [] ==> r.value.Int? || r.value.Float? || (op == Plus && r.value.Str?)
    decreases |args|
  {
    if args == [] then Ok(ret)
    else
      match FoldStep(op, ret, args[0])
      case Ok(v) => Fold(op, v, args[1..])
      case failed => failed
  }

  /**
   * What the builtin bound to `op` returns for `args`: nil without
   * arguments. Fewer than two arguments are never checked.
   */
  function Invoke(op: Primitive, args: seq<Value>): (r: Result)
    ensures |args| < 2 ==> r.Ok?
    ensures r.Ok? && |args| >= 2 ==> r.value.Int? || r.value.Float? || (op == Plus && r.value.Str?)
  {
    if args == [] then Ok(Nil) else Fold(op, args[0], args[1..])
  }

  // ----- evaluation -----

  /** The elements of a call, evaluated: all values, or the first failure. */
  datatype Evaluated = AllOk(values: seq<Value>) | FirstFailure(failure: Result)

  /**
   * evalFunc (interpreter.go:64-81): operands are checked only once the head
   * names a builtin, and only when there are at least two of them.
   */
  function Dispatch(arr: seq<Value>, table: map<string, Binding>): (r: Result)
    requires |arr| > 0
    ensures r.Err? && r.error.InvalidOperand? ==> arr[0].Symbol? && arr[0].name in table && |arr| > 2
  {
    if !arr[0].Symbol? then Err(NotASymbol(arr[0]))
    else if arr[0].name !in table then Err(NoSuchFunction(arr[0].name))
    else match table[arr[0].name]
      case Data(_) => Err(NotAFunction(arr[0].name))
      case Builtin(op) => Invoke(op, arr[1..])
  }

  /** Eval (interpreter.go:23-62) over the global table `table`: only a non-empty call can fail. */
  function Evaluate(v: Value, table: map<string, Binding>): (r: Result)
    ensures !r.Ok? ==> (v.List? || v.Vector?) && v.items != []
    decreases v, 1
  {
    match v
    case List(items) => Call(v, items, table)
    case Vector(items) => Call(v, items, table)
    case _ => Ok(v)
  }

  /** A List or Vector `v` with elements `items`. */
  function Call(v: Value, items: seq<Value>, table: map<string, Binding>): Result
    decreases items, 2
  {
    if items == [] then Ok(v)
    else
      match EvaluateAll(items, table)
      case AllOk(xs) => Dispatch(xs, table)
      case FirstFailure(f) => f
  }

  function EvaluateAll(items: seq<Value>, table: map<string, Binding>): (r: Evaluated)
    ensures r.AllOk? ==> |r.values| == |items|
    ensures r.FirstFailure? ==> !r.failure.Ok?
    decreases items, 1
  {
    if items == [] then AllOk([])
    else
      match Evaluate(items[0], table)
      case Ok(x) =>
        (match EvaluateAll(items[1..], table)
         case AllOk(xs) => AllOk([x] + xs)
         case failed => failed)
      case failed => FirstFailure(failed)
  }

  /** Evaluating every element to a value makes the call's elements exactly those values. */
  lemma {:induction false} AllEvaluated(items: seq<Value>, xs: seq<Value>, table: map<string, Binding>)
    requires |xs| == |items|
    requires forall k :: 0 <= k < |items| ==> Evaluate(items[k], table) == Ok(xs[k])
    ensures EvaluateAll(items, table) == AllOk(xs)
    decreases |items|
  {
    if items != [] {
      AllEvaluated(items[1..], xs[1..], table);
      assert xs == [xs[0]] + xs[1..];
    }
  }

  /** Elements are evaluated left to right: the first one that fails decides the outcome. */
  lemma {:induction false} FirstFailureAt(items: seq<Value>, i: nat, table: map<string, Binding>)
    requires i < |items|
    requires forall k :: 0 <= k < i ==> Evaluate(items[k], table).Ok?
    requires !Evaluate(items[i], table).Ok?
    ensures EvaluateAll(items, table) == FirstFailure(Evaluate(items[i], table))
    decreases i
  {
    if i > 0 {
      FirstFailureAt(items[1..], i - 1, table);
    }
  }

  // ----- the Go code's loops -----

  /** Eval (interpreter.go:23-62); the global table is the parameter `globals`. */
  method Eval(v: Value, globals: SymbolTable) returns (r: Result)
    ensures r == Evaluate(v, globals.symbols)
    decreases v, 1
  {
    match v
    case List(items) =>
      if |items| == 0 {
        return Ok(v);
      }
      var e := EvalElements(items, globals);
      if e.FirstFailure? {
        return e.failure;
      }
      r := EvalFunc(e.values, globals);
    case Vector(items) =>
      if |items| == 0 {
        return Ok(v);
      }
      var e := EvalElements(items, globals);
      if e.FirstFailure? {
        return e.failure;
      }
      r := EvalFunc(e.values, globals);
    case _ =>
      r := Ok(v);
  }

  /** The loop of Eval (interpreter.go:30-39, 48-55) that fills `arr`, stopping at the first failure. */
  method EvalElements(items: seq<Value>, globals: SymbolTable) returns (e: Evaluated)
    ensures e == EvaluateAll(items, globals.symbols)
    decreases items, 0
  {
    var arr := new Value[|items|];
    var i := 0;
    while i < |items|
      invariant 0 <= i <= |items|
      invariant forall k :: 0 <= k < i ==> Evaluate(items[k], globals.symbols) == Ok(arr[k])
    {
      var res := Eval(items[i], globals);
      if !res.Ok? {
        FirstFailureAt(items, i, globals.symbols);
        return FirstFailure(res);
      }
      arr[i] := res.value;
      i := i + 1;
    }
    AllEvaluated(items, arr[..], globals.symbols);
    return AllOk(arr[..]);
  }

  /** evalFunc (interpreter.go:64-81). */
  method EvalFunc(arr: seq<Value>, globals: SymbolTable) returns (r: Result)
    requires |arr| > 0
    ensures r == Dispatch(arr, globals.symbols)
  {
    if !arr[0].Symbol? {
      return Err(NotASymbol(arr[0]));
    }
    var sym := arr[0].name;
    if sym !in globals.symbols {
      return Err(NoSuchFunction(sym));
    }
    match globals.symbols[sym]
    case Data(_) =>
      r := Err(NotAFunction(sym));
    case Builtin(op) =>
      match op
      case Plus => r := Add(arr[1..]);
      case Minus => r := Sub(arr[1..]);
      case Times => r := Mul(arr[1..]);
      case Quotient => r := Div(arr[1..]);
  }

  /** add (interpreter.go:83-122). */
  method Add(args: seq<Value>) returns (r: Result)
    ensures r == Invoke(Plus, args)
  {
    var ret := Nil;
    var idx := 0;
    while idx < |args|
      invariant 0 <= idx <= |args|
      invariant idx == 0 ==> ret == Nil
      invariant idx > 0 ==> Fold(Plus, ret, args[idx..]) == Invoke(Plus, args)
    {
      var arg := args[idx];
      if idx == 0 {
        ret := arg;
        idx := idx + 1;
        continue;
      }
      assert args[idx..] == [arg] + args[idx + 1..];
      if ret.Int? && arg.Int? {
        ret := Int(Wrap64(ret.i + arg.i));
      } else if ret.Int? && arg.Float? {
        ret := Float(Apply(Plus, OfInt(ret.i), arg.f));
      } else if ret.Int? && arg.Str? {
        ret := Str(Itoa(ret.i) + arg.s);
      } else if ret.Float? && arg.Int? {
        ret := Float(Apply(Plus, ret.f, OfInt(arg.i)));
      } else if ret.Float? && arg.Float? {
        ret := Float(Apply(Plus, ret.f, arg.f));
      } else if ret.Float? && arg.Str? {
        return FloatFormatting;
      } else if ret.Str? && arg.Int? {
        ret := Str(ret.s + Itoa(arg.i));
      } else if ret.Str? && arg.Float? {
        return FloatFormatting;
      } else if ret.Str? && arg.Str? {
        ret := Str(ret.s + arg.s);
      } else {
        return Err(InvalidOperand(arg));
      }
      idx := idx + 1;
    }
    assert idx > 0 ==> args[idx..] == [];
    r := Ok(ret);
  }

  /** agg (interpreter.go:124-151); `op` selects the integer and float closures of sub, mul or div. */
  method Agg(op: Primitive, args: seq<Value>) returns (r: Result)
    requires op != Plus
    ensures r == Invoke(op, args)
  {
    var ret := Nil;
    var idx := 0;
    while idx < |args|
      invariant 0 <= idx <= |args|
      invariant idx == 0 ==> ret == Nil
      invariant idx > 0 ==> Fold(op, ret, args[idx..]) == Invoke(op, args)
    {
      var arg := args[idx];
      if idx == 0 {
        ret := arg;
        idx := idx + 1;
        continue;
      }
      assert args[idx..] == [arg] + args[idx + 1..];
      if ret.Int? && arg.Int? {
        var n := IntOp(op, ret.i, arg.i);
        if n == DivideByZeroPanic {
          return n;
        }
        ret := n.value;
      } else if ret.Int? && arg.Float? {
        ret := Float(Apply(op, OfInt(ret.i), arg.f));
      } else if ret.Float? && arg.Int? {
        ret := Float(Apply(op, ret.f, OfInt(arg.i)));
      } else if ret.Float? && arg.Float? {
        ret := Float(Apply(op, ret.f, arg.f));
      } else {
        return Err(InvalidOperand(arg));
      }
      idx := idx + 1;
    }
    assert idx > 0 ==> args[idx..] == [];
    r := Ok(ret);
  }

  /** sub (interpreter.go:153-161). */
  method Sub(args: seq<Value>) returns (r: Result)
    ensures r == Invoke(Minus, args)
  {
    r := Agg(Minus, args);
  }

  /** mul (interpreter.go:163-171). */
  method Mul(args: seq<Value>) returns (r: Result)
    ensures r == Invoke(Times, args)
  {
    r := Agg(Times, args);
  }

  /** div (interpreter.go:173-181). */
  method Div(args: seq<Value>) returns (r: Result)
    ensures r == Invoke(Quotient, args)
  {
    r := Agg(Quotient, args);
  }
}
