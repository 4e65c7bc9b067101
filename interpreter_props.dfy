/**
 * What the evaluator and its builtins promise, proved about the
 * specification functions of module Interpreter.
 */
module InterpreterProperties {
  import opened Values
  import opened Strconv
  import opened Environment
  import opened Interpreter

  // ----- evaluation -----

  /** A value that is neither a List nor a Vector, or an empty one. */
  predicate SelfEvaluating(v: Value) {
    !(v.List? || v.Vector?) || v.items == []
  }

  /** Atoms, maps and empty collections evaluate to themselves. */
  lemma SelfEvaluation(v: Value, table: map<string, Binding>)
    requires SelfEvaluating(v)
    ensures Evaluate(v, table) == Ok(v)
  {
  }

  /**
   * A call whose elements evaluate to `xs` is the dispatch of `xs`: the
   * head is evaluated like every other element.
   */
  lemma CallOfEvaluated(v: Value, xs: seq<Value>, table: map<string, Binding>)
    requires (v.List? || v.Vector?) && v.items != [] && |xs| == |v.items|
    requires forall k :: 0 <= k < |xs| ==> Evaluate(v.items[k], table) == Ok(xs[k])
    ensures Evaluate(v, table) == Dispatch(xs, table)
  {
    AllEvaluated(v.items, xs, table);
  }

  /** A call of self-evaluating elements dispatches on the elements themselves. */
  lemma CallOfAtoms(v: Value, table: map<string, Binding>)
    requires (v.List? || v.Vector?) && v.items != []
    requires forall k :: 0 <= k < |v.items| ==> SelfEvaluating(v.items[k])
    ensures Evaluate(v, table) == Dispatch(v.items, table)
  {
    CallOfEvaluated(v, v.items, table);
  }

  /** A failing element makes the whole call fail with its failure, once the elements before it succeed. */
  lemma CallFailsAt(v: Value, i: nat, table: map<string, Binding>)
    requires (v.List? || v.Vector?) && i < |v.items|
    requires forall k :: 0 <= k < i ==> Evaluate(v.items[k], table).Ok?
    requires !Evaluate(v.items[i], table).Ok?
    ensures Evaluate(v, table) == Evaluate(v.items[i], table)
  {
    FirstFailureAt(v.items, i, table);
  }

  /** The builtins only ever fail with "Invalid operand"; they never report a lookup error. */
  lemma {:induction false} FoldErrorsAreOperands(op: Primitive, ret: Value, args: seq<Value>)
    ensures Fold(op, ret, args).Err? ==> Fold(op, ret, args).error.InvalidOperand?
    decreases |args|
  {
    if args != [] && FoldStep(op, ret, args[0]).Ok? {
      FoldErrorsAreOperands(op, FoldStep(op, ret, args[0]).value, args[1..]);
    }
  }

  /**
   * evalFunc's three errors, each exactly when its condition holds; otherwise
   * the builtin is applied to the remaining elements.
   */
  lemma DispatchCases(arr: seq<Value>, table: map<string, Binding>)
    requires |arr| > 0
    ensures Dispatch(arr, table) == Err(NotASymbol(arr[0])) <==> !arr[0].Symbol?
    ensures arr[0].Symbol? ==>
      (Dispatch(arr, table) == Err(NoSuchFunction(arr[0].name)) <==> arr[0].name !in table)
    ensures arr[0].Symbol? && arr[0].name in table ==>
      (Dispatch(arr, table) == Err(NotAFunction(arr[0].name)) <==> table[arr[0].name].Data?)
    ensures arr[0].Symbol? && arr[0].name in table && table[arr[0].name].Builtin? ==>
      Dispatch(arr, table) == Invoke(table[arr[0].name].op, arr[1..])
  {
    if |arr| > 1 {
      FoldErrorsAreOperands(Plus, arr[1], arr[2..]);
      FoldErrorsAreOperands(Minus, arr[1], arr[2..]);
      FoldErrorsAreOperands(Times, arr[1], arr[2..]);
      FoldErrorsAreOperands(Quotient, arr[1], arr[2..]);
    }
  }

  // ----- the folds -----

  /** No-argument calls give nil and one-argument calls return the argument: there is no unary minus. */
  lemma ShortCalls(op: Primitive, x: Value)
    ensures Invoke(op, []) == Ok(Nil)
    ensures Invoke(op, [x]) == Ok(x)
  {
  }

  /** A call with two arguments is one step of the fold. */
  lemma TwoArguments(op: Primitive, x: Value, y: Value)
    ensures Invoke(op, [x, y]) == FoldStep(op, x, y)
  {
    assert [x, y][1..] == [y];
    assert [y][1..] == [];
    if FoldStep(op, x, y).Ok? {
      assert Fold(op, FoldStep(op, x, y).value, []) == FoldStep(op, x, y);
    }
  }

  /** Running the fold over `a + b` is running it over `a`, then over `b` from where it stopped. */
  lemma {:induction false} FoldAppend(op: Primitive, ret: Value, a: seq<Value>, b: seq<Value>)
    ensures Fold(op, ret, a).Ok? ==> Fold(op, ret, a + b) == Fold(op, Fold(op, ret, a).value, b)
    ensures !Fold(op, ret, a).Ok? ==> Fold(op, ret, a + b) == Fold(op, ret, a)
    decreases |a|
  {
    if a == [] {
      assert a + b == b;
    } else {
      assert (a + b)[0] == a[0];
      assert (a + b)[1..] == a[1..] + b;
      if FoldStep(op, ret, a[0]).Ok? {
        FoldAppend(op, FoldStep(op, ret, a[0]).value, a[1..], b);
      }
    }
  }

  function IntValues(xs: seq<int>): (vs: seq<Value>)
    ensures |vs| == |xs|
  {
    if xs == [] then [] else [Int(xs[0])] + IntValues(xs[1..])
  }

  lemma IntValuesSplit(xs: seq<int>)
    requires xs != []
    ensures IntValues(xs)[0] == Int(xs[0]) && IntValues(xs)[1..] == IntValues(xs[1..])
  {
    assert IntValues(xs) == [Int(xs[0])] + IntValues(xs[1..]);
  }

  predicate AllInt64(xs: seq<int>) {
    forall k :: 0 <= k < |xs| ==> InInt64(xs[k])
  }

  function Sum(xs: seq<int>): int {
    if xs == [] then 0 else xs[0] + Sum(xs[1..])
  }

  function Product(xs: seq<int>): int {
    if xs == [] then 1 else xs[0] * Product(xs[1..])
  }

  lemma {:induction false} FoldSum(a: int, xs: seq<int>)
    requires InInt64(a)
    ensures Fold(Plus, Int(a), IntValues(xs)) == Ok(Int(Wrap64(a + Sum(xs))))
    decreases |xs|
  {
    if xs != [] {
      var w := Wrap64(a + xs[0]);
      FoldSum(w, xs[1..]);
      WrapAdd(a + xs[0], Sum(xs[1..]));
    }
  }

  lemma {:induction false} FoldDifference(a: int, xs: seq<int>)
    requires InInt64(a)
    ensures Fold(Minus, Int(a), IntValues(xs)) == Ok(Int(Wrap64(a - Sum(xs))))
    decreases |xs|
  {
    if xs != [] {
      var w := Wrap64(a - xs[0]);
      FoldDifference(w, xs[1..]);
      WrapAdd(a - xs[0], -Sum(xs[1..]));
    }
  }

  lemma {:induction false} FoldProduct(a: int, xs: seq<int>)
    requires InInt64(a)
    ensures Fold(Times, Int(a), IntValues(xs)) == Ok(Int(Wrap64(a * Product(xs))))
    decreases |xs|
  {
    if xs != [] {
      var w := Wrap64(a * xs[0]);
      FoldProduct(w, xs[1..]);
      WrapMul(a * xs[0], Product(xs[1..]));
      assert a * Product(xs) == (a * xs[0]) * Product(xs[1..]);
    }
  }

  /** `+` over ints is their sum, wrapped to 64 bits (so exact when the sum fits, by Wrap64's contract). */
  lemma AddIsSum(xs: seq<int>)
    requires |xs| > 0 && AllInt64(xs)
    ensures Invoke(Plus, IntValues(xs)) == Ok(Int(Wrap64(Sum(xs))))
  {
    IntValuesSplit(xs);
    assert Invoke(Plus, IntValues(xs)) == Fold(Plus, Int(xs[0]), IntValues(xs[1..]));
    FoldSum(xs[0], xs[1..]);
    assert xs[0] + Sum(xs[1..]) == Sum(xs);
  }

  /** `-` is a left fold: the first int minus the sum of the rest, `(- a b c) = (a-b)-c`. */
  lemma SubIsLeftFold(a: int, xs: seq<int>)
    requires InInt64(a) && AllInt64(xs)
    ensures Invoke(Minus, [Int(a)] + IntValues(xs)) == Ok(Int(Wrap64(a - Sum(xs))))
  {
    assert ([Int(a)] + IntValues(xs))[1..] == IntValues(xs);
    FoldDifference(a, xs);
  }

  /** `*` over ints is their product, wrapped to 64 bits. */
  lemma MulIsProduct(xs: seq<int>)
    requires |xs| > 0 && AllInt64(xs)
    ensures Invoke(Times, IntValues(xs)) == Ok(Int(Wrap64(Product(xs))))
  {
    IntValuesSplit(xs);
    assert Invoke(Times, IntValues(xs)) == Fold(Times, Int(xs[0]), IntValues(xs[1..]));
    FoldProduct(xs[0], xs[1..]);
    assert xs[0] * Product(xs[1..]) == Product(xs);
  }

  /** The magnitude of a truncated quotient is at most that of the dividend, and half of it for divisors beyond one. */
  lemma QuotientMagnitude(a: int, b: int)
    requires b != 0
    ensures Abs(TruncDiv(a, b)) <= Abs(a)
    ensures Abs(b) > 1 ==> 2 * Abs(TruncDiv(a, b)) <= Abs(a)
  {
    var x, y := Abs(a), Abs(b);
    var m := x / y;
    assert Abs(TruncDiv(a, b)) == m;
    QuotientBound(x, y, m);
  }

  lemma QuotientBound(x: nat, y: nat, m: nat)
    requires y > 0 && m == x / y
    ensures m <= x
    ensures y > 1 ==> 2 * m <= x
  {
    assert m * y <= x;
    if y > 1 {
      MulAtLeastTwice(m, y);
    } else {
      assert m * y == m;
    }
  }

  lemma MulAtLeastTwice(m: nat, y: nat)
    requires y > 1
    ensures 2 * m <= m * y
  {
    var d: nat := y - 2;
    assert m * y == m * d + 2 * m;
  }

  /**
   * `/` on two ints truncates toward zero, panics on a zero divisor, and
   * wraps only for the one overflowing quotient MinInt64 / -1.
   */
  lemma DivTruncates(a: int, b: int)
    requires InInt64(a) && InInt64(b)
    ensures b == 0 ==> Invoke(Quotient, [Int(a), Int(b)]) == DivideByZeroPanic
    ensures a == MinInt64 && b == -1 ==> Invoke(Quotient, [Int(a), Int(b)]) == Ok(Int(MinInt64))
    ensures b != 0 && !(a == MinInt64 && b == -1) ==>
      var r := Invoke(Quotient, [Int(a), Int(b)]);
      && r.Ok? && r.value.Int?
      && Abs(a - r.value.i * b) < Abs(b)
      && (a - r.value.i * b == 0 || ((a - r.value.i * b < 0) == (a < 0)))
  {
    if b != 0 {
      QuotientMagnitude(a, b);
      if a == MinInt64 && b == -1 {
        assert TruncDiv(a, b) == -MinInt64;
        assert Wrap64(-MinInt64) == MinInt64;
        TwoArguments(Quotient, Int(a), Int(b));
      } else {
        assert InInt64(TruncDiv(a, b));
        assert IntOp(Quotient, a, b) == Ok(Int(TruncDiv(a, b)));
        TwoArguments(Quotient, Int(a), Int(b));
      }
    }
  }

  /** Integer division panics at the first zero divisor, whatever follows it. */
  lemma {:induction false} FoldPanicsOnZero(a: int, xs: seq<int>, k: nat)
    requires k < |xs| && xs[k] == 0
    requires forall j :: 0 <= j < k ==> xs[j] != 0
    ensures Fold(Quotient, Int(a), IntValues(xs)) == DivideByZeroPanic
    decreases k
  {
    if k > 0 {
      FoldPanicsOnZero(Wrap64(TruncDiv(a, xs[0])), xs[1..], k - 1);
    }
  }

  lemma DivByZeroPanics(a: int, xs: seq<int>, k: nat)
    requires k < |xs| && xs[k] == 0
    requires forall j :: 0 <= j < k ==> xs[j] != 0
    ensures Invoke(Quotient, [Int(a)] + IntValues(xs)) == DivideByZeroPanic
  {
    assert ([Int(a)] + IntValues(xs))[1..] == IntValues(xs);
    FoldPanicsOnZero(a, xs, k);
  }

  // ----- strings -----

  /** A value `+` can turn into text: an int or a string. */
  predicate Textual(v: Value) {
    v.Int? || v.Str?
  }

  /** The text `+` appends for an int or string operand: strconv.Itoa for ints. */
  function Text(v: Value): string
    requires Textual(v)
  {
    if v.Int? then Itoa(v.i) else v.s
  }

  function Texts(vs: seq<Value>): string
    requires forall k :: 0 <= k < |vs| ==> Textual(vs[k])
  {
    if vs == [] then "" else Text(vs[0]) + Texts(vs[1..])
  }

  lemma {:induction false} FoldConcatenates(s: string, vs: seq<Value>)
    requires forall k :: 0 <= k < |vs| ==> Textual(vs[k])
    ensures Fold(Plus, Str(s), vs) == Ok(Str(s + Texts(vs)))
    decreases |vs|
  {
    if vs != [] {
      var t := Text(vs[0]);
      assert FoldStep(Plus, Str(s), vs[0]) == Ok(Str(s + t));
      assert Texts(vs) == t + Texts(vs[1..]);
      FoldConcatenates(s + t, vs[1..]);
      assert (s + t) + Texts(vs[1..]) == s + (t + Texts(vs[1..]));
    } else {
      assert s + Texts(vs) == s;
    }
  }

  /** `+` starting from a string concatenates, rendering ints in decimal. */
  lemma AddConcatenates(s: string, vs: seq<Value>)
    requires forall k :: 0 <= k < |vs| ==> Textual(vs[k])
    ensures Invoke(Plus, [Str(s)] + vs) == Ok(Str(s + Texts(vs)))
  {
    assert ([Str(s)] + vs)[1..] == vs;
    FoldConcatenates(s, vs);
  }

  /** Ints before the first string are summed first; the sum's decimal text then starts the string. */
  lemma AddSumsThenConcatenates(xs: seq<int>, s: string, vs: seq<Value>)
    requires |xs| > 0 && AllInt64(xs)
    requires forall k :: 0 <= k < |vs| ==> Textual(vs[k])
    ensures Invoke(Plus, IntValues(xs) + ([Str(s)] + vs)) == Ok(Str(Itoa(Wrap64(Sum(xs))) + s + Texts(vs)))
  {
    SumsFirst(xs, [Str(s)] + vs);
    StringAfterInt(Wrap64(Sum(xs)), s, vs);
  }

  /** A run of ints at the start of `+`'s arguments is folded to its wrapped sum before anything else. */
  lemma SumsFirst(xs: seq<int>, tail: seq<Value>)
    requires |xs| > 0 && AllInt64(xs)
    ensures Invoke(Plus, IntValues(xs) + tail) == Fold(Plus, Int(Wrap64(Sum(xs))), tail)
  {
    var all := IntValues(xs) + tail;
    assert all[0] == Int(xs[0]);
    assert all[1..] == IntValues(xs[1..]) + tail;
    assert Sum(xs) == xs[0] + Sum(xs[1..]);
    FoldSum(xs[0], xs[1..]);
    FoldAppend(Plus, Int(xs[0]), IntValues(xs[1..]), tail);
  }

  lemma StringAfterInt(w: int, s: string, vs: seq<Value>)
    requires forall k :: 0 <= k < |vs| ==> Textual(vs[k])
    ensures Fold(Plus, Int(w), [Str(s)] + vs) == Ok(Str(Itoa(w) + s + Texts(vs)))
  {
    assert ([Str(s)] + vs)[0] == Str(s) && ([Str(s)] + vs)[1..] == vs;
    assert FoldStep(Plus, Int(w), Str(s)) == Ok(Str(Itoa(w) + s));
    FoldConcatenates(Itoa(w) + s, vs);
  }

  // ----- invalid operands -----

  /** An operand `+` accepts: an int, a float or a string. */
  predicate Addable(v: Value) {
    v.Int? || v.Float? || v.Str?
  }

  /** An operand `-`, `*` and `/` accept: an int or a float. */
  predicate Numeric(v: Value) {
    v.Int? || v.Float?
  }

  /**
   * A step of `+` fails exactly when either side is not addable, and the
   * error always names the argument, even when the accumulator is the bad one.
   */
  lemma AddStepFails(ret: Value, arg: Value)
    ensures AddStep(ret, arg).Err? <==> !Addable(ret) || !Addable(arg)
    ensures AddStep(ret, arg).Err? ==> AddStep(ret, arg) == Err(InvalidOperand(arg))
  {
  }

  /** A step of `-`, `*` or `/` fails exactly when either side is not a number; strings included. */
  lemma AggStepFails(op: Primitive, ret: Value, arg: Value)
    ensures AggStep(op, ret, arg).Err? <==> !Numeric(ret) || !Numeric(arg)
    ensures AggStep(op, ret, arg).Err? ==> AggStep(op, ret, arg) == Err(InvalidOperand(arg))
  {
  }

  /** `-`, `*` and `/` reject a string operand wherever the fold reaches it. */
  lemma AggRejectsStrings(op: Primitive, prefix: seq<Value>, s: string, rest: seq<Value>)
    requires op != Plus && |prefix| > 0
    requires Invoke(op, prefix).Ok?
    ensures Invoke(op, prefix + ([Str(s)] + rest)) == Err(InvalidOperand(Str(s)))
  {
    var all := prefix + ([Str(s)] + rest);
    assert all[0] == prefix[0];
    assert all[1..] == prefix[1..] + ([Str(s)] + rest);
    FoldAppend(op, prefix[0], prefix[1..], [Str(s)] + rest);
  }

  /** With a string first, `-`, `*` and `/` reject the second operand, whatever it is. */
  lemma AggRejectsLeadingString(op: Primitive, s: string, x: Value, rest: seq<Value>)
    requires op != Plus
    ensures Invoke(op, [Str(s), x] + rest) == Err(InvalidOperand(x))
  {
    assert ([Str(s), x] + rest)[1..] == [x] + rest;
    assert ([x] + rest)[0] == x;
  }
}
