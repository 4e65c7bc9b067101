/**
 * The evaluator's test cases (interpreter_test.go), over the global table
 * as initialised by `init`.
 */
module InterpreterTests {
  import opened Values
  import opened Environment
  import opened ReaderSpec
  import opened ReaderTests
  import opened Interpreter
  import opened InterpreterProperties

  /** A call form `(head args...)`. */
  function Sexp(head: string, args: seq<Value>): Value {
    List([Symbol(head)] + args)
  }

  /** A two-argument call of a builtin computes one step of its fold on the evaluated arguments. */
  lemma BinaryCall(h: string, op: Primitive, x: Value, y: Value, vx: Value, vy: Value)
    requires h in DefaultBindings() && DefaultBindings()[h] == Builtin(op)
    requires Evaluate(x, DefaultBindings()) == Ok(vx) && Evaluate(y, DefaultBindings()) == Ok(vy)
    ensures Evaluate(Sexp(h, [x, y]), DefaultBindings()) == FoldStep(op, vx, vy)
  {
    var v := Sexp(h, [x, y]);
    assert v.items == [Symbol(h), x, y];
    CallOfEvaluated(v, [Symbol(h), vx, vy], DefaultBindings());
    assert [Symbol(h), vx, vy][1..] == [vx, vy];
    TwoArguments(op, vx, vy);
  }

  lemma Bound()
    ensures "+" in DefaultBindings() && DefaultBindings()["+"] == Builtin(Plus)
    ensures "-" in DefaultBindings() && DefaultBindings()["-"] == Builtin(Minus)
    ensures "*" in DefaultBindings() && DefaultBindings()["*"] == Builtin(Times)
    ensures "/" in DefaultBindings() && DefaultBindings()["/"] == Builtin(Quotient)
  {
  }

  /** `(+ 1 2)` (interpreter_test.go:13), read from its text and then evaluated. */
  lemma ReadAndAddCase()
    ensures Read("(+ 1 2)", 0).out == Form(Sexp("+", [Int(1), Int(2)]))
    ensures Evaluate(Sexp("+", [Int(1), Int(2)]), DefaultBindings()) == Ok(Int(3))
  {
    SimpleListCase();
    assert [Symbol("+")] + [Int(1), Int(2)] == [Symbol("+"), Int(1), Int(2)];
    Bound();
    BinaryCall("+", Plus, Int(1), Int(2), Int(1), Int(2));
  }

  /** `(+ 5 (* 2 3))`, `(- (+ 5 (* 2 3)) 3)` and `(/ (- (+ 5 (* 2 3)) 3) 4)` (interpreter_test.go:14-16). */
  lemma NestedArithmeticCases()
    ensures Evaluate(Sexp("+", [Int(5), Sexp("*", [Int(2), Int(3)])]), DefaultBindings()) == Ok(Int(11))
    ensures Evaluate(Sexp("-", [Sexp("+", [Int(5), Sexp("*", [Int(2), Int(3)])]), Int(3)]), DefaultBindings())
      == Ok(Int(8))
    ensures Evaluate(Sexp("/", [Sexp("-", [Sexp("+", [Int(5), Sexp("*", [Int(2), Int(3)])]), Int(3)]), Int(4)]),
                     DefaultBindings()) == Ok(Int(2))
  {
    Bound();
    var six := Sexp("*", [Int(2), Int(3)]);
    BinaryCall("*", Times, Int(2), Int(3), Int(2), Int(3));
    var eleven := Sexp("+", [Int(5), six]);
    BinaryCall("+", Plus, Int(5), six, Int(5), Int(6));
    var eight := Sexp("-", [eleven, Int(3)]);
    BinaryCall("-", Minus, eleven, Int(3), Int(11), Int(3));
    BinaryCall("/", Quotient, eight, Int(4), Int(8), Int(4));
    assert TruncDiv(8, 4) == 2;
  }

  /** `(* k 311)`, `(+ 515 (* k 311))` and `(- (+ 515 (* k 311)) c)`: the subterms of interpreter_test.go:17 and :19. */
  function Scaled(k: int): Value {
    Sexp("*", [Int(k), Int(311)])
  }

  function Offset(k: int): Value {
    Sexp("+", [Int(515), Scaled(k)])
  }

  function Lowered(k: int, c: int): Value {
    Sexp("-", [Offset(k), Int(c)])
  }

  lemma LoweredValue(k: int, c: int)
    requires -1000 <= k <= 1000 && -1000 <= c <= 1000
    ensures Evaluate(Lowered(k, c), DefaultBindings()) == Ok(Int(515 + 311 * k - c))
  {
    Bound();
    BinaryCall("*", Times, Int(k), Int(311), Int(k), Int(311));
    BinaryCall("+", Plus, Int(515), Scaled(k), Int(515), Int(311 * k));
    BinaryCall("-", Minus, Offset(k), Int(c), Int(515 + 311 * k), Int(c));
  }

  /** `(/ (- (+ 515 (* k 311)) c) d)`: one division step on the closed form of `Lowered(k, c)`. */
  lemma QuotientOfLowered(k: int, c: int, d: int)
    requires -1000 <= k <= 1000 && -1000 <= c <= 1000
    ensures Evaluate(Sexp("/", [Lowered(k, c), Int(d)]), DefaultBindings()) == FoldStep(Quotient, Int(515 + 311 * k - c), Int(d))
  {
    Bound();
    LoweredValue(k, c);
    BinaryCall("/", Quotient, Lowered(k, c), Int(d), Int(515 + 311 * k - c), Int(d));
  }

  /** `(/ (- (+ 515 (* 87 311)) 302) 27)` (interpreter_test.go:17). */
  lemma LargerArithmeticCase()
    ensures Evaluate(Sexp("/", [Sexp("-", [Sexp("+", [Int(515), Sexp("*", [Int(87), Int(311)])]), Int(302)]), Int(27)]),
                     DefaultBindings()) == Ok(Int(1010))
  {
    assert Sexp("/", [Lowered(87, 302), Int(27)])
      == Sexp("/", [Sexp("-", [Sexp("+", [Int(515), Sexp("*", [Int(87), Int(311)])]), Int(302)]), Int(27)]);
    QuotientOfLowered(87, 302, 27);
    assert TruncDiv(27270, 27) == 1010;
  }

  /** `(* -3 6)` (interpreter_test.go:18). */
  lemma NegativeProductCase()
    ensures Evaluate(Sexp("*", [Int(-3), Int(6)]), DefaultBindings()) == Ok(Int(-18))
  {
    Bound();
    BinaryCall("*", Times, Int(-3), Int(6), Int(-3), Int(6));
  }

  /** `(/ (- (+ 515 (* -87 311)) 296) 27)` (interpreter_test.go:19): the quotient of a negative dividend. */
  lemma NegativeQuotientCase()
    ensures Evaluate(Sexp("/", [Sexp("-", [Sexp("+", [Int(515), Sexp("*", [Int(-87), Int(311)])]), Int(296)]), Int(27)]),
                     DefaultBindings()) == Ok(Int(-994))
  {
    assert Sexp("/", [Lowered(-87, 296), Int(27)])
      == Sexp("/", [Sexp("-", [Sexp("+", [Int(515), Sexp("*", [Int(-87), Int(311)])]), Int(296)]), Int(27)]);
    QuotientOfLowered(-87, 296, 27);
    assert TruncDiv(-26838, 27) == -994;
  }

  /** TestEmpty (interpreter_test.go:22-26): `()`, `[]` and `{}` evaluate to themselves. */
  lemma EmptyCases()
    ensures Evaluate(List([]), DefaultBindings()) == Ok(List([]))
    ensures Evaluate(Vector([]), DefaultBindings()) == Ok(Vector([]))
    ensures Evaluate(Map([]), DefaultBindings()) == Ok(Map([]))
  {
  }

  /**
   * `{"a" (+ 7 8)}` and `{:a (+ 7 8)}` come back as they are: the map's
   * values are not evaluated, whereas interpreter_test.go:30-31 expects 15.
   */
  lemma MapValuesStayUnevaluated()
    ensures var call := List([Symbol("+"), Int(7), Int(8)]);
      && Evaluate(Map([(Str("a"), call)]), DefaultBindings()) == Ok(Map([(Str("a"), call)]))
      && Evaluate(Map([(Keyword("a"), call)]), DefaultBindings()) == Ok(Map([(Keyword("a"), call)]))
  {
  }

  /**
   * `[1 2 (+ 1 2)]` is a call like a list, so its head 1 is rejected as not
   * a symbol; interpreter_test.go:29 expects a vector of three ints from an
   * evaluator that is not this one.
   */
  lemma VectorIsACall()
    ensures Evaluate(Vector([Int(1), Int(2), Sexp("+", [Int(1), Int(2)])]), DefaultBindings())
      == Err(NotASymbol(Int(1)))
  {
    ReadAndAddCase();
    var v := Vector([Int(1), Int(2), Sexp("+", [Int(1), Int(2)])]);
    CallOfEvaluated(v, [Int(1), Int(2), Int(3)], DefaultBindings());
  }

  /** A division by zero is Go's runtime panic, not an error value. */
  lemma DivideByZeroCase()
    ensures Evaluate(Sexp("/", [Int(1), Int(0)]), DefaultBindings()) == DivideByZeroPanic
  {
    Bound();
    BinaryCall("/", Quotient, Int(1), Int(0), Int(1), Int(0));
  }

  /** A head bound to neither builtin is "Function does not exist". */
  lemma UnknownFunctionCase()
    ensures Evaluate(Sexp("list", [Int(1)]), DefaultBindings()) == Err(NoSuchFunction("list"))
  {
    var v := Sexp("list", [Int(1)]);
    assert v.items == [Symbol("list"), Int(1)];
    assert "list" !in DefaultBindings();
    CallOfAtoms(v, DefaultBindings());
  }
}
