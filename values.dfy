/**
 * The value model of the engine: every expression the reader builds and
 * every value the evaluator computes is a `Value`.
 *
 * Go represents values as `interface{}` holding `int`, `float64`, `string`,
 * `rune`, `bool`, `nil`, `Symbol`, `Keyword` and the collection types
 * `List`, `Vector` and `Map`. Here each dynamic Go type is one constructor,
 * so "same dynamic type" is "same constructor".
 */
module Values {

  datatype Option<T> = None | Some(value: T)

  /** The four arithmetic primitives bound in the global environment. */
  datatype Primitive = Plus | Minus | Times | Quotient

  /**
   * A float64 value, kept symbolic: the literal text it was parsed from,
   * the conversion of an int, or a primitive applied to two floats.
   * No floating-point arithmetic is modelled.
   */
  datatype FloatTerm =
    | Literal(text: string)
    | OfInt(n: int)
    | Apply(op: Primitive, x: FloatTerm, y: FloatTerm)

  datatype Value =
    | Int(i: int)
    | Float(f: FloatTerm)
    | Str(s: string)
    | Char(c: char)
    | Bool(b: bool)
    | Nil
    | Symbol(name: string)
    | Keyword(name: string)
    | List(items: seq<Value>)
    | Vector(items: seq<Value>)
    | Map(entries: seq<(Value, Value)>)

  /** Go's `int` is 64 bits wide on the platforms the engine targets. */
  const MinInt64: int := -0x8000_0000_0000_0000
  const MaxInt64: int := 0x7fff_ffff_ffff_ffff
  const TwoTo64: int := 0x1_0000_0000_0000_0000

  predicate InInt64(x: int) {
    MinInt64 <= x <= MaxInt64
  }

  /** Two's-complement wrap-around of a mathematical integer into `int`. */
  function Wrap64(x: int): (r: int)
    ensures InInt64(r)
    ensures InInt64(x) ==> r == x
    ensures (x - r) % TwoTo64 == 0
  {
    (x - MinInt64) % TwoTo64 + MinInt64
  }

  function Abs(x: int): nat {
    if x < 0 then -x else x
  }

  /**
   * Go's integer quotient, which truncates toward zero: the remainder
   * `a - q * b` is smaller than `b` in magnitude and has the sign of `a`.
   */
  function TruncDiv(a: int, b: int): (q: int)
    requires b != 0
    ensures Abs(a - q * b) < Abs(b)
    ensures a - q * b == 0 || ((a - q * b < 0) == (a < 0))
  {
    var m := Abs(a) / Abs(b);
    var q := if (a < 0) == (b < 0) then m else -m;
    TruncDivRemainder(a, b, m, q);
    q
  }

  lemma TruncDivRemainder(a: int, b: int, m: int, q: int)
    requires b != 0 && m == Abs(a) / Abs(b)
    requires q == if (a < 0) == (b < 0) then m else -m
    ensures Abs(a - q * b) < Abs(b)
    ensures a - q * b == 0 || ((a - q * b < 0) == (a < 0))
  {
    var x, y := Abs(a), Abs(b);
    var r := x % y;
    var p := m * y;
    assert x == p + r && 0 <= r < y;
    if a >= 0 && b > 0 {
      assert q * b == p;
    } else if a >= 0 {
      assert b + y == 0 && q == -m;
      assert q * b == p;
    } else if b > 0 {
      assert q == -m;
      assert q * b == -p;
    } else {
      assert b + y == 0 && q == m;
      assert q * b == -p;
    }
  }

  /** Wrap-around only depends on the residue modulo 2^64. */
  lemma WrapCongruent(x: int, y: int)
    requires (x - y) % TwoTo64 == 0
    ensures Wrap64(x) == Wrap64(y)
  {
    var k := (x - y) / TwoTo64;
    assert x - y == k * TwoTo64;
    assert x - MinInt64 == (y - MinInt64) + k * TwoTo64;
  }

  /** Wrapping an intermediate sum or difference does not change the wrapped total. */
  lemma WrapAdd(x: int, y: int)
    ensures Wrap64(Wrap64(x) + y) == Wrap64(x + y)
  {
    WrapCongruent(Wrap64(x) + y, x + y);
  }

  /** Wrapping an intermediate product does not change the wrapped total. */
  lemma WrapMul(x: int, y: int)
    ensures Wrap64(Wrap64(x) * y) == Wrap64(x * y)
  {
    var d := Wrap64(x) - x;
    var k := d / TwoTo64;
    assert d == k * TwoTo64;
    assert Wrap64(x) * y - x * y == d * y;
    assert d * y == (k * y) * TwoTo64;
    WrapCongruent(Wrap64(x) * y, x * y);
  }
}
