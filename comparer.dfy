/**
 * Structural equality of values (comparer.go).
 *
 * Two Lists, or two Vectors, are equal when they have the same length and
 * are pairwise equal in order. Two Maps are equal when every entry of the
 * first has an entry in the second whose key and value are both equal;
 * sizes are not compared. Every other pair of values is equal when the
 * dynamic type and the value agree (Go's `==` on interfaces).
 */
module Comparer {
  import opened Values

  /** The constructor of a value: Go's dynamic type. */
  function Kind(v: Value): nat {
    match v
    case Int(_) => 0
    case Float(_) => 1
    case Str(_) => 2
    case Char(_) => 3
    case Bool(_) => 4
    case Nil => 5
    case Symbol(_) => 6
    case Keyword(_) => 7
    case List(_) => 8
    case Vector(_) => 9
    case Map(_) => 10
  }

  /** Equals (comparer.go:3-23), with sliceEquals and mapEquals inlined as quantifiers. */
  function Equals(v1: Value, v2: Value): (r: bool)
    ensures r ==> Kind(v1) == Kind(v2)
  {
    match (v1, v2)
    case (List(a), List(b)) =>
      |a| == |b| && forall i :: 0 <= i < |a| ==> Equals(a[i], b[i])
    case (Vector(a), Vector(b)) =>
      |a| == |b| && forall i :: 0 <= i < |a| ==> Equals(a[i], b[i])
    case (Map(m1), Map(m2)) =>
      forall i :: 0 <= i < |m1| ==> HasEqualEntry(m2, m1[i])
    case _ => v1 == v2
  }

  /** Some entry of `m` has a key equal to `e`'s key and a value equal to `e`'s value. */
  predicate HasEqualEntry(m: seq<(Value, Value)>, e: (Value, Value))
    decreases e
  {
    exists j :: 0 <= j < |m| && Equals(e.0, m[j].0) && Equals(e.1, m[j].1)
  }

  /** sliceEquals (comparer.go:25-35): length check, then an index loop with early return. */
  method SliceEquals(s1: seq<Value>, s2: seq<Value>) returns (eq: bool)
    ensures eq == Equals(List(s1), List(s2))
    ensures eq == Equals(Vector(s1), Vector(s2))
  {
    if |s1| != |s2| {
      return false;
    }
    var i := 0;
    while i < |s1|
      invariant 0 <= i <= |s1|
      invariant forall k :: 0 <= k < i ==> Equals(s1[k], s2[k])
    {
      if !Equals(s1[i], s2[i]) {
        return false;
      }
      i := i + 1;
    }
    return true;
  }

  /**
   * mapEquals (comparer.go:37-51): for every entry of the first map, search
   * the second with a `found` flag; fail on the first entry without a match.
   */
  method MapEquals(m1: seq<(Value, Value)>, m2: seq<(Value, Value)>) returns (eq: bool)
    ensures eq == Equals(Map(m1), Map(m2))
  {
    var i := 0;
    while i < |m1|
      invariant 0 <= i <= |m1|
      invariant forall k :: 0 <= k < i ==> HasEqualEntry(m2, m1[k])
    {
      var found := false;
      var j := 0;
      while j < |m2|
        invariant 0 <= j <= |m2|
        invariant !found
        invariant forall l :: 0 <= l < j ==> !(Equals(m1[i].0, m2[l].0) && Equals(m1[i].1, m2[l].1))
      {
        if Equals(m1[i].0, m2[j].0) && Equals(m1[i].1, m2[j].1) {
          found := true;
          break;
        }
        j := j + 1;
      }
      if !found {
        assert !HasEqualEntry(m2, m1[i]);
        return false;
      }
      i := i + 1;
    }
    return true;
  }

  /** Every value equals itself. */
  lemma {:induction false} EqualsReflexive(v: Value)
    ensures Equals(v, v)
  {
    match v
    case List(a) =>
      forall i | 0 <= i < |a| ensures Equals(a[i], a[i]) {
        EqualsReflexive(a[i]);
      }
    case Vector(a) =>
      forall i | 0 <= i < |a| ensures Equals(a[i], a[i]) {
        EqualsReflexive(a[i]);
      }
    case Map(m) =>
      forall i | 0 <= i < |m| ensures HasEqualEntry(m, m[i]) {
        EqualsReflexive(m[i].0);
        EqualsReflexive(m[i].1);
      }
    case _ =>
  }

  /** Equality is transitive, map containment included. */
  lemma {:induction false} EqualsTransitive(a: Value, b: Value, c: Value)
    requires Equals(a, b) && Equals(b, c)
    ensures Equals(a, c)
  {
    if a.List? || a.Vector? {
      var x, y, z := a.items, b.items, c.items;
      forall i | 0 <= i < |x| ensures Equals(x[i], z[i]) {
        EqualsTransitive(x[i], y[i], z[i]);
      }
    } else if a.Map? {
      var x, y, z := a.entries, b.entries, c.entries;
      forall i | 0 <= i < |x| ensures HasEqualEntry(z, x[i]) {
        EntryTransitive(x[i], y, z);
      }
    }
  }

  lemma {:induction false} EntryTransitive(e: (Value, Value), y: seq<(Value, Value)>, z: seq<(Value, Value)>)
    requires HasEqualEntry(y, e)
    requires forall j :: 0 <= j < |y| ==> HasEqualEntry(z, y[j])
    ensures HasEqualEntry(z, e)
    decreases e, 0
  {
    var j :| 0 <= j < |y| && Equals(e.0, y[j].0) && Equals(e.1, y[j].1);
    assert HasEqualEntry(z, y[j]);
    var k :| 0 <= k < |z| && Equals(y[j].0, z[k].0) && Equals(y[j].1, z[k].1);
    EqualsTransitive(e.0, y[j].0, z[k].0);
    EqualsTransitive(e.1, y[j].1, z[k].1);
  }

  /** A value with no Map anywhere inside it. */
  predicate MapFree(v: Value) {
    match v
    case List(a) => forall i :: 0 <= i < |a| ==> MapFree(a[i])
    case Vector(a) => forall i :: 0 <= i < |a| ==> MapFree(a[i])
    case Map(_) => false
    case _ => true
  }

  /** Without maps, Equals is exactly equality of the values themselves. */
  lemma {:induction false} EqualsIsIdentityWithoutMaps(v: Value, w: Value)
    requires MapFree(v)
    ensures Equals(v, w) <==> v == w
  {
    EqualsReflexive(v);
    if Equals(v, w) && (v.List? || v.Vector?) {
      var a, b := v.items, w.items;
      forall i | 0 <= i < |a| ensures a[i] == b[i] {
        EqualsIsIdentityWithoutMaps(a[i], b[i]);
      }
      assert a == b;
    }
  }

  /** Map equality is containment only: the empty map equals every map, not conversely. */
  lemma MapEqualsIsOneDirectional(m: seq<(Value, Value)>)
    ensures Equals(Map([]), Map(m))
    ensures m != [] ==> !Equals(Map(m), Map([]))
  {
    if m != [] {
      assert !HasEqualEntry([], m[0]);
    }
  }

  /** TestEqual (comparer_test.go:5-14). */
  lemma EqualTestCases()
    ensures Equals(Int(1), Int(1))
    ensures Equals(Float(Literal("2.5")), Float(Literal("2.5")))
    ensures Equals(Str("blah"), Str("blah"))
    ensures Equals(Symbol("+"), Symbol("+"))
    ensures Equals(Keyword("blahk"), Keyword("blahk"))
    ensures Equals(List([Int(1), Int(2), Str("blah"), Bool(true)]), List([Int(1), Int(2), Str("blah"), Bool(true)]))
    ensures Equals(Vector([Int(1), Int(2), Str("blah"), Bool(true)]), Vector([Int(1), Int(2), Str("blah"), Bool(true)]))
    ensures Equals(Map([(Int(1), Int(2)), (Str("blah"), List([Int(1), Int(2)]))]),
                   Map([(Int(1), Int(2)), (Str("blah"), List([Int(1), Int(2)]))]))
  {
    EqualsReflexive(List([Int(1), Int(2), Str("blah"), Bool(true)]));
    EqualsReflexive(Vector([Int(1), Int(2), Str("blah"), Bool(true)]));
    EqualsReflexive(Map([(Int(1), Int(2)), (Str("blah"), List([Int(1), Int(2)]))]));
  }

  /** TestNotEqual (comparer_test.go:16-25): a difference anywhere inside makes values unequal. */
  lemma NotEqualTestCases()
    ensures !Equals(Int(1), Int(2))
    ensures !Equals(Float(Literal("2.5")), Float(Literal("3.6")))
    ensures !Equals(Str("blah"), Str("bloo"))
    ensures !Equals(Symbol("+"), Symbol("-"))
    ensures !Equals(Keyword("blahk"), Keyword("blook"))
    ensures !Equals(List([Int(1), Int(2), Str("blah"), Bool(true)]), List([Int(1), Int(3), Str("blah"), Bool(false)]))
    ensures !Equals(Vector([Int(1), Int(2), Str("blah"), Bool(true)]), Vector([Int(1), Int(3), Str("blah"), Bool(false)]))
    ensures !Equals(Map([(Int(1), Int(2)), (Str("blah"), List([Int(1), Int(2)]))]),
                    Map([(Int(1), Int(2)), (Str("blah"), List([Int(1), Int(3)]))]))
  {
    var a, b := [Int(1), Int(2), Str("blah"), Bool(true)], [Int(1), Int(3), Str("blah"), Bool(false)];
    assert !Equals(a[1], b[1]);
    var m := [(Int(1), Int(2)), (Str("blah"), List([Int(1), Int(2)]))];
    var m' := [(Int(1), Int(2)), (Str("blah"), List([Int(1), Int(3)]))];
    assert !Equals(m[1].1, m'[1].1) by {
      var x, y := [Int(1), Int(2)], [Int(1), Int(3)];
      assert !Equals(x[1], y[1]);
    }
    assert !Equals(m[1].0, m'[0].0);
    assert !HasEqualEntry(m', m[1]);
  }

  /** TestTypeMismatch (comparer_test.go:27-32): values of different dynamic types are never equal. */
  lemma TypeMismatchTestCases()
    ensures !Equals(Int(1), Str("blah"))
    ensures !Equals(Symbol("blah"), Str("blah"))
    ensures !Equals(Symbol("blah"), Keyword("blah"))
    ensures !Equals(List([Int(1), Int(2), Str("blah"), Bool(true)]), Vector([Int(1), Int(2), Str("blah"), Bool(true)]))
  {
  }
}
