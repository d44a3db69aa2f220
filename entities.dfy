/**
 * The records the query layer and the entity managers work on. An entity
 * is its `Id` plus the values of its other public properties by name.
 */
module Entities {

  /**
   * Values of the simple-typed properties the query layer reads, other than
   * `double` and `float` ones, which have no variant here. A `char` is its code.
   */
  datatype Value = Null | Bool(b: bool) | Int(i: int) | Date(ticks: int) | Str(s: string)

  datatype Entity = Entity(id: int, props: map<string, Value>)

  const IdProperty: string := "Id"

  /** Reading a property by its exact name; an absent property reads as null. */
  function Field(x: Entity, name: string): Value {
    if name == IdProperty then Int(x.id)
    else if name in x.props then x.props[name]
    else Null
  }

  /** Ordinal lexicographic order on strings. */
  predicate StrLe(a: string, b: string)
    decreases |a|
  {
    a == [] || (b != [] && (a[0] < b[0] || (a[0] == b[0] && StrLe(a[1..], b[1..]))))
  }

  function Rank(v: Value): nat {
    match v
    case Null => 0
    case Bool(_) => 1
    case Int(_) => 2
    case Date(_) => 3
    case Str(_) => 4
  }

  /**
   * The order `Comparer<object>.Default` puts two sort keys in: null first,
   * then each kind by its own order. Keys of one property are of one kind,
   * so the order across kinds never decides a comparison.
   */
  predicate ValueLe(a: Value, b: Value) {
    if Rank(a) != Rank(b) then Rank(a) < Rank(b)
    else match a
      case Null => true
      case Bool(x) => !x || b.b
      case Int(x) => x <= b.i
      case Date(x) => x <= b.ticks
      case Str(x) => StrLe(x, b.s)
  }

  lemma {:induction false} StrLeReflexive(a: string)
    ensures StrLe(a, a)
  {
    if a != [] { StrLeReflexive(a[1..]); }
  }

  lemma {:induction false} StrLeTotal(a: string, b: string)
    ensures StrLe(a, b) || StrLe(b, a)
  {
    if a != [] && b != [] && a[0] == b[0] { StrLeTotal(a[1..], b[1..]); }
  }

  lemma {:induction false} StrLeTransitive(a: string, b: string, c: string)
    requires StrLe(a, b) && StrLe(b, c)
    ensures StrLe(a, c)
  {
    if a != [] && b != [] && c != [] && a[0] == b[0] && b[0] == c[0] {
      StrLeTransitive(a[1..], b[1..], c[1..]);
    }
  }

  lemma {:induction false} StrLeAntisymmetric(a: string, b: string)
    requires StrLe(a, b) && StrLe(b, a)
    ensures a == b
  {
    if a != [] && b != [] {
      StrLeAntisymmetric(a[1..], b[1..]);
      assert a == [a[0]] + a[1..] && b == [b[0]] + b[1..];
    }
  }

  /** The key order is a total order: reflexive, total, transitive and antisymmetric. */
  lemma ValueLeTotalOrder(a: Value, b: Value, c: Value)
    ensures ValueLe(a, a)
    ensures ValueLe(a, b) || ValueLe(b, a)
    ensures ValueLe(a, b) && ValueLe(b, c) ==> ValueLe(a, c)
    ensures ValueLe(a, b) && ValueLe(b, a) ==> a == b
  {
    if a.Str? { StrLeReflexive(a.s); }
    if a.Str? && b.Str? {
      StrLeTotal(a.s, b.s);
      if StrLe(a.s, b.s) && StrLe(b.s, a.s) { StrLeAntisymmetric(a.s, b.s); }
    }
    if a.Str? && b.Str? && c.Str? && StrLe(a.s, b.s) && StrLe(b.s, c.s) {
      StrLeTransitive(a.s, b.s, c.s);
    }
  }
}
