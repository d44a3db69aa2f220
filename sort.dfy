/**
 * The stable sort `OrderBy`/`OrderByDescending` perform on in-memory
 * sources, by a key of the `Value` kind, as an insertion sort: each
 * element goes before the first element of the sorted rest that it may
 * precede, so equal keys keep their source order.
 */
module StableSort {
  import opened Entities

  /** `a` may come before `b` in the requested direction. */
  predicate Le(a: Value, b: Value, ascending: bool) {
    if ascending then ValueLe(a, b) else ValueLe(b, a)
  }

  lemma LeTotalPreorder(a: Value, b: Value, c: Value, ascending: bool)
    ensures Le(a, a, ascending)
    ensures Le(a, b, ascending) || Le(b, a, ascending)
    ensures Le(a, b, ascending) && Le(b, c, ascending) ==> Le(a, c, ascending)
  {
    ValueLeTotalOrder(a, b, c);
    ValueLeTotalOrder(c, b, a);
  }

  function Insert<T>(x: T, t: seq<T>, key: T -> Value, ascending: bool): seq<T> {
    if t == [] then [x]
    else if Le(key(x), key(t[0]), ascending) then [x] + t
    else [t[0]] + Insert(x, t[1..], key, ascending)
  }

  function SortBy<T>(s: seq<T>, key: T -> Value, ascending: bool): seq<T> {
    if s == [] then [] else Insert(s[0], SortBy(s[1..], key, ascending), key, ascending)
  }

  predicate Sorted<T>(s: seq<T>, key: T -> Value, ascending: bool) {
    forall i, j :: 0 <= i < j < |s| ==> Le(key(s[i]), key(s[j]), ascending)
  }

  /** The elements of `s` whose key is `v`, in their order. */
  function WithKey<T>(s: seq<T>, key: T -> Value, v: Value): seq<T> {
    if s == [] then []
    else if key(s[0]) == v then [s[0]] + WithKey(s[1..], key, v)
    else WithKey(s[1..], key, v)
  }

  /** Stable: every run of equal keys appears in the same order as in the source. */
  ghost predicate StableFrom<T>(r: seq<T>, s: seq<T>, key: T -> Value) {
    forall v :: WithKey(r, key, v) == WithKey(s, key, v)
  }

  lemma {:induction false} InsertPermutation<T>(x: T, t: seq<T>, key: T -> Value, ascending: bool)
    ensures multiset(Insert(x, t, key, ascending)) == multiset(t) + multiset{x}
  {
    if t != [] && !Le(key(x), key(t[0]), ascending) {
      InsertPermutation(x, t[1..], key, ascending);
      assert t == [t[0]] + t[1..];
    }
  }

  lemma {:induction false} InsertSorted<T>(x: T, t: seq<T>, key: T -> Value, ascending: bool)
    requires Sorted(t, key, ascending)
    ensures Sorted(Insert(x, t, key, ascending), key, ascending)
    ensures forall i :: 0 <= i < |Insert(x, t, key, ascending)| ==>
      Insert(x, t, key, ascending)[i] == x || Insert(x, t, key, ascending)[i] in t
  {
    var r := Insert(x, t, key, ascending);
    if t == [] {
    } else if Le(key(x), key(t[0]), ascending) {
      forall i, j | 0 <= i < j < |r|
        ensures Le(key(r[i]), key(r[j]), ascending)
      {
        if i == 0 {
          LeTotalPreorder(key(x), key(t[0]), key(r[j]), ascending);
        }
      }
    } else {
      var rest := Insert(x, t[1..], key, ascending);
      InsertSorted(x, t[1..], key, ascending);
      assert r == [t[0]] + rest;
      forall i, j | 0 <= i < j < |r|
        ensures Le(key(r[i]), key(r[j]), ascending)
      {
        if i == 0 {
          var y := rest[j - 1];
          if y == x {
            LeTotalPreorder(key(x), key(t[0]), key(t[0]), ascending);
          } else {
            var k :| 1 <= k < |t| && t[k] == y;
          }
        }
      }
    }
  }

  lemma {:induction false} InsertStable<T>(x: T, t: seq<T>, key: T -> Value, ascending: bool, v: Value)
    ensures WithKey(Insert(x, t, key, ascending), key, v) ==
      (if key(x) == v then [x] else []) + WithKey(t, key, v)
  {
    var r := Insert(x, t, key, ascending);
    if t == [] {
      assert r[1..] == [];
    } else if Le(key(x), key(t[0]), ascending) {
      assert r[1..] == t;
    } else {
      LeTotalPreorder(key(x), key(t[0]), key(t[0]), ascending);
      InsertStable(x, t[1..], key, ascending, v);
      assert r[1..] == Insert(x, t[1..], key, ascending);
    }
  }

  /** The sort is a permutation, sorted in the requested direction, and stable. */
  lemma {:induction false} SortByCorrect<T>(s: seq<T>, key: T -> Value, ascending: bool)
    ensures multiset(SortBy(s, key, ascending)) == multiset(s)
    ensures Sorted(SortBy(s, key, ascending), key, ascending)
    ensures StableFrom(SortBy(s, key, ascending), s, key)
  {
    if s != [] {
      var rest := SortBy(s[1..], key, ascending);
      SortByCorrect(s[1..], key, ascending);
      InsertPermutation(s[0], rest, key, ascending);
      InsertSorted(s[0], rest, key, ascending);
      assert s == [s[0]] + s[1..];
      forall v
        ensures WithKey(SortBy(s, key, ascending), key, v) == WithKey(s, key, v)
      {
        InsertStable(s[0], rest, key, ascending, v);
      }
    }
  }

  /** Keys that are all equal leave the source as it is. */
  lemma {:induction false} SortByEqualKeys<T>(s: seq<T>, key: T -> Value, ascending: bool, v: Value)
    requires forall i :: 0 <= i < |s| ==> key(s[i]) == v
    ensures SortBy(s, key, ascending) == s
  {
    if s != [] {
      SortByEqualKeys(s[1..], key, ascending, v);
      LeTotalPreorder(v, v, v, ascending);
    }
  }
}
