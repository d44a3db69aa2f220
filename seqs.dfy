/** Sequence operations with the meaning LINQ gives them. */
module Seqs {
  import opened Common

  /** `sub` is `s` with some elements deleted, order kept. */
  ghost predicate IsSubsequence<T>(sub: seq<T>, s: seq<T>)
    decreases |s|
  {
    sub == [] ||
    (s != [] && ((sub[0] == s[0] && IsSubsequence(sub[1..], s[1..])) || IsSubsequence(sub, s[1..])))
  }

  /** `Where`: the elements of `s` that satisfy `p`, in their order. */
  function Filter<T>(s: seq<T>, p: T -> bool): (r: seq<T>)
    ensures |r| <= |s|
    ensures forall i :: 0 <= i < |r| ==> r[i] in s && p(r[i])
    ensures forall i :: 0 <= i < |s| && p(s[i]) ==> s[i] in r
    ensures IsSubsequence(r, s)
  {
    if s == [] then []
    else if p(s[0]) then [s[0]] + Filter(s[1..], p)
    else Filter(s[1..], p)
  }

  /** A predicate every element satisfies keeps the whole sequence. */
  lemma {:induction false} FilterAll<T>(s: seq<T>, p: T -> bool)
    requires forall i :: 0 <= i < |s| ==> p(s[i])
    ensures Filter(s, p) == s
  {
    if s != [] {
      FilterAll(s[1..], p);
      assert s == [s[0]] + s[1..];
    }
  }

  /** A predicate no element satisfies keeps nothing. */
  lemma {:induction false} FilterNone<T>(s: seq<T>, p: T -> bool)
    requires forall i :: 0 <= i < |s| ==> !p(s[i])
    ensures Filter(s, p) == []
  {
    if s != [] {
      FilterNone(s[1..], p);
    }
  }

  /** `Where(p).FirstOrDefault()` is `FirstOrDefault(p)`. */
  lemma {:induction false} FilterFirst<T>(s: seq<T>, p: T -> bool)
    ensures Filter(s, p) == [] <==> FirstWhere(s, p).None?
    ensures Filter(s, p) != [] ==> FirstWhere(s, p) == Some(Filter(s, p)[0])
  {
    if s != [] && !p(s[0]) {
      FilterFirst(s[1..], p);
      assert FirstWhere(s, p) == FirstWhere(s[1..], p);
    }
  }

  /** `r` occurs in `s` as the contiguous slice starting at index `k`. */
  ghost predicate IsSliceAt<T>(r: seq<T>, s: seq<T>, k: int) {
    0 <= k <= |s| - |r| && r == s[k..k + |r|]
  }

  /** `Skip(n)`: a non-positive count skips nothing, a count past the end leaves nothing. */
  function Skip<T>(s: seq<T>, n: int): seq<T> {
    if n <= 0 then s else if n >= |s| then [] else s[n..]
  }

  /** `Take(n)`: a non-positive count takes nothing, a count past the end takes everything. */
  function Take<T>(s: seq<T>, n: int): seq<T> {
    if n <= 0 then [] else if n >= |s| then s else s[..n]
  }

  /** The index of the first element satisfying `p` (`FirstOrDefault` by position). */
  function FirstIndex<T>(s: seq<T>, p: T -> bool): (r: Option<nat>)
    ensures r.None? <==> forall i :: 0 <= i < |s| ==> !p(s[i])
    ensures r.Some? ==> r.value < |s| && p(s[r.value]) && forall j :: 0 <= j < r.value ==> !p(s[j])
  {
    if s == [] then None
    else if p(s[0]) then Some(0)
    else match FirstIndex(s[1..], p)
      case None => None
      case Some(i) => Some(i + 1)
  }

  /** `FirstOrDefault(p)`, with `None` for the default. */
  function FirstWhere<T>(s: seq<T>, p: T -> bool): (r: Option<T>)
    ensures r.None? <==> forall i :: 0 <= i < |s| ==> !p(s[i])
    ensures r.Some? ==> exists i :: 0 <= i < |s| && s[i] == r.value && p(s[i]) && forall j :: 0 <= j < i ==> !p(s[j])
  {
    match FirstIndex(s, p)
    case None => None
    case Some(i) => Some(s[i])
  }

  /**
   * `Distinct()` as .NET enumerates it: each element the first time it is
   * met, skipping those already in `seen`.
   */
  function DistinctExcept<T(==)>(s: seq<T>, seen: set<T>): (r: seq<T>)
    ensures forall i :: 0 <= i < |r| ==> r[i] in s && r[i] !in seen
    ensures forall i :: 0 <= i < |s| && s[i] !in seen ==> s[i] in r
    ensures forall i, j :: 0 <= i < j < |r| ==> r[i] != r[j]
    ensures IsSubsequence(r, s)
  {
    if s == [] then []
    else if s[0] in seen then DistinctExcept(s[1..], seen)
    else [s[0]] + DistinctExcept(s[1..], seen + {s[0]})
  }

  function Distinct<T(==)>(s: seq<T>): seq<T> {
    DistinctExcept(s, {})
  }

  /** How many elements of `s` the delegate `keep` accepts without throwing. */
  function KeptCount<T, E>(s: seq<T>, keep: T -> Result<bool, E>): (r: nat)
    ensures r <= |s|
  {
    if s == [] then 0 else (if keep(s[0]) == Success(true) then 1 else 0) + KeptCount(s[1..], keep)
  }

  /**
   * `Select(f).ToList()`: every image in order, or the first exception
   * `f` throws.
   */
  function Collect<A, B, E>(xs: seq<A>, f: A -> Result<B, E>): (r: Result<seq<B>, E>)
    ensures r.Success? <==> forall i :: 0 <= i < |xs| ==> f(xs[i]).Success?
    ensures r.Success? ==> |r.value| == |xs| && forall i :: 0 <= i < |xs| ==> f(xs[i]) == Success(r.value[i])
    ensures r.Failure? ==> exists i :: 0 <= i < |xs| && f(xs[i]) == Failure(r.error)
  {
    if xs == [] then Success([])
    else
      assert forall i :: 1 <= i < |xs| ==> xs[i] == xs[1..][i - 1];
      match f(xs[0])
      case Failure(e) => Failure(e)
      case Success(y) =>
        match Collect(xs[1..], f)
        case Failure(e) => Failure(e)
        case Success(ys) => Success([y] + ys)
  }

  /**
   * `Where(keep).Take(limit)` enumerated to the end: elements are pulled in
   * order until `limit` of them have been kept, so none after that point
   * is evaluated; the first exception `keep` throws is the result.
   */
  function WhereTake<T, E>(s: seq<T>, keep: T -> Result<bool, E>, limit: nat): (r: Result<seq<T>, E>)
    ensures r.Success? ==> |r.value| <= limit && IsSubsequence(r.value, s)
    ensures r.Failure? ==> exists i :: 0 <= i < |s| && keep(s[i]) == Failure(r.error)
  {
    if s == [] || limit == 0 then Success([])
    else match keep(s[0])
      case Failure(e) => Failure(e)
      case Success(false) => WhereTake(s[1..], keep, limit)
      case Success(true) =>
        match WhereTake(s[1..], keep, limit - 1)
        case Failure(e) => Failure(e)
        case Success(rest) => Success([s[0]] + rest)
  }

  /**
   * The scan throws iff it reaches an element that throws: one before
   * which fewer than `limit` elements have been kept.
   */
  lemma {:induction false} WhereTakeFails<T, E>(s: seq<T>, keep: T -> Result<bool, E>, limit: nat)
    ensures WhereTake(s, keep, limit).Failure? <==>
      exists i :: 0 <= i < |s| && keep(s[i]).Failure? && KeptCount(s[..i], keep) < limit
  {
    if s != [] && limit > 0 {
      var limit' := if keep(s[0]) == Success(true) then limit - 1 else limit;
      WhereTakeFails(s[1..], keep, limit');
      forall i | 0 < i <= |s|
        ensures KeptCount(s[..i], keep) == (if keep(s[0]) == Success(true) then 1 else 0) + KeptCount(s[1..][..i - 1], keep)
      {
        assert s[..i][1..] == s[1..][..i - 1];
      }
      if keep(s[0]).Success? && WhereTake(s[1..], keep, limit').Failure? {
        var i :| 0 <= i < |s[1..]| && keep(s[1..][i]).Failure? && KeptCount(s[1..][..i], keep) < limit';
        assert keep(s[i + 1]).Failure? && KeptCount(s[..i + 1], keep) < limit;
      }
      if keep(s[0]).Success? && exists i :: 0 <= i < |s| && keep(s[i]).Failure? && KeptCount(s[..i], keep) < limit {
        var i :| 0 <= i < |s| && keep(s[i]).Failure? && KeptCount(s[..i], keep) < limit;
        assert i > 0;
        assert keep(s[1..][i - 1]).Failure? && KeptCount(s[1..][..i - 1], keep) < limit';
      }
    }
  }

  /**
   * When no element throws the scan meets nothing to throw: every element
   * is scanned, and the count does not matter.
   */
  lemma WhereTakeTotal<T, E>(s: seq<T>, keep: T -> Result<bool, E>, limit: nat)
    requires forall i :: 0 <= i < |s| ==> keep(s[i]).Success?
    ensures WhereTake(s, keep, limit).Success?
  {
    WhereTakeFails(s, keep, limit);
  }

  /**
   * A scan that does not throw keeps the first `limit` elements satisfying
   * any predicate `p` that agrees with every answer `keep` gives.
   */
  lemma {:induction false} WhereTakeKeeps<T, E>(s: seq<T>, keep: T -> Result<bool, E>, limit: nat, p: T -> bool)
    requires forall i :: 0 <= i < |s| && keep(s[i]).Success? ==> keep(s[i]).value == p(s[i])
    requires WhereTake(s, keep, limit).Success?
    ensures WhereTake(s, keep, limit).value == Take(Filter(s, p), limit)
  {
    if s != [] && limit > 0 {
      forall i | 0 <= i < |s[1..]| && keep(s[1..][i]).Success?
        ensures keep(s[1..][i]).value == p(s[1..][i])
      {
        assert s[1..][i] == s[i + 1];
      }
      if p(s[0]) {
        WhereTakeKeeps(s[1..], keep, limit - 1, p);
        var f := Filter(s[1..], p);
        assert Filter(s, p) == [s[0]] + f;
        if limit - 1 < |f| {
          assert Take([s[0]] + f, limit) == [s[0]] + f[..limit - 1];
        }
      } else {
        WhereTakeKeeps(s[1..], keep, limit, p);
      }
    }
  }

  /** Taking `|s|` elements or more takes everything. */
  lemma TakeAll<T>(s: seq<T>, n: int)
    requires n >= |s|
    ensures Take(s, n) == s
  {
  }

  /** Predicates that agree on every element of `s` keep the same elements. */
  lemma {:induction false} FilterSame<T>(s: seq<T>, p: T -> bool, q: T -> bool)
    requires forall i :: 0 <= i < |s| ==> p(s[i]) == q(s[i])
    ensures Filter(s, p) == Filter(s, q)
  {
    if s != [] {
      assert forall i :: 0 <= i < |s[1..]| ==> s[1..][i] == s[i + 1];
      FilterSame(s[1..], p, q);
    }
  }

  /** Delegates that agree on every element of `s` keep the same count. */
  lemma {:induction false} KeptCountSame<T, E>(s: seq<T>, f: T -> Result<bool, E>, g: T -> Result<bool, E>)
    requires forall i :: 0 <= i < |s| ==> f(s[i]) == g(s[i])
    ensures KeptCount(s, f) == KeptCount(s, g)
  {
    if s != [] {
      assert forall i :: 0 <= i < |s[1..]| ==> s[1..][i] == s[i + 1];
      KeptCountSame(s[1..], f, g);
    }
  }
}
