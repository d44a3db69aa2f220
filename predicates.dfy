/**
 * Predicate expressions over entities and `PredicateBuilder`. An
 * expression tree `x => ...` is an `Expr`. `Run` is what the compiled
 * delegate does for an element: its answer, or the
 * `NullReferenceException` of an instance call on a null member. `Eval` is
 * the answer the expression stands for, which `Run` gives whenever it does
 * not throw.
 */
module Predicates {
  import opened Common
  import opened Entities
  import opened Text

  datatype Expr =
    | Const(b: bool)                              // x => true, x => false
    | OrElse(left: Expr, right: Expr)
    | AndAlso(left: Expr, right: Expr)
    | ContainsCall(member: string, keyword: string)  // x.Member.Contains(keyword)
    | EqualsCall(member: string, value: Value, onReference: bool)
      // x.Member.Equals(value); `onReference` when the member's type is a
      // reference type (string), whose null value has no instance to call

  predicate Eval(e: Expr, x: Entity) {
    match e
    case Const(b) => b
    case OrElse(l, r) => Eval(l, x) || Eval(r, x)
    case AndAlso(l, r) => Eval(l, x) && Eval(r, x)
    case ContainsCall(m, k) => Field(x, m).Str? && ContainsText(Field(x, m).s, k)
    case EqualsCall(m, v, _) => Field(x, m) == v
  }

  /** `a || b` as `Expression.OrElse` runs it: `b` only when `a` answers false. */
  function OrElseRun(a: Result<bool, Error>, b: Result<bool, Error>): (r: Result<bool, Error>)
    ensures r.Success? && r.value <==> (a == Success(true) || (a == Success(false) && b == Success(true)))
    ensures a.Failure? ==> r == a
  {
    if a.Failure? || a.value then a else b
  }

  /** `a && b` as `Expression.AndAlso` runs it: `b` only when `a` answers true. */
  function AndAlsoRun(a: Result<bool, Error>, b: Result<bool, Error>): (r: Result<bool, Error>)
    ensures r.Success? && !r.value <==> (a == Success(false) || (a == Success(true) && b == Success(false)))
    ensures a.Failure? ==> r == a
  {
    if a.Failure? || !a.value then a else b
  }

  /**
   * The compiled delegate applied to `x`: left operands first, and a call
   * on a null reference throws. When it does not throw it answers what the
   * expression stands for.
   */
  function Run(e: Expr, x: Entity): (r: Result<bool, Error>)
    ensures r.Success? ==> r.value == Eval(e, x)
    ensures r.Failure? ==> r.error == NullReference
  {
    match e
    case Const(b) => Success(b)
    case OrElse(l, r) => OrElseRun(Run(l, x), Run(r, x))
    case AndAlso(l, r) => AndAlsoRun(Run(l, x), Run(r, x))
    case ContainsCall(m, k) => if Field(x, m).Null? then Failure(NullReference) else Success(Eval(e, x))
    case EqualsCall(m, v, onReference) =>
      if onReference && Field(x, m).Null? then Failure(NullReference) else Success(Eval(e, x))
  }

  /** `Runner(e)` is `e.Compile()`. */
  function Runner(e: Expr): Entity -> Result<bool, Error> {
    x => Run(e, x)
  }

  /** `PredicateBuilder.True`. */
  const True: Expr := Const(true)

  /** `PredicateBuilder.False`. */
  const False: Expr := Const(false)

  lemma TrueAndFalse(x: Entity)
    ensures Eval(True, x) && !Eval(False, x)
  {
  }

  /** `PredicateBuilder.Or`: null operands are rejected; otherwise the disjunction. */
  function Or(left: Option<Expr>, right: Option<Expr>): (r: Result<Expr, Error>)
    ensures r.Failure? <==> left.None? || right.None?
    ensures r.Failure? ==> r.error == ArgumentError
    ensures r.Success? ==> forall x :: Eval(r.value, x) == (Eval(left.value, x) || Eval(right.value, x))
  {
    if left.None? || right.None? then Failure(ArgumentError)
    else Success(OrElse(left.value, right.value))
  }

  /** `PredicateBuilder.And`: null operands are rejected; otherwise the conjunction. */
  function And(left: Option<Expr>, right: Option<Expr>): (r: Result<Expr, Error>)
    ensures r.Failure? <==> left.None? || right.None?
    ensures r.Failure? ==> r.error == ArgumentError
    ensures r.Success? ==> forall x :: Eval(r.value, x) == (Eval(left.value, x) && Eval(right.value, x))
  {
    if left.None? || right.None? then Failure(ArgumentError)
    else Success(AndAlso(left.value, right.value))
  }

  /** The seeds of the folds are neutral: `Or(False, p)` and `And(True, p)` accept what `p` accepts. */
  lemma SeedsAreNeutral(p: Expr, x: Entity)
    ensures Eval(Or(Some(False), Some(p)).value, x) == Eval(p, x)
    ensures Eval(And(Some(True), Some(p)).value, x) == Eval(p, x)
    ensures Run(Or(Some(False), Some(p)).value, x) == Run(p, x)
    ensures Run(And(Some(True), Some(p)).value, x) == Run(p, x)
  {
  }

  // ------------------------------------------------- short-circuit chains

  /**
   * `r0 || r1 || ...` evaluated left to right: the first operand that
   * throws or answers true decides; with none, false.
   */
  function AnyOf(rs: seq<Result<bool, Error>>): Result<bool, Error> {
    if rs == [] then Success(false) else OrElseRun(rs[0], AnyOf(rs[1..]))
  }

  /**
   * `r0 && r1 && ...` evaluated left to right: the first operand that
   * throws or answers false decides; with none, true.
   */
  function AllOf(rs: seq<Result<bool, Error>>): Result<bool, Error> {
    if rs == [] then Success(true) else AndAlsoRun(rs[0], AllOf(rs[1..]))
  }

  /** A disjunction chain throws iff some operand throws after only false answers. */
  lemma {:induction false} AnyOfFails(rs: seq<Result<bool, Error>>)
    ensures AnyOf(rs).Failure? <==>
      exists i :: 0 <= i < |rs| && rs[i].Failure? && forall j :: 0 <= j < i ==> rs[j] == Success(false)
    ensures AnyOf(rs).Failure? ==> exists i :: 0 <= i < |rs| && rs[i] == AnyOf(rs)
    ensures AnyOf(rs).Success? ==> (AnyOf(rs).value <==> exists i :: 0 <= i < |rs| && rs[i] == Success(true))
  {
    if rs != [] {
      AnyOfFails(rs[1..]);
      forall i | 0 < i < |rs| ensures rs[i] == rs[1..][i - 1] {}
      if rs[0] == Success(false) {
        if AnyOf(rs[1..]).Failure? {
          var i :| 0 <= i < |rs[1..]| && rs[1..][i].Failure? && forall j :: 0 <= j < i ==> rs[1..][j] == Success(false);
          assert rs[i + 1].Failure? && forall j :: 0 <= j < i + 1 ==> rs[j] == Success(false);
        }
      }
    }
  }

  /** A conjunction chain throws iff some operand throws after only true answers. */
  lemma {:induction false} AllOfFails(rs: seq<Result<bool, Error>>)
    ensures AllOf(rs).Failure? <==>
      exists i :: 0 <= i < |rs| && rs[i].Failure? && forall j :: 0 <= j < i ==> rs[j] == Success(true)
    ensures AllOf(rs).Failure? ==> exists i :: 0 <= i < |rs| && rs[i] == AllOf(rs)
    ensures AllOf(rs).Success? ==> (AllOf(rs).value <==> forall i :: 0 <= i < |rs| ==> rs[i] == Success(true))
  {
    if rs != [] {
      AllOfFails(rs[1..]);
      forall i | 0 < i < |rs| ensures rs[i] == rs[1..][i - 1] {}
      if rs[0] == Success(true) {
        if AllOf(rs[1..]).Failure? {
          var i :| 0 <= i < |rs[1..]| && rs[1..][i].Failure? && forall j :: 0 <= j < i ==> rs[1..][j] == Success(true);
          assert rs[i + 1].Failure? && forall j :: 0 <= j < i + 1 ==> rs[j] == Success(true);
        }
      }
    }
  }
}

/** `ExpressionExtensions.GetMemberExpression` over the body of a key selector. */
module MemberSelectors {
  import opened Common

  datatype Node =
    | MemberAccess(member: string)   // x.Member
    | Convert(operand: Node)         // (object)operand
    | OtherNode(nodeType: nat)       // any other expression node

  /** The selected member, `None` for a conversion of something that is not a member access. */
  function GetMemberExpression(body: Node): (r: Result<Option<string>, Error>)
    ensures body.MemberAccess? ==> r == Success(Some(body.member))
    ensures body.Convert? && body.operand.MemberAccess? ==> r == Success(Some(body.operand.member))
    ensures body.Convert? && !body.operand.MemberAccess? ==> r == Success(None)
    ensures body.OtherNode? ==> r == Failure(ArgumentError)
  {
    match body
    case Convert(operand) => Success(if operand.MemberAccess? then Some(operand.member) else None)
    case MemberAccess(m) => Success(Some(m))
    case OtherNode(_) => Failure(ArgumentError)
  }

  /**
   * `memberExpression?.Member.Name ?? throw new InvalidOperationException()`,
   * as every option builder derives its property name from a selector.
   */
  function SelectorPropertyName(body: Node): (r: Result<string, Error>)
    ensures r.Success? <==> body.MemberAccess? || (body.Convert? && body.operand.MemberAccess?)
    ensures r.Success? ==> r.value == if body.MemberAccess? then body.member else body.operand.member
    ensures body.OtherNode? ==> r == Failure(ArgumentError)
    ensures body.Convert? && !body.operand.MemberAccess? ==> r == Failure(InvalidOperation)
  {
    match GetMemberExpression(body)
    case Failure(e) => Failure(e)
    case Success(None) => Failure(InvalidOperation)
    case Success(Some(name)) => Success(name)
  }
}
