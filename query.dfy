/**
 * `QueryExtensions`: search, filter, sort and pagination of an in-memory
 * source of entities, and `ApplyQuery`, which runs them in that order. The
 * entity type is described by its public properties `props`; the compiled
 * predicates of the expression trees are `Eval` of an `Expr`.
 */
module Query {
  import opened Common
  import opened Seqs
  import opened Text
  import opened Entities
  import opened QueryRecords
  import opened TypeModel
  import opened Predicates
  import opened StableSort
  import opened PaginationOptionsModel
  import Int32
  import PaginationExtension

  // ---------------------------------------------------------------- folds

  /** `predicates.ForEach(x => acc = PredicateBuilder.Or(acc, x))`. */
  function FoldOr(acc: Expr, ps: seq<Expr>): Expr
    decreases |ps|
  {
    if ps == [] then acc else FoldOr(Or(Some(acc), Some(ps[0])).value, ps[1..])
  }

  /** `predicates.ForEach(x => acc = PredicateBuilder.And(acc, x))`. */
  function FoldAnd(acc: Expr, ps: seq<Expr>): Expr
    decreases |ps|
  {
    if ps == [] then acc else FoldAnd(And(Some(acc), Some(ps[0])).value, ps[1..])
  }

  /** Folding with `Or` accepts what the seed or one of the predicates accepts. */
  lemma {:induction false} FoldOrEval(acc: Expr, ps: seq<Expr>, x: Entity)
    ensures Eval(FoldOr(acc, ps), x) <==> Eval(acc, x) || exists i :: 0 <= i < |ps| && Eval(ps[i], x)
    decreases |ps|
  {
    if ps != [] {
      var next := Or(Some(acc), Some(ps[0])).value;
      FoldOrEval(next, ps[1..], x);
      if exists i :: 0 <= i < |ps| && Eval(ps[i], x) {
        var i :| 0 <= i < |ps| && Eval(ps[i], x);
        if i > 0 { assert ps[1..][i - 1] == ps[i]; }
      }
    }
  }

  /** Folding with `And` accepts what the seed and all the predicates accept. */
  lemma {:induction false} FoldAndEval(acc: Expr, ps: seq<Expr>, x: Entity)
    ensures Eval(FoldAnd(acc, ps), x) <==> Eval(acc, x) && forall i :: 0 <= i < |ps| ==> Eval(ps[i], x)
    decreases |ps|
  {
    if ps != [] {
      var next := And(Some(acc), Some(ps[0])).value;
      FoldAndEval(next, ps[1..], x);
      if !forall i :: 0 <= i < |ps| ==> Eval(ps[i], x) {
        var i :| 0 <= i < |ps| && !Eval(ps[i], x);
        if i > 0 { assert ps[1..][i - 1] == ps[i]; }
      }
    }
  }

  /** The answers of the compiled predicates `ps` for `x`, in order. */
  function Runs(ps: seq<Expr>, x: Entity): (r: seq<Result<bool, Error>>)
    ensures |r| == |ps| && forall i :: 0 <= i < |ps| ==> r[i] == Run(ps[i], x)
  {
    seq(|ps|, i requires 0 <= i < |ps| => Run(ps[i], x))
  }

  /** The `Or` fold runs the seed, then the predicates in order, until one throws or answers true. */
  lemma {:induction false} FoldOrRun(acc: Expr, ps: seq<Expr>, x: Entity)
    ensures Run(FoldOr(acc, ps), x) == OrElseRun(Run(acc, x), AnyOf(Runs(ps, x)))
    decreases |ps|
  {
    if ps != [] {
      var next := Or(Some(acc), Some(ps[0])).value;
      FoldOrRun(next, ps[1..], x);
      assert Runs(ps, x)[1..] == Runs(ps[1..], x);
    }
  }

  /** The `And` fold runs the seed, then the predicates in order, until one throws or answers false. */
  lemma {:induction false} FoldAndRun(acc: Expr, ps: seq<Expr>, x: Entity)
    ensures Run(FoldAnd(acc, ps), x) == AndAlsoRun(Run(acc, x), AllOf(Runs(ps, x)))
    decreases |ps|
  {
    if ps != [] {
      var next := And(Some(acc), Some(ps[0])).value;
      FoldAndRun(next, ps[1..], x);
      assert Runs(ps, x)[1..] == Runs(ps[1..], x);
    }
  }

  // ----------------------------------------------------------- evaluating

  /** The predicate an expression stands for. */
  function Accepts(e: Expr): Entity -> bool {
    x => Eval(e, x)
  }

  /**
   * `Where(e.Compile())` enumerated to the end: the elements `e` accepts,
   * in order, or the exception of the first element whose evaluation
   * throws.
   */
  function Where(s: seq<Entity>, e: Expr): (r: Result<seq<Entity>, Error>)
    ensures r.Failure? <==> exists i :: 0 <= i < |s| && Run(e, s[i]).Failure?
    ensures r.Failure? ==> r.error == NullReference
    ensures r.Success? ==> r.value == Filter(s, Accepts(e))
  {
    WhereTakeFails(s, Runner(e), |s|);
    if WhereTake(s, Runner(e), |s|).Success? then
      WhereTakeKeeps(s, Runner(e), |s|, Accepts(e));
      WhereTake(s, Runner(e), |s|)
    else
      WhereTake(s, Runner(e), |s|)
  }

  // ------------------------------------------------------------ searching

  /**
   * The predicate for one searchable property: `Contains(keyword)` on a
   * string property. For any other type the compare method is `Equals` and
   * `Expression.Constant(keyword, type)` rejects a string keyword.
   */
  function SearchPredicate(p: Property, keyword: string): (r: Result<Expr, Error>)
    requires IsSearchable(p)
    ensures r.Success? <==> p.propertyType == StringType
    ensures r.Failure? ==> r.error == ArgumentError
    ensures r.Success? ==> forall x :: Eval(r.value, x) <==> KeywordIn(Field(x, p.name), keyword)
    ensures r.Success? ==> forall x :: Run(r.value, x) == KeywordRun(Field(x, p.name), keyword)
  {
    match GetCompareMethod(Some(p.propertyType), true)
    case Failure(e) => Failure(e)
    case Success(ContainsMethod) => Success(ContainsCall(p.name, keyword))
    case Success(EqualsMethod) => Failure(ArgumentError)
  }

  /** A string value containing the keyword. */
  predicate KeywordIn(v: Value, keyword: string) {
    v.Str? && ContainsText(v.s, keyword)
  }

  /** `value.Contains(keyword)` as an instance call: on a null string it throws. */
  function KeywordRun(v: Value, keyword: string): Result<bool, Error> {
    if v.Null? then Failure(NullReference) else Success(KeywordIn(v, keyword))
  }

  /** `searchableProperties.Select(...).ToList()`: all predicates, or the first failure. */
  function SearchPredicates(ps: seq<Property>, keyword: string): (r: Result<seq<Expr>, Error>)
    requires forall i :: 0 <= i < |ps| ==> IsSearchable(ps[i])
    ensures r.Success? <==> forall i :: 0 <= i < |ps| ==> ps[i].propertyType == StringType
    ensures r.Failure? ==> r.error == ArgumentError
    ensures r.Success? ==> |r.value| == |ps|
    ensures r.Success? ==> forall i :: 0 <= i < |ps| ==> SearchPredicate(ps[i], keyword) == Success(r.value[i])
  {
    if ps == [] then Success([])
    else match SearchPredicate(ps[0], keyword)
      case Failure(e) => Failure(e)
      case Success(e) =>
        match SearchPredicates(ps[1..], keyword)
        case Failure(e') => Failure(e')
        case Success(rest) => Success([e] + rest)
  }

  /** `GetSearchExpression`: the `Or` of the property predicates, seeded with `False`. */
  function GetSearchExpression(search: Option<SearchOptions>, props: seq<Property>): (r: Result<Expr, Error>)
    ensures search.None? ==> r == Failure(ArgumentError)
    ensures search.Some? ==> (r.Success? <==> AllSearchableAreStrings(props))
    ensures r.Failure? ==> r.error == ArgumentError
  {
    match search
    case None => Failure(ArgumentError)
    case Some(options) =>
      var searchable := SearchableProperties(props);
      match SearchPredicates(searchable, options.keyword)
      case Failure(e) => Failure(e)
      case Success(ps) => Success(FoldOr(False, ps))
  }

  predicate AllSearchableAreStrings(props: seq<Property>) {
    forall i :: 0 <= i < |props| && IsSearchable(props[i]) ==> props[i].propertyType == StringType
  }

  /** What a search keeps: some searchable property's value contains the keyword. */
  predicate SearchMatches(props: seq<Property>, keyword: string, x: Entity) {
    exists i :: 0 <= i < |props| && IsSearchable(props[i]) && KeywordIn(Field(x, props[i].name), keyword)
  }

  /**
   * The search evaluated on `x`: the searchable properties in declaration
   * order, each `Contains` tried until one holds or throws.
   */
  function SearchRun(props: seq<Property>, keyword: string, x: Entity): Result<bool, Error> {
    AnyOf(KeywordRuns(SearchableProperties(props), keyword, x))
  }

  /** `Contains` on each of the properties `ps` of `x`, in order. */
  function KeywordRuns(ps: seq<Property>, keyword: string, x: Entity): (r: seq<Result<bool, Error>>)
    ensures |r| == |ps| && forall i :: 0 <= i < |ps| ==> r[i] == KeywordRun(Field(x, ps[i].name), keyword)
  {
    seq(|ps|, i requires 0 <= i < |ps| => KeywordRun(Field(x, ps[i].name), keyword))
  }

  /**
   * The search throws on `x`: the first searchable property that is null
   * or contains the keyword is null. Properties after a match are never
   * read.
   */
  predicate SearchThrows(props: seq<Property>, keyword: string, x: Entity) {
    var searchable := SearchableProperties(props);
    exists i :: 0 <= i < |searchable| && Field(x, searchable[i].name).Null? &&
      forall j :: 0 <= j < i ==> !Field(x, searchable[j].name).Null? && !KeywordIn(Field(x, searchable[j].name), keyword)
  }

  /**
   * The search expression stands for `SearchMatches`; compiled, it runs as
   * `SearchRun`, which throws exactly when `SearchThrows` and otherwise
   * answers `SearchMatches`.
   */
  lemma GetSearchExpressionMeaning(search: SearchOptions, props: seq<Property>, x: Entity)
    requires GetSearchExpression(Some(search), props).Success?
    ensures Eval(GetSearchExpression(Some(search), props).value, x) <==> SearchMatches(props, search.keyword, x)
    ensures Run(GetSearchExpression(Some(search), props).value, x) == SearchRun(props, search.keyword, x)
    ensures SearchRun(props, search.keyword, x).Failure? <==> SearchThrows(props, search.keyword, x)
    ensures SearchRun(props, search.keyword, x).Success? ==> (SearchRun(props, search.keyword, x).value <==> SearchMatches(props, search.keyword, x))
  {
    SearchExpressionRuns(search, props, x);
    SearchRunFails(props, search.keyword, x);
    SearchExpressionMeans(search, props, x);
  }

  /** The search expression accepts exactly what `SearchMatches` describes. */
  lemma SearchExpressionMeans(search: SearchOptions, props: seq<Property>, x: Entity)
    requires GetSearchExpression(Some(search), props).Success?
    ensures Eval(GetSearchExpression(Some(search), props).value, x) <==> SearchMatches(props, search.keyword, x)
  {
    var searchable := SearchableProperties(props);
    var ps := SearchPredicates(searchable, search.keyword).value;
    assert GetSearchExpression(Some(search), props).value == FoldOr(False, ps);
    FoldOrEval(False, ps, x);
    TrueAndFalse(x);
    forall j | 0 <= j < |ps|
      ensures Eval(ps[j], x) <==> KeywordIn(Field(x, searchable[j].name), search.keyword)
    {
      assert SearchPredicate(searchable[j], search.keyword) == Success(ps[j]);
    }
    SearchableMatches(props, search.keyword, x);
  }

  /** Some property contains the keyword iff some searchable property, in the searchable list, does. */
  lemma SearchableMatches(props: seq<Property>, keyword: string, x: Entity)
    ensures var searchable := SearchableProperties(props);
      SearchMatches(props, keyword, x) <==> exists j :: 0 <= j < |searchable| && KeywordIn(Field(x, searchable[j].name), keyword)
  {
    var searchable := SearchableProperties(props);
    if SearchMatches(props, keyword, x) {
      var i :| 0 <= i < |props| && IsSearchable(props[i]) && KeywordIn(Field(x, props[i].name), keyword);
      var j :| 0 <= j < |searchable| && searchable[j] == props[i];
    }
    if exists j :: 0 <= j < |searchable| && KeywordIn(Field(x, searchable[j].name), keyword) {
      var j :| 0 <= j < |searchable| && KeywordIn(Field(x, searchable[j].name), keyword);
      var i :| 0 <= i < |props| && props[i] == searchable[j];
    }
  }


  lemma SearchExpressionRuns(search: SearchOptions, props: seq<Property>, x: Entity)
    requires GetSearchExpression(Some(search), props).Success?
    ensures Run(GetSearchExpression(Some(search), props).value, x) == SearchRun(props, search.keyword, x)
  {
    var searchable := SearchableProperties(props);
    var ps := SearchPredicates(searchable, search.keyword).value;
    FoldOrRun(False, ps, x);
    assert Runs(ps, x) == KeywordRuns(searchable, search.keyword, x);
  }

  /** The search throws exactly when the first searchable property that is null or matches is null. */
  lemma SearchRunFails(props: seq<Property>, keyword: string, x: Entity)
    ensures SearchRun(props, keyword, x).Failure? <==> SearchThrows(props, keyword, x)
  {
    var searchable := SearchableProperties(props);
    var runs := KeywordRuns(searchable, keyword, x);
    AnyOfFails(runs);
    forall j | 0 <= j < |runs|
      ensures runs[j].Failure? <==> Field(x, searchable[j].name).Null?
      ensures runs[j] == Success(false) <==> !Field(x, searchable[j].name).Null? && !KeywordIn(Field(x, searchable[j].name), keyword)
    {
    }
  }

  /**
   * `ApplySearch`, enumerated: the elements the search expression accepts,
   * in source order. The expression is built first, so its errors come
   * before any element is read.
   */
  function ApplySearch(source: Option<seq<Entity>>, search: Option<SearchOptions>, props: seq<Property>): (r: Result<seq<Entity>, Error>)
    ensures source.None? || search.None? ==> r == Failure(ArgumentError)
    ensures source.Some? && search.Some? && !AllSearchableAreStrings(props) ==> r == Failure(ArgumentError)
    ensures r.Failure? ==> r.error == ArgumentError || r.error == NullReference
    ensures r.Success? ==> IsSubsequence(r.value, source.value)
  {
    if source.None? || search.None? then Failure(ArgumentError)
    else match GetSearchExpression(search, props)
      case Failure(e) => Failure(e)
      case Success(e) => Where(source.value, e)
  }

  /** The elements a search keeps: some searchable property contains the keyword. */
  function Matching(props: seq<Property>, keyword: string): Entity -> bool {
    x => SearchMatches(props, keyword, x)
  }

  /**
   * Once the search expression builds, the search throws iff it throws on
   * some element, and otherwise keeps exactly the elements some searchable
   * property of which contains the keyword.
   */
  lemma ApplySearchMeaning(s: seq<Entity>, search: SearchOptions, props: seq<Property>)
    requires AllSearchableAreStrings(props)
    ensures var r := ApplySearch(Some(s), Some(search), props);
      (r.Failure? <==> exists i :: 0 <= i < |s| && SearchThrows(props, search.keyword, s[i])) &&
      (r.Failure? ==> r.error == NullReference)
    ensures var r := ApplySearch(Some(s), Some(search), props);
      r.Success? ==> r.value == Filter(s, Matching(props, search.keyword))
    ensures var r := ApplySearch(Some(s), Some(search), props);
      r.Success? ==>
      (forall i :: 0 <= i < |r.value| ==> r.value[i] in s && SearchMatches(props, search.keyword, r.value[i])) &&
      (forall i :: 0 <= i < |s| && SearchMatches(props, search.keyword, s[i]) ==> s[i] in r.value)
  {
    var e := GetSearchExpression(Some(search), props).value;
    forall i | 0 <= i < |s|
      ensures Run(e, s[i]).Failure? <==> SearchThrows(props, search.keyword, s[i])
      ensures Accepts(e)(s[i]) == Matching(props, search.keyword)(s[i])
    {
      GetSearchExpressionMeaning(search, props, s[i]);
    }
    FilterSame(s, Accepts(e), Matching(props, search.keyword));
  }

  /** With no searchable property the `False` seed is the whole predicate: nothing is read and nothing is kept. */
  lemma ApplySearchWithoutSearchable(s: seq<Entity>, search: SearchOptions, props: seq<Property>)
    requires forall i :: 0 <= i < |props| ==> !IsSearchable(props[i])
    ensures ApplySearch(Some(s), Some(search), props) == Success([])
  {
    var searchable := SearchableProperties(props);
    FilterNone(props, IsSearchable);
    assert searchable == [];
    var e := GetSearchExpression(Some(search), props).value;
    assert e == False;
    FilterNone(s, Accepts(e));
  }

  // ------------------------------------------------------------ filtering

  /** The properties of a simple type, which filtering and sorting consider. */
  function SimpleProperties(props: seq<Property>): (r: seq<Property>)
    ensures forall i :: 0 <= i < |r| ==> r[i] in props && IsSimpleType(r[i].propertyType)
    ensures forall i :: 0 <= i < |props| && IsSimpleType(props[i].propertyType) ==> props[i] in r
  {
    Filter(props, (p: Property) => IsSimpleType(p.propertyType))
  }

  /** The first simple property whose name equals `key` ignoring case. */
  function MatchingProperty(props: seq<Property>, key: string): (r: Option<Property>)
    ensures r.None? <==> !NamesProperty(props, key)
    ensures r.Some? ==> r.value in props && IsSimpleType(r.value.propertyType) && EqualsIgnoreCase(r.value.name, key)
  {
    FirstWhere(SimpleProperties(props), (p: Property) => EqualsIgnoreCase(p.name, key))
  }

  /** `properties.Any(y => y.Name.ToLower() == key.ToLower())`. */
  predicate NamesProperty(props: seq<Property>, key: string) {
    exists i :: 0 <= i < |props| && IsSimpleType(props[i].propertyType) && EqualsIgnoreCase(props[i].name, key)
  }

  predicate IsEffective(props: seq<Property>, f: QueryFilter) {
    NamesProperty(props, f.key)
  }

  /** The filters whose key names a simple property; the others are ignored. */
  function EffectiveFilters(props: seq<Property>, fs: seq<QueryFilter>): (r: seq<QueryFilter>)
    ensures IsSubsequence(r, fs)
    ensures forall i :: 0 <= i < |r| ==> r[i] in fs && IsEffective(props, r[i])
    ensures forall i :: 0 <= i < |fs| && IsEffective(props, fs[i]) ==> fs[i] in r
  {
    Filter(fs, (f: QueryFilter) => IsEffective(props, f))
  }

  function Keys(fs: seq<QueryFilter>): (r: seq<string>)
    ensures |r| == |fs| && forall i :: 0 <= i < |fs| ==> r[i] == fs[i].key
  {
    seq(|fs|, i requires 0 <= i < |fs| => fs[i].key)
  }

  /** The keys of `GroupBy(x => x.Key)`, in order of first appearance. */
  function GroupKeys(fs: seq<QueryFilter>): (r: seq<string>)
    ensures forall i :: 0 <= i < |r| ==> exists j :: 0 <= j < |fs| && fs[j].key == r[i]
    ensures forall j :: 0 <= j < |fs| ==> fs[j].key in r
    ensures forall i, j :: 0 <= i < j < |r| ==> r[i] != r[j]
  {
    Distinct(Keys(fs))
  }

  /** The group of one key, in source order. */
  function Group(fs: seq<QueryFilter>, key: string): (r: seq<QueryFilter>)
    ensures forall i :: 0 <= i < |r| ==> r[i] in fs && r[i].key == key
    ensures forall i :: 0 <= i < |fs| && fs[i].key == key ==> fs[i] in r
  {
    Filter(fs, (f: QueryFilter) => f.key == key)
  }

  /**
   * The predicate for one filter: `property.Equals(value)`, with the
   * property found ignoring case and the value converted by `GetValue`.
   */
  function UnitPredicate(props: seq<Property>, f: QueryFilter, parse: Parser): (r: Result<Expr, Error>)
    ensures !IsEffective(props, f) ==> r == Failure(InvalidOperation)
    ensures IsEffective(props, f) ==> (r.Success? <==> ConvertedValue(props, f, parse).Success?)
    ensures r.Failure? && IsEffective(props, f) ==> r.error == ConvertedValue(props, f, parse).error
  {
    match MatchingProperty(props, f.key)
    case None => Failure(InvalidOperation)
    case Some(p) =>
      match GetCompareMethod(Some(p.propertyType), false)
      case Failure(e) => Failure(e)
      case Success(_) =>
        match GetValue(Some(f), Some(p.propertyType), parse)
        case Failure(e) => Failure(e)
        case Success(v) => Success(EqualsCall(p.name, v, p.propertyType == StringType))
  }

  /** `GetValue` of an effective filter for the type of the property its key names. */
  function ConvertedValue(props: seq<Property>, f: QueryFilter, parse: Parser): Result<Value, Error>
    requires IsEffective(props, f)
  {
    GetValue(Some(f), Some(MatchingProperty(props, f.key).value.propertyType), parse)
  }

  /** An element satisfies one filter: the filter's converted value equals its property. */
  predicate UnitHolds(props: seq<Property>, f: QueryFilter, parse: Parser, x: Entity) {
    match MatchingProperty(props, f.key)
    case None => false
    case Some(p) => GetValue(Some(f), Some(p.propertyType), parse) == Success(Field(x, p.name))
  }

  /**
   * One filter evaluated on `x`: `Equals` called on the member, which
   * throws when the member is a null string, there being no instance to
   * call it on; a null `DateTime?` or `bool?` has one.
   */
  function UnitRun(props: seq<Property>, f: QueryFilter, parse: Parser, x: Entity): Result<bool, Error> {
    match MatchingProperty(props, f.key)
    case None => Success(false)
    case Some(p) =>
      if p.propertyType == StringType && Field(x, p.name).Null? then Failure(NullReference)
      else Success(UnitHolds(props, f, parse, x))
  }

  /**
   * A built filter predicate stands for `UnitHolds`; compiled, it throws
   * exactly on a null string member and otherwise answers `UnitHolds`.
   */
  lemma UnitPredicateMeaning(props: seq<Property>, f: QueryFilter, parse: Parser, x: Entity)
    requires UnitPredicate(props, f, parse).Success?
    ensures Eval(UnitPredicate(props, f, parse).value, x) <==> UnitHolds(props, f, parse, x)
    ensures Run(UnitPredicate(props, f, parse).value, x) == UnitRun(props, f, parse, x)
    ensures var p := MatchingProperty(props, f.key).value;
      UnitRun(props, f, parse, x).Failure? <==> p.propertyType == StringType && Field(x, p.name).Null?
  {
  }

  /** The predicates of one group, or the first conversion failure. */
  function UnitPredicates(props: seq<Property>, group: seq<QueryFilter>, parse: Parser): (r: Result<seq<Expr>, Error>)
    ensures r.Success? <==> forall i :: 0 <= i < |group| ==> UnitPredicate(props, group[i], parse).Success?
    ensures r.Success? ==> |r.value| == |group|
    ensures r.Success? ==> forall i :: 0 <= i < |group| ==> UnitPredicate(props, group[i], parse) == Success(r.value[i])
    ensures r.Failure? ==> exists i :: 0 <= i < |group| && UnitPredicate(props, group[i], parse) == Failure(r.error)
  {
    Collect(group, f => UnitPredicate(props, f, parse))
  }


  /** The predicate of one key's group: the `Or` of its predicates, seeded with `False`. */
  function GroupPredicate(props: seq<Property>, fs: seq<QueryFilter>, key: string, parse: Parser): Result<Expr, Error> {
    match UnitPredicates(props, Group(fs, key), parse)
    case Failure(e) => Failure(e)
    case Success(ps) => Success(FoldOr(False, ps))
  }

  /** One key's group evaluated on `x`: its filters in order, each `Equals` tried until one holds or throws. */
  function GroupRun(props: seq<Property>, fs: seq<QueryFilter>, key: string, parse: Parser, x: Entity): Result<bool, Error> {
    AnyOf(UnitRuns(props, Group(fs, key), parse, x))
  }

  /** Each filter of `group` evaluated on `x`, in order. */
  function UnitRuns(props: seq<Property>, group: seq<QueryFilter>, parse: Parser, x: Entity): (r: seq<Result<bool, Error>>)
    ensures |r| == |group| && forall g :: 0 <= g < |group| ==> r[g] == UnitRun(props, group[g], parse, x)
  {
    seq(|group|, g requires 0 <= g < |group| => UnitRun(props, group[g], parse, x))
  }

  /** Each key's group evaluated on `x`, in key order. */
  function GroupRuns(props: seq<Property>, effective: seq<QueryFilter>, keys: seq<string>, parse: Parser, x: Entity): (r: seq<Result<bool, Error>>)
    ensures |r| == |keys| && forall k :: 0 <= k < |keys| ==> r[k] == GroupRun(props, effective, keys[k], parse, x)
  {
    seq(|keys|, k requires 0 <= k < |keys| => GroupRun(props, effective, keys[k], parse, x))
  }

  /**
   * The filters evaluated on `x`: the groups in order of their keys' first
   * appearance, each tried until one answers false or throws.
   */
  function FilterRun(props: seq<Property>, fs: seq<QueryFilter>, parse: Parser, x: Entity): Result<bool, Error> {
    var effective := EffectiveFilters(props, fs);
    AllOf(GroupRuns(props, effective, GroupKeys(effective), parse, x))
  }

  /**
   * The filters throw on `x`: some group throws after every earlier group
   * held, and a group throws when its first filter that is on a null
   * string member or holds is on a null string member.
   */
  predicate FilterThrows(props: seq<Property>, fs: seq<QueryFilter>, parse: Parser, x: Entity) {
    FilterRun(props, fs, parse, x).Failure?
  }

  /** One predicate per key, in key order, or the first failure. */
  function GroupPredicates(props: seq<Property>, fs: seq<QueryFilter>, keys: seq<string>, parse: Parser): (r: Result<seq<Expr>, Error>)
    ensures r.Success? <==> forall k :: 0 <= k < |keys| ==> GroupPredicate(props, fs, keys[k], parse).Success?
    ensures r.Success? ==> |r.value| == |keys|
    ensures r.Success? ==> forall k :: 0 <= k < |keys| ==> GroupPredicate(props, fs, keys[k], parse) == Success(r.value[k])
  {
    Collect(keys, key => GroupPredicate(props, fs, key, parse))
  }

  /** `GetFilterExpression`: the `And` of the group predicates, seeded with `True`. */
  function GetFilterExpression(filters: Option<seq<QueryFilter>>, props: seq<Property>, parse: Parser): (r: Result<Expr, Error>)
    ensures filters.None? ==> r == Failure(ArgumentError)
  {
    match filters
    case None => Failure(ArgumentError)
    case Some(fs) =>
      var effective := EffectiveFilters(props, fs);
      match GroupPredicates(props, effective, GroupKeys(effective), parse)
      case Failure(e) => Failure(e)
      case Success(ps) => Success(FoldAnd(True, ps))
  }

  /**
   * What a filter keeps: for every filter whose key names a simple property,
   * some filter with the same key (possibly itself) holds for the element.
   * That is OR within a group of equal keys and AND across the groups.
   */
  predicate FilterAccepts(props: seq<Property>, fs: seq<QueryFilter>, parse: Parser, x: Entity) {
    forall i :: 0 <= i < |fs| && IsEffective(props, fs[i]) ==>
      exists j :: 0 <= j < |fs| && fs[j].key == fs[i].key && UnitHolds(props, fs[j], parse, x)
  }

  /** Every filter whose key names a simple property has a value that converts to the property's type. */
  predicate FiltersConvert(props: seq<Property>, fs: seq<QueryFilter>, parse: Parser) {
    forall i :: 0 <= i < |fs| && IsEffective(props, fs[i]) ==> ConvertedValue(props, fs[i], parse).Success?
  }

  /** The filter expression is built iff every effective filter's value converts. */
  lemma GetFilterExpressionSucceeds(fs: seq<QueryFilter>, props: seq<Property>, parse: Parser)
    ensures GetFilterExpression(Some(fs), props, parse).Success? <==> FiltersConvert(props, fs, parse)
  {
    var effective := EffectiveFilters(props, fs);
    var keys := GroupKeys(effective);
    if GroupPredicates(props, effective, keys, parse).Success? {
      forall i | 0 <= i < |fs| && IsEffective(props, fs[i])
        ensures UnitPredicate(props, fs[i], parse).Success?
      {
        UnitOfSourceFilterSucceeds(props, fs, effective, parse, i);
      }
    } else {
      var i := FailingSourceFilter(props, fs, effective, parse);
    }
  }

  lemma UnitOfSourceFilterSucceeds(props: seq<Property>, fs: seq<QueryFilter>, effective: seq<QueryFilter>, parse: Parser, i: nat)
    requires effective == EffectiveFilters(props, fs)
    requires GroupPredicates(props, effective, GroupKeys(effective), parse).Success?
    requires i < |fs| && IsEffective(props, fs[i])
    ensures UnitPredicate(props, fs[i], parse).Success?
  {
    var k := KeyOfSourceFilter(props, fs, effective, i);
    var g := SourceFilterInGroup(props, fs, effective, GroupKeys(effective)[k], i);
  }

  lemma FailingSourceFilter(props: seq<Property>, fs: seq<QueryFilter>, effective: seq<QueryFilter>, parse: Parser)
    returns (i: nat)
    requires effective == EffectiveFilters(props, fs)
    requires GroupPredicates(props, effective, GroupKeys(effective), parse).Failure?
    ensures i < |fs| && IsEffective(props, fs[i]) && UnitPredicate(props, fs[i], parse).Failure?
  {
    var keys := GroupKeys(effective);
    var k := FailingGroup(props, effective, keys, parse);
    var g := FailingUnit(props, Group(effective, keys[k]), parse);
    i := GroupMemberInSource(props, fs, effective, keys[k], g);
  }

  lemma FailingGroup(props: seq<Property>, effective: seq<QueryFilter>, keys: seq<string>, parse: Parser) returns (k: nat)
    requires GroupPredicates(props, effective, keys, parse).Failure?
    ensures k < |keys| && GroupPredicate(props, effective, keys[k], parse).Failure?
  {
    k :| 0 <= k < |keys| && GroupPredicate(props, effective, keys[k], parse).Failure?;
  }

  lemma FailingUnit(props: seq<Property>, group: seq<QueryFilter>, parse: Parser) returns (g: nat)
    requires UnitPredicates(props, group, parse).Failure?
    ensures g < |group| && UnitPredicate(props, group[g], parse).Failure?
  {
    g :| 0 <= g < |group| && UnitPredicate(props, group[g], parse).Failure?;
  }

  /** The key of an effective filter of the source is one of the group keys. */
  lemma KeyOfSourceFilter(props: seq<Property>, fs: seq<QueryFilter>, effective: seq<QueryFilter>, i: nat)
    returns (k: nat)
    requires effective == EffectiveFilters(props, fs)
    requires i < |fs| && IsEffective(props, fs[i])
    ensures k < |GroupKeys(effective)| && GroupKeys(effective)[k] == fs[i].key
  {
    var keys := GroupKeys(effective);
    assert fs[i] in effective;
    var m :| 0 <= m < |effective| && effective[m] == fs[i];
    assert effective[m].key in keys;
    k :| 0 <= k < |keys| && keys[k] == fs[i].key;
  }

  /** Every group key is the key of an effective filter of the source. */
  lemma SourceFilterOfKey(props: seq<Property>, fs: seq<QueryFilter>, effective: seq<QueryFilter>, k: nat)
    returns (i: nat)
    requires effective == EffectiveFilters(props, fs)
    requires k < |GroupKeys(effective)|
    ensures i < |fs| && IsEffective(props, fs[i]) && fs[i].key == GroupKeys(effective)[k]
  {
    var keys := GroupKeys(effective);
    var m :| 0 <= m < |effective| && effective[m].key == keys[k];
    assert effective[m] in fs && IsEffective(props, effective[m]);
    i :| 0 <= i < |fs| && fs[i] == effective[m];
  }

  /** The filter expression accepts an element iff the element passes every group. */
  lemma GetFilterExpressionMeaning(fs: seq<QueryFilter>, props: seq<Property>, parse: Parser, x: Entity)
    requires GetFilterExpression(Some(fs), props, parse).Success?
    ensures Eval(GetFilterExpression(Some(fs), props, parse).value, x) <==> FilterAccepts(props, fs, parse, x)
    ensures Run(GetFilterExpression(Some(fs), props, parse).value, x) == FilterRun(props, fs, parse, x)
    ensures FilterRun(props, fs, parse, x).Success? ==> (FilterRun(props, fs, parse, x).value <==> FilterAccepts(props, fs, parse, x))
  {
    var effective := EffectiveFilters(props, fs);
    var keys := GroupKeys(effective);
    var gps := GroupPredicates(props, effective, keys, parse).value;
    FilterExpressionRuns(fs, props, parse, x);
    FoldAndEval(True, gps, x);
    forall k | 0 <= k < |keys|
      ensures Eval(gps[k], x) <==> exists j :: 0 <= j < |fs| && fs[j].key == keys[k] && UnitHolds(props, fs[j], parse, x)
    {
      GroupPredicateMeaning(props, fs, effective, keys[k], parse, x);
    }
    if FilterAccepts(props, fs, parse, x) {
      forall k | 0 <= k < |keys|
        ensures Eval(gps[k], x)
      {
        var i := SourceFilterOfKey(props, fs, effective, k);
      }
    }
    if Eval(FoldAnd(True, gps), x) {
      forall i | 0 <= i < |fs| && IsEffective(props, fs[i])
        ensures exists j :: 0 <= j < |fs| && fs[j].key == fs[i].key && UnitHolds(props, fs[j], parse, x)
      {
        var k := KeyOfSourceFilter(props, fs, effective, i);
        assert Eval(gps[k], x);
      }
    }
  }

  lemma FilterExpressionRuns(fs: seq<QueryFilter>, props: seq<Property>, parse: Parser, x: Entity)
    requires GetFilterExpression(Some(fs), props, parse).Success?
    ensures Run(GetFilterExpression(Some(fs), props, parse).value, x) == FilterRun(props, fs, parse, x)
  {
    var effective := EffectiveFilters(props, fs);
    var keys := GroupKeys(effective);
    var gps := GroupPredicates(props, effective, keys, parse).value;
    FoldAndRun(True, gps, x);
    var runs := GroupRuns(props, effective, keys, parse, x);
    forall k | 0 <= k < |keys|
      ensures Runs(gps, x)[k] == runs[k]
    {
      GroupPredicateRuns(props, effective, keys[k], parse, x);
    }
    assert Runs(gps, x) == runs;
  }

  lemma GroupPredicateRuns(props: seq<Property>, effective: seq<QueryFilter>, key: string, parse: Parser, x: Entity)
    requires GroupPredicate(props, effective, key, parse).Success?
    ensures Run(GroupPredicate(props, effective, key, parse).value, x) == GroupRun(props, effective, key, parse, x)
  {
    var group := Group(effective, key);
    var ups := UnitPredicates(props, group, parse).value;
    FoldOrRun(False, ups, x);
    forall g | 0 <= g < |group|
      ensures Run(ups[g], x) == UnitRun(props, group[g], parse, x)
    {
      UnitPredicateMeaning(props, group[g], parse, x);
    }
    assert Runs(ups, x) == UnitRuns(props, group, parse, x);
  }

  /** One group's predicate holds iff some filter of that key holds. */
  lemma GroupPredicateMeaning(props: seq<Property>, fs: seq<QueryFilter>, effective: seq<QueryFilter>, key: string, parse: Parser, x: Entity)
    requires effective == EffectiveFilters(props, fs)
    requires GroupPredicate(props, effective, key, parse).Success?
    ensures Eval(GroupPredicate(props, effective, key, parse).value, x) <==>
      exists j :: 0 <= j < |fs| && fs[j].key == key && UnitHolds(props, fs[j], parse, x)
    ensures Run(GroupPredicate(props, effective, key, parse).value, x) == GroupRun(props, effective, key, parse, x)
  {
    GroupPredicateRuns(props, effective, key, parse, x);
    var group := Group(effective, key);
    var ups := UnitPredicates(props, group, parse).value;
    FoldOrEval(False, ups, x);
    forall g | 0 <= g < |group|
      ensures Eval(ups[g], x) <==> UnitHolds(props, group[g], parse, x)
    {
      UnitPredicateMeaning(props, group[g], parse, x);
    }
    if exists g :: 0 <= g < |ups| && Eval(ups[g], x) {
      var g :| 0 <= g < |ups| && Eval(ups[g], x);
      var j := GroupMemberInSource(props, fs, effective, key, g);
      assert fs[j].key == key && UnitHolds(props, fs[j], parse, x);
    }
    if exists j :: 0 <= j < |fs| && fs[j].key == key && UnitHolds(props, fs[j], parse, x) {
      var j :| 0 <= j < |fs| && fs[j].key == key && UnitHolds(props, fs[j], parse, x);
      var g := SourceFilterInGroup(props, fs, effective, key, j);
      assert Eval(ups[g], x);
    }
  }

  /** Every member of a group of effective filters is a filter of the source. */
  lemma GroupMemberInSource(props: seq<Property>, fs: seq<QueryFilter>, effective: seq<QueryFilter>, key: string, g: nat)
    returns (j: nat)
    requires effective == EffectiveFilters(props, fs)
    requires g < |Group(effective, key)|
    ensures j < |fs| && fs[j] == Group(effective, key)[g] && fs[j].key == key && IsEffective(props, fs[j])
  {
    var group := Group(effective, key);
    assert group[g] in effective;
    var m :| 0 <= m < |effective| && effective[m] == group[g];
    assert effective[m] in fs;
    j :| 0 <= j < |fs| && fs[j] == effective[m];
  }

  /** Every effective filter of the source with the group's key is in the group. */
  lemma SourceFilterInGroup(props: seq<Property>, fs: seq<QueryFilter>, effective: seq<QueryFilter>, key: string, j: nat)
    returns (g: nat)
    requires effective == EffectiveFilters(props, fs)
    requires j < |fs| && fs[j].key == key && IsEffective(props, fs[j])
    ensures g < |Group(effective, key)| && Group(effective, key)[g] == fs[j]
  {
    var group := Group(effective, key);
    assert fs[j] in effective;
    var m :| 0 <= m < |effective| && effective[m] == fs[j];
    assert effective[m] in group;
    g :| 0 <= g < |group| && group[g] == fs[j];
  }

  /**
   * `ApplyFilter`, enumerated: the elements the filter expression accepts,
   * in source order. The expression is built first, so its errors come
   * before any element is read.
   */
  function ApplyFilter(source: Option<seq<Entity>>, filters: Option<seq<QueryFilter>>, props: seq<Property>, parse: Parser): (r: Result<seq<Entity>, Error>)
    ensures source.None? || filters.None? ==> r == Failure(ArgumentError)
    ensures r.Success? ==> IsSubsequence(r.value, source.value)
  {
    if source.None? || filters.None? then Failure(ArgumentError)
    else match GetFilterExpression(filters, props, parse)
      case Failure(e) => Failure(e)
      case Success(e) => Where(source.value, e)
  }

  /** The elements a filter keeps: those that pass every group. */
  function Passing(props: seq<Property>, fs: seq<QueryFilter>, parse: Parser): Entity -> bool {
    x => FilterAccepts(props, fs, parse, x)
  }

  /** Filtering fails iff a filter value does not convert or the evaluation throws on some element. */
  lemma ApplyFilterSucceeds(s: seq<Entity>, fs: seq<QueryFilter>, props: seq<Property>, parse: Parser)
    ensures ApplyFilter(Some(s), Some(fs), props, parse).Success? <==>
      FiltersConvert(props, fs, parse) && forall i :: 0 <= i < |s| ==> !FilterThrows(props, fs, parse, s[i])
  {
    GetFilterExpressionSucceeds(fs, props, parse);
    if FiltersConvert(props, fs, parse) {
      ApplyFilterMeaning(s, fs, props, parse);
    }
  }

  /**
   * Once every filter value converts, the filter throws iff it throws on
   * some element, and otherwise keeps exactly the elements that pass every
   * group.
   */
  lemma ApplyFilterMeaning(s: seq<Entity>, fs: seq<QueryFilter>, props: seq<Property>, parse: Parser)
    requires FiltersConvert(props, fs, parse)
    ensures var r := ApplyFilter(Some(s), Some(fs), props, parse);
      (r.Failure? <==> exists i :: 0 <= i < |s| && FilterThrows(props, fs, parse, s[i])) &&
      (r.Failure? ==> r.error == NullReference)
    ensures var r := ApplyFilter(Some(s), Some(fs), props, parse);
      r.Success? ==> r.value == Filter(s, Passing(props, fs, parse))
    ensures var r := ApplyFilter(Some(s), Some(fs), props, parse);
      r.Success? ==>
      (forall i :: 0 <= i < |r.value| ==> r.value[i] in s && FilterAccepts(props, fs, parse, r.value[i])) &&
      (forall i :: 0 <= i < |s| && FilterAccepts(props, fs, parse, s[i]) ==> s[i] in r.value)
  {
    GetFilterExpressionSucceeds(fs, props, parse);
    var e := GetFilterExpression(Some(fs), props, parse).value;
    forall i | 0 <= i < |s|
      ensures Run(e, s[i]).Failure? <==> FilterThrows(props, fs, parse, s[i])
      ensures Accepts(e)(s[i]) == Passing(props, fs, parse)(s[i])
    {
      GetFilterExpressionMeaning(fs, props, parse, s[i]);
    }
    FilterSame(s, Accepts(e), Passing(props, fs, parse));
  }

  /** Filters none of whose keys names a simple property read nothing and keep every element. */
  lemma ApplyFilterIgnoresUnknownKeys(s: seq<Entity>, fs: seq<QueryFilter>, props: seq<Property>, parse: Parser)
    requires forall i :: 0 <= i < |fs| ==> !IsEffective(props, fs[i])
    ensures ApplyFilter(Some(s), Some(fs), props, parse) == Success(s)
  {
    var effective := EffectiveFilters(props, fs);
    FilterNone(fs, (f: QueryFilter) => IsEffective(props, f));
    assert effective == [];
    assert GroupKeys(effective) == [];
    var e := GetFilterExpression(Some(fs), props, parse).value;
    assert e == True;
    FilterAll(s, Accepts(e));
  }

  // -------------------------------------------------------------- sorting

  /** The sort key: the value of the named property. */
  function SortKey(name: string): Entity -> Value {
    x => Field(x, name)
  }

  /**
   * `ApplySort` over a queryable source: without a simple property whose
   * name equals the sort field ignoring case the source is returned as it
   * is; otherwise `OrderBy`/`OrderByDescending` by that property.
   */
  function ApplySort(source: Option<seq<Entity>>, sort: Option<SortOptions>, props: seq<Property>): (r: Result<seq<Entity>, Error>)
    ensures r.Failure? <==> source.None? || sort.None?
    ensures r.Failure? ==> r.error == ArgumentError
    ensures r.Success? && !NamesProperty(props, sort.value.sortField) ==> r.value == source.value
    ensures r.Success? && NamesProperty(props, sort.value.sortField) ==>
      var key := SortKey(MatchingProperty(props, sort.value.sortField).value.name);
      multiset(r.value) == multiset(source.value) &&
      Sorted(r.value, key, sort.value.sortAscending) &&
      StableFrom(r.value, source.value, key)
  {
    if source.None? || sort.None? then Failure(ArgumentError)
    else match MatchingProperty(props, sort.value.sortField)
      case None => Success(source.value)
      case Some(p) =>
        SortByCorrect(source.value, SortKey(p.name), sort.value.sortAscending);
        Success(SortBy(source.value, SortKey(p.name), sort.value.sortAscending))
  }

  /**
   * `ApplySort` over an enumerable source, as written: the key selector is
   * built as `Expression.Lambda<Func<TModel, object>>` over the bare member
   * access, which `Expression.Lambda` rejects with an `ArgumentException`
   * unless the member is of a reference type; of the simple types only
   * string is.
   */
  function ApplySortEnumerable(source: Option<seq<Entity>>, sort: Option<SortOptions>, props: seq<Property>): (r: Result<seq<Entity>, Error>)
    ensures r.Failure? <==> (source.None? || sort.None? ||
      (NamesProperty(props, sort.value.sortField) && MatchingProperty(props, sort.value.sortField).value.propertyType != StringType))
    ensures r.Failure? ==> r.error == ArgumentError
    ensures r.Success? ==> r == ApplySort(source, sort, props)
  {
    if source.None? || sort.None? then Failure(ArgumentError)
    else match MatchingProperty(props, sort.value.sortField)
      case None => Success(source.value)
      case Some(p) =>
        if p.propertyType != StringType then Failure(ArgumentError)
        else Success(SortBy(source.value, SortKey(p.name), sort.value.sortAscending))
  }

  /** Sorting a list by an `int` property: the enumerable overload fails where the queryable one sorts. */
  lemma ApplySortEnumerableRejectsIntKey(s: seq<Entity>)
    ensures var props := [Property("Age", Primitive(Int32), false)];
      var sort := SortOptions("age", true);
      ApplySortEnumerable(Some(s), Some(sort), props) == Failure(ArgumentError) &&
      ApplySort(Some(s), Some(sort), props).Success?
  {
    var props := [Property("Age", Primitive(Int32), false)];
    assert Lower("Age") == [LowerChar('A')] + Lower("ge");
    assert Lower("age") == [LowerChar('a')] + Lower("ge");
    assert EqualsIgnoreCase(props[0].name, "age");
    assert NamesProperty(props, "age");
  }

  // ----------------------------------------------------------- pagination

  /** The number of elements before the requested page. */
  function SkipCount(p: PaginationOptions): int {
    (p.pageToken - 1) * p.pageSize
  }

  /** What `ApplyPagination` needs of its options: the invariant of the options class and a skip count in `int` range. */
  predicate PaginationComputable(p: Option<PaginationOptions>) {
    p.Some? ==> p.value.Valid() && Int32.InRange(SkipCount(p.value))
  }

  lemma SkipCountNonNegative(p: PaginationOptions)
    requires p.Valid()
    ensures SkipCount(p) >= 0
  {
    var k := p.pageToken - 1;
    assert k >= 0 && p.pageSize >= 1;
    assert k * p.pageSize >= 0;
  }

  function Min(a: int, b: int): int { if a < b then a else b }

  /** `ApplyPagination`: `Skip((token - 1) * size).Take(size)`, with no adjustment past the end. */
  function ApplyPagination<T>(source: Option<seq<T>>, pagination: Option<PaginationOptions>): (r: Result<seq<T>, Error>)
    requires PaginationComputable(pagination)
    ensures r.Failure? <==> source.None? || pagination.None?
    ensures r.Failure? ==> r.error == ArgumentError
    ensures r.Success? ==>
      var start := SkipCount(pagination.value);
      r.value == if start >= |source.value| then [] else source.value[start..Min(start + pagination.value.pageSize, |source.value|)]
  {
    if source.None? || pagination.None? then Failure(ArgumentError)
    else
      var options := pagination.value;
      SkipCountNonNegative(options);
      Success(Take(Skip(source.value, SkipCount(options)), options.pageSize))
  }

  /**
   * The two pagination algorithms agree on a page that starts inside the
   * source; past the end this one gives an empty page where
   * `PaginationExtension.Paginate` gives the last partial page.
   */
  lemma ApplyPaginationVersusPaginate<T>(s: seq<T>, options: PaginationOptions)
    requires PaginationComputable(Some(options))
    ensures SkipCount(options) < |s| ==>
      ApplyPagination(Some(s), Some(options)) == PaginationExtension.Paginate(Some(s), Some(options))
    ensures SkipCount(options) >= |s| ==>
      ApplyPagination(Some(s), Some(options)) == Success([]) &&
      PaginationExtension.Paginate(Some(s), Some(options)).value == s[|s| - |s| % options.pageSize..]
  {
    SkipCountNonNegative(options);
    if SkipCount(options) < |s| {
      PaginationExtension.PaginateInRange(s, options);
    } else if |s| > 0 {
      PaginationExtension.PaginatePastEnd(s, options);
    }
  }

  // ------------------------------------------------------------- querying

  /** The stages `ApplyQuery` reads from its options; an absent stage is skipped. */
  datatype QueryView = QueryView(
    search: Option<SearchOptions>,
    filter: Option<seq<QueryFilter>>,
    sort: Option<SortOptions>,
    pagination: Option<PaginationOptions>)

  /** The sort stage reorders: sort options whose field names a simple property. */
  predicate Reorders(o: QueryView, props: seq<Property>) {
    o.sort.Some? && NamesProperty(props, o.sort.value.sortField)
  }

  /**
   * The enumerable overload's sort stage rejects its key selector: the
   * field names a simple property whose type is not string.
   */
  predicate SortKeyRejected(o: QueryView, props: seq<Property>) {
    Reorders(o, props) && MatchingProperty(props, o.sort.value.sortField).value.propertyType != StringType
  }

  /** The sort stage over the kept elements: `ApplySort` when sort options are given. */
  function Ordered(t: seq<Entity>, o: QueryView, props: seq<Property>): (r: seq<Entity>)
    ensures multiset(r) == multiset(t)
    ensures !Reorders(o, props) ==> r == t
  {
    if o.sort.Some? then ApplySort(Some(t), o.sort, props).value else t
  }

  /** The search stage's predicate: the search expression when search options are given, `x => true` otherwise. */
  function SearchExpression(o: QueryView, props: seq<Property>): (r: Result<Expr, Error>)
    ensures o.search.None? ==> r == Success(True)
    ensures r.Failure? <==> o.search.Some? && !AllSearchableAreStrings(props)
  {
    if o.search.Some? then GetSearchExpression(o.search, props) else Success(True)
  }

  /** The filter stage's predicate: the filter expression when filter options are given, `x => true` otherwise. */
  function FilterExpression(o: QueryView, props: seq<Property>, parse: Parser): (r: Result<Expr, Error>)
    ensures o.filter.None? ==> r == Success(True)
    ensures r.Failure? <==> o.filter.Some? && !FiltersConvert(props, o.filter.value, parse)
  {
    if o.filter.Some? then
      GetFilterExpressionSucceeds(o.filter.value, props, parse);
      GetFilterExpression(o.filter, props, parse)
    else Success(True)
  }

  /**
   * The errors composing the query raises before any element is read: the
   * stage expressions, the enumerable overload's key selector and the
   * pagination check are built in that order.
   */
  function ComposeError(o: QueryView, props: seq<Property>, parse: Parser, enumerable: bool): (r: Option<Error>)
    ensures r.None? <==>
      SearchExpression(o, props).Success? && FilterExpression(o, props, parse).Success? &&
      !(enumerable && SortKeyRejected(o, props)) && o.pagination.Some?
  {
    var search := SearchExpression(o, props);
    var filter := FilterExpression(o, props, parse);
    if search.Failure? then Some(search.error)
    else if filter.Failure? then Some(filter.error)
    else if enumerable && SortKeyRejected(o, props) then Some(ArgumentError)
    else if o.pagination.None? then Some(ArgumentError)
    else None
  }

  /**
   * The stages put together. Once the query composes, reading the page
   * pulls the source's elements through both `Where` delegates: all of them
   * when `OrderBy` buffers the source to sort it, otherwise only until
   * `Skip(n).Take(size)` has its last element.
   */
  function Compose(s: seq<Entity>, o: QueryView, props: seq<Property>, parse: Parser, enumerable: bool): (r: Result<seq<Entity>, Error>)
    requires PaginationComputable(o.pagination)
    ensures r.Success? ==> o.pagination.Some? && |r.value| <= o.pagination.value.pageSize
  {
    match ComposeError(o, props, parse, enumerable)
    case Some(e) => Failure(e)
    case None => ReadPage(s, KeepDelegate(o, props, parse), o, props)
  }

  /**
   * How many kept elements the page needs: all of them when the sort
   * reorders, otherwise the skipped ones and the page's own.
   */
  function ScanLimit(s: seq<Entity>, o: QueryView, props: seq<Property>): nat
    requires PaginationComputable(o.pagination) && o.pagination.Some?
  {
    SkipCountNonNegative(o.pagination.value);
    if Reorders(o, props) then |s| else SkipCount(o.pagination.value) + o.pagination.value.pageSize
  }

  /** Reading the page: the source pulled through `keep` as far as the page needs, sorted, then paginated. */
  function ReadPage(s: seq<Entity>, keep: Entity -> Result<bool, Error>, o: QueryView, props: seq<Property>): (r: Result<seq<Entity>, Error>)
    requires PaginationComputable(o.pagination) && o.pagination.Some?
    ensures r.Failure? <==> WhereTake(s, keep, ScanLimit(s, o, props)).Failure?
    ensures r.Success? ==> |r.value| <= o.pagination.value.pageSize
  {
    match WhereTake(s, keep, ScanLimit(s, o, props))
    case Failure(e) => Failure(e)
    case Success(kept) => ApplyPagination(Some(Ordered(kept, o, props)), o.pagination)
  }

  /**
   * `ApplyQuery` over a queryable source, for query options and for entity
   * query options alike: search, filter and sort when present, then always
   * paginate.
   */
  function ApplyQuery(source: Option<seq<Entity>>, options: Option<QueryView>, props: seq<Property>, parse: Parser): (r: Result<seq<Entity>, Error>)
    requires options.Some? ==> PaginationComputable(options.value.pagination)
    ensures source.None? || options.None? ==> r == Failure(ArgumentError)
    ensures r.Success? ==> options.value.pagination.Some? && |r.value| <= options.value.pagination.value.pageSize
  {
    if source.None? || options.None? then Failure(ArgumentError)
    else Compose(source.value, options.value, props, parse, false)
  }

  /** `ApplyQuery` over an enumerable source: the same stages, with the enumerable `ApplySort`. */
  function ApplyQueryEnumerable(source: Option<seq<Entity>>, options: Option<QueryView>, props: seq<Property>, parse: Parser): (r: Result<seq<Entity>, Error>)
    requires options.Some? ==> PaginationComputable(options.value.pagination)
    ensures source.None? || options.None? ==> r == Failure(ArgumentError)
    ensures r.Success? ==> options.value.pagination.Some? && |r.value| <= options.value.pagination.value.pageSize
  {
    if source.None? || options.None? then Failure(ArgumentError)
    else Compose(source.value, options.value, props, parse, true)
  }

  /** What the query keeps of an element: the search, then the filters, each when given. */
  function Keeps(o: QueryView, props: seq<Property>, parse: Parser): Entity -> bool {
    x => (o.search.Some? ==> SearchMatches(props, o.search.value.keyword, x)) &&
      (o.filter.Some? ==> FilterAccepts(props, o.filter.value, parse, x))
  }

  /** Both `Where` delegates evaluated on an element: the filters run only on an element the search keeps. */
  function KeepRun(o: QueryView, props: seq<Property>, parse: Parser): Entity -> Result<bool, Error> {
    x => AndAlsoRun(
      if o.search.Some? then SearchRun(props, o.search.value.keyword, x) else Success(true),
      if o.filter.Some? then FilterRun(props, o.filter.value, parse, x) else Success(true))
  }

  /**
   * Reading the page throws: the evaluation throws on some element that the
   * scan reaches, which is every element when the sort reorders, and
   * otherwise one met while fewer than the skipped plus the page's elements
   * have been kept.
   */
  predicate QueryThrows(s: seq<Entity>, o: QueryView, props: seq<Property>, parse: Parser) {
    o.pagination.Some? &&
    exists i :: 0 <= i < |s| && KeepRun(o, props, parse)(s[i]).Failure? &&
      (Reorders(o, props) ||
       KeptCount(s[..i], KeepRun(o, props, parse)) < SkipCount(o.pagination.value) + o.pagination.value.pageSize)
  }

  /** The built stage predicates run as `KeepRun` and stand for `Keeps`. */
  lemma StagesRun(o: QueryView, props: seq<Property>, parse: Parser, x: Entity)
    requires SearchExpression(o, props).Success? && FilterExpression(o, props, parse).Success?
    ensures var e := AndAlso(SearchExpression(o, props).value, FilterExpression(o, props, parse).value);
      Run(e, x) == KeepRun(o, props, parse)(x) && Eval(e, x) == Keeps(o, props, parse)(x)
  {
    if o.search.Some? {
      GetSearchExpressionMeaning(o.search.value, props, x);
    }
    if o.filter.Some? {
      GetFilterExpressionMeaning(o.filter.value, props, parse, x);
    }
  }

  /** A page of the first `skip + size` elements is the page of the whole sequence. */
  lemma PageOfPrefix<T>(t: seq<T>, p: PaginationOptions)
    requires PaginationComputable(Some(p))
    ensures ApplyPagination(Some(Take(t, SkipCount(p) + p.pageSize)), Some(p)) == ApplyPagination(Some(t), Some(p))
  {
    SkipCountNonNegative(p);
  }

  /** The built stage predicates in one delegate. */
  function KeepDelegate(o: QueryView, props: seq<Property>, parse: Parser): Entity -> Result<bool, Error>
    requires SearchExpression(o, props).Success? && FilterExpression(o, props, parse).Success?
  {
    Runner(AndAlso(SearchExpression(o, props).value, FilterExpression(o, props, parse).value))
  }

  /** Reading the page throws exactly when `QueryThrows`. */
  lemma ReadPageFails(s: seq<Entity>, o: QueryView, props: seq<Property>, parse: Parser)
    requires PaginationComputable(o.pagination) && o.pagination.Some?
    requires SearchExpression(o, props).Success? && FilterExpression(o, props, parse).Success?
    ensures ReadPage(s, KeepDelegate(o, props, parse), o, props).Failure? <==> QueryThrows(s, o, props, parse)
  {
    var p := o.pagination.value;
    var limit := ScanLimit(s, o, props);
    var keep := KeepDelegate(o, props, parse);
    var run := KeepRun(o, props, parse);
    forall i | 0 <= i < |s|
      ensures keep(s[i]) == run(s[i])
    {
      StagesRun(o, props, parse, s[i]);
    }
    WhereTakeFails(s, keep, limit);
    forall i | 0 <= i < |s|
      ensures KeptCount(s[..i], keep) == KeptCount(s[..i], run)
      ensures KeptCount(s[..i], keep) <= i
    {
      KeptCountSame(s[..i], keep, run);
    }
    if WhereTake(s, keep, limit).Failure? {
      var i :| 0 <= i < |s| && keep(s[i]).Failure? && KeptCount(s[..i], keep) < limit;
      assert run(s[i]).Failure?;
    }
    if QueryThrows(s, o, props, parse) {
      var i :| 0 <= i < |s| && run(s[i]).Failure? &&
        (Reorders(o, props) || KeptCount(s[..i], run) < SkipCount(p) + p.pageSize);
      assert keep(s[i]).Failure? && KeptCount(s[..i], keep) < limit;
    }
  }

  /** A page read without an exception is the page of the kept elements, sorted when the sort reorders. */
  lemma ReadPageValue(s: seq<Entity>, o: QueryView, props: seq<Property>, parse: Parser)
    requires PaginationComputable(o.pagination) && o.pagination.Some?
    requires SearchExpression(o, props).Success? && FilterExpression(o, props, parse).Success?
    ensures var r := ReadPage(s, KeepDelegate(o, props, parse), o, props);
      r.Success? ==> r.value == ApplyPagination(Some(Ordered(Filter(s, Keeps(o, props, parse)), o, props)), o.pagination).value
  {
    var limit := ScanLimit(s, o, props);
    var keep := KeepDelegate(o, props, parse);
    if WhereTake(s, keep, limit).Success? {
      forall i | 0 <= i < |s| && keep(s[i]).Success?
        ensures keep(s[i]).value == Keeps(o, props, parse)(s[i])
      {
        StagesRun(o, props, parse, s[i]);
      }
      var f := Filter(s, Keeps(o, props, parse));
      WhereTakeKeeps(s, keep, limit, Keeps(o, props, parse));
      var kept := WhereTake(s, keep, limit).value;
      assert ReadPage(s, keep, o, props) == ApplyPagination(Some(Ordered(kept, o, props)), o.pagination);
      if Reorders(o, props) {
        TakeAll(f, limit);
        assert kept == f;
      } else {
        assert Ordered(kept, o, props) == Take(f, SkipCount(o.pagination.value) + o.pagination.value.pageSize);
        assert Ordered(f, o, props) == f;
        PageOfPrefix(f, o.pagination.value);
      }
    }
  }

  /** Every element of a page is an element of its source. */
  lemma PageElements<T>(t: seq<T>, p: PaginationOptions)
    requires PaginationComputable(Some(p))
    ensures forall i :: 0 <= i < |ApplyPagination(Some(t), Some(p)).value| ==> ApplyPagination(Some(t), Some(p)).value[i] in t
  {
    SkipCountNonNegative(p);
    var start := SkipCount(p);
    var r := ApplyPagination(Some(t), Some(p)).value;
    if start < |t| {
      var end := Min(start + p.pageSize, |t|);
      assert r == t[start..end];
      forall i | 0 <= i < |r| ensures r[i] in t {
        assert r[i] == t[start + i];
      }
    }
  }

  lemma ComposeMeaning(s: seq<Entity>, o: QueryView, props: seq<Property>, parse: Parser, enumerable: bool)
    requires PaginationComputable(o.pagination)
    ensures var r := Compose(s, o, props, parse, enumerable);
      r.Failure? <==>
        (o.pagination.None? || (o.search.Some? && !AllSearchableAreStrings(props)) ||
         (o.filter.Some? && !FiltersConvert(props, o.filter.value, parse)) ||
         (enumerable && SortKeyRejected(o, props)) || QueryThrows(s, o, props, parse))
    ensures var r := Compose(s, o, props, parse, enumerable);
      r.Success? ==> r.value == ApplyPagination(Some(Ordered(Filter(s, Keeps(o, props, parse)), o, props)), o.pagination).value
  {
    if ComposeError(o, props, parse, enumerable).None? {
      assert Compose(s, o, props, parse, enumerable) == ReadPage(s, KeepDelegate(o, props, parse), o, props);
      ReadPageFails(s, o, props, parse);
      ReadPageValue(s, o, props, parse);
    }
  }

  /**
   * The query over a queryable source fails iff pagination is absent, a
   * stage expression cannot be built or reading the page throws; otherwise
   * it is the page of the kept elements, sorted when the sort reorders.
   */
  lemma ApplyQueryMeaning(s: seq<Entity>, o: QueryView, props: seq<Property>, parse: Parser)
    requires PaginationComputable(o.pagination)
    ensures var r := ApplyQuery(Some(s), Some(o), props, parse);
      r.Failure? <==>
        (o.pagination.None? || (o.search.Some? && !AllSearchableAreStrings(props)) ||
         (o.filter.Some? && !FiltersConvert(props, o.filter.value, parse)) || QueryThrows(s, o, props, parse))
    ensures var r := ApplyQuery(Some(s), Some(o), props, parse);
      r.Success? ==> r.value == ApplyPagination(Some(Ordered(Filter(s, Keeps(o, props, parse)), o, props)), o.pagination).value
  {
    ComposeMeaning(s, o, props, parse, false);
  }

  /**
   * The enumerable overload answers as the queryable one, except that it
   * rejects a sort by a property whose type is not string.
   */
  lemma ApplyQueryEnumerableMeaning(s: seq<Entity>, o: QueryView, props: seq<Property>, parse: Parser)
    requires PaginationComputable(o.pagination)
    ensures !SortKeyRejected(o, props) ==>
      ApplyQueryEnumerable(Some(s), Some(o), props, parse) == ApplyQuery(Some(s), Some(o), props, parse)
    ensures SortKeyRejected(o, props) ==> ApplyQueryEnumerable(Some(s), Some(o), props, parse).Failure?
    ensures SortKeyRejected(o, props) && ApplyQuery(Some(s), Some(o), props, parse).Success? ==>
      ApplyQueryEnumerable(Some(s), Some(o), props, parse) == Failure(ArgumentError)
  {
    ComposeMeaning(s, o, props, parse, true);
  }

  /** With no search, filter or sort the query is the page of the source. */
  lemma ApplyQueryOnlyPaginates(s: seq<Entity>, o: QueryView, props: seq<Property>, parse: Parser)
    requires PaginationComputable(o.pagination)
    requires o.search.None? && o.filter.None? && o.sort.None?
    ensures ApplyQuery(Some(s), Some(o), props, parse) == ApplyPagination(Some(s), o.pagination)
  {
    ApplyQueryMeaning(s, o, props, parse);
    FilterAll(s, Keeps(o, props, parse));
  }

  /**
   * Every element of a query result comes from the source, contains the
   * keyword when a search is given and passes every filter group when
   * filters are given.
   */
  lemma ApplyQueryResult(s: seq<Entity>, o: QueryView, props: seq<Property>, parse: Parser)
    requires PaginationComputable(o.pagination)
    requires ApplyQuery(Some(s), Some(o), props, parse).Success?
    ensures var r := ApplyQuery(Some(s), Some(o), props, parse).value;
      forall i :: 0 <= i < |r| ==> (r[i] in s &&
        (o.search.Some? ==> SearchMatches(props, o.search.value.keyword, r[i])) &&
        (o.filter.Some? ==> FilterAccepts(props, o.filter.value, parse, r[i])))
  {
    ApplyQueryMeaning(s, o, props, parse);
    var kept := Filter(s, Keeps(o, props, parse));
    var sorted := Ordered(kept, o, props);
    var r := ApplyQuery(Some(s), Some(o), props, parse).value;
    PageElements(sorted, o.pagination.value);
    forall i | 0 <= i < |r|
      ensures r[i] in s && Keeps(o, props, parse)(r[i])
    {
      assert r[i] in multiset(sorted);
      assert r[i] in kept;
    }
  }
}
