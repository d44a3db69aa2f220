/**
 * Reflection over the model's types (`TypeExtensions`). A type other than
 * the built-in simple ones is an id into a hierarchy table that records, per
 * type, whether it is a class, its base type, the interfaces `GetInterfaces`
 * reports, its generic type definition and its public properties.
 */
module TypeModel {
  import opened Common
  import opened Seqs
  import opened Entities
  import opened QueryRecords

  /** The types for which `Type.IsPrimitive` holds. */
  datatype PrimKind =
    Boolean | Byte | SByte | Int16 | UInt16 | Int32 | UInt32 | Int64 | UInt64 | IntPtr | UIntPtr | Char | Double | Single

  datatype ClrType =
    | Primitive(kind: PrimKind)
    | StringType
    | DateTimeType
    | NullableOf(underlying: ClrType)
    | Named(id: TypeId)

  datatype Property = Property(name: string, propertyType: ClrType, searchable: bool)

  /** `IsSimpleType`: primitives, string, DateTime, DateTime? and bool?. */
  predicate IsSimpleType(t: ClrType) {
    t.Primitive? || t == StringType || t == DateTimeType
    || t == NullableOf(DateTimeType) || t == NullableOf(Primitive(Boolean))
  }

  /** Of the nullable types only DateTime? and bool? are simple (int? is not), and no named type is. */
  lemma SimpleTypeClassification(t: ClrType, id: TypeId)
    ensures IsSimpleType(NullableOf(t)) <==> t == DateTimeType || t == Primitive(Boolean)
    ensures !IsSimpleType(NullableOf(Primitive(Int32)))
    ensures !IsSimpleType(Named(id))
  {
  }

  datatype TypeNode = TypeNode(
    isClass: bool,
    baseType: Option<TypeId>,
    interfaces: seq<TypeId>,
    genericDefinition: Option<TypeId>,
    properties: seq<Property>)

  /** `typeof(object)`. */
  const ObjectType: TypeId := 0

  datatype Hierarchy = Hierarchy(
    nodes: seq<TypeNode>,
    assignableFrom: set<(TypeId, TypeId)>,   // (parent, child) pairs for which parent.IsAssignableFrom(child)
    queryableEntity: TypeId)                 // typeof(IQueryableEntity)
  {
    predicate Has(t: TypeId) { t < |nodes| }

    /** The type itself, or its generic type definition when it is generic. */
    function Norm(t: TypeId): TypeId
      requires Has(t)
    {
      match nodes[t].genericDefinition
      case Some(d) => d
      case None => t
    }

    predicate NodeValid(t: TypeId)
      requires Has(t)
    {
      var n := nodes[t];
      (n.genericDefinition.Some? ==> Has(n.genericDefinition.value))
      && (forall i | 0 <= i < |n.interfaces| :: Has(n.interfaces[i]))
      && (n.baseType.Some? ==> Has(n.baseType.value) && Norm(n.baseType.value) < t)
    }

    /**
     * Every id is in range and a type's (normalised) base type has a smaller
     * id than the type: the base-type relation is acyclic, `object` (id 0)
     * has no base.
     */
    predicate Valid() {
      0 < |nodes| && Has(queryableEntity)
      && (forall t | 0 <= t < |nodes| :: NodeValid(t))
      && (forall t | 0 <= t < |nodes| :: Has(Norm(t)))
      && (forall t, i | 0 <= t < |nodes| && 0 <= i < |nodes[t].properties| ::
            nodes[t].properties[i].propertyType.Named? ==> Has(nodes[t].properties[i].propertyType.id))
    }

    /** The value `currentChild` takes after the current one: the normalised base type. */
    function Next(t: TypeId): (r: Option<TypeId>)
      requires Valid() && Has(t)
      ensures r.Some? ==> r.value < t
    {
      assert NodeValid(t);
      match nodes[t].baseType
      case None => None
      case Some(b) => Some(Norm(b))
    }

    /**
     * The types the ancestor walk inspects from `c`: `c` and its normalised
     * bases, stopping before `object` or after a type without a base.
     */
    function Chain(c: TypeId): (r: seq<TypeId>)
      requires Valid() && Has(c)
      ensures (|r| > 0) <==> c != ObjectType
      ensures |r| > 0 ==> r[0] == c
      ensures forall k | 0 <= k < |r| :: Has(r[k]) && r[k] != ObjectType
      ensures forall k | 0 <= k < |r| - 1 :: Next(r[k]) == Some(r[k + 1])
      ensures |r| > 0 ==> Next(r[|r| - 1]).None? || Next(r[|r| - 1]) == Some(ObjectType)
      decreases c
    {
      if c == ObjectType then []
      else match Next(c)
        case None => [c]
        case Some(n) => [c] + Chain(n)
    }

    /** `HasAnyInterfaces(parent, child)`: some interface of `child`, normalised, is `parent`. */
    predicate HasAnyInterfaces(parent: TypeId, child: TypeId)
      requires Valid() && Has(child)
    {
      exists i | 0 <= i < |nodes[child].interfaces| :: (assert NodeValid(child); Norm(nodes[child].interfaces[i])) == parent
    }

    predicate Matches(parent: TypeId, c: TypeId)
      requires Valid() && Has(c)
    {
      parent == c || HasAnyInterfaces(parent, c)
    }

    /** Some type of the walk from `c` is `parent` or has `parent` among its interfaces. */
    predicate ChainMatches(parent: TypeId, c: TypeId)
      requires Valid() && Has(c)
    {
      var ch := Chain(c);
      exists k | 0 <= k < |ch| :: Matches(parent, ch[k])
    }
  }

  /** `ResolveGenericTypeDefinition`: as written it never changes its argument. */
  function ResolveGenericTypeDefinition(h: Hierarchy, parent: TypeId): (r: TypeId)
    requires h.Has(parent)
    ensures r == parent
  {
    var generic := h.nodes[parent].genericDefinition.Some?;
    var shouldUseGenericType := !(generic && h.Norm(parent) != parent);
    if generic && shouldUseGenericType then h.Norm(parent) else parent
  }

  /** One step of the walk: the walk from `c` matches iff `c` matches or the walk from its next type does. */
  lemma {:induction false} ChainMatchesStep(h: Hierarchy, parent: TypeId, c: TypeId)
    requires h.Valid() && h.Has(c) && c != ObjectType
    ensures h.ChainMatches(parent, c) <==>
      h.Matches(parent, c) || (h.Next(c).Some? && h.ChainMatches(parent, h.Next(c).value))
  {
    var ch := h.Chain(c);
    match h.Next(c)
    case None =>
      assert ch == [c];
    case Some(n) =>
      var rest := h.Chain(n);
      assert ch == [c] + rest;
      if h.ChainMatches(parent, n) {
        var k :| 0 <= k < |rest| && h.Matches(parent, rest[k]);
        assert ch[k + 1] == rest[k];
      }
      if h.ChainMatches(parent, c) && !h.Matches(parent, c) {
        var k :| 0 <= k < |ch| && h.Matches(parent, ch[k]);
        assert k > 0 && rest[k - 1] == ch[k];
      }
  }

  /**
   * `InheritsOrImplementsHalf`: the while loop over `currentChild`. It
   * answers whether the walk from the child's (normalised) type meets the
   * parent itself or a type that has the parent as an interface.
   */
  method InheritsOrImplementsHalf(h: Hierarchy, child: TypeId, parent: TypeId) returns (r: bool)
    requires h.Valid() && h.Has(child) && h.Has(parent)
    ensures r == h.ChainMatches(parent, h.Norm(child))
  {
    var p := ResolveGenericTypeDefinition(h, parent);
    var currentChild := h.Norm(child);
    while currentChild != ObjectType
      invariant h.Has(currentChild)
      invariant h.ChainMatches(parent, h.Norm(child)) == h.ChainMatches(parent, currentChild)
      decreases currentChild
    {
      ChainMatchesStep(h, parent, currentChild);
      if p == currentChild || h.HasAnyInterfaces(p, currentChild) {
        return true;
      }
      var next := h.Next(currentChild);
      if next.None? {
        return false;
      }
      currentChild := next.value;
    }
    return false;
  }

  /** `InheritsOrImplements`: the ancestor walk, or `parent.IsAssignableFrom(child)`. */
  predicate InheritsOrImplements(h: Hierarchy, child: TypeId, parent: TypeId)
    requires h.Valid() && h.Has(child) && h.Has(parent)
  {
    h.ChainMatches(ResolveGenericTypeDefinition(h, parent), h.Norm(child))
    || (parent, child) in h.assignableFrom
  }

  /**
   * The relation holds for the child's own (normalised) type, for every
   * type on its base chain, for every interface of those, and whenever the
   * parent is assignable from the child.
   */
  lemma {:induction false} InheritsOrImplementsAncestors(h: Hierarchy, child: TypeId, parent: TypeId, k: nat)
    requires h.Valid() && h.Has(child) && h.Has(parent)
    requires k < |h.Chain(h.Norm(child))|
    requires var a := h.Chain(h.Norm(child))[k]; a == parent || h.HasAnyInterfaces(parent, a)
    ensures InheritsOrImplements(h, child, parent)
  {
  }

  lemma InheritsOrImplementsAssignable(h: Hierarchy, child: TypeId, parent: TypeId)
    requires h.Valid() && h.Has(child) && h.Has(parent)
    requires (parent, child) in h.assignableFrom
    ensures InheritsOrImplements(h, child, parent)
  {
  }

  /** A type whose normalised form is itself and is not `object` inherits from itself. */
  lemma InheritsOrImplementsItself(h: Hierarchy, t: TypeId)
    requires h.Valid() && h.Has(t) && h.Norm(t) == t && t != ObjectType
    ensures InheritsOrImplements(h, t, t)
  {
    assert h.Chain(t)[0] == t;
  }

  /** The base chain carries the relation upwards: whatever the base inherits from, the derived type does too. */
  lemma {:induction false} InheritsFromBase(h: Hierarchy, child: TypeId, parent: TypeId)
    requires h.Valid() && h.Has(child) && h.Has(parent)
    requires h.Norm(child) != ObjectType && h.Next(h.Norm(child)).Some?
    requires h.ChainMatches(parent, h.Next(h.Norm(child)).value)
    ensures InheritsOrImplements(h, child, parent)
  {
    ChainMatchesStep(h, parent, h.Norm(child));
  }

  /** The comparison method a query calls on a property: `Contains` or `Equals`. */
  datatype CompareMethod = ContainsMethod | EqualsMethod

  function GetCompareMethod(t: Option<ClrType>, searchComparing: bool): (r: Result<CompareMethod, Error>)
    ensures t.None? ==> r == Failure(ArgumentNullError)
    ensures t.Some? && !IsSimpleType(t.value) ==> r == Failure(ArgumentError)
    ensures t.Some? && IsSimpleType(t.value) ==> r.Success?
    ensures r.Success? ==> (r.value == ContainsMethod <==> t.value == StringType && searchComparing)
  {
    match t
    case None => Failure(ArgumentNullError)
    case Some(ty) =>
      if !IsSimpleType(ty) then Failure(ArgumentError)
      else if ty == StringType && searchComparing then Success(ContainsMethod)
      else Success(EqualsMethod)
  }

  /**
   * The reflective `Parse` of a non-string simple type, given the
   * underlying (non-nullable) type and the filter text: a parsed value or
   * the exception it throws.
   */
  type Parser = (ClrType, Option<string>) -> Result<Value, Error>

  function UnderlyingType(t: ClrType): ClrType {
    if t.NullableOf? then t.underlying else t
  }

  /** `GetValue`: the filter's value as an object of the property's type. */
  function GetValue(filter: Option<QueryFilter>, t: Option<ClrType>, parse: Parser): (r: Result<Value, Error>)
    ensures filter.None? || t.None? ==> r == Failure(ArgumentNullError)
    ensures filter.Some? && t.Some? && !IsSimpleType(t.value) ==> r == Failure(ArgumentError)
    ensures filter.Some? && t == Some(StringType) ==>
      r == Success(if filter.value.value.Some? then Str(filter.value.value.value) else Null)
    ensures filter.Some? && t.Some? && IsSimpleType(t.value) && t.value != StringType ==>
      r == parse(UnderlyingType(t.value), filter.value.value)
  {
    if filter.None? || t.None? then Failure(ArgumentNullError)
    else if !IsSimpleType(t.value) then Failure(ArgumentError)
    else if t.value == StringType then
      Success(match filter.value.value case Some(s) => Str(s) case None => Null)
    else parse(UnderlyingType(t.value), filter.value.value)
  }

  predicate IsSearchable(p: Property) {
    IsSimpleType(p.propertyType) && p.searchable
  }

  /** The properties `GetSearchableProperties` keeps, in declaration order. */
  function SearchableProperties(props: seq<Property>): (r: seq<Property>)
    ensures IsSubsequence(r, props)
    ensures forall i :: 0 <= i < |r| ==> r[i] in props && IsSearchable(r[i])
    ensures forall i :: 0 <= i < |props| && IsSearchable(props[i]) ==> props[i] in r
  {
    Filter(props, IsSearchable)
  }

  /** `GetSearchableProperties` of a possibly null type. */
  function GetSearchableProperties(h: Hierarchy, t: Option<TypeId>): (r: Result<seq<Property>, Error>)
    requires t.Some? ==> h.Has(t.value)
    ensures t.None? <==> r == Failure(ArgumentNullError)
    ensures r.Success? ==> forall i :: 0 <= i < |r.value| ==>
      r.value[i] in h.nodes[t.value].properties && IsSearchable(r.value[i])
    ensures r.Success? ==> forall p :: p in h.nodes[t.value].properties && IsSearchable(p) ==> p in r.value
  {
    match t
    case None => Failure(ArgumentNullError)
    case Some(id) => Success(SearchableProperties(h.nodes[id].properties))
  }
}
