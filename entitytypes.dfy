/** `EntityExtensions`: which types are entities, and the entity types a type refers to directly. */
module EntityTypes {
  import opened Common
  import opened Seqs
  import opened TypeModel

  predicate InRange(h: Hierarchy, t: ClrType) {
    t.Named? ==> h.Has(t.id)
  }

  /**
   * `IsEntity`: the type inherits or implements `IQueryableEntity`. The
   * built-in simple types and nullables implement no interface of the
   * framework, so only a named type can be one.
   */
  predicate IsEntity(h: Hierarchy, t: ClrType)
    requires h.Valid() && InRange(h, t)
  {
    t.Named? && InheritsOrImplements(h, t.id, h.queryableEntity)
  }

  /** `Type.IsClass`: string, or a named type recorded as a class. */
  predicate IsClass(h: Hierarchy, t: ClrType)
    requires InRange(h, t)
  {
    t == StringType || (t.Named? && h.nodes[t.id].isClass)
  }

  predicate PropertiesInRange(h: Hierarchy, props: seq<Property>) {
    forall i | 0 <= i < |props| :: InRange(h, props[i].propertyType)
  }

  /** The property types that are entity classes, in declaration order (`Where(...).Select(...)`). */
  function EntityPropertyTypes(h: Hierarchy, props: seq<Property>): (r: seq<ClrType>)
    requires h.Valid() && PropertiesInRange(h, props)
    ensures forall i | 0 <= i < |r| :: InRange(h, r[i]) && IsClass(h, r[i]) && IsEntity(h, r[i])
    ensures forall i | 0 <= i < |props| :: IsClass(h, props[i].propertyType) && IsEntity(h, props[i].propertyType) ==> props[i].propertyType in r
    ensures forall i | 0 <= i < |r| :: exists j | 0 <= j < |props| :: props[j].propertyType == r[i]
  {
    if props == [] then []
    else
      var t := props[0].propertyType;
      var rest := EntityPropertyTypes(h, props[1..]);
      assert forall i | 0 <= i < |rest| :: exists j | 0 <= j < |props| :: props[j].propertyType == rest[i] by {
        forall i | 0 <= i < |rest|
          ensures exists j | 0 <= j < |props| :: props[j].propertyType == rest[i]
        {
          var j :| 0 <= j < |props[1..]| && props[1..][j].propertyType == rest[i];
          assert props[j + 1].propertyType == rest[i];
        }
      }
      if IsClass(h, t) && IsEntity(h, t) then [t] + rest else rest
  }

  /** The entity classes among the property types, as a set: the reference for `GetDirectChildEntities`. */
  ghost function ChildEntitySet(h: Hierarchy, props: seq<Property>): set<ClrType>
    requires h.Valid() && PropertiesInRange(h, props)
  {
    set j | 0 <= j < |props| && IsClass(h, props[j].propertyType) && IsEntity(h, props[j].propertyType) :: props[j].propertyType
  }

  /** `GetDirectChildEntities`. */
  function GetDirectChildEntities(h: Hierarchy, t: Option<ClrType>): (r: Result<seq<ClrType>, Error>)
    requires h.Valid() && (t.Some? ==> InRange(h, t.value))
    ensures t.None? <==> r == Failure(ArgumentError)
    ensures t.Some? && !IsEntity(h, t.value) ==> r == Success([])
    ensures r.Success? ==> forall i | 0 <= i < |r.value| :: InRange(h, r.value[i]) && IsClass(h, r.value[i]) && IsEntity(h, r.value[i])
    ensures r.Success? && IsEntity(h, t.value) ==>
      var props := h.nodes[t.value.id].properties;
      forall i | 0 <= i < |props| :: IsClass(h, props[i].propertyType) && IsEntity(h, props[i].propertyType) ==> props[i].propertyType in r.value
    ensures r.Success? && t.Some? && IsEntity(h, t.value) ==>
      var props := h.nodes[t.value.id].properties;
      forall i | 0 <= i < |r.value| :: exists j | 0 <= j < |props| :: props[j].propertyType == r.value[i]
    ensures r.Success? ==> forall i, j | 0 <= i < j < |r.value| :: r.value[i] != r.value[j]
  {
    match t
    case None => Failure(ArgumentError)
    case Some(ty) =>
      if !IsEntity(h, ty) then Success([])
      else
        var children := EntityPropertyTypes(h, h.nodes[ty.id].properties);
        var r := Distinct(children);
        assert forall i | 0 <= i < |r| :: r[i] in children;
        Success(r)
  }

  /**
   * For an entity type the children are exactly the entity-class property
   * types, each listed once: their set is `ChildEntitySet` and there are as
   * many of them as that set has members.
   */
  lemma {:induction false} DirectChildrenAreChildEntitySet(h: Hierarchy, t: ClrType)
    requires h.Valid() && InRange(h, t) && IsEntity(h, t)
    ensures var r := GetDirectChildEntities(h, Some(t));
      var props := h.nodes[t.id].properties;
      r.Success? && (set i | 0 <= i < |r.value| :: r.value[i]) == ChildEntitySet(h, props) &&
      |r.value| == |ChildEntitySet(h, props)|
  {
    var r := GetDirectChildEntities(h, Some(t)).value;
    var props := h.nodes[t.id].properties;
    var elems := set i | 0 <= i < |r| :: r[i];
    assert elems == ChildEntitySet(h, props) by {
      forall c | c in elems ensures c in ChildEntitySet(h, props) {
        var i :| 0 <= i < |r| && r[i] == c;
        var j :| 0 <= j < |props| && props[j].propertyType == r[i];
      }
      forall c | c in ChildEntitySet(h, props) ensures c in elems {
        var j :| 0 <= j < |props| && IsClass(h, props[j].propertyType) && IsEntity(h, props[j].propertyType) && props[j].propertyType == c;
        var i :| 0 <= i < |r| && r[i] == c;
      }
    }
    DistinctCardinality(r);
  }

  /** A sequence without repeats has as many elements as the set of its elements. */
  lemma {:induction false} DistinctCardinality<T>(s: seq<T>)
    requires forall i, j | 0 <= i < j < |s| :: s[i] != s[j]
    ensures |set i | 0 <= i < |s| :: s[i]| == |s|
  {
    if s != [] {
      DistinctCardinality(s[1..]);
      var rest := set i | 0 <= i < |s[1..]| :: s[1..][i];
      var all := set i | 0 <= i < |s| :: s[i];
      assert all == {s[0]} + rest by {
        forall c | c in all ensures c in {s[0]} + rest {
          var i :| 0 <= i < |s| && s[i] == c;
          if i > 0 { assert s[1..][i - 1] == c; }
        }
        forall c | c in rest ensures c in all {
          var i :| 0 <= i < |s[1..]| && s[1..][i] == c;
          assert s[i + 1] == c;
        }
      }
      assert s[0] !in rest by {
        forall i | 0 <= i < |s[1..]| ensures s[1..][i] != s[0] {
          assert s[1..][i] == s[i + 1];
        }
      }
    }
  }
}
