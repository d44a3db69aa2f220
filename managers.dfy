/**
 * `EntityManagerBase`: create, read, update and delete over the entity set
 * the data access context holds for the managed type. Every operation asks
 * the context for that set first and fails as the context does when none is
 * registered.
 */
module EntityManagers {
  import opened Common
  import opened Seqs
  import opened Entities
  import opened TypeModel
  import opened PaginationOptionsModel
  import opened EntityTracking
  import opened DataAccess
  import opened QueryGenerator
  import Query

  /** The first element of a sequence, `FirstOrDefault()`. */
  function First<T>(s: seq<T>): (r: Option<T>)
    ensures r.None? <==> s == []
    ensures r.Some? ==> r.value == s[0]
  {
    if s == [] then None else Some(s[0])
  }

  /** The predicate `x => true`. */
  function Everything(x: Entity): bool { true }

  /** The predicate `x => x.Id == id`. */
  function HasId(id: int): Entity -> bool {
    (x: Entity) => x.id == id
  }

  /**
   * Whether a queryable's provider is asynchronous. EF Core's `ToListAsync`
   * and `FirstOrDefaultAsync` read only such a source and throw
   * `InvalidOperationException` on any other. `EntitySet.Get` answers with
   * `AsQueryable()` over objects in memory, whose provider is not.
   */
  const EntitySetQueryIsAsync: bool := false

  /**
   * Awaiting `ToListAsync` or `FirstOrDefaultAsync` on a query: its
   * composition error if it has one, otherwise the read, which needs an
   * asynchronous provider.
   */
  function ReadAsync<T>(composeError: Option<Error>, asyncProvider: bool, read: T): (r: Result<T, Error>)
    ensures composeError.Some? ==> r == Failure(composeError.value)
    ensures composeError.None? && !asyncProvider ==> r == Failure(InvalidOperation)
    ensures composeError.None? && asyncProvider ==> r == Success(read)
  {
    match composeError
    case Some(e) => Failure(e)
    case None => if asyncProvider then Success(read) else Failure(InvalidOperation)
  }

  /** No asynchronous read of what `EntitySet.Get` answers can succeed. */
  lemma EntitySetReadsAsyncFail<T>(composeError: Option<Error>, read: T)
    ensures ReadAsync(composeError, EntitySetQueryIsAsync, read).Failure?
    ensures composeError.None? ==> ReadAsync(composeError, EntitySetQueryIsAsync, read) == Failure(InvalidOperation)
  {
  }

  class EntityManagerBase {
    const context: DataAccessContext
    const entityType: TypeId
    /** The managed type's public properties, which the query stages read. */
    const props: seq<Property>
    const parse: Parser

    constructor(context: DataAccessContext, entityType: TypeId, props: seq<Property>, parse: Parser)
      ensures this.context == context && this.entityType == entityType && this.props == props && this.parse == parse
    {
      this.context := context;
      this.entityType := entityType;
      this.props := props;
      this.parse := parse;
    }

    /** `_dataAccessContext.Set<TEntity>()`. */
    function EntitySet(): Result<EntityTracking.EntitySet, Error> {
      DataAccess.Set(context, entityType)
    }

    /** The set an operation may change: the registered one, if any. */
    function Footprint(): set<object> {
      if EntitySet().Success? then {EntitySet().value} else {}
    }

    /** `Get`: the set's `Get`; without a registered set, its error. */
    method Get(where: Entity -> bool) returns (r: Result<seq<Entity>, Error>)
      modifies Footprint()
      ensures EntitySet().Failure? ==> r == Failure(EntitySet().error)
      ensures EntitySet().Success? ==>
        var s := EntitySet().value;
        s.snapshots == Track(old(s.snapshots), Filter(s.dataSource, where)) &&
        r == Success(Filter(TrackedEntities(s.snapshots), where))
    {
      var entitySet := EntitySet();
      if entitySet.Failure? {
        return Failure(entitySet.error);
      }
      var found := entitySet.value.Get(where);
      return Success(found);
    }

    /** `GetAsync(expression)`: as `Get`, after rejecting a null expression. */
    method GetAsync(where: Option<Entity -> bool>) returns (r: Result<seq<Entity>, Error>)
      modifies Footprint()
      ensures where.None? ==> r == Failure(ArgumentError) && unchanged(Footprint())
      ensures where.Some? && EntitySet().Failure? ==> r == Failure(EntitySet().error)
      ensures where.Some? && EntitySet().Success? ==>
        var s := EntitySet().value;
        s.snapshots == Track(old(s.snapshots), Filter(s.dataSource, where.value)) &&
        r == Success(Filter(TrackedEntities(s.snapshots), where.value))
    {
      if where.None? {
        return Failure(ArgumentError);
      }
      r := Get(where.value);
    }

    /**
     * `GetAsync(queryOptions)`: everything the set tracks after reading the
     * whole data source, put through `ApplyQuery`.
     */
    method GetAsyncWithOptions(options: QueryOptions?) returns (r: Result<seq<Entity>, Error>)
      requires options != null ==> Query.PaginationComputable(Some(options.paginationOptions))
      modifies Footprint()
      ensures options == null ==> r == Failure(ArgumentError) && unchanged(Footprint())
      ensures options != null && EntitySet().Failure? ==> r == Failure(EntitySet().error)
      ensures options != null && EntitySet().Success? ==>
        var s := EntitySet().value;
        s.snapshots == Track(old(s.snapshots), s.dataSource) &&
        r == Query.ApplyQuery(Some(TrackedEntities(s.snapshots)), Some(options.View()), props, parse)
    {
      if options == null {
        return Failure(ArgumentError);
      }
      var all := Get(Everything);
      if all.Failure? {
        return Failure(all.error);
      }
      FilterAll(EntitySet().value.dataSource, Everything);
      FilterAll(TrackedEntities(EntitySet().value.snapshots), Everything);
      r := Query.ApplyQuery(Some(all.value), Some(options.View()), props, parse);
    }

    /**
     * `GetFirstAsync`: forces pagination (1, 1) on the caller's options, even
     * when the set lookup then fails, and answers with the first element the
     * query keeps.
     */
    method GetFirstAsync(options: QueryOptions?) returns (r: Result<Option<Entity>, Error>)
      modifies options, Footprint()
      ensures options == null ==> r == Failure(ArgumentError) && unchanged(Footprint())
      ensures options != null ==>
        options.paginationOptions == PaginationOptions(1, 1) &&
        options.searchOptions == old(options.searchOptions) && options.filterOptions == old(options.filterOptions) &&
        options.sortOptions == old(options.sortOptions) && options.includeOptions == old(options.includeOptions)
      ensures options != null && EntitySet().Failure? ==> r == Failure(EntitySet().error)
      ensures options != null && EntitySet().Success? ==>
        var s := EntitySet().value;
        var q := Query.ApplyQuery(Some(TrackedEntities(s.snapshots)), Some(options.View()), props, parse);
        s.snapshots == Track(old(s.snapshots), s.dataSource) &&
        (q.Failure? ==> r == Failure(q.error)) &&
        (q.Success? ==> |q.value| <= 1 && r == Success(First(q.value)))
    {
      if options == null {
        return Failure(ArgumentError);
      }
      var paged := AddPagination(options, 1, 1);
      assert options.paginationOptions == PaginationOptions(1, 1);
      var all := GetAsyncWithOptions(options);
      if all.Failure? {
        return Failure(all.error);
      }
      return Success(First(all.value));
    }

    /** `GetByIdAsync`: the first tracked entity with the `Id`, after reading the data source's entities with it. */
    method GetByIdAsync(id: int) returns (r: Result<Option<Entity>, Error>)
      modifies Footprint()
      ensures EntitySet().Failure? ==> r == Failure(EntitySet().error)
      ensures EntitySet().Success? ==>
        var s := EntitySet().value;
        s.snapshots == Track(old(s.snapshots), Filter(s.dataSource, HasId(id))) &&
        r == Success(FirstWhere(TrackedEntities(s.snapshots), HasId(id)))
    {
      var found := Get(HasId(id));
      if found.Failure? {
        return Failure(found.error);
      }
      FilterFirst(TrackedEntities(EntitySet().value.snapshots), HasId(id));
      return Success(First(found.value));
    }

    /**
     * `GetAsync(queryOptions)` as written: after the set has read the whole
     * data source, `ToListAsync` is awaited on the composed query, which
     * throws unless composing it already did.
     */
    method GetAsyncWithOptionsAsWritten(options: QueryOptions?) returns (r: Result<seq<Entity>, Error>)
      requires options != null ==> Query.PaginationComputable(Some(options.paginationOptions))
      modifies Footprint()
      ensures options == null ==> r == Failure(ArgumentError) && unchanged(Footprint())
      ensures options != null && EntitySet().Failure? ==> r == Failure(EntitySet().error)
      ensures options != null && EntitySet().Success? ==>
        var s := EntitySet().value;
        s.snapshots == Track(old(s.snapshots), s.dataSource) &&
        r == ReadAsync(Query.ComposeError(options.View(), props, parse, false), EntitySetQueryIsAsync, TrackedEntities(s.snapshots))
      ensures r.Failure?
    {
      if options == null {
        return Failure(ArgumentError);
      }
      var all := Get(Everything);
      if all.Failure? {
        return Failure(all.error);
      }
      FilterAll(EntitySet().value.dataSource, Everything);
      r := ReadAsync(Query.ComposeError(options.View(), props, parse, false), EntitySetQueryIsAsync, all.value);
    }

    /**
     * `GetFirstAsync` as written: forces pagination (1, 1), then awaits
     * `FirstOrDefaultAsync` on the composed query, which throws unless
     * composing it already did.
     */
    method GetFirstAsyncAsWritten(options: QueryOptions?) returns (r: Result<Option<Entity>, Error>)
      modifies options, Footprint()
      ensures options == null ==> r == Failure(ArgumentError) && unchanged(Footprint())
      ensures options != null ==>
        options.paginationOptions == PaginationOptions(1, 1) &&
        options.searchOptions == old(options.searchOptions) && options.filterOptions == old(options.filterOptions) &&
        options.sortOptions == old(options.sortOptions) && options.includeOptions == old(options.includeOptions)
      ensures options != null && EntitySet().Failure? ==> r == Failure(EntitySet().error)
      ensures options != null && EntitySet().Success? ==>
        var s := EntitySet().value;
        s.snapshots == Track(old(s.snapshots), s.dataSource) &&
        r == ReadAsync(Query.ComposeError(options.View(), props, parse, false), EntitySetQueryIsAsync, None)
      ensures r.Failure?
    {
      if options == null {
        return Failure(ArgumentError);
      }
      var paged := AddPagination(options, 1, 1);
      assert options.paginationOptions == PaginationOptions(1, 1);
      var all := Get(Everything);
      if all.Failure? {
        return Failure(all.error);
      }
      FilterAll(EntitySet().value.dataSource, Everything);
      r := ReadAsync(Query.ComposeError(options.View(), props, parse, false), EntitySetQueryIsAsync, None);
    }

    /**
     * `GetByIdAsync` as written: after the set has read the data source's
     * entities with the `Id`, `FirstOrDefaultAsync` is awaited on its answer
     * and throws.
     */
    method GetByIdAsyncAsWritten(id: int) returns (r: Result<Option<Entity>, Error>)
      modifies Footprint()
      ensures EntitySet().Failure? ==> r == Failure(EntitySet().error)
      ensures EntitySet().Success? ==>
        var s := EntitySet().value;
        s.snapshots == Track(old(s.snapshots), Filter(s.dataSource, HasId(id))) &&
        r == Failure(InvalidOperation)
    {
      var found := Get(HasId(id));
      if found.Failure? {
        return Failure(found.error);
      }
      r := ReadAsync(None, EntitySetQueryIsAsync, First(found.value));
    }

    /**
     * `CreateAsync`: rejects null, resets the `Id` to its default and tracks
     * the entity as added; saving, when asked for, cannot fail.
     */
    method CreateAsync(entity: Option<Entity>, save: bool) returns (r: Result<Entity, Error>)
      modifies Footprint()
      ensures entity.None? ==> r == Failure(ArgumentError) && unchanged(Footprint())
      ensures entity.Some? && EntitySet().Failure? ==> r == Failure(EntitySet().error)
      ensures entity.Some? && EntitySet().Success? ==>
        var s := EntitySet().value;
        r == Success(entity.value.(id := 0)) &&
        s.snapshots == old(s.snapshots) + [NewSnapshot(entity.value.(id := 0), Added)]
    {
      if entity.None? {
        return Failure(ArgumentError);
      }
      var created := entity.value.(id := 0);
      var entitySet := EntitySet();
      if entitySet.Failure? {
        return Failure(entitySet.error);
      }
      entitySet.value.Add(created);
      if save {
        var saved := SaveAsync(context);
      }
      return Success(created);
    }

    /**
     * `UpdateAsync`: rejects null and marks the tracked entity modified; the
     * answer `save || SaveAsync()` is always true, as saving always succeeds.
     */
    method UpdateAsync(entity: Option<Entity>, save: bool) returns (r: Result<bool, Error>)
      modifies Footprint()
      ensures entity.None? ==> r == Failure(ArgumentError) && unchanged(Footprint())
      ensures entity.Some? && EntitySet().Failure? ==> r == Failure(EntitySet().error)
      ensures entity.Some? && EntitySet().Success? ==>
        var s := EntitySet().value;
        var marked := MarkFirst(old(s.snapshots), entity.value.id, Modified);
        (marked.None? ==> r == Failure(EntryUpdateError) && s.snapshots == old(s.snapshots)) &&
        (marked.Some? ==> r == Success(true) && s.snapshots == marked.value)
    {
      if entity.None? {
        return Failure(ArgumentError);
      }
      var entitySet := EntitySet();
      if entitySet.Failure? {
        return Failure(entitySet.error);
      }
      var updated := entitySet.value.Update(entity.value);
      if updated.Fail? {
        return Failure(updated.error);
      }
      return Success(save || SaveAsync(context));
    }

    /** `DeleteAsync`: rejects null and marks the tracked entity deleted, answering as `UpdateAsync`. */
    method DeleteAsync(entity: Option<Entity>, save: bool) returns (r: Result<bool, Error>)
      modifies Footprint()
      ensures entity.None? ==> r == Failure(ArgumentError) && unchanged(Footprint())
      ensures entity.Some? && EntitySet().Failure? ==> r == Failure(EntitySet().error)
      ensures entity.Some? && EntitySet().Success? ==>
        var s := EntitySet().value;
        var marked := MarkFirst(old(s.snapshots), entity.value.id, Deleted);
        (marked.None? ==> r == Failure(EntryDeleteError) && s.snapshots == old(s.snapshots)) &&
        (marked.Some? ==> r == Success(true) && s.snapshots == marked.value)
    {
      if entity.None? {
        return Failure(ArgumentError);
      }
      var entitySet := EntitySet();
      if entitySet.Failure? {
        return Failure(entitySet.error);
      }
      var deleted := entitySet.value.Delete(entity.value);
      if deleted.Fail? {
        return Failure(deleted.error);
      }
      return Success(save || SaveAsync(context));
    }
  }

  /** A manager over a newly built context, as the sample user manager is, fails every lookup of its set. */
  lemma ManagerOverNewContextFails(entityType: TypeId)
    ensures DataAccess.Set(NewDataAccessContext(), entityType).Failure?
  {
  }
}
