/**
 * `EntityManagerBaseService`: the same operations as the entity manager,
 * over a data source broker instead of a change tracker. The broker is an
 * interface; here it is an ordered store of entities with a save call whose
 * answer is fixed when the broker is made, and which counts its calls.
 */
module ManagerServices {
  import opened Common
  import opened Seqs
  import opened Entities
  import opened TypeModel
  import opened PaginationOptionsModel
  import opened QueryGenerator
  import opened EntityManagers
  import Query

  /** Every stored entity but those with the `Id`. */
  function WithoutId(entities: seq<Entity>, id: int): (r: seq<Entity>)
    ensures forall k :: 0 <= k < |r| ==> r[k].id != id && r[k] in entities
    ensures forall k :: 0 <= k < |entities| && entities[k].id != id ==> entities[k] in r
  {
    Filter(entities, (x: Entity) => x.id != id)
  }

  /** Every stored entity with the `Id` replaced by the given one. */
  function Replacing(entities: seq<Entity>, entity: Entity): (r: seq<Entity>)
    ensures |r| == |entities|
    ensures forall k :: 0 <= k < |r| ==> r[k] == if entities[k].id == entity.id then entity else entities[k]
  {
    if entities == [] then []
    else [if entities[0].id == entity.id then entity else entities[0]] + Replacing(entities[1..], entity)
  }

  /** `IDataSourceBroker`. */
  class DataSourceBroker {
    var entities: seq<Entity>
    /** What `SaveAsync` answers. */
    const saveSucceeds: bool
    /** How many times `SaveAsync` was called. */
    var saveCalls: nat

    constructor(entities: seq<Entity>, saveSucceeds: bool)
      ensures this.entities == entities && this.saveSucceeds == saveSucceeds && saveCalls == 0
    {
      this.entities := entities;
      this.saveSucceeds := saveSucceeds;
      saveCalls := 0;
    }

    /** `Get(expression)`. */
    function Get(where: Entity -> bool): seq<Entity>
      reads this
    {
      Filter(entities, where)
    }

    method CreateAsync(entity: Entity)
      modifies this
      ensures entities == old(entities) + [entity] && saveCalls == old(saveCalls)
    {
      entities := entities + [entity];
    }

    method UpdateAsync(entity: Entity)
      modifies this
      ensures entities == Replacing(old(entities), entity) && saveCalls == old(saveCalls)
    {
      entities := Replacing(entities, entity);
    }

    method DeleteAsync(entity: Entity)
      modifies this
      ensures entities == WithoutId(old(entities), entity.id) && saveCalls == old(saveCalls)
    {
      entities := WithoutId(entities, entity.id);
    }

    method SaveAsync() returns (saved: bool)
      modifies this
      ensures saved == saveSucceeds && entities == old(entities) && saveCalls == old(saveCalls) + 1
    {
      saveCalls := saveCalls + 1;
      return saveSucceeds;
    }
  }

  class EntityManagerBaseService {
    const broker: DataSourceBroker
    const props: seq<Property>
    const parse: Parser

    constructor(broker: DataSourceBroker, props: seq<Property>, parse: Parser)
      ensures this.broker == broker && this.props == props && this.parse == parse
    {
      this.broker := broker;
      this.props := props;
      this.parse := parse;
    }

    /** `Get`: the broker's answer. */
    function Get(where: Entity -> bool): (r: seq<Entity>)
      reads broker
      ensures forall k :: 0 <= k < |r| ==> r[k] in broker.entities && where(r[k])
      ensures forall k :: 0 <= k < |broker.entities| && where(broker.entities[k]) ==> broker.entities[k] in r
    {
      broker.Get(where)
    }

    /** `GetAsync(expression)`: rejects a null expression. */
    method GetAsync(where: Option<Entity -> bool>) returns (r: Result<seq<Entity>, Error>)
      ensures where.None? <==> r.Failure?
      ensures r.Failure? ==> r.error == ArgumentError
      ensures r.Success? ==> r.value == Get(where.value)
    {
      if where.None? {
        return Failure(ArgumentError);
      }
      return Success(Get(where.value));
    }

    /** `GetAsync(queryOptions)`: everything the broker holds, put through `ApplyQuery`. */
    method GetAsyncWithOptions(options: QueryOptions?) returns (r: Result<seq<Entity>, Error>)
      requires options != null ==> Query.PaginationComputable(Some(options.paginationOptions))
      ensures options == null ==> r == Failure(ArgumentError)
      ensures options != null ==> r == Query.ApplyQuery(Some(broker.entities), Some(options.View()), props, parse)
    {
      if options == null {
        return Failure(ArgumentError);
      }
      FilterAll(broker.entities, Everything);
      r := Query.ApplyQuery(Some(Get(Everything)), Some(options.View()), props, parse);
    }

    /** `GetFirstAsync`: forces pagination (1, 1) on the caller's options and answers with the one element the query keeps. */
    method GetFirstAsync(options: QueryOptions?) returns (r: Result<Option<Entity>, Error>)
      modifies options
      ensures options != null ==>
        options.paginationOptions == PaginationOptions(1, 1) &&
        options.searchOptions == old(options.searchOptions) && options.filterOptions == old(options.filterOptions) &&
        options.sortOptions == old(options.sortOptions) && options.includeOptions == old(options.includeOptions)
      ensures options == null ==> r == Failure(ArgumentError)
      ensures options != null ==>
        var q := Query.ApplyQuery(Some(broker.entities), Some(options.View()), props, parse);
        (q.Failure? ==> r == Failure(q.error)) &&
        (q.Success? ==> |q.value| <= 1 && r == Success(First(q.value)))
    {
      if options == null {
        return Failure(ArgumentError);
      }
      var paged := AddPagination(options, 1, 1);
      assert options.paginationOptions == PaginationOptions(1, 1);
      var all := GetAsyncWithOptions(options);
      if all.Failure? {
        return Failure(all.error);
      }
      return Success(First(all.value));
    }

    /** `GetByIdAsync`: the first stored entity with the `Id`, or null. */
    function GetByIdAsync(id: int): (r: Option<Entity>)
      reads broker
      ensures r.None? <==> forall k :: 0 <= k < |broker.entities| ==> broker.entities[k].id != id
      ensures r.Some? ==> r.value.id == id && r.value in broker.entities
      ensures r.Some? ==> exists k :: (0 <= k < |broker.entities| && broker.entities[k] == r.value &&
        forall j :: 0 <= j < k ==> broker.entities[j].id != id)
    {
      FilterFirst(broker.entities, HasId(id));
      First(Get(HasId(id)))
    }

    /**
     * `CreateAsync`: rejects null, resets the `Id` to its default and hands
     * the entity to the broker; with `save` it saves, and a failed save
     * fails the call after the broker already holds the entity.
     */
    method CreateAsync(entity: Option<Entity>, save: bool) returns (r: Result<Entity, Error>)
      modifies broker
      ensures entity.None? ==> r == Failure(ArgumentError) && unchanged(broker)
      ensures entity.Some? ==>
        broker.entities == old(broker.entities) + [entity.value.(id := 0)] &&
        broker.saveCalls == old(broker.saveCalls) + (if save then 1 else 0)
      ensures entity.Some? && save && !broker.saveSucceeds ==> r == Failure(OperationFailed("Failed to create entity"))
      ensures entity.Some? && (!save || broker.saveSucceeds) ==> r == Success(entity.value.(id := 0))
    {
      if entity.None? {
        return Failure(ArgumentError);
      }
      var created := entity.value.(id := 0);
      broker.CreateAsync(created);
      if save {
        var saved := broker.SaveAsync();
        if !saved {
          return Failure(OperationFailed("Failed to create entity"));
        }
      }
      return Success(created);
    }

    /**
     * `UpdateAsync`: rejects null and an entity whose `Id` the broker does
     * not hold, leaving the broker untouched; otherwise updates and saves as
     * `CreateAsync` does.
     */
    method UpdateAsync(entity: Option<Entity>, save: bool) returns (r: Result<Entity, Error>)
      modifies broker
      ensures entity.None? ==> r == Failure(ArgumentError) && unchanged(broker)
      ensures entity.Some? && old(GetByIdAsync(entity.value.id)).None? ==> r == Failure(EntityNotFound) && unchanged(broker)
      ensures entity.Some? && old(GetByIdAsync(entity.value.id)).Some? ==>
        broker.entities == Replacing(old(broker.entities), entity.value) &&
        broker.saveCalls == old(broker.saveCalls) + (if save then 1 else 0) &&
        r == if save && !broker.saveSucceeds then Failure(OperationFailed("Failed to update entity")) else Success(entity.value)
    {
      if entity.None? {
        return Failure(ArgumentError);
      }
      var existing := GetByIdAsync(entity.value.id);
      if existing.None? {
        return Failure(EntityNotFound);
      }
      broker.UpdateAsync(entity.value);
      if save {
        var saved := broker.SaveAsync();
        if !saved {
          return Failure(OperationFailed("Failed to update entity"));
        }
      }
      return Success(entity.value);
    }

    /** `DeleteAsync`: rejects an `Id` the broker does not hold; otherwise deletes the entity found and answers `!save || SaveAsync()`. */
    method DeleteAsync(id: int, save: bool) returns (r: Result<bool, Error>)
      modifies broker
      ensures old(GetByIdAsync(id)).None? ==> r == Failure(EntityNotFound) && unchanged(broker)
      ensures old(GetByIdAsync(id)).Some? ==>
        broker.entities == WithoutId(old(broker.entities), id) &&
        broker.saveCalls == old(broker.saveCalls) + (if save then 1 else 0) &&
        r == Success(!save || broker.saveSucceeds)
    {
      var existing := GetByIdAsync(id);
      if existing.None? {
        return Failure(EntityNotFound);
      }
      broker.DeleteAsync(existing.value);
      var saved := true;
      if save {
        saved := broker.SaveAsync();
      }
      return Success(saved);
    }
  }

  /** After a successful delete the broker holds no entity with the `Id`, and everything else is kept. */
  lemma DeleteRemovesOnlyId(entities: seq<Entity>, id: int)
    ensures forall k :: 0 <= k < |WithoutId(entities, id)| ==> WithoutId(entities, id)[k].id != id
    ensures forall x :: x in entities && x.id != id ==> x in WithoutId(entities, id)
  {
    forall x | x in entities && x.id != id
      ensures x in WithoutId(entities, id)
    {
      var k :| 0 <= k < |entities| && entities[k] == x;
    }
  }

  /** After an update the broker finds the given entity by its `Id`, in place of the one it held. */
  lemma {:induction false} UpdateThenFind(entities: seq<Entity>, entity: Entity)
    requires exists k :: 0 <= k < |entities| && entities[k].id == entity.id
    ensures FirstWhere(Replacing(entities, entity), HasId(entity.id)) == Some(entity)
  {
    var r := Replacing(entities, entity);
    var k :| 0 <= k < |entities| && entities[k].id == entity.id;
    assert HasId(entity.id)(r[k]);
  }
}

/**
 * `CleverBase`: the same queries over an in-memory data source given when
 * the clever is made.
 */
module Clevers {
  import opened Common
  import opened Seqs
  import opened Entities
  import opened TypeModel
  import opened PaginationOptionsModel
  import opened QueryGenerator
  import opened EntityManagers
  import Query

  class CleverBase {
    /** `DataSource`, settable only when the object is initialised. */
    const dataSource: seq<Entity>
    const props: seq<Property>
    const parse: Parser

    /** The default constructor: an empty data source. */
    constructor(props: seq<Property>, parse: Parser)
      ensures dataSource == [] && this.props == props && this.parse == parse
    {
      dataSource := [];
      this.props := props;
      this.parse := parse;
    }

    constructor WithSource(dataSource: seq<Entity>, props: seq<Property>, parse: Parser)
      ensures this.dataSource == dataSource && this.props == props && this.parse == parse
    {
      this.dataSource := dataSource;
      this.props := props;
      this.parse := parse;
    }

    /** `Get`: the elements of the data source satisfying the predicate, in order. */
    function Get(where: Entity -> bool): (r: seq<Entity>)
      ensures forall k :: 0 <= k < |r| ==> r[k] in dataSource && where(r[k])
      ensures forall k :: 0 <= k < |dataSource| && where(dataSource[k]) ==> dataSource[k] in r
      ensures IsSubsequence(r, dataSource)
    {
      Filter(dataSource, where)
    }

    /** `GetAsync(expression)`: as `Get`, after rejecting a null expression. */
    function GetAsync(where: Option<Entity -> bool>): (r: Result<seq<Entity>, Error>)
      ensures where.None? <==> r.Failure?
      ensures r.Failure? ==> r.error == ArgumentError
      ensures r.Success? ==> r.value == Get(where.value)
    {
      if where.None? then Failure(ArgumentError) else Success(Get(where.value))
    }

    /** `GetAsync(queryOptions)`: the whole data source put through `ApplyQuery`. */
    function GetAsyncWithOptions(options: QueryOptions?): (r: Result<seq<Entity>, Error>)
      requires options != null ==> Query.PaginationComputable(Some(options.paginationOptions))
      reads options, if options != null then {options.filterOptions} else {}
      ensures options == null ==> r == Failure(ArgumentError)
      ensures options != null ==> r == Query.ApplyQuery(Some(dataSource), Some(options.View()), props, parse)
    {
      if options == null then Failure(ArgumentError)
      else
        FilterAll(dataSource, Everything);
        Query.ApplyQuery(Some(Get(Everything)), Some(options.View()), props, parse)
    }

    /** `GetFirstAsync`: forces pagination (1, 1) on the caller's options and answers with the one element the query keeps. */
    method GetFirstAsync(options: QueryOptions?) returns (r: Result<Option<Entity>, Error>)
      modifies options
      ensures options != null ==>
        options.paginationOptions == PaginationOptions(1, 1) &&
        options.searchOptions == old(options.searchOptions) && options.filterOptions == old(options.filterOptions) &&
        options.sortOptions == old(options.sortOptions) && options.includeOptions == old(options.includeOptions)
      ensures options == null ==> r == Failure(ArgumentError)
      ensures options != null ==>
        var q := GetAsyncWithOptions(options);
        (q.Failure? ==> r == Failure(q.error)) &&
        (q.Success? ==> |q.value| <= 1 && r == Success(First(q.value)))
    {
      if options == null {
        return Failure(ArgumentError);
      }
      var paged := AddPagination(options, 1, 1);
      assert options.paginationOptions == PaginationOptions(1, 1);
      var all := GetAsyncWithOptions(options);
      if all.Failure? {
        return Failure(all.error);
      }
      return Success(First(all.value));
    }

    /** `GetByIdAsync`: the first element with the `Id`, or null. */
    function GetByIdAsync(id: int): (r: Option<Entity>)
      ensures r.None? <==> forall k :: 0 <= k < |dataSource| ==> dataSource[k].id != id
      ensures r.Some? ==> exists k :: (0 <= k < |dataSource| && dataSource[k] == r.value && r.value.id == id &&
        forall j :: 0 <= j < k ==> dataSource[j].id != id)
    {
      FirstWhere(dataSource, HasId(id))
    }
  }

  /** `GetByIdAsync` is the first element of `Get` by that `Id`. */
  lemma GetByIdIsFirstOfGet(clever: CleverBase, id: int)
    ensures clever.GetByIdAsync(id) == First(clever.Get(HasId(id)))
  {
    FilterFirst(clever.dataSource, HasId(id));
  }
}
