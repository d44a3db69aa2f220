/**
 * `EntitySet`: the change tracker of one entity type. It keeps a list of
 * snapshots, each an entity with its state; reading from the data source
 * starts tracking what was read, and adding, updating and deleting only
 * append snapshots or change their state.
 */
module EntityTracking {
  import opened Common
  import opened Entities
  import opened Seqs

  /** Entity Framework Core's `EntityState`. */
  datatype EntityState = Detached | Unchanged | Deleted | Modified | Added

  /** `EntitySnapshot`: the tracked entity, the copy taken when tracking began, and its state. */
  datatype Snapshot = Snapshot(entity: Entity, snapshot: Entity, state: EntityState)

  /** The snapshot constructors: both fields hold the given entity. */
  function NewSnapshot(entity: Entity, state: EntityState): Snapshot {
    Snapshot(entity, entity, state)
  }

  /** Some snapshot was taken of an entity with this `Id`. */
  predicate IsTracked(snapshots: seq<Snapshot>, id: int) {
    exists k :: 0 <= k < |snapshots| && snapshots[k].snapshot.id == id
  }

  /**
   * What `Get` does to the snapshot list: each result, in order, whose `Id`
   * no snapshot has yet (counting the ones added for earlier results) gets
   * an `Unchanged` snapshot at the end.
   */
  function Track(snapshots: seq<Snapshot>, results: seq<Entity>): seq<Snapshot>
    decreases |results|
  {
    if results == [] then snapshots
    else
      var next := if IsTracked(snapshots, results[0].id) then snapshots
                  else snapshots + [NewSnapshot(results[0], Unchanged)];
      Track(next, results[1..])
  }

  /** `Select(x => x.Entity)`. */
  function TrackedEntities(snapshots: seq<Snapshot>): (r: seq<Entity>)
    ensures |r| == |snapshots|
    ensures forall i :: 0 <= i < |r| ==> r[i] == snapshots[i].entity
  {
    if snapshots == [] then [] else [snapshots[0].entity] + TrackedEntities(snapshots[1..])
  }

  /**
   * `FirstOrDefault(x => x.Entity?.Id == id)` followed by setting that
   * snapshot's state; `None` when no snapshot's entity has the `Id`.
   */
  function MarkFirst(snapshots: seq<Snapshot>, id: int, state: EntityState): (r: Option<seq<Snapshot>>)
    ensures r.None? <==> forall k :: 0 <= k < |snapshots| ==> snapshots[k].entity.id != id
    ensures r.Some? ==> |r.value| == |snapshots|
    ensures r.Some? ==> exists i :: (0 <= i < |snapshots| && snapshots[i].entity.id == id &&
      (forall k :: 0 <= k < i ==> snapshots[k].entity.id != id) &&
      r.value[i] == snapshots[i].(state := state) &&
      (forall k :: 0 <= k < |snapshots| && k != i ==> r.value[k] == snapshots[k]))
  {
    match FirstIndex(snapshots, (x: Snapshot) => x.entity.id == id)
    case None => None
    case Some(i) => Some(snapshots[i := snapshots[i].(state := state)])
  }

  class EntitySet {
    /** The entity type the set tracks. */
    const entityType: TypeId
    /** What the data source provider holds; its query answers with the elements satisfying the predicate. */
    const dataSource: seq<Entity>
    var snapshots: seq<Snapshot>

    constructor(entityType: TypeId, dataSource: seq<Entity>)
      ensures this.entityType == entityType && this.dataSource == dataSource
      ensures snapshots == []
    {
      this.entityType := entityType;
      this.dataSource := dataSource;
      snapshots := [];
    }

    /**
     * `Get`: queries the data source, starts tracking every result not yet
     * tracked, and answers with every tracked entity, whatever its state,
     * that satisfies the predicate, in snapshot order.
     */
    method Get(where: Entity -> bool) returns (r: seq<Entity>)
      modifies this
      ensures snapshots == Track(old(snapshots), Filter(dataSource, where))
      ensures r == Filter(TrackedEntities(snapshots), where)
    {
      var results := Filter(dataSource, where);
      var i := 0;
      assert results[0..] == results;
      while i < |results|
        invariant 0 <= i <= |results|
        invariant Track(snapshots, results[i..]) == Track(old(snapshots), results)
      {
        assert results[i..][1..] == results[i + 1..];
        var x := results[i];
        if !IsTracked(snapshots, x.id) {
          snapshots := snapshots + [NewSnapshot(x, Unchanged)];
        }
        i := i + 1;
      }
      r := Filter(TrackedEntities(snapshots), where);
    }

    /** `Add`: tracks the entity as added. */
    method Add(entity: Entity)
      modifies this
      ensures snapshots == old(snapshots) + [NewSnapshot(entity, Added)]
    {
      snapshots := snapshots + [NewSnapshot(entity, Added)];
    }

    /** `Update`: marks the first snapshot of an entity with the same `Id` as modified. */
    method Update(entity: Entity) returns (r: Outcome<Error>)
      modifies this
      ensures MarkFirst(old(snapshots), entity.id, Modified).None? ==>
        r == Fail(EntryUpdateError) && snapshots == old(snapshots)
      ensures MarkFirst(old(snapshots), entity.id, Modified).Some? ==>
        r == Pass && snapshots == MarkFirst(old(snapshots), entity.id, Modified).value
    {
      var marked := MarkFirst(snapshots, entity.id, Modified);
      if marked.None? {
        return Fail(EntryUpdateError);
      }
      snapshots := marked.value;
      return Pass;
    }

    /** `Delete`: marks the first snapshot of an entity with the same `Id` as deleted; nothing is removed. */
    method Delete(entity: Entity) returns (r: Outcome<Error>)
      modifies this
      ensures MarkFirst(old(snapshots), entity.id, Deleted).None? ==>
        r == Fail(EntryDeleteError) && snapshots == old(snapshots)
      ensures MarkFirst(old(snapshots), entity.id, Deleted).Some? ==>
        r == Pass && snapshots == MarkFirst(old(snapshots), entity.id, Deleted).value
    {
      var marked := MarkFirst(snapshots, entity.id, Deleted);
      if marked.None? {
        return Fail(EntryDeleteError);
      }
      snapshots := marked.value;
      return Pass;
    }
  }

  /**
   * Tracking only appends: the old snapshots stay as they were, and each new
   * one is an `Unchanged` snapshot of one of the results.
   */
  lemma {:induction false} TrackAppends(snapshots: seq<Snapshot>, results: seq<Entity>)
    ensures |snapshots| <= |Track(snapshots, results)|
    ensures Track(snapshots, results)[..|snapshots|] == snapshots
    ensures forall i :: |snapshots| <= i < |Track(snapshots, results)| ==>
      Track(snapshots, results)[i].state == Unchanged &&
      Track(snapshots, results)[i].entity == Track(snapshots, results)[i].snapshot &&
      Track(snapshots, results)[i].entity in results
    decreases |results|
  {
    if results != [] {
      var next := if IsTracked(snapshots, results[0].id) then snapshots
                  else snapshots + [NewSnapshot(results[0], Unchanged)];
      TrackAppends(next, results[1..]);
      var t := Track(snapshots, results);
      assert t == Track(next, results[1..]);
      assert t[..|next|] == next;
      assert t[..|snapshots|] == next[..|snapshots|];
      forall i | |snapshots| <= i < |t|
        ensures t[i].state == Unchanged && t[i].entity == t[i].snapshot && t[i].entity in results
      {
        if i >= |next| {
          assert t[i].entity in results[1..];
        } else {
          assert t[i] == next[i] == NewSnapshot(results[0], Unchanged);
        }
      }
    }
  }

  /** Tracking a prefix keeps every `Id` already tracked. */
  lemma TrackedInPrefix(snapshots: seq<Snapshot>, t: seq<Snapshot>, id: int)
    requires |snapshots| <= |t| && t[..|snapshots|] == snapshots
    requires IsTracked(snapshots, id)
    ensures IsTracked(t, id)
  {
    var k :| 0 <= k < |snapshots| && snapshots[k].snapshot.id == id;
    assert t[k] == t[..|snapshots|][k];
  }

  /** After `Get`, every `Id` the data source returned is tracked. */
  lemma {:induction false} TrackCovers(snapshots: seq<Snapshot>, results: seq<Entity>)
    ensures forall i :: 0 <= i < |results| ==> IsTracked(Track(snapshots, results), results[i].id)
    decreases |results|
  {
    if results != [] {
      var next := if IsTracked(snapshots, results[0].id) then snapshots
                  else snapshots + [NewSnapshot(results[0], Unchanged)];
      TrackCovers(next, results[1..]);
      TrackAppends(next, results[1..]);
      var t := Track(snapshots, results);
      assert IsTracked(next, results[0].id) by {
        if !IsTracked(snapshots, results[0].id) {
          assert next[|snapshots|].snapshot.id == results[0].id;
        }
      }
      TrackedInPrefix(next, t, results[0].id);
      forall i | 0 <= i < |results|
        ensures IsTracked(t, results[i].id)
      {
        if i > 0 {
          assert results[i] == results[1..][i - 1];
        }
      }
    }
  }

  /** Tracking results whose `Id`s are all tracked already changes nothing. */
  lemma {:induction false} TrackAllTracked(snapshots: seq<Snapshot>, results: seq<Entity>)
    requires forall i :: 0 <= i < |results| ==> IsTracked(snapshots, results[i].id)
    ensures Track(snapshots, results) == snapshots
    decreases |results|
  {
    if results != [] {
      assert IsTracked(snapshots, results[0].id);
      forall i | 0 <= i < |results[1..]|
        ensures IsTracked(snapshots, results[1..][i].id)
      {
        assert results[1..][i] == results[i + 1];
      }
      TrackAllTracked(snapshots, results[1..]);
    }
  }

  /** Repeating `Get` with the same data source and predicate adds nothing. */
  lemma TrackIdempotent(snapshots: seq<Snapshot>, results: seq<Entity>)
    ensures Track(Track(snapshots, results), results) == Track(snapshots, results)
  {
    TrackCovers(snapshots, results);
    TrackAllTracked(Track(snapshots, results), results);
  }

  /** The snapshots `Get` adds have `Id`s no snapshot had before and no two of them share one. */
  lemma {:induction false} TrackAddsEachIdOnce(snapshots: seq<Snapshot>, results: seq<Entity>)
    ensures forall i :: |snapshots| <= i < |Track(snapshots, results)| ==>
      !IsTracked(snapshots, Track(snapshots, results)[i].snapshot.id)
    ensures forall i, j :: |snapshots| <= i < j < |Track(snapshots, results)| ==>
      Track(snapshots, results)[i].snapshot.id != Track(snapshots, results)[j].snapshot.id
    decreases |results|
  {
    TrackAppends(snapshots, results);
    if results != [] {
      var next := if IsTracked(snapshots, results[0].id) then snapshots
                  else snapshots + [NewSnapshot(results[0], Unchanged)];
      TrackAddsEachIdOnce(next, results[1..]);
      TrackAppends(next, results[1..]);
      var t := Track(snapshots, results);
      assert t == Track(next, results[1..]);
      forall i | |snapshots| <= i < |t|
        ensures !IsTracked(snapshots, t[i].snapshot.id)
      {
        if i >= |next| {
          if IsTracked(snapshots, t[i].snapshot.id) {
            TrackedInPrefix(snapshots, next, t[i].snapshot.id);
          }
        } else {
          assert t[i] == t[..|next|][i] == next[i];
        }
      }
      forall i, j | |snapshots| <= i < j < |t|
        ensures t[i].snapshot.id != t[j].snapshot.id
      {
        if i < |next| {
          assert t[i] == t[..|next|][i] == next[i];
          assert IsTracked(next, t[i].snapshot.id) by {
            assert next[i].snapshot.id == t[i].snapshot.id;
          }
        }
      }
    }
  }

  /** Marking a snapshot changes no tracked entity, so `Get` answers as before, and no tracked `Id`. */
  lemma MarkKeepsEntities(snapshots: seq<Snapshot>, id: int, state: EntityState)
    requires MarkFirst(snapshots, id, state).Some?
    ensures TrackedEntities(MarkFirst(snapshots, id, state).value) == TrackedEntities(snapshots)
    ensures forall x :: IsTracked(MarkFirst(snapshots, id, state).value, x) <==> IsTracked(snapshots, x)
  {
    var m := MarkFirst(snapshots, id, state).value;
    assert forall k :: 0 <= k < |m| ==> m[k].entity == snapshots[k].entity && m[k].snapshot == snapshots[k].snapshot;
    forall x
      ensures IsTracked(m, x) <==> IsTracked(snapshots, x)
    {
      if IsTracked(snapshots, x) {
        var k :| 0 <= k < |snapshots| && snapshots[k].snapshot.id == x;
        assert m[k].snapshot.id == x;
      }
    }
  }
}

/** `DataAccessContext`: hands out the entity set registered for a type. */
module DataAccess {
  import opened Common
  import opened Seqs
  import opened EntityTracking

  /** The context's dictionary of entity sets, as its values in order. */
  datatype DataAccessContext = DataAccessContext(entitySets: seq<EntitySet>)

  /** The constructor: an empty dictionary, which nothing adds to afterwards. */
  function NewDataAccessContext(): (c: DataAccessContext)
    ensures c.entitySets == []
  {
    DataAccessContext([])
  }

  /** `Set<TEntity>()`: the first held set of the entity type, or `EntitySetNotRegisteredException`. */
  function Set(c: DataAccessContext, entityType: TypeId): (r: Result<EntitySet, Error>)
    ensures r.Failure? <==> forall k :: 0 <= k < |c.entitySets| ==> c.entitySets[k].entityType != entityType
    ensures r.Failure? ==> r.error == EntitySetNotRegistered(entityType)
    ensures r.Success? ==> r.value.entityType == entityType
    ensures r.Success? ==> exists i :: (0 <= i < |c.entitySets| && c.entitySets[i] == r.value &&
      forall k :: 0 <= k < i ==> c.entitySets[k].entityType != entityType)
  {
    match FirstWhere(c.entitySets, (s: EntitySet) => s.entityType == entityType)
    case None => Failure(EntitySetNotRegistered(entityType))
    case Some(s) => Success(s)
  }

  /** `Save` and `SaveAsync` report success and do nothing else. */
  function Save(c: DataAccessContext): bool { true }

  function SaveAsync(c: DataAccessContext): bool { true }

  /** A newly built context has no set for any type, and saving it succeeds. */
  lemma NewContextHasNoSets(entityType: TypeId)
    ensures Set(NewDataAccessContext(), entityType) == Failure(EntitySetNotRegistered(entityType))
    ensures Save(NewDataAccessContext()) && SaveAsync(NewDataAccessContext())
  {
  }
}
