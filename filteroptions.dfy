/**
 * `FilterOptions` of the data-access option namespace: a settable list of
 * filters, built empty or with one filter, and an indexer that finds the
 * first filter of a key.
 */
module DataAccessFilterOptions {
  import opened Common
  import opened QueryRecords
  import Seqs

  class FilterOptions {
    /** `Filters`, which callers append to. */
    var filters: seq<QueryFilter>

    constructor()
      ensures filters == []
    {
      filters := [];
    }

    /** `new FilterOptions(key, value)`: exactly one filter. */
    constructor WithFilter(key: string, value: Option<string>)
      ensures filters == [QueryFilter(key, value)]
    {
      filters := [QueryFilter(key, value)];
    }

    /** `Filters.Add(filter)`. */
    method Append(filter: QueryFilter)
      modifies this
      ensures filters == old(filters) + [filter]
    {
      filters := filters + [filter];
    }

    /** `this[key]`: the first filter whose key equals `key` exactly, or null. */
    function Item(key: string): (r: Option<QueryFilter>)
      reads this
      ensures r.None? <==> forall i :: 0 <= i < |filters| ==> filters[i].key != key
      ensures r.Some? ==> r.value.key == key
      ensures r.Some? ==> exists i :: 0 <= i < |filters| && filters[i] == r.value && forall j :: 0 <= j < i ==> filters[j].key != key
    {
      FirstWithKey(filters, key)
    }
  }

  /** The first filter of `fs` with exactly the key `key`. */
  function FirstWithKey(fs: seq<QueryFilter>, key: string): Option<QueryFilter> {
    Seqs.FirstWhere(fs, (f: QueryFilter) => f.key == key)
  }

  /**
   * Appending a filter leaves the indexer's answer for a key already
   * present as it was, and makes an absent key find the new filter.
   */
  lemma {:induction false} FirstWithKeyAppend(fs: seq<QueryFilter>, filter: QueryFilter, key: string)
    ensures FirstWithKey(fs + [filter], key) ==
      if FirstWithKey(fs, key).Some? then FirstWithKey(fs, key)
      else if filter.key == key then Some(filter) else None
  {
    if fs != [] {
      FirstWithKeyAppend(fs[1..], filter, key);
      assert (fs + [filter])[1..] == fs[1..] + [filter];
    }
  }
}

/**
 * `FilterOptions` of the model query namespace: a settable list of
 * filters, built empty or as a copy of a sequence, and the first-match
 * indexer.
 */
module ModelFilterOptions {
  import opened Common
  import opened QueryRecords
  import Seqs

  class FilterOptions {
    var filters: seq<QueryFilter>

    constructor()
      ensures filters == []
    {
      filters := [];
    }

    /** `new FilterOptions(filters)`: `filters.ToList()`, same elements in the same order. */
    constructor FromFilters(source: seq<QueryFilter>)
      ensures filters == source
    {
      filters := source;
    }

    /** `this[key]`: the first filter whose key equals `key` exactly, or null when none does. */
    function Item(key: string): (r: Option<QueryFilter>)
      reads this
      ensures r.None? <==> forall i :: 0 <= i < |filters| ==> filters[i].key != key
      ensures r.Some? ==> r.value.key == key
      ensures r.Some? ==> exists i :: 0 <= i < |filters| && filters[i] == r.value && forall j :: 0 <= j < i ==> filters[j].key != key
    {
      Seqs.FirstWhere(filters, (f: QueryFilter) => f.key == key)
    }
  }
}
