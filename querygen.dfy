/**
 * `QueryGeneratorExtensions`: building query options step by step. Every
 * `Add*` checks its arguments, changes one part of the options object and
 * returns that same object.
 */
module QueryGenerator {
  import opened Common
  import opened Text
  import opened Entities
  import opened QueryRecords
  import opened PaginationOptionsModel
  import opened MemberSelectors
  import opened DataAccessFilterOptions
  import Query

  /** `IncludeOptions`: the names of the related entities to include. */
  class IncludeOptions {
    var includeModels: seq<string>

    constructor()
      ensures includeModels == []
    {
      includeModels := [];
    }

    /** `IncludeModels.Add(name)`. */
    method Append(name: string)
      modifies this
      ensures includeModels == old(includeModels) + [name]
    {
      includeModels := includeModels + [name];
    }
  }

  /**
   * `QueryOptions`, and `EntityQueryOptions` when `isEntityOptions`: the
   * entity variant also carries include options.
   */
  class QueryOptions {
    const isEntityOptions: bool
    var searchOptions: Option<SearchOptions>
    var filterOptions: FilterOptions?
    var sortOptions: Option<SortOptions>
    var paginationOptions: PaginationOptions
    var includeOptions: IncludeOptions?

    /** Fresh options: nothing requested and the default pagination of ten items from page one. */
    constructor(isEntityOptions: bool)
      ensures this.isEntityOptions == isEntityOptions
      ensures searchOptions.None? && filterOptions == null && sortOptions.None? && includeOptions == null
      ensures paginationOptions == PaginationOptions(10, 1)
    {
      this.isEntityOptions := isEntityOptions;
      searchOptions := None;
      filterOptions := null;
      sortOptions := None;
      paginationOptions := NewPaginationOptions(10, 1);
      includeOptions := null;
    }

    /** What `ApplyQuery` reads from these options. */
    function View(): (v: Query.QueryView)
      reads this, filterOptions
      ensures v.search == searchOptions && v.sort == sortOptions
      ensures v.filter.Some? <==> filterOptions != null
      ensures filterOptions != null ==> v.filter.value == filterOptions.filters
      ensures v.pagination == Some(paginationOptions)
    {
      Query.QueryView(
        searchOptions,
        if filterOptions == null then None else Some(filterOptions.filters),
        sortOptions,
        Some(paginationOptions))
    }
  }

  /** `CreateQuery` on a type: fresh default options, unless the type is null. */
  method CreateQuery(sourceType: Option<TypeId>) returns (r: Result<QueryOptions, Error>)
    ensures sourceType.None? <==> r.Failure?
    ensures r.Failure? ==> r.error == ArgumentError
    ensures r.Success? ==> (fresh(r.value) && !r.value.isEntityOptions &&
      r.value.searchOptions.None? && r.value.filterOptions == null && r.value.sortOptions.None? &&
      r.value.paginationOptions == PaginationOptions(10, 1))
  {
    if sourceType.None? {
      return Failure(ArgumentError);
    }
    var options := new QueryOptions(false);
    return Success(options);
  }

  /** `CreateQuery` on an entity: fresh default entity options, unless the entity is null. */
  method CreateEntityQuery(source: Option<Entity>) returns (r: Result<QueryOptions, Error>)
    ensures source.None? <==> r.Failure?
    ensures r.Failure? ==> r.error == ArgumentError
    ensures r.Success? ==> (fresh(r.value) && r.value.isEntityOptions &&
      r.value.searchOptions.None? && r.value.filterOptions == null && r.value.sortOptions.None? &&
      r.value.includeOptions == null && r.value.paginationOptions == PaginationOptions(10, 1))
  {
    if source.None? {
      return Failure(ArgumentError);
    }
    var options := new QueryOptions(true);
    return Success(options);
  }

  /** `AddSearch`: replaces the search options; null options and a blank keyword are rejected. */
  method AddSearch(options: QueryOptions?, keyword: Option<string>, includeChildren: bool) returns (r: Result<QueryOptions, Error>)
    modifies options
    ensures r.Failure? <==> options == null || IsNullOrWhiteSpace(keyword)
    ensures r.Failure? ==> r.error == ArgumentError && (options != null ==> unchanged(options))
    ensures r.Success? ==> r.value == options && options.searchOptions == Some(SearchOptions(keyword.value, includeChildren))
    ensures r.Success? ==> (options.filterOptions == old(options.filterOptions) && options.sortOptions == old(options.sortOptions) &&
      options.paginationOptions == old(options.paginationOptions) && options.includeOptions == old(options.includeOptions))
  {
    if options == null || IsNullOrWhiteSpace(keyword) {
      return Failure(ArgumentError);
    }
    var search := NewSearchOptions(keyword, includeChildren);
    options.searchOptions := Some(search.value);
    return Success(options);
  }

  /**
   * The property name of a selector: a null selector is rejected with the
   * options, a body that is not a member access as `GetMemberExpression`
   * and the `?? throw` after it reject it.
   */
  function SelectedName(selector: Option<Node>): (r: Result<string, Error>)
    ensures selector.None? ==> r == Failure(ArgumentError)
    ensures selector.Some? ==> r == SelectorPropertyName(selector.value)
  {
    match selector
    case None => Failure(ArgumentError)
    case Some(body) => SelectorPropertyName(body)
  }

  /** The filters the options held before a call, an absent filter option holding none. */
  function FiltersOf(filterOptions: FilterOptions?): seq<QueryFilter>
    reads filterOptions
  {
    if filterOptions == null then [] else filterOptions.filters
  }

  /**
   * `AddFilter` on query options. The filter options are created first when
   * absent; the value's text is then taken with `value.ToString()`, which
   * fails on a null value after that creation.
   */
  method AddFilter(options: QueryOptions?, selector: Option<Node>, value: Option<string>) returns (r: Result<QueryOptions, Error>)
    modifies options, if options != null && options.filterOptions != null then {options.filterOptions} else {}
    ensures options == null || SelectedName(selector).Failure? ==>
      r.Failure? && r.error == (if options == null then ArgumentError else SelectedName(selector).error)
    ensures options == null || SelectedName(selector).Failure? ==>
      options != null ==> unchanged(options) && (old(options.filterOptions) != null ==> unchanged(old(options.filterOptions)))
    ensures options != null && SelectedName(selector).Success? ==>
      options.filterOptions != null &&
      (old(options.filterOptions) == null ==> fresh(options.filterOptions)) &&
      (old(options.filterOptions) != null ==> options.filterOptions == old(options.filterOptions)) &&
      options.searchOptions == old(options.searchOptions) && options.sortOptions == old(options.sortOptions) &&
      options.paginationOptions == old(options.paginationOptions) && options.includeOptions == old(options.includeOptions)
    ensures options != null && SelectedName(selector).Success? && value.None? ==>
      r == Failure(NullReference) && options.filterOptions.filters == old(FiltersOf(options.filterOptions))
    ensures options != null && SelectedName(selector).Success? && value.Some? ==>
      r == Success(options) &&
      options.filterOptions.filters == old(FiltersOf(options.filterOptions)) + [QueryFilter(SelectedName(selector).value, value)]
  {
    if options == null {
      return Failure(ArgumentError);
    }
    var name := SelectedName(selector);
    if name.Failure? {
      return Failure(name.error);
    }
    if options.filterOptions == null {
      options.filterOptions := new FilterOptions();
    }
    if value.None? {
      return Failure(NullReference);
    }
    options.filterOptions.Append(QueryFilter(name.value, value));
    return Success(options);
  }

  /** `AddFilter` on entity query options: a null value is stored as a filter with a null value. */
  method AddEntityFilter(options: QueryOptions?, selector: Option<Node>, value: Option<string>) returns (r: Result<QueryOptions, Error>)
    requires options != null ==> options.isEntityOptions
    modifies options, if options != null && options.filterOptions != null then {options.filterOptions} else {}
    ensures r.Failure? <==> options == null || SelectedName(selector).Failure?
    ensures r.Failure? ==> r.error == (if options == null then ArgumentError else SelectedName(selector).error)
    ensures r.Failure? && options != null ==> unchanged(options) && (old(options.filterOptions) != null ==> unchanged(old(options.filterOptions)))
    ensures r.Success? ==> (r.value == options && options.filterOptions != null &&
      (old(options.filterOptions) == null ==> fresh(options.filterOptions)) &&
      (old(options.filterOptions) != null ==> options.filterOptions == old(options.filterOptions)) &&
      options.filterOptions.filters == old(FiltersOf(options.filterOptions)) + [QueryFilter(SelectedName(selector).value, value)])
    ensures r.Success? ==> (options.searchOptions == old(options.searchOptions) && options.sortOptions == old(options.sortOptions) &&
      options.paginationOptions == old(options.paginationOptions) && options.includeOptions == old(options.includeOptions))
  {
    if options == null {
      return Failure(ArgumentError);
    }
    var name := SelectedName(selector);
    if name.Failure? {
      return Failure(name.error);
    }
    if options.filterOptions == null {
      options.filterOptions := new FilterOptions();
    }
    options.filterOptions.Append(QueryFilter(name.value, value));
    return Success(options);
  }

  /** The include names the options held before a call. */
  function IncludesOf(includeOptions: IncludeOptions?): seq<string>
    reads includeOptions
  {
    if includeOptions == null then [] else includeOptions.includeModels
  }

  /** `AddInclude` (both overloads): creates the include options when absent and appends the property name. */
  method AddInclude(options: QueryOptions?, selector: Option<Node>) returns (r: Result<QueryOptions, Error>)
    requires options != null ==> options.isEntityOptions
    modifies options, if options != null && options.includeOptions != null then {options.includeOptions} else {}
    ensures r.Failure? <==> options == null || SelectedName(selector).Failure?
    ensures r.Failure? ==> r.error == (if options == null then ArgumentError else SelectedName(selector).error)
    ensures r.Failure? && options != null ==> unchanged(options) && (old(options.includeOptions) != null ==> unchanged(old(options.includeOptions)))
    ensures r.Success? ==> (r.value == options && options.includeOptions != null &&
      (old(options.includeOptions) == null ==> fresh(options.includeOptions)) &&
      (old(options.includeOptions) != null ==> options.includeOptions == old(options.includeOptions)) &&
      options.includeOptions.includeModels == old(IncludesOf(options.includeOptions)) + [SelectedName(selector).value])
    ensures r.Success? ==> (options.searchOptions == old(options.searchOptions) && options.sortOptions == old(options.sortOptions) &&
      options.paginationOptions == old(options.paginationOptions) && options.filterOptions == old(options.filterOptions))
  {
    if options == null {
      return Failure(ArgumentError);
    }
    var name := SelectedName(selector);
    if name.Failure? {
      return Failure(name.error);
    }
    if options.includeOptions == null {
      options.includeOptions := new IncludeOptions();
    }
    options.includeOptions.Append(name.value);
    return Success(options);
  }

  /** `AddSort`: replaces the sort options and nothing else. */
  method AddSort(options: QueryOptions?, selector: Option<Node>, sortAscending: bool) returns (r: Result<QueryOptions, Error>)
    modifies options
    ensures r.Failure? <==> options == null || SelectedName(selector).Failure?
    ensures r.Failure? ==> r.error == (if options == null then ArgumentError else SelectedName(selector).error)
    ensures r.Failure? && options != null ==> unchanged(options)
    ensures r.Success? ==> r.value == options && options.sortOptions == Some(SortOptions(SelectedName(selector).value, sortAscending))
    ensures r.Success? ==> (options.searchOptions == old(options.searchOptions) && options.filterOptions == old(options.filterOptions) &&
      options.paginationOptions == old(options.paginationOptions) && options.includeOptions == old(options.includeOptions))
  {
    if options == null {
      return Failure(ArgumentError);
    }
    var name := SelectedName(selector);
    if name.Failure? {
      return Failure(name.error);
    }
    options.sortOptions := Some(SortOptions(name.value, sortAscending));
    return Success(options);
  }

  /** `AddPagination`: replaces the pagination options, normalised, and nothing else. */
  method AddPagination(options: QueryOptions?, pageSize: int, pageToken: int) returns (r: Result<QueryOptions, Error>)
    modifies options
    ensures r.Failure? <==> options == null
    ensures r.Failure? ==> r.error == ArgumentError
    ensures r.Success? ==> r.value == options && options.paginationOptions == NewPaginationOptions(pageSize, pageToken)
    ensures r.Success? ==> (options.searchOptions == old(options.searchOptions) && options.filterOptions == old(options.filterOptions) &&
      options.sortOptions == old(options.sortOptions) && options.includeOptions == old(options.includeOptions))
  {
    if options == null {
      return Failure(ArgumentError);
    }
    options.paginationOptions := NewPaginationOptions(pageSize, pageToken);
    return Success(options);
  }

  /** Pagination (1, 1), which `GetFirstAsync` forces, keeps at most the first element of what it pages. */
  lemma FirstPageIsHead<T>(s: seq<T>)
    ensures Query.PaginationComputable(Some(NewPaginationOptions(1, 1))) &&
      Query.ApplyPagination(Some(s), Some(NewPaginationOptions(1, 1))) ==
      Success(if s == [] then [] else [s[0]])
  {
    var p := NewPaginationOptions(1, 1);
    assert p == PaginationOptions(1, 1);
    assert Query.SkipCount(p) == 0;
    var r := Query.ApplyPagination(Some(s), Some(p));
    if s != [] {
      assert Query.Min(0 + p.pageSize, |s|) == 1;
      assert r.value == s[0..1] == [s[0]];
    }
  }
}
