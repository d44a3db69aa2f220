/**
 * The field-only records of the query options: a filter unit, the search
 * options and the sort options. Both option namespaces of the framework
 * declare records of these shapes; the model has one of each.
 */
module QueryRecords {
  import opened Common

  /** A filter unit: a property name and the text of the value, possibly null. */
  datatype QueryFilter = QueryFilter(key: string, value: Option<string>)

  datatype SearchOptions = SearchOptions(keyword: string, includeChildren: bool)

  /** The `SearchOptions` constructor, which rejects a null keyword. */
  function NewSearchOptions(keyword: Option<string>, includeChildren: bool): (r: Result<SearchOptions, Error>)
    ensures keyword.None? ==> r == Failure(ArgumentError)
    ensures keyword.Some? ==> r.Success? && r.value.keyword == keyword.value && r.value.includeChildren == includeChildren
  {
    match keyword
    case None => Failure(ArgumentError)
    case Some(k) => Success(SearchOptions(k, includeChildren))
  }

  /** Sort field name and direction (`SortField`/`SortAscending`, or `OrderBy`/`OrderAscending`). */
  datatype SortOptions = SortOptions(sortField: string, sortAscending: bool)
}
