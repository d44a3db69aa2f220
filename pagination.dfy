/**
 * The init-only pagination value object: both properties normalise what is
 * assigned to them (a page size of zero or less becomes 20, a page token of
 * zero or less becomes 1) and cannot change afterwards.
 */
module PaginationOptionsModel {

  datatype PaginationOptions = PaginationOptions(pageSize: int, pageToken: int) {
    predicate Valid() { pageSize >= 1 && pageToken >= 1 }
  }

  /** What the `PageSize` setter stores. */
  function NormalizePageSize(value: int): (r: int)
    ensures r >= 1
    ensures value > 0 ==> r == value
    ensures value <= 0 ==> r == 20
  {
    if value <= 0 then 20 else value
  }

  /** What the `PageToken` setter stores. */
  function NormalizePageToken(value: int): (r: int)
    ensures r >= 1
    ensures value > 0 ==> r == value
    ensures value <= 0 ==> r == 1
  {
    if value <= 0 then 1 else value
  }

  /** `new PaginationOptions(pageSize, pageToken)`. */
  function NewPaginationOptions(pageSize: int, pageToken: int): (p: PaginationOptions)
    ensures p.Valid()
    ensures p.pageSize == NormalizePageSize(pageSize) && p.pageToken == NormalizePageToken(pageToken)
  {
    PaginationOptions(NormalizePageSize(pageSize), NormalizePageToken(pageToken))
  }

  /** Rebuilding options from their own values gives the same options: normalisation is idempotent. */
  lemma NormalizationIdempotent(p: PaginationOptions)
    requires p.Valid()
    ensures NewPaginationOptions(p.pageSize, p.pageToken) == p
    ensures NormalizePageSize(NormalizePageSize(p.pageSize)) == NormalizePageSize(p.pageSize)
  {
  }
}

/**
 * The settable pagination options: the same normalisation, applied on every
 * assignment through the public setters.
 */
module SettablePaginationOptions {
  import opened PaginationOptionsModel

  class PaginationOptions {
    var pageSize: int
    var pageToken: int

    predicate Valid()
      reads this
    {
      pageSize >= 1 && pageToken >= 1
    }

    constructor (pageSize: int, pageToken: int)
      ensures Valid()
      ensures this.pageSize == NormalizePageSize(pageSize) && this.pageToken == NormalizePageToken(pageToken)
    {
      this.pageSize := NormalizePageSize(pageSize);
      this.pageToken := NormalizePageToken(pageToken);
    }

    method SetPageSize(value: int)
      requires Valid()
      modifies this
      ensures Valid()
      ensures pageSize == NormalizePageSize(value) && pageToken == old(pageToken)
    {
      pageSize := NormalizePageSize(value);
    }

    method SetPageToken(value: int)
      requires Valid()
      modifies this
      ensures Valid()
      ensures pageToken == NormalizePageToken(value) && pageSize == old(pageSize)
    {
      pageToken := NormalizePageToken(value);
    }
  }
}
