/**
 * `PaginationExtension.Paginate`: a page of a sequence whose skip count is
 * pulled back onto the last page boundary when the requested page lies past
 * the end. The enumerable and queryable overloads have the same body and are
 * one function here.
 */
module PaginationExtension {
  import opened Common
  import opened Seqs
  import opened PaginationOptionsModel
  import Int32

  /** What the page arithmetic demands: a non-zero size for `%` and a skip count in `int` range. */
  predicate Computable(options: PaginationOptions) {
    options.pageSize > 0 && Int32.InRange((options.pageToken - 1) * options.pageSize)
  }

  /** The skip count after the past-the-end adjustment. */
  function ItemsForSkip(count: nat, options: PaginationOptions): int
    requires options.pageSize > 0
  {
    var itemsForSkip := (options.pageToken - 1) * options.pageSize;
    if itemsForSkip >= count && count > 0 then count - count % options.pageSize else itemsForSkip
  }

  function Paginate<T>(source: Option<seq<T>>, options: Option<PaginationOptions>): (r: Result<seq<T>, Error>)
    requires options.Some? ==> Computable(options.value)
    ensures r.Failure? <==> source.None? || options.None?
    ensures r.Failure? ==> r.error == ArgumentError
    ensures r.Success? ==> |r.value| <= options.value.pageSize
  {
    if source.None? || options.None? then Failure(ArgumentError)
    else
      var s := source.value;
      Success(Take(Skip(s, ItemsForSkip(|s|, options.value)), options.value.pageSize))
  }

  /** The page is a contiguous slice of the source. */
  lemma {:induction false} PaginateIsSlice<T>(s: seq<T>, options: PaginationOptions)
    requires Computable(options)
    ensures var r := Paginate(Some(s), Some(options)).value;
      exists k :: IsSliceAt(r, s, k)
  {
    var r := Paginate(Some(s), Some(options)).value;
    var skipped := Skip(s, ItemsForSkip(|s|, options));
    var k := |s| - |skipped|;
    assert skipped == s[k..];
    assert r == skipped[..|r|];
    assert IsSliceAt(r, s, k);
  }

  /** A page that starts inside the source is the plain slice from the skip count. */
  lemma PaginateInRange<T>(s: seq<T>, options: PaginationOptions)
    requires Computable(options)
    requires 0 <= (options.pageToken - 1) * options.pageSize < |s|
    ensures var start := (options.pageToken - 1) * options.pageSize;
      var stop := if start + options.pageSize < |s| then start + options.pageSize else |s|;
      Paginate(Some(s), Some(options)).value == s[start..stop]
  {
  }

  /**
   * A page past the end of a non-empty source starts at the last page
   * boundary: it is the final partial page, which is empty when the count is
   * a multiple of the page size.
   */
  lemma PaginatePastEnd<T>(s: seq<T>, options: PaginationOptions)
    requires Computable(options)
    requires |s| > 0 && (options.pageToken - 1) * options.pageSize >= |s|
    ensures Paginate(Some(s), Some(options)).value == s[|s| - |s| % options.pageSize..]
    ensures |Paginate(Some(s), Some(options)).value| == |s| % options.pageSize
    ensures |s| % options.pageSize == 0 ==> Paginate(Some(s), Some(options)).value == []
  {
    var n := options.pageSize;
    var rest := |s| % n;
    var start := |s| - rest;
    assert 0 <= rest < n;
    assert ItemsForSkip(|s|, options) == start;
    var skipped := Skip(s, start);
    assert skipped == s[start..];
    assert Take(skipped, n) == skipped;
  }

  /** A page token of one or less gives the first page. */
  lemma PaginateFirstPage<T>(s: seq<T>, options: PaginationOptions)
    requires Computable(options) && options.pageToken <= 1
    ensures Paginate(Some(s), Some(options)).value == s[..if options.pageSize < |s| then options.pageSize else |s|]
  {
  }

  lemma PaginateEmpty<T>(s: seq<T>, options: PaginationOptions)
    requires Computable(options) && s == []
    ensures Paginate(Some(s), Some(options)) == Success([])
  {
  }
}
