/**
 * `RequestListenerExtension`: which part of an HTTP request supplies the
 * value of a handler parameter. The chosen text goes to the JSON
 * deserializer, which is a parameter here; reading the body stream is
 * done beforehand and its text given.
 */
module RequestData {
  import opened Common
  import opened Text

  /**
   * Where a parameter value comes from. Besides the four named values, an
   * enum variable may hold any other number, which both dispatchers let
   * through to their default arm.
   */
  datatype Transfer = FromBody | FromHeader | FromRoute | FromQuery | Other(value: int)

  /**
   * What the readers look at: the body text as read with the request's
   * encoding, the headers, the URL's path segments (`None` for a null
   * `Url`), and the query string as `QueryString.ToString()` renders it.
   */
  datatype Request = Request(body: string, headers: Headers, urlSegments: Option<seq<string>>, queryString: string)

  /**
   * The request's header collection. Its names compare without regard to
   * ASCII case, so one entry stands for every spelling of a name; the map
   * keeps each name folded to lower case.
   */
  type Headers = m: map<string, string> | forall name :: name in m ==> Lower(name) == name
    witness map[]

  /** `JsonSerializer.Deserialize` into the target type: a value, a JSON `null`, or an error. */
  type Deserializer<T> = string -> Result<Option<T>, Error>

  /**
   * `Headers.Get(key)`: null for a null key or an absent header; the
   * collection finds a header whatever the case of the key's letters.
   */
  function Header(request: Request, key: Option<string>): (r: Option<string>)
    ensures r.Some? <==> key.Some? && exists name :: name in request.headers && EqualsIgnoreCase(name, key.value)
    ensures r.Some? ==> forall name :: name in request.headers && EqualsIgnoreCase(name, key.value) ==> r.value == request.headers[name]
  {
    if key.Some? && Lower(key.value) in request.headers then Some(request.headers[Lower(key.value)]) else None
  }

  /** `Url?.Segments[^1]`: the last path segment, or null for a null URL. */
  function LastSegment(request: Request): (r: Result<Option<string>, Error>)
    ensures request.urlSegments.None? ==> r == Success(None)
    ensures request.urlSegments.Some? && request.urlSegments.value == [] ==> r == Failure(IndexOutOfRange)
    ensures request.urlSegments.Some? && request.urlSegments.value != [] ==>
      r == Success(Some(request.urlSegments.value[|request.urlSegments.value| - 1]))
  {
    match request.urlSegments
    case None => Success(None)
    case Some(segments) =>
      if segments == [] then Failure(IndexOutOfRange) else Success(Some(segments[|segments| - 1]))
  }

  /** `GetDataFromRequestBody` (both). */
  function BodyData<T>(request: Request, deserialize: Deserializer<T>): Result<Option<T>, Error> {
    if request.body != "" then deserialize(request.body) else Failure(NullReference)
  }

  /** The generic `GetDataFromRequestHeader<T>`. */
  function HeaderData<T>(request: Request, key: Option<string>, deserialize: Deserializer<T>): Result<Option<T>, Error> {
    match Header(request, key)
    case Some(header) => deserialize(header)
    case None => Failure(NullReference)
  }

  /** The untyped `GetDataFromRequestHeader`. */
  function UntypedHeaderData<T>(request: Request, key: Option<string>, deserialize: Deserializer<T>): Result<Option<T>, Error> {
    deserialize(Header(request, key).GetOr(""))
  }

  /** `GetDataFromRequestRoute` (both). */
  function RouteData<T>(request: Request, key: Option<string>, deserialize: Deserializer<T>): Result<Option<T>, Error> {
    match LastSegment(request)
    case Failure(e) => Failure(e)
    case Success(segment) => deserialize(segment.GetOr(""))
  }

  /** `GetDataFromRequestQuery` (both). */
  function QueryData<T>(request: Request, deserialize: Deserializer<T>): Result<Option<T>, Error> {
    deserialize(request.queryString)
  }

  /** The generic `GetInjectingRequestData<T>`. */
  function InjectingData<T>(request: Request, transfer: Transfer, selector: Option<string>, deserialize: Deserializer<T>): Result<Option<T>, Error> {
    match transfer
    case FromBody => BodyData(request, deserialize)
    case FromHeader => HeaderData(request, selector, deserialize)
    case FromRoute => RouteData(request, selector, deserialize)
    case FromQuery => QueryData(request, deserialize)
    case Other(_) => Success(None)
  }

  /** The untyped `GetInjectingRequestData(returnType, ...)`, the deserializer being the one for `returnType`. */
  function UntypedInjectingData<T>(request: Request, transfer: Transfer, selector: Option<string>, deserialize: Deserializer<T>): Result<Option<T>, Error> {
    match transfer
    case FromBody => BodyData(request, deserialize)
    case FromHeader => UntypedHeaderData(request, selector, deserialize)
    case FromRoute => RouteData(request, selector, deserialize)
    case FromQuery => QueryData(request, deserialize)
    case Other(_) => Success(None)
  }

  /** A source outside the four named ones gives the default, null, without reading the request. */
  lemma OtherSourceGivesDefault<T>(request: Request, value: int, selector: Option<string>, deserialize: Deserializer<T>)
    ensures InjectingData(request, Other(value), selector, deserialize) == Success(None)
    ensures UntypedInjectingData(request, Other(value), selector, deserialize) == Success(None)
  {
  }

  /**
   * An empty body fails with `NullReferenceException` whatever the
   * deserializer, so nothing is deserialized; any other body is
   * deserialized whole.
   */
  lemma BodyReader<T>(request: Request, deserialize: Deserializer<T>, other: Deserializer<T>)
    ensures request.body == "" ==>
      InjectingData(request, FromBody, None, deserialize) == Failure(NullReference) == InjectingData(request, FromBody, None, other)
    ensures request.body != "" ==> InjectingData(request, FromBody, None, deserialize) == deserialize(request.body)
  {
  }

  /** The generic header reader fails on an absent header and otherwise deserializes its raw text. */
  lemma HeaderReader<T>(request: Request, key: Option<string>, deserialize: Deserializer<T>)
    ensures Header(request, key).None? ==>
      InjectingData(request, FromHeader, key, deserialize) == Failure(NullReference)
    ensures key.Some? ==> forall name :: name in request.headers && EqualsIgnoreCase(name, key.value) ==>
      InjectingData(request, FromHeader, key, deserialize) == deserialize(request.headers[name])
  {
  }

  /** Two keys that differ only in the case of their letters read the same header. */
  lemma HeaderIgnoresCase(request: Request, a: string, b: string)
    requires EqualsIgnoreCase(a, b)
    ensures Header(request, Some(a)) == Header(request, Some(b))
  {
  }

  /**
   * The route reader deserializes the last path segment, "" for a null URL,
   * and ignores its key; the query reader deserializes the whole query text.
   */
  lemma RouteAndQueryReaders<T>(request: Request, key1: Option<string>, key2: Option<string>, deserialize: Deserializer<T>)
    ensures request.urlSegments.Some? && request.urlSegments.value != [] ==>
      InjectingData(request, FromRoute, key1, deserialize) == deserialize(request.urlSegments.value[|request.urlSegments.value| - 1])
    ensures request.urlSegments.None? ==> InjectingData(request, FromRoute, key1, deserialize) == deserialize("")
    ensures InjectingData(request, FromRoute, key1, deserialize) == InjectingData(request, FromRoute, key2, deserialize)
    ensures InjectingData(request, FromQuery, key1, deserialize) == deserialize(request.queryString)
  {
  }

  /**
   * The two dispatchers agree on every source, the header one included
   * when the header is present; an absent header fails the generic reader
   * and reaches the deserializer as "" in the untyped one.
   */
  lemma DispatchersAgree<T>(request: Request, transfer: Transfer, selector: Option<string>, deserialize: Deserializer<T>)
    ensures !transfer.FromHeader? || Header(request, selector).Some? ==>
      InjectingData(request, transfer, selector, deserialize) == UntypedInjectingData(request, transfer, selector, deserialize)
    ensures transfer.FromHeader? && Header(request, selector).None? ==>
      InjectingData(request, transfer, selector, deserialize) == Failure(NullReference) &&
      UntypedInjectingData(request, transfer, selector, deserialize) == deserialize("")
  {
  }
}
