# Tigernet core, modelled in Dafny

Tigernet is a small C# web framework. A `TigernetHostBuilder` keeps a table
from raw request URLs to handlers and answers unknown URLs with 404 Not Found
(section 15.5.5 of RFC 9110). `MapRester` derives one route per getter method
of a controller ("rester") and builds that controller once, through a small
dependency-injection container (`AddService`, `Get`, `GetService`). The
request-data readers choose which part of a request (body, header, last URL
segment, query string) is handed to the JSON deserializer.

On the data side there is a query engine over in-memory sources. It covers:
- keyword search over the searchable string properties;
- filters, combined as OR within a key and AND across keys;
- stable sorting by a property chosen by name, ignoring case;
- two pagination algorithms;
- options objects that are built step by step with `Add*` calls.

Below the query engine sit:
- an in-memory change tracker (`EntitySet`) that keeps snapshots with states;
- `DataAccessContext`;
- the entity managers built on them (`EntityManagerBase`,
  `EntityManagerBaseService` over a broker, `CleverBase` over a sequence);
- two sample user stores.

The model follows the code's own form:
- Value logic becomes datatypes and functions: the query stages, the type
  helpers, the request readers, the normalising pagination value object and
  DI resolution.
- Objects whose fields the code updates become classes with `modifies`
  clauses: the host builder, the response, the options objects, the
  settable pagination options, the filter and include options, the entity
  set, the managers, the broker and the sample user store.
- Loops become `while` loops with invariants, each proved against a
  specification function. They are the ancestor walk, the tracking loop of
  `EntitySet.Get`, the constructor-parameter loop and the getter loop of
  `MapRester`.

Reflection is replaced by explicit tables:
- `TypeModel.Hierarchy` holds base types, interfaces, generic definitions and
  properties;
- `DependencyInjection.Reflection` gives each type's first constructor and
  its methods.

Expression trees become a small predicate language (`Predicates.Expr`) with
an evaluator. Entities are records holding an `Id` and a map of property
values. C# `null` is `None` in an `Option`, and an exception is a `Failure`
(or `Fail`) carrying an `Error`.

The files are:
- common.dfy: Option/Result/Outcome, errors, `int` range.
- seqs.dfy: LINQ's Where, Skip, Take, FirstOrDefault and Distinct.
- text.dfy: case folding, white space, Contains, UTF-8.
- entities.dfy: entities, values and their order.
- records.dfy, pagination.dfy, filteroptions.dfy: the option records.
- types.dfy, entitytypes.dfy: type helpers.
- predicates.dfy: `PredicateBuilder` and `GetMemberExpression`.
- sort.dfy: stable sort.
- paginate.dfy: `PaginationExtension`.
- query.dfy: `QueryExtensions`.
- querygen.dfy: `QueryGeneratorExtensions`.
- entityset.dfy: `EntitySet`, `DataAccessContext`.
- managers.dfy: `EntityManagerBase`.
- services.dfy: `EntityManagerBaseService` and `CleverBase`.
- samples.dfy: the sample user stores.
- host.dfy: DI and the host builder.
- requestdata.dfy: `RequestListenerExtension`.

### Behaviour worth noting

- Route lookup matches the raw URL exactly: it is case-sensitive and includes
  the query string. It does not check the HTTP verb, and `MapRester` reads
  only the getter attribute.
- `UserEntityManager.Update` does not change the stored list (see Findings).
- The enumerable `ApplySort` cannot sort by a value-typed property (see
  Findings).
- The compiled search and filter delegates call `Contains` or `Equals` on the
  member itself, so a string property holding null throws
  `NullReferenceException` when the element is evaluated. `OrElse` and
  `AndAlso` short-circuit, so the throw happens only when no earlier operand
  has decided the answer.
- The query is lazy. Building the stage expressions fails at once, but
  elements are evaluated only when the page is read. A sort reads every
  element, while `Skip(n).Take(m)` without one stops once `n + m` elements
  have been kept.
- `EntityManagerBase` awaits `ToListAsync` and `FirstOrDefaultAsync` on an
  in-memory query, which throws (see Findings).

## Model

| member | source | states |
|---|---|---|
| Hosting.TigernetHostBuilder.constructor | src/Tigernet.Hosting/TigernetHostBuilder.cs:15-20 | a new builder keeps its prefix and starts with no routes and no service bindings |
| Hosting.TigernetHostBuilder.MapRoute | src/Tigernet.Hosting/TigernetHostBuilder.cs:23-26 | a new route is added with exactly its handler; a route already present fails with a duplicate-key error and leaves the table unchanged; bindings are untouched |
| Hosting.TigernetHostBuilder.HandleRequest | src/Tigernet.Hosting/TigernetHostBuilder.cs:39-54 | an unknown raw URL runs nothing and only sets status 404 and closes the response. A known URL runs exactly its stored handler. A getter handler sets the content type to application/json and writes the UTF-8 bytes of the result, with a content length equal to their number. A null result fails with a null reference |
| Hosting.Response.constructor | src/Tigernet.Hosting/TigernetHostBuilder.cs:88-92 | a response before any handler ran: status 200, no content type, no body, still open |
| Hosting.TigernetHostBuilder.MapRester | src/Tigernet.Hosting/TigernetHostBuilder.cs:56-100 | no public constructor fails with an index error and maps nothing. Otherwise the controller is built once: directly when its first constructor has no parameters, else with each parameter resolved in order. A failed resolution maps nothing. The routes are then exactly what folding the getter methods over the old table gives, all sharing that one controller. Bindings are untouched |
| Hosting.MapGettersKeeps | src/Tigernet.Hosting/TigernetHostBuilder.cs:77-86 | mapping a controller's getters keeps every previously mapped route with its handler |
| Hosting.MapGettersOnlyDerived | src/Tigernet.Hosting/TigernetHostBuilder.cs:80-86 | every route afterwards was mapped before or is derived by a method carrying the getter attribute; methods without it add nothing |
| Hosting.MapGettersBindsEach | src/Tigernet.Hosting/TigernetHostBuilder.cs:85-92 | when mapping succeeds, each getter's route (controller route followed by the attribute's route, "" for a null one) runs that getter on the one controller |
| Hosting.MappedGetterFails | src/Tigernet.Hosting/TigernetHostBuilder.cs:85-86 | a getter whose derived route is already mapped makes mapping fail through the duplicate check |
| Hosting.DuplicateGettersFail | src/Tigernet.Hosting/TigernetHostBuilder.cs:85-86 | two getter methods deriving the same route make mapping fail |
| Hosting.FreshGettersPass | src/Tigernet.Hosting/TigernetHostBuilder.cs:77-86 | getter routes that are new and pairwise different make mapping succeed |
| Hosting.MapGettersSucceeds | src/Tigernet.Hosting/TigernetHostBuilder.cs:77-86 | mapping succeeds if and only if the getter routes are new and pairwise different |
| Hosting.TigernetHostBuilder.AddService | src/Tigernet.Hosting/TigernetHostBuilder.DI.cs:16-19 | binds the abstraction to the implementation, replacing an earlier binding (the last one wins); no other binding and no route changes |
| Hosting.TigernetHostBuilder.Get | src/Tigernet.Hosting/TigernetHostBuilder.DI.cs:26-29 | `Get<T>` is exactly the resolution of `T` |
| Hosting.TigernetHostBuilder.GetService | src/Tigernet.Hosting/TigernetHostBuilder.DI.cs:37-60 | the recursive resolver computes the resolution function, reading the bindings only (no `modifies`) |
| Hosting.TigernetHostBuilder.ResolveParameters | src/Tigernet.Hosting/TigernetHostBuilder.DI.cs:49-56 | the loop over the constructor parameters yields all of them resolved, in order, or the first failure |
| DependencyInjection.Resolve | src/Tigernet.Hosting/TigernetHostBuilder.DI.cs:37-60 | an unregistered type fails as not registered; an implementation without a public constructor fails with an index error; a success is an object of the bound implementation. It terminates when the binding graph is acyclic |
| DependencyInjection.ResolveAll | src/Tigernet.Hosting/TigernetHostBuilder.DI.cs:51-54 | the arguments succeed if and only if every parameter resolves. They are then those resolutions, position by position; otherwise the error is that of the first failing parameter |
| DependencyInjection.ResolveMeaning | src/Tigernet.Hosting/TigernetHostBuilder.DI.cs:41-56 | resolving a type bound to a constructible implementation succeeds if and only if every constructor parameter resolves; the object's arguments are those resolutions in declaration order, otherwise the first failure is reported |
| DependencyInjection.ResolveLeaf | src/Tigernet.Hosting/TigernetHostBuilder.DI.cs:16-47 | after the last binding of a type to an implementation whose first constructor takes nothing, resolving it builds that implementation with no arguments |
| DependencyInjection.ResolveAllStep | src/Tigernet.Hosting/TigernetHostBuilder.DI.cs:51-54 | one step of the parameter loop: the first parameter, then the rest |
| RequestData.Header | src/Tigernet.Hosting/Extensions/RequestListenerExtension.cs:105 | a header is found exactly when the key is given and some header name equals it ignoring case, and the answer is that header's value |
| RequestData.HeaderIgnoresCase | src/Tigernet.Hosting/Extensions/RequestListenerExtension.cs:123 | two keys that differ only in the case of their letters read the same header |
| RequestData.LastSegment | src/Tigernet.Hosting/Extensions/RequestListenerExtension.cs:141 | the last URL segment: null for a null URL, an index error for no segments |
| RequestData.OtherSourceGivesDefault | src/Tigernet.Hosting/Extensions/RequestListenerExtension.cs:13-40 | a transfer value outside the four named ones yields the default in both dispatchers |
| RequestData.BodyReader | src/Tigernet.Hosting/Extensions/RequestListenerExtension.cs:52-66 | an empty body fails with a null reference whatever the deserializer (nothing is deserialized); a non-empty body is deserialized whole |
| RequestData.HeaderReader | src/Tigernet.Hosting/Extensions/RequestListenerExtension.cs:101-110 | the generic header reader fails on an absent header. Otherwise it deserializes the raw text of the header whose name equals the key ignoring case |
| RequestData.RouteAndQueryReaders | src/Tigernet.Hosting/Extensions/RequestListenerExtension.cs:137-175 | the route reader deserializes the last URL segment ("" for a null URL) and gives the same answer for any key; the query reader deserializes the whole query-string text |
| RequestData.DispatchersAgree | src/Tigernet.Hosting/Extensions/RequestListenerExtension.cs:13-40 | both dispatchers pick the same reader for every source; they differ only on an absent header, where the generic one fails and the other passes "" to the deserializer |
| PaginationExtension.Paginate | src/Tigernet.Hosting/Extensions/PaginationExtension.cs:15-25 | a null source or null options fails with an argument error; a page holds at most page-size elements |
| PaginationExtension.PaginateIsSlice | src/Tigernet.Hosting/Extensions/PaginationExtension.cs:24 | the page is a contiguous slice of the source |
| PaginationExtension.PaginateInRange | src/Tigernet.Hosting/Extensions/PaginationExtension.cs:20-24 | when the skip count lies inside the source the page is `source[skip .. min(skip + size, count)]` |
| PaginationExtension.PaginatePastEnd | src/Tigernet.Hosting/Extensions/PaginationExtension.cs:22-24 | a page past the end of a non-empty source starts at `count - count % size`: the final partial page, empty when the count is a multiple of the size |
| PaginationExtension.PaginateFirstPage | src/Tigernet.Hosting/Extensions/PaginationExtension.cs:20-24 | a page token of one or less gives the first `size` elements |
| PaginationExtension.PaginateEmpty | src/Tigernet.Hosting/Extensions/PaginationExtension.cs:21-24 | an empty source gives an empty page |
| Query.ApplyPaginationVersusPaginate | src/Tigernet.Hosting/Extensions/PaginationExtension.cs:20-24 | the clamped and the plain pagination agree on a page starting inside the source; past the end the plain one is empty and the clamped one is the last partial page |
| Query.ApplyQuery | src/Tigernet.Hosting/DataAccess/Query/QueryExtensions.cs:47-95 | the queryable overloads: a null source or null options fails with an argument error; the result is always paginated, so it holds at most page-size elements |
| Query.ApplyQueryEnumerable | src/Tigernet.Hosting/DataAccess/Query/QueryExtensions.cs:19-38 | the enumerable overload: a null source or null options fails with an argument error; the result holds at most page-size elements |
| Query.ComposeError | src/Tigernet.Hosting/DataAccess/Query/QueryExtensions.cs:19-38 | composing the query raises no error if and only if both stage expressions build, the enumerable overload's key selector is accepted and pagination options are given |
| Query.ApplyQueryMeaning | src/Tigernet.Hosting/DataAccess/Query/QueryExtensions.cs:47-95 | the query fails if and only if pagination is absent, an expression cannot be built, or an element the scan reaches throws. Otherwise the result is exactly the page of the source elements that match the search and pass the filters, sorted when the sort names a property |
| Query.ApplyQueryEnumerableMeaning | src/Tigernet.Hosting/DataAccess/Query/QueryExtensions.cs:19-38 | the enumerable overload answers as the queryable ones unless the sort names a non-string property, where it always fails, with an argument error whenever the queryable one succeeds |
| Query.ApplyQueryOnlyPaginates | src/Tigernet.Hosting/DataAccess/Query/QueryExtensions.cs:54-63 | with no search, filter or sort options, the stages are skipped and the query is the page of the source |
| Query.ApplyQueryResult | src/Tigernet.Hosting/DataAccess/Query/QueryExtensions.cs:54-63 | every element of a query result comes from the source; it matches the keyword when search options are given and passes every filter group when filter options are given |
| Query.Where | src/Tigernet.Hosting/DataAccess/Query/QueryExtensions.cs:149 | `Where` over a compiled delegate: it throws a null reference if and only if some element's evaluation throws; otherwise it keeps exactly the elements the expression accepts |
| Query.FoldOrRun | src/Tigernet.Hosting/DataAccess/Query/QueryExtensions.cs:131-132 | the delegate of an `Or` fold evaluates the seed, then the predicates left to right, and stops at the first true or the first exception |
| Query.FoldAndRun | src/Tigernet.Hosting/DataAccess/Query/QueryExtensions.cs:222-223 | the delegate of an `And` fold evaluates the seed, then the predicates left to right, and stops at the first false or the first exception |
| Query.SearchRunFails | src/Tigernet.Hosting/DataAccess/Query/QueryExtensions.cs:117-132 | the search delegate throws if and only if a searchable property holds null and no earlier one contains the keyword; otherwise its answer is whether some property contains it |
| Query.FoldOrEval | src/Tigernet.Hosting/DataAccess/Query/QueryExtensions.cs:131-132 | folding with `Or` accepts exactly what the seed or one of the predicates accepts |
| Query.FoldAndEval | src/Tigernet.Hosting/DataAccess/Query/QueryExtensions.cs:222-223 | folding with `And` accepts exactly what the seed and all the predicates accept |
| Query.SearchPredicate | src/Tigernet.Hosting/DataAccess/Query/QueryExtensions.cs:117-127 | a searchable string property gives `Contains(keyword)`; a property of another type fails with an argument error (a string constant of that type) |
| Query.SearchPredicates | src/Tigernet.Hosting/DataAccess/Query/QueryExtensions.cs:117-128 | one predicate per searchable property, in order, when all are strings; otherwise an argument error |
| Query.GetSearchExpression | src/Tigernet.Hosting/DataAccess/Query/QueryExtensions.cs:107-135 | null search options fail; the expression is built if and only if every searchable property is a string |
| Query.GetSearchExpressionMeaning | src/Tigernet.Hosting/DataAccess/Query/QueryExtensions.cs:114-134 | the search expression accepts an element if and only if some searchable property's value contains the keyword. Its delegate throws a null reference if and only if a searchable property holds null and no earlier one contains the keyword |
| Query.ApplySearch | src/Tigernet.Hosting/DataAccess/Query/QueryExtensions.cs:144-150 | fails with an argument error on a null source, null options or a non-string searchable property, and otherwise only with a null reference; the result is an order-preserving subsequence of the source |
| Query.ApplySearchMeaning | src/Tigernet.Hosting/DataAccess/Query/QueryExtensions.cs:114-149 | search throws a null reference if and only if the delegate throws on some element; otherwise it keeps exactly the elements some searchable property of which contains the keyword |
| Query.ApplySearchWithoutSearchable | src/Tigernet.Hosting/DataAccess/Query/QueryExtensions.cs:131-149 | with no searchable property the `False` seed is the whole predicate and nothing is kept |
| Query.SimpleProperties | src/Tigernet.Hosting/DataAccess/Query/QueryExtensions.cs:191 | exactly the properties of a simple type |
| Query.MatchingProperty | src/Tigernet.Hosting/DataAccess/Query/QueryExtensions.cs:269-275 | a simple property whose name equals the key ignoring case, present if and only if one exists |
| Query.EffectiveFilters | src/Tigernet.Hosting/DataAccess/Query/QueryExtensions.cs:194 | exactly the filters whose key names a simple property, in order |
| Query.GroupKeys | src/Tigernet.Hosting/DataAccess/Query/QueryExtensions.cs:195 | the keys of the grouping: every filter key, each once |
| Query.Group | src/Tigernet.Hosting/DataAccess/Query/QueryExtensions.cs:195-200 | a group holds exactly the filters of its key |
| Query.UnitPredicate | src/Tigernet.Hosting/DataAccess/Query/QueryExtensions.cs:200-213 | a filter whose key names no property fails; otherwise it succeeds if and only if its value converts, and fails with the conversion's error |
| Query.UnitPredicateMeaning | src/Tigernet.Hosting/DataAccess/Query/QueryExtensions.cs:203-212 | the predicate of a filter accepts an element if and only if the element's property equals the converted value. Its delegate throws a null reference if and only if the property is a string and holds null |
| Query.UnitPredicates | src/Tigernet.Hosting/DataAccess/Query/QueryExtensions.cs:200-214 | all predicates of a group, position by position, or the error of a failing one |
| Query.GroupPredicates | src/Tigernet.Hosting/DataAccess/Query/QueryExtensions.cs:196-219 | one predicate per key, in key order, if and only if every group succeeds |
| Query.GroupPredicateMeaning | src/Tigernet.Hosting/DataAccess/Query/QueryExtensions.cs:199-216 | a group's predicate accepts an element if and only if some filter of that key holds for it (OR within a group); its delegate evaluates the filters in order and stops at the first that holds or throws |
| Query.GetFilterExpression | src/Tigernet.Hosting/DataAccess/Query/QueryExtensions.cs:184-187 | null filter options fail with an argument error |
| Query.GetFilterExpressionSucceeds | src/Tigernet.Hosting/DataAccess/Query/QueryExtensions.cs:194-219 | the filter expression is built if and only if every effective filter's value converts to its property's type |
| Query.GetFilterExpressionMeaning | src/Tigernet.Hosting/DataAccess/Query/QueryExtensions.cs:194-223 | the filter expression accepts an element if and only if it passes every key group (AND across groups, OR within one). Its delegate evaluates the groups in order, and when it does not throw its answer is that acceptance |
| Query.ApplyFilter | src/Tigernet.Hosting/DataAccess/Query/QueryExtensions.cs:235-241 | a null source or null options fails; the result is an order-preserving subsequence of the source |
| Query.ApplyFilterSucceeds | src/Tigernet.Hosting/DataAccess/Query/QueryExtensions.cs:235-241 | filtering succeeds if and only if every filter value converts and the delegate throws on no element |
| Query.ApplyFilterMeaning | src/Tigernet.Hosting/DataAccess/Query/QueryExtensions.cs:184-241 | once the values convert, filtering throws a null reference if and only if the delegate throws on some element; otherwise it keeps exactly the source elements that pass every key group |
| Query.ApplyFilterIgnoresUnknownKeys | src/Tigernet.Hosting/DataAccess/Query/QueryExtensions.cs:191-222 | filters none of whose keys names a simple property keep every element |
| Query.ApplySort | src/Tigernet.Hosting/DataAccess/Query/QueryExtensions.cs:290-308 | a null source or null options fails. With no simple property matching the field name (ignoring case) the source comes back unchanged. Otherwise the result is a permutation sorted by that property, ascending or descending, and stable |
| Query.ApplySortEnumerable | src/Tigernet.Hosting/DataAccess/Query/QueryExtensions.cs:262-281 | as written, it fails as well when the matched property is not a string; otherwise it is the same as `ApplySort` |
| Query.ApplySortEnumerableRejectsIntKey | src/Tigernet.Hosting/DataAccess/Query/QueryExtensions.cs:277-278 | sorting by an `int` property fails in the enumerable overload where the queryable one sorts |
| Query.ApplyPagination | src/Tigernet.Hosting/DataAccess/Query/QueryExtensions.cs:395-401 | a null source or null options fails; otherwise the page is `source[skip .. min(skip + size, count)]`, empty past the end, with no clamping |
| Query.SkipCountNonNegative | src/Tigernet.Hosting/DataAccess/Query/QueryExtensions.cs:400 | with normalised options the skip count `(token - 1) * size` is never negative |
| StableSort.SortByCorrect | src/Tigernet.Hosting/DataAccess/Query/QueryExtensions.cs:307 | `OrderBy`/`OrderByDescending`: a permutation, sorted in the requested direction, and stable |
| StableSort.SortByEqualKeys | src/Tigernet.Hosting/DataAccess/Query/QueryExtensions.cs:307 | when all keys are equal the order is kept |
| StableSort.LeTotalPreorder | src/Tigernet.Hosting/DataAccess/Query/QueryExtensions.cs:307 | the key order in each direction is reflexive, total and transitive |
| Entities.ValueLeTotalOrder | src/Tigernet.Hosting/DataAccess/Query/QueryExtensions.cs:307 | the order on property values is a total order |
| Predicates.TrueAndFalse | src/Tigernet.Hosting/Models/Query/PredicateBuilder.cs:14-19 | `True` accepts every value and `False` rejects every value |
| Predicates.Or | src/Tigernet.Hosting/Models/Query/PredicateBuilder.cs:27-34 | a null operand fails with an argument error; otherwise the result accepts exactly what either operand accepts |
| Predicates.And | src/Tigernet.Hosting/Models/Query/PredicateBuilder.cs:42-49 | a null operand fails with an argument error; otherwise the result accepts exactly what both operands accept |
| Predicates.Run | src/Tigernet.Hosting/Models/Query/PredicateBuilder.cs:27-49 | the compiled delegate: when it answers, the answer is the expression's meaning; it can only throw a null reference. `OrElse` and `AndAlso` evaluate the right operand only when the left does not decide |
| Predicates.AnyOfFails | src/Tigernet.Hosting/Models/Query/PredicateBuilder.cs:33 | a left-to-right `OrElse` chain throws if and only if some operand throws after only false ones, and the error is that operand's; otherwise it is true if and only if some operand is true |
| Predicates.AllOfFails | src/Tigernet.Hosting/Models/Query/PredicateBuilder.cs:48 | a left-to-right `AndAlso` chain throws if and only if some operand throws after only true ones, and the error is that operand's; otherwise it is true if and only if every operand is true |
| Predicates.SeedsAreNeutral | src/Tigernet.Hosting/Models/Query/PredicateBuilder.cs:14-49 | `Or(False, p)` and `And(True, p)` accept what `p` accepts, and their delegates answer and throw as `p`'s does |
| MemberSelectors.GetMemberExpression | src/Tigernet.Hosting/Extensions/ExpressionExtensions.cs:10-18 | a member access is returned as it is; a conversion of a member access gives the inner member. A conversion of anything else gives null, and any other node fails with an argument error |
| MemberSelectors.SelectorPropertyName | src/Tigernet.Hosting/DataAccess/Models/Query/QueryGeneratorExtensions.cs:104-105 | a property name is found if and only if the selector is a member access, possibly under a conversion; a null member fails with an invalid-operation error |
| TypeModel.SimpleTypeClassification | src/Tigernet.Hosting/DataAccess/Query/TypeExtensions.cs:84-87 | of the nullable types only `DateTime?` and `bool?` are simple (`int?` is not), and no named type is |
| TypeModel.ResolveGenericTypeDefinition | src/Tigernet.Hosting/DataAccess/Query/TypeExtensions.cs:71-77 | as written it always returns its argument |
| TypeModel.Hierarchy.Chain | src/Tigernet.Hosting/DataAccess/Query/TypeExtensions.cs:34-44 | the types the ancestor walk visits: the child then each normalised base, stopping at `object` or at a missing base; it terminates because bases have smaller ids |
| TypeModel.ChainMatchesStep | src/Tigernet.Hosting/DataAccess/Query/TypeExtensions.cs:35-44 | one step of the walk: it matches now or later |
| TypeModel.InheritsOrImplementsHalf | src/Tigernet.Hosting/DataAccess/Query/TypeExtensions.cs:31-47 | the while loop answers true if and only if some type on the walk is the parent or has it as a direct interface |
| TypeModel.InheritsOrImplementsAncestors | src/Tigernet.Hosting/DataAccess/Query/TypeExtensions.cs:19-47 | the relation holds when the parent is the child's type, any of its ancestors, or a direct interface of one of them |
| TypeModel.InheritsOrImplementsAssignable | src/Tigernet.Hosting/DataAccess/Query/TypeExtensions.cs:22 | the relation holds when the parent is assignable from the child |
| TypeModel.InheritsOrImplementsItself | src/Tigernet.Hosting/DataAccess/Query/TypeExtensions.cs:35-38 | a non-generic type other than `object` inherits from itself |
| TypeModel.InheritsFromBase | src/Tigernet.Hosting/DataAccess/Query/TypeExtensions.cs:39-41 | what a base inherits from, the derived type does too |
| TypeModel.GetCompareMethod | src/Tigernet.Hosting/DataAccess/Query/TypeExtensions.cs:98-108 | a null type fails with argument-null, a non-simple type with an argument error; otherwise `Contains` is chosen if and only if the type is string and search comparing is asked, else `Equals` |
| TypeModel.GetValue | src/Tigernet.Hosting/DataAccess/Query/TypeExtensions.cs:119-145 | a null filter or type fails with argument-null, a non-simple type with an argument error; string returns the raw filter value unchanged, and any other simple type goes to the parser of its underlying type |
| TypeModel.SearchableProperties | src/Tigernet.Hosting/DataAccess/Query/TypeExtensions.cs:152 | exactly the simple-typed properties marked searchable, in declaration order |
| TypeModel.GetSearchableProperties | src/Tigernet.Hosting/DataAccess/Query/TypeExtensions.cs:147-153 | a null type fails with argument-null; otherwise exactly the type's simple searchable properties |
| EntityTypes.EntityPropertyTypes | src/Tigernet.Hosting/DataAccess/Models/Query/EntityExtensions.cs:36 | the property types that are entity classes: each result is one of the property types and is an entity class, and every such type is included |
| EntityTypes.GetDirectChildEntities | src/Tigernet.Hosting/DataAccess/Models/Query/EntityExtensions.cs:27-39 | a null type fails with an argument error; a non-entity has none. Every result is an entity class and the type of one of the properties, every entity-class property type is included, and there are no duplicates |
| EntityTypes.DirectChildrenAreChildEntitySet | src/Tigernet.Hosting/DataAccess/Models/Query/EntityExtensions.cs:27-39 | for an entity type the children are, as a set, exactly the entity-class property types, and they number as many as that set has members |
| QueryGenerator.CreateQuery | src/Tigernet.Hosting/DataAccess/Models/Query/QueryGeneratorExtensions.cs:20-23 | a null type fails with an argument error; otherwise fresh options with nothing requested and pagination (10, 1) |
| QueryGenerator.CreateEntityQuery | src/Tigernet.Hosting/DataAccess/Models/Query/QueryGeneratorExtensions.cs:31-36 | a null entity fails with an argument error; otherwise fresh entity options with nothing requested and pagination (10, 1) |
| QueryGenerator.QueryOptions.constructor | src/Tigernet.Hosting/DataAccess/QueryOptions/QueryOptions.cs:9-12 | new options request nothing and paginate (10, 1) |
| QueryGenerator.QueryOptions.View | src/Tigernet.Hosting/DataAccess/Query/QueryExtensions.cs:26-35 | what `ApplyQuery` reads from the options: search, filters if any, sort and pagination |
| QueryGenerator.AddSearch | src/Tigernet.Hosting/DataAccess/Models/Query/QueryGeneratorExtensions.cs:51-59 | null options or a null, empty or white-space keyword fail with an argument error and change nothing; otherwise only the search options are replaced and the same object is returned |
| QueryGenerator.SelectedName | src/Tigernet.Hosting/DataAccess/Models/Query/QueryGeneratorExtensions.cs:100-105 | a null selector fails with an argument error; otherwise the selector's property name |
| QueryGenerator.AddFilter | src/Tigernet.Hosting/DataAccess/Models/Query/QueryGeneratorExtensions.cs:97-112 | null options or a bad selector fail and change nothing. Otherwise the filter options are created when absent. A null value then fails with a null reference; any other value appends exactly one filter (name, value text) after the earlier ones. Nothing else changes |
| QueryGenerator.AddEntityFilter | src/Tigernet.Hosting/DataAccess/Models/Query/QueryGeneratorExtensions.cs:123-141 | as `AddFilter`, but a null value is stored as a filter with a null value |
| QueryGenerator.AddInclude | src/Tigernet.Hosting/DataAccess/Models/Query/QueryGeneratorExtensions.cs:155-199 | null options or a bad selector fail and change nothing; otherwise the include options are created when absent, the property name is appended and nothing else changes |
| QueryGenerator.IncludeOptions.Append | src/Tigernet.Hosting/DataAccess/Models/Query/QueryGeneratorExtensions.cs:169 | appends one include name |
| QueryGenerator.AddSort | src/Tigernet.Hosting/DataAccess/Models/Query/QueryGeneratorExtensions.cs:214-255 | null options or a bad selector fail and change nothing; otherwise only the sort options are replaced |
| QueryGenerator.AddPagination | src/Tigernet.Hosting/DataAccess/Models/Query/QueryGeneratorExtensions.cs:270-296 | null options fail; otherwise only the pagination is replaced, normalised |
| QueryGenerator.FirstPageIsHead | src/Tigernet.Hosting/DataAccess/EntityManager/EntityManagerBase.cs:53-54 | pagination (1, 1) keeps exactly the first element, if any |
| QueryRecords.NewSearchOptions | src/Tigernet.Hosting/DataAccess/Models/QueryOptions/SearchOptions.cs:9-10 | a null keyword fails with an argument error; otherwise the keyword and flag are kept |
| PaginationOptionsModel.NormalizePageSize | src/Tigernet.Hosting/DataAccess/Models/QueryOptions/PaginationOptions.cs:20 | a page size of zero or less becomes 20; a positive one is kept |
| PaginationOptionsModel.NormalizePageToken | src/Tigernet.Hosting/DataAccess/Models/QueryOptions/PaginationOptions.cs:30 | a page token of zero or less becomes 1; a positive one is kept |
| PaginationOptionsModel.NewPaginationOptions | src/Tigernet.Hosting/DataAccess/Models/QueryOptions/PaginationOptions.cs:11-31 | new options hold the normalised values, so both are at least 1 |
| PaginationOptionsModel.NormalizationIdempotent | src/Tigernet.Hosting/DataAccess/Models/QueryOptions/PaginationOptions.cs:20-30 | re-normalising valid options changes nothing |
| SettablePaginationOptions.PaginationOptions.constructor | src/Tigernet.Hosting/DataAccess/QueryOptions/PaginationOptions.cs:11 | the constructor stores the normalised values; both are at least 1 |
| SettablePaginationOptions.PaginationOptions.SetPageSize | src/Tigernet.Hosting/DataAccess/QueryOptions/PaginationOptions.cs:20 | stores the normalised size, keeps the token and keeps the invariant |
| SettablePaginationOptions.PaginationOptions.SetPageToken | src/Tigernet.Hosting/DataAccess/QueryOptions/PaginationOptions.cs:30 | stores the normalised token, keeps the size and keeps the invariant |
| DataAccessFilterOptions.FilterOptions.constructor | src/Tigernet.Hosting/DataAccess/Models/QueryOptions/FilterOptions.cs:9 | the filter list starts empty |
| DataAccessFilterOptions.FilterOptions.WithFilter | src/Tigernet.Hosting/DataAccess/Models/QueryOptions/FilterOptions.cs:11-15 | exactly one filter, with the given key and value |
| DataAccessFilterOptions.FilterOptions.Append | src/Tigernet.Hosting/DataAccess/Models/Query/QueryGeneratorExtensions.cs:109 | appends one filter at the end |
| DataAccessFilterOptions.FilterOptions.Item | src/Tigernet.Hosting/DataAccess/Models/QueryOptions/FilterOptions.cs:19-22 | the first filter whose key equals the argument exactly, or null if none does; it reads the list and does not change it |
| DataAccessFilterOptions.FirstWithKeyAppend | src/Tigernet.Hosting/DataAccess/Models/QueryOptions/FilterOptions.cs:21 | appending a filter keeps the indexer's answer for a key already present, and makes an absent key find the new filter |
| ModelFilterOptions.FilterOptions.constructor | src/Tigernet.Hosting/Models/Query/FilterOptions.cs:11 | the filter list starts empty |
| ModelFilterOptions.FilterOptions.FromFilters | src/Tigernet.Hosting/Models/Query/FilterOptions.cs:13 | the list is a copy of the given filters, in order |
| ModelFilterOptions.FilterOptions.Item | src/Tigernet.Hosting/Models/Query/FilterOptions.cs:17-20 | the first filter whose key equals the argument exactly, or null if none does, without changing the list |
| EntityTracking.EntitySet.constructor | src/Tigernet.Hosting/DataAccess/Entity/EntitySet.cs:14-18 | a new set has no snapshots |
| EntityTracking.EntitySet.Get | src/Tigernet.Hosting/DataAccess/Entity/EntitySet.cs:20-34 | the snapshots become the old ones with an Unchanged snapshot appended for each source result not tracked yet. The result is every tracked entity, in snapshot order, that satisfies the predicate |
| EntityTracking.EntitySet.Add | src/Tigernet.Hosting/DataAccess/Entity/EntitySet.cs:36-39 | appends one snapshot of the entity in state Added and changes nothing else |
| EntityTracking.EntitySet.Update | src/Tigernet.Hosting/DataAccess/Entity/EntitySet.cs:41-45 | the first snapshot whose entity has the `Id` becomes Modified; with none, it fails with an entry-update error and nothing changes |
| EntityTracking.EntitySet.Delete | src/Tigernet.Hosting/DataAccess/Entity/EntitySet.cs:47-51 | the first snapshot whose entity has the `Id` becomes Deleted and nothing is removed; with none, it fails with an entry-delete error |
| EntityTracking.MarkFirst | src/Tigernet.Hosting/DataAccess/Entity/EntitySet.cs:41-51 | fails if and only if no snapshot has the `Id`; otherwise exactly the first such snapshot takes the new state, the length and the other snapshots stay |
| EntityTracking.TrackedEntities | src/Tigernet.Hosting/DataAccess/Entity/EntitySet.cs:33 | the snapshots' entities, position by position |
| EntityTracking.TrackAppends | src/Tigernet.Hosting/DataAccess/Entity/EntitySet.cs:29-30 | tracking keeps the old snapshots as a prefix and only appends Unchanged snapshots of source results, whose entity and copy are the same |
| EntityTracking.TrackCovers | src/Tigernet.Hosting/DataAccess/Entity/EntitySet.cs:29-30 | after tracking, every `Id` the source returned is tracked |
| EntityTracking.TrackAllTracked | src/Tigernet.Hosting/DataAccess/Entity/EntitySet.cs:29 | results that are all tracked already add nothing |
| EntityTracking.TrackIdempotent | src/Tigernet.Hosting/DataAccess/Entity/EntitySet.cs:29-30 | repeating `Get` with the same source results adds nothing |
| EntityTracking.TrackAddsEachIdOnce | src/Tigernet.Hosting/DataAccess/Entity/EntitySet.cs:29-30 | the added snapshots have `Id`s not tracked before and pairwise different |
| EntityTracking.TrackedInPrefix | src/Tigernet.Hosting/DataAccess/Entity/EntitySet.cs:30 | appending snapshots keeps every tracked `Id` tracked |
| EntityTracking.MarkKeepsEntities | src/Tigernet.Hosting/DataAccess/Entity/EntitySet.cs:41-51 | changing a state changes no tracked entity and no tracked `Id` |
| DataAccess.NewDataAccessContext | src/Tigernet.Hosting/DataAccess/DataAccessContext/DataAccessContext.cs:10-13 | a new context holds no entity sets |
| DataAccess.Set | src/Tigernet.Hosting/DataAccess/DataAccessContext/DataAccessContext.cs:15-19 | the first held set of the entity type; fails with set-not-registered if and only if there is none |
| DataAccess.NewContextHasNoSets | src/Tigernet.Hosting/DataAccess/DataAccessContext/DataAccessContext.cs:10-29 | on a new context every `Set` fails, and `Save`/`SaveAsync` answer true |
| EntityManagers.EntityManagerBase.constructor | src/Tigernet.Hosting/DataAccess/EntityManager/EntityManagerBase.cs:19-22 | the manager keeps its context |
| EntityManagers.EntityManagerBase.Get | src/Tigernet.Hosting/DataAccess/EntityManager/EntityManagerBase.cs:24-27 | the registered set's `Get`; without one, set-not-registered |
| EntityManagers.EntityManagerBase.GetAsync | src/Tigernet.Hosting/DataAccess/EntityManager/EntityManagerBase.cs:29-35 | a null expression fails with an argument error and changes nothing; otherwise as `Get` |
| EntityManagers.EntityManagerBase.GetAsyncWithOptions | src/Tigernet.Hosting/DataAccess/EntityManager/EntityManagerBase.cs:37-46 | as intended, materialised as `ToList` does: null options fail and change nothing; otherwise the whole source is tracked and the tracked entities go through `ApplyQuery` |
| EntityManagers.EntityManagerBase.GetFirstAsync | src/Tigernet.Hosting/DataAccess/EntityManager/EntityManagerBase.cs:48-55 | as intended: null options fail. Otherwise the caller's options get pagination (1, 1) and nothing else changes in them. The query keeps at most one element, which is the answer (null if none) |
| EntityManagers.EntityManagerBase.GetByIdAsync | src/Tigernet.Hosting/DataAccess/EntityManager/EntityManagerBase.cs:57-60 | as intended: the first tracked entity with the `Id`, or null, after tracking the source's entities of that `Id` |
| EntityManagers.EntityManagerBase.CreateAsync | src/Tigernet.Hosting/DataAccess/EntityManager/EntityManagerBase.cs:62-74 | null fails with an argument error and changes nothing; otherwise the entity with `Id` 0 is added as Added and returned |
| EntityManagers.EntityManagerBase.UpdateAsync | src/Tigernet.Hosting/DataAccess/EntityManager/EntityManagerBase.cs:76-83 | null fails; otherwise the tracked snapshot is marked Modified (or the set's error), and the answer is `save || SaveAsync()`, which is true |
| EntityManagers.EntityManagerBase.DeleteAsync | src/Tigernet.Hosting/DataAccess/EntityManager/EntityManagerBase.cs:85-92 | null fails; otherwise the tracked snapshot is marked Deleted (or the set's error), and the answer is `save || SaveAsync()`, which is true |
| EntityManagers.EntityManagerBase.GetAsyncWithOptionsAsWritten | src/Tigernet.Hosting/DataAccess/EntityManager/EntityManagerBase.cs:37-46 | as written: null options fail. Otherwise the whole source is tracked, then awaiting `ToListAsync` on the query fails: with the composition error if there is one, else with an invalid operation. It never succeeds |
| EntityManagers.EntityManagerBase.GetFirstAsyncAsWritten | src/Tigernet.Hosting/DataAccess/EntityManager/EntityManagerBase.cs:48-55 | as written: pagination (1, 1) is forced as in `GetFirstAsync`, the source is tracked, and awaiting `FirstOrDefaultAsync` fails. It never succeeds |
| EntityManagers.EntityManagerBase.GetByIdAsyncAsWritten | src/Tigernet.Hosting/DataAccess/EntityManager/EntityManagerBase.cs:57-60 | as written: the source's entities with the `Id` are tracked, then `FirstOrDefaultAsync` fails with an invalid operation |
| EntityManagers.ReadAsync | src/Tigernet.Hosting/DataAccess/EntityManager/EntityManagerBase.cs:45 | awaiting an asynchronous read gives the query's composition error if it has one. Otherwise it gives the read when the provider is asynchronous and an invalid operation when it is not |
| EntityManagers.EntitySetReadsAsyncFail | src/Tigernet.Hosting/DataAccess/EntityManager/EntityManagerBase.cs:45-59 | no asynchronous read of what `EntitySet.Get` answers succeeds; with no composition error it fails with an invalid operation |
| EntityManagers.ManagerOverNewContextFails | Tigernet.Samples.RestApi/Clevers/UserEntityManager.cs:50-52 | a manager over a new context, as the sample user manager is, finds no entity set |
| EntityManagers.First | src/Tigernet.Hosting/DataAccess/EntityManager/EntityManagerBase.cs:54 | `FirstOrDefault`: null exactly for an empty sequence, else its first element |
| ManagerServices.DataSourceBroker.constructor | src/Tigernet.Hosting/DataAccess/Brokers/IDataSourceBroker.cs:6-50 | a broker holds its entities and its save answer, with no save call yet |
| ManagerServices.DataSourceBroker.CreateAsync | src/Tigernet.Hosting/DataAccess/Brokers/IDataSourceBroker.cs:21 | the broker appends the entity |
| ManagerServices.DataSourceBroker.UpdateAsync | src/Tigernet.Hosting/DataAccess/Brokers/IDataSourceBroker.cs:29 | the broker replaces the entities of that `Id` |
| ManagerServices.DataSourceBroker.DeleteAsync | src/Tigernet.Hosting/DataAccess/Brokers/IDataSourceBroker.cs:37 | the broker drops the entities of that `Id` |
| ManagerServices.DataSourceBroker.SaveAsync | src/Tigernet.Hosting/DataAccess/Brokers/IDataSourceBroker.cs:44 | saving answers the broker's save result, counts the call and changes no entity |
| ManagerServices.WithoutId | src/Tigernet.Hosting/DataAccess/Services/EntityManagerBaseService.cs:86 | exactly the stored entities of other `Id`s |
| ManagerServices.Replacing | src/Tigernet.Hosting/DataAccess/Services/EntityManagerBaseService.cs:79 | each entity of the `Id` is replaced, the others kept, the length kept |
| ManagerServices.DeleteRemovesOnlyId | src/Tigernet.Hosting/DataAccess/Services/EntityManagerBaseService.cs:86 | after a delete no entity has the `Id` and every other entity remains |
| ManagerServices.UpdateThenFind | src/Tigernet.Hosting/DataAccess/Services/EntityManagerBaseService.cs:78-79 | after an update of a stored `Id`, looking it up finds the new entity |
| ManagerServices.EntityManagerBaseService.constructor | src/Tigernet.Hosting/DataAccess/Services/EntityManagerBaseService.cs:19-22 | the service keeps its broker |
| ManagerServices.EntityManagerBaseService.Get | src/Tigernet.Hosting/DataAccess/Services/EntityManagerBaseService.cs:24-27 | exactly the stored entities satisfying the predicate |
| ManagerServices.EntityManagerBaseService.GetAsync | src/Tigernet.Hosting/DataAccess/Services/EntityManagerBaseService.cs:29-35 | fails exactly on a null expression, with an argument error; otherwise as `Get` |
| ManagerServices.EntityManagerBaseService.GetAsyncWithOptions | src/Tigernet.Hosting/DataAccess/Services/EntityManagerBaseService.cs:37-47 | null options fail; otherwise everything stored goes through `ApplyQuery` |
| ManagerServices.EntityManagerBaseService.GetFirstAsync | src/Tigernet.Hosting/DataAccess/Services/EntityManagerBaseService.cs:49-56 | null options fail; otherwise the caller's options get pagination (1, 1) and only that; answers the one element the query keeps, or null |
| ManagerServices.EntityManagerBaseService.GetByIdAsync | src/Tigernet.Hosting/DataAccess/Services/EntityManagerBaseService.cs:58-61 | the first stored entity with the `Id`, null if and only if none has it |
| ManagerServices.EntityManagerBaseService.CreateAsync | src/Tigernet.Hosting/DataAccess/Services/EntityManagerBaseService.cs:63-71 | null fails and changes nothing. Otherwise the entity with `Id` 0 is handed to the broker, and save is called only when asked. A failed save raises "Failed to create entity", and otherwise the entity is returned |
| ManagerServices.EntityManagerBaseService.UpdateAsync | src/Tigernet.Hosting/DataAccess/Services/EntityManagerBaseService.cs:73-81 | null fails. An absent `Id` fails with entity-not-found, and the broker is not called. Otherwise the broker replaces the entity and save is called only when asked. A failed save raises "Failed to update entity" |
| ManagerServices.EntityManagerBaseService.DeleteAsync | src/Tigernet.Hosting/DataAccess/Services/EntityManagerBaseService.cs:83-88 | an absent `Id` fails with entity-not-found and the broker is not called; otherwise the entity found is deleted and the answer is `!save || SaveAsync()` |
| Clevers.CleverBase.constructor | src/Tigernet.Hosting/DataAccess/Clevers/CleverBase.cs:17-20 | the default constructor gives an empty data source |
| Clevers.CleverBase.WithSource | src/Tigernet.Hosting/DataAccess/Clevers/CleverBase.cs:22-25 | the data source is the given one |
| Clevers.CleverBase.Get | src/Tigernet.Hosting/DataAccess/Clevers/CleverBase.cs:27-30 | exactly the source elements satisfying the predicate, in order |
| Clevers.CleverBase.GetAsync | src/Tigernet.Hosting/DataAccess/Clevers/CleverBase.cs:32-41 | fails exactly on a null expression; otherwise the same elements as `Get` |
| Clevers.CleverBase.GetAsyncWithOptions | src/Tigernet.Hosting/DataAccess/Clevers/CleverBase.cs:43-49 | null options fail; otherwise the whole source goes through `ApplyQuery` |
| Clevers.CleverBase.GetFirstAsync | src/Tigernet.Hosting/DataAccess/Clevers/CleverBase.cs:51-58 | null options fail; otherwise the caller's options get pagination (1, 1) and only that, and the answer is the one element the query keeps, or null |
| Clevers.CleverBase.GetByIdAsync | src/Tigernet.Hosting/DataAccess/Clevers/CleverBase.cs:60-63 | the first source element with the `Id`, null if and only if none has it |
| Clevers.GetByIdIsFirstOfGet | src/Tigernet.Hosting/DataAccess/Clevers/CleverBase.cs:27-63 | `GetByIdAsync` is the first element of `Get` by that `Id` |
| UserSamples.UserEntityManager.constructor | Tigernet.Samples.RestApi/Clevers/UserEntityManager.cs:10-48 | the shared list starts with the six users, `Id`s 1 to 6 |
| UserSamples.UserEntityManager.Add | Tigernet.Samples.RestApi/Clevers/UserEntityManager.cs:54-59 | appends the user at the end and returns it |
| UserSamples.UserEntityManager.Update | Tigernet.Samples.RestApi/Clevers/UserEntityManager.cs:61-71 | as written: null if and only if no user has the `Id`, otherwise the argument; the list is never changed |
| UserSamples.UserEntityManager.UpdateStored | Tigernet.Samples.RestApi/Clevers/UserEntityManager.cs:61-71 | as intended: with no user of the `Id`, null and unchanged; otherwise the stored user is replaced and the argument returned |
| UserSamples.ReplaceFirstThenFind | Tigernet.Samples.RestApi/Clevers/UserEntityManager.cs:67-70 | after the intended update the `Id` finds the new user and no other user changed |
| UserSamples.UpdateAsWrittenKeepsOldUser | Tigernet.Samples.RestApi/Clevers/UserEntityManager.cs:67-68 | after `Update` of user 1 as written, the list still holds the old user 1 |
| UserSamples.FindById | Tigernet.Samples.RestApi/Clevers/UserEntityManager.cs:63 | a user with the `Id`, null if and only if there is none |
| UserSamples.GetAll | Tigernet.Samples.RestApi/Clevers/UserClever.cs:18-29 | the six users with `Id`s 1 to 6 in order |
| UserSamples.Get | Tigernet.Samples.RestApi/Clevers/UserClever.cs:13-16 | the user with the `Id`; null exactly outside 1 to 6 |
| Text.Utf8Length | src/Tigernet.Hosting/TigernetHostBuilder.cs:91-92 | the content length is between one and four bytes per character, and exactly one per character for ASCII |
| Text.Utf8Ascii | src/Tigernet.Hosting/TigernetHostBuilder.cs:91 | ASCII text encodes to its own code units |
| Text.LowerIdempotent | src/Tigernet.Hosting/DataAccess/Query/QueryExtensions.cs:272 | lowercasing twice is lowercasing once |
| Seqs.Filter | src/Tigernet.Hosting/DataAccess/Query/QueryExtensions.cs:240 | `Where`: exactly the elements satisfying the predicate, as an order-preserving subsequence |
| Seqs.WhereTake | src/Tigernet.Hosting/DataAccess/Query/QueryExtensions.cs:415 | `Where(keep).Take(limit)` enumerated: at most `limit` elements, an order-preserving subsequence of the source, and any error is one that `keep` raised on some element |
| Seqs.WhereTakeFails | src/Tigernet.Hosting/DataAccess/Query/QueryExtensions.cs:415 | the enumeration throws if and only if `keep` throws on an element met while fewer than `limit` elements have been kept |
| Seqs.WhereTakeKeeps | src/Tigernet.Hosting/DataAccess/Query/QueryExtensions.cs:415 | an enumeration that does not throw gives the first `limit` elements that the predicate accepts |
| Seqs.FirstWhere | src/Tigernet.Hosting/DataAccess/Clevers/CleverBase.cs:62 | `FirstOrDefault(p)`: the first element satisfying `p`, null if and only if none does |
| Seqs.FilterFirst | src/Tigernet.Hosting/DataAccess/EntityManager/EntityManagerBase.cs:59 | `Where(p).FirstOrDefault()` is `FirstOrDefault(p)` |

## Left out

- The HTTP listener, the `Start` accept loop, and reading and writing the request and response streams are left out. The request body is a given string, and the response records the bytes a handler would write.
- System.Text.Json is a parameter: `Deserializer` in the request readers. The invoked getter's `ToString()` result is a parameter too: `Invoker`. Invocation errors other than a null result are not modelled.
- Reflective parsing of a non-string filter value (`Parse` through a compiled expression) is a parameter, `Parser`. The `InvalidOperationException` for a missing `Parse` or `Equals` method is not modelled, because every simple type has both on .NET 7 and later. On an earlier runtime `IntPtr` and `UIntPtr` have no public static `Parse(string)`, so a filter on such a property throws there; that case is outside the model.
- Reflection becomes tables. `GetConstructors()[0]` is `firstConstructor`, `None` for a type without a public constructor. `GetMethods` with the getter attribute is `methods`. `IsAssignableFrom` is an explicit relation.
- Objects have no identity in DI results. `Instance` values cannot show that every `GetService` call builds new objects, but `GetService` changes no state and caches nothing.
- Application handlers registered directly with `MapRoute` are opaque. The effect of running one is not modelled.
- DependencyInjection.Resolve: resolution is modelled only when the whole binding graph is acyclic. `Resolve`, `GetService` and `MapRester` require a ranking over every bound type that witnesses this. The source also terminates when only the types reachable from the requested one are acyclic; that case is outside the model, and so is a cycle the resolution actually meets, where the source recurses without bound.
- Entity Framework Core is left out. That covers `Include` and the EF Core brokers. `ToListAsync` and `FirstOrDefaultAsync` are modelled only by what they do on a provider that is not asynchronous, which is to throw (`ReadAsync`). `ApplyIncluding` and `AddSearchIncludeExpressions` are left out: the latter's result is discarded by `ApplySearch`, and the former only adds `Include` calls.
- The `IQueryable` and `IEnumerable` overloads of `ApplySearch`, `ApplyFilter` and `ApplyPagination` have the same in-memory meaning, so each is one function. `ApplySort` and `ApplyQuery` keep both overloads because they differ (see Findings).
- Query.ApplySearch, Query.ApplyFilter: the result is materialised, so an exception that the lazy query raises only when it is enumerated is reported by the call. `ApplyQuery` models the laziness: it reads the page with `WhereTake`.
- Query.ApplyQuery: the scan without a sort stops after the skipped elements plus one page have been kept. That is what .NET's `Skip` and `Take` do over an in-memory source.
- The data-access and model query-option namespaces declare option classes of the same shape. One `QueryOptions` class stands for both, and for `EntityQueryOptions` when `isEntityOptions` holds. The two `FilterOptions` and the two `PaginationOptions` are modelled separately.
- Async methods are ordinary sequential calls, and cancellation tokens are dropped.
- Strings are sequences of Dafny characters (Unicode scalar values). Unpaired UTF-16 surrogates are not representable.
- `ToLower` and case-insensitive comparison fold only ASCII letters. The culture-sensitive parts are left out.
- String ordering in sorts is ordinal.
- Property values are compared with the model's own total order, standing for the default comparer.
- Entities.Value: `double` and `float` property values (fractions, NaN, ±0) cannot be represented. A filter value such as "1.5", `Equals` on such a property (where `Double.Equals` holds between two NaNs) and a sort by it (where the default comparer puts NaN first) are outside the model.
- UserSamples.UserEntityManager.constructor: the source's `users` list is `static`, so a second `new UserEntityManager()` sees the `Add`s made through the first. The model gives each object its own list, starting from the six sample users; only one object stands for the shared list.
- Property names of a type are assumed distinct.
- `Paginate` and `ApplyPagination` require `(token - 1) * size` to fit in an `int`, and `Paginate` requires a positive page size for its `%`. The `int` wrap-around of the source is not modelled.
- `EntitySet.Get` answers as of the call. The source returns a deferred LINQ query over the snapshot list.
- The data source provider of an `EntitySet` is a fixed sequence. Its `Query` answers with the elements satisfying the predicate.
- Snapshots are values, so aliasing between a snapshot's `Entity` and `Snapshot` and the caller's object is not captured.
- `ModifiedProperties` is always empty and is omitted.
- `EntitySet` operations take non-null entities, as the managers pass them.
- `EntityManagerBase.CreateAsync` resets `Id` to 0 on the stored and returned entity. The write into the caller's own object is not visible in a value model.
- The `save` flag of `EntityManagerBase` has no visible effect, because `DataAccessContext.SaveAsync` always answers true and changes nothing.
- The broker behind `EntityManagerBaseService` is an ordered store with a fixed answer to `SaveAsync` and a count of save calls.
- `EntityManagerBaseService`'s generic exception messages are kept as `OperationFailed` text. Other exception messages are reduced to error variants.
- The `Transfer` enum's declaration is not part of this model. Besides its four values, `Other(n)` stands for any other number an enum variable can hold.
- RequestData.OtherSourceGivesDefault: the default is modelled as null (`None`). For a value-type `T` the C# default is that type's zero value.
- `Repository`, the interfaces, the attribute classes, the sample hosts and controllers, and `Script.js` carry no logic that the core uses.

## Findings

| source | as written | input that shows it | evidently intended | confidence | as-written member | corrected member |
|---|---|---|---|---|---|---|
| src/Tigernet.Hosting/DataAccess/Query/QueryExtensions.cs:277-278 | the enumerable `ApplySort` builds `Expression.Lambda<Func<TModel, object>>` over the bare member access, without the `Convert` to `object` that the queryable overload has (line 305) | sort options with field "age" over a list whose `Age` property is an `int`: the lambda's body type is not assignable to `object`, so `Expression.Lambda` throws an `ArgumentException` | sort by any simple property, as the queryable overload does | high, not executed | Query.ApplySortEnumerable, Query.ApplySortEnumerableRejectsIntKey, Query.ApplyQueryEnumerableMeaning | Query.ApplySort, Query.ApplyQueryMeaning |
| Tigernet.Samples.RestApi/Clevers/UserEntityManager.cs:67-68 | `Update` assigns the argument to the local `existedUser` and returns it; the stored list keeps the old user | `Update(new User { Id = 1, Name = "Renamed", Age = 12 })` returns the argument while the list still holds "Mukhammadkarim" at `Id` 1 | replace the stored user with that `Id` | medium, not executed | UserSamples.UserEntityManager.Update, UserSamples.UpdateAsWrittenKeepsOldUser | UserSamples.UserEntityManager.UpdateStored, UserSamples.ReplaceFirstThenFind |
| src/Tigernet.Hosting/DataAccess/EntityManager/EntityManagerBase.cs:45 | `GetAsync(queryOptions)` awaits EF Core's `ToListAsync` on the query over `EntitySet.Get`, which is `AsQueryable()` over objects in memory; its provider is not asynchronous, so `ToListAsync` throws `InvalidOperationException` | any non-null query options whose pagination is set, with the entity set registered | materialise the page synchronously, as `CleverBase.GetAsync` does with `ToList` | high, not executed | EntityManagers.EntityManagerBase.GetAsyncWithOptionsAsWritten, EntityManagers.EntitySetReadsAsyncFail | EntityManagers.EntityManagerBase.GetAsyncWithOptions |
| src/Tigernet.Hosting/DataAccess/EntityManager/EntityManagerBase.cs:54 | `GetFirstAsync` awaits `FirstOrDefaultAsync` on the same in-memory query, which throws `InvalidOperationException` | any non-null query options, with the entity set registered | answer the first element of the page, as `CleverBase.GetFirstAsync` does with `FirstOrDefault` | high, not executed | EntityManagers.EntityManagerBase.GetFirstAsyncAsWritten | EntityManagers.EntityManagerBase.GetFirstAsync |
| src/Tigernet.Hosting/DataAccess/EntityManager/EntityManagerBase.cs:59 | `GetByIdAsync` awaits `FirstOrDefaultAsync` on `EntitySet.Get(x => x.Id == id)`, which throws `InvalidOperationException` | any `Id`, with the entity set registered | answer the first tracked entity with the `Id`, or null | high, not executed | EntityManagers.EntityManagerBase.GetByIdAsyncAsWritten | EntityManagers.EntityManagerBase.GetByIdAsync |
