/**
 * Constructor injection as `TigernetHostBuilder.DI.cs` performs it: an
 * abstraction maps to an implementation, and an implementation is built
 * from its first public constructor after every parameter type has been
 * resolved the same way. Reflection is a table from a type to what the
 * runtime would report about it.
 */
module DependencyInjection {
  import opened Common

  /** An object the container built: its type and the objects passed to its constructor. */
  datatype Instance = Instance(implementation: TypeId, arguments: seq<Instance>)

  /**
   * A public method as `GetMethods()` reports it: its name and, when it
   * carries `GetterAttribute`, that attribute's route (itself possibly null).
   */
  datatype MethodInfo = MethodInfo(name: string, getter: Option<Option<string>>)

  /** What reflection reports about a type: the parameter types of its first public constructor, if it has one, and its public methods. */
  datatype TypeInfo = TypeInfo(firstConstructor: Option<seq<TypeId>>, methods: seq<MethodInfo>)

  type Reflection = TypeId -> TypeInfo

  /** How deep resolution of `t` may go under the ranking; unregistered types end it at once. */
  function Height(services: map<TypeId, TypeId>, rank: TypeId -> nat, t: TypeId): nat {
    if t in services then rank(t) + 1 else 0
  }

  /** Every registered parameter type in `ps` resolves below `bound`. */
  predicate ParametersBelow(services: map<TypeId, TypeId>, rank: TypeId -> nat, ps: seq<TypeId>, bound: nat) {
    forall k :: 0 <= k < |ps| ==> Height(services, rank, ps[k]) < bound
  }

  /**
   * The ranking witnesses that the graph from an abstraction to the
   * parameter types of its implementation's constructor has no cycle.
   */
  predicate Acyclic(services: map<TypeId, TypeId>, reflect: Reflection, rank: TypeId -> nat) {
    forall t :: t in services && reflect(services[t]).firstConstructor.Some? ==>
      ParametersBelow(services, rank, reflect(services[t]).firstConstructor.value, rank(t) + 1)
  }

  /** `GetService(type)`. */
  function Resolve(services: map<TypeId, TypeId>, reflect: Reflection, rank: TypeId -> nat, t: TypeId): (r: Result<Instance, Error>)
    requires Acyclic(services, reflect, rank)
    ensures t !in services ==> r == Failure(NotRegistered(t))
    ensures t in services && reflect(services[t]).firstConstructor.None? ==> r == Failure(IndexOutOfRange)
    ensures r.Success? ==> t in services && r.value.implementation == services[t]
    decreases Height(services, rank, t), 1
  {
    if t !in services then Failure(NotRegistered(t))
    else
      var implementation := services[t];
      match reflect(implementation).firstConstructor
      case None => Failure(IndexOutOfRange)
      case Some(ps) =>
        if ps == [] then Success(Instance(implementation, []))
        else
          match ResolveAll(services, reflect, rank, Height(services, rank, t), ps)
          case Failure(e) => Failure(e)
          case Success(arguments) => Success(Instance(implementation, arguments))
  }

  /**
   * The constructor arguments, resolved left to right: all of them, or the
   * error of the first parameter that fails.
   */
  function ResolveAll(services: map<TypeId, TypeId>, reflect: Reflection, rank: TypeId -> nat, bound: nat, ps: seq<TypeId>): (r: Result<seq<Instance>, Error>)
    requires Acyclic(services, reflect, rank) && ParametersBelow(services, rank, ps, bound)
    ensures r.Success? <==> forall k :: 0 <= k < |ps| ==> Resolve(services, reflect, rank, ps[k]).Success?
    ensures r.Success? ==> |r.value| == |ps|
    ensures r.Success? ==> forall k :: 0 <= k < |ps| ==> r.value[k] == Resolve(services, reflect, rank, ps[k]).value
    ensures r.Failure? ==> exists i :: (0 <= i < |ps| && Resolve(services, reflect, rank, ps[i]) == Failure(r.error) &&
      forall k :: 0 <= k < i ==> Resolve(services, reflect, rank, ps[k]).Success?)
    decreases bound, 0, |ps|
  {
    if ps == [] then Success([])
    else
      match Resolve(services, reflect, rank, ps[0])
      case Failure(e) => Failure(e)
      case Success(first) =>
        assert forall k :: 0 <= k < |ps[1..]| ==> ps[1..][k] == ps[k + 1];
        match ResolveAll(services, reflect, rank, bound, ps[1..])
        case Failure(e) => Failure(e)
        case Success(rest) => Success([first] + rest)
  }

  /** The arguments found so far, followed by the outcome of resolving the rest. */
  function Prepend(done: seq<Instance>, rest: Result<seq<Instance>, Error>): Result<seq<Instance>, Error> {
    match rest
    case Failure(e) => Failure(e)
    case Success(xs) => Success(done + xs)
  }

  /** One step of `ResolveAll`: the first parameter, then the rest. */
  lemma ResolveAllStep(services: map<TypeId, TypeId>, reflect: Reflection, rank: TypeId -> nat, bound: nat, ps: seq<TypeId>)
    requires Acyclic(services, reflect, rank) && ParametersBelow(services, rank, ps, bound) && ps != []
    ensures ParametersBelow(services, rank, ps[1..], bound) && Height(services, rank, ps[0]) < bound
    ensures ResolveAll(services, reflect, rank, bound, ps) ==
      match Resolve(services, reflect, rank, ps[0])
      case Failure(e) => Failure(e)
      case Success(x) => Prepend([x], ResolveAll(services, reflect, rank, bound, ps[1..]))
  {
    assert forall k :: 0 <= k < |ps[1..]| ==> ps[1..][k] == ps[k + 1];
  }

  lemma PrependNothing(r: Result<seq<Instance>, Error>)
    ensures Prepend([], r) == r
  {
    if r.Success? {
      assert [] + r.value == r.value;
    }
  }

  lemma PrependTwice(a: seq<Instance>, b: seq<Instance>, r: Result<seq<Instance>, Error>)
    ensures Prepend(a, Prepend(b, r)) == Prepend(a + b, r)
  {
    if r.Success? {
      assert a + (b + r.value) == (a + b) + r.value;
    }
  }

  /**
   * A resolved implementation whose constructor takes parameters got, in
   * declaration order, the resolution of each parameter type; resolution
   * fails exactly when some parameter type fails, with the first such error.
   */
  lemma ResolveMeaning(services: map<TypeId, TypeId>, reflect: Reflection, rank: TypeId -> nat, t: TypeId)
    requires Acyclic(services, reflect, rank)
    requires t in services && reflect(services[t]).firstConstructor.Some?
    ensures var ps := reflect(services[t]).firstConstructor.value;
      var r := Resolve(services, reflect, rank, t);
      (r.Success? <==> forall k :: 0 <= k < |ps| ==> Resolve(services, reflect, rank, ps[k]).Success?) &&
      (r.Success? ==> (|r.value.arguments| == |ps| &&
        forall k :: 0 <= k < |ps| ==> r.value.arguments[k] == Resolve(services, reflect, rank, ps[k]).value)) &&
      (r.Failure? ==> exists i :: (0 <= i < |ps| && Resolve(services, reflect, rank, ps[i]) == Failure(r.error) &&
        forall k :: 0 <= k < i ==> Resolve(services, reflect, rank, ps[k]).Success?))
  {
    var ps := reflect(services[t]).firstConstructor.value;
    if ps != [] {
      var all := ResolveAll(services, reflect, rank, Height(services, rank, t), ps);
    }
  }

  /**
   * An implementation whose first constructor takes nothing is built
   * directly; with the last binding of the abstraction being that
   * implementation, resolution yields it with no arguments.
   */
  lemma ResolveLeaf(services: map<TypeId, TypeId>, reflect: Reflection, rank: TypeId -> nat, abstraction: TypeId, implementation: TypeId)
    requires Acyclic(services[abstraction := implementation], reflect, rank)
    requires reflect(implementation).firstConstructor == Some([])
    ensures Resolve(services[abstraction := implementation], reflect, rank, abstraction) == Success(Instance(implementation, []))
  {
  }
}

/**
 * `TigernetHostBuilder`: the route table, the service registrations, and
 * the dispatch of a request to the handler of its raw URL.
 */
module Hosting {
  import opened Common
  import opened Text
  import opened DependencyInjection

  /**
   * A registered request handler: one made by `MapRester` for a getter
   * method of a controller, or one given to `MapRoute` by the application.
   */
  datatype Handler = Getter(rester: Instance, methodName: string) | Application(id: nat)

  /**
   * What invoking a controller method without arguments gives, rendered
   * with `ToString()`; `None` is a null result.
   */
  type Invoker = (Instance, string) -> Option<string>

  /** What dispatch did: answered 404, or ran the handler stored for the URL. */
  datatype Dispatched = NotFound | Ran(handler: Handler)

  /** The route a getter method derives: the controller's route followed by the attribute's, a null one adding nothing. */
  function GetterRoute(route: string, m: MethodInfo): string
    requires m.getter.Some?
  {
    route + m.getter.value.GetOr("")
  }

  /**
   * What the `foreach` over a controller's methods does to the route table:
   * each getter method's route is added in method order, and the first
   * route already present stops it with `Dictionary.Add`'s error, keeping
   * the routes added before it.
   */
  function MapGetters(routes: map<string, Handler>, route: string, rester: Instance, methods: seq<MethodInfo>): (map<string, Handler>, Outcome<Error>)
    decreases |methods|
  {
    if methods == [] then (routes, Pass)
    else if methods[0].getter.None? then MapGetters(routes, route, rester, methods[1..])
    else
      var url := GetterRoute(route, methods[0]);
      if url in routes then (routes, Fail(DuplicateKey(url)))
      else MapGetters(routes[url := Getter(rester, methods[0].name)], route, rester, methods[1..])
  }

  /** No getter route is already mapped, and no two getters derive the same route. */
  predicate GettersFresh(routes: map<string, Handler>, route: string, methods: seq<MethodInfo>) {
    (forall k :: 0 <= k < |methods| && methods[k].getter.Some? ==> GetterRoute(route, methods[k]) !in routes) &&
    (forall i, j :: 0 <= i < j < |methods| && methods[i].getter.Some? && methods[j].getter.Some? ==>
      GetterRoute(route, methods[i]) != GetterRoute(route, methods[j]))
  }

  /** Some getter method derives the route. */
  predicate DerivedBy(route: string, methods: seq<MethodInfo>, url: string) {
    exists k :: 0 <= k < |methods| && methods[k].getter.Some? && GetterRoute(route, methods[k]) == url
  }

  /** The HTTP response a handler writes to. */
  class Response {
    var statusCode: int
    var contentType: Option<string>
    var contentLength: int
    var body: seq<byte>
    var closed: bool

    /** A response not yet written: status 200 and nothing else set. */
    constructor()
      ensures statusCode == 200 && contentType.None? && contentLength == 0 && body == [] && !closed
    {
      statusCode := 200;
      contentType := None;
      contentLength := 0;
      body := [];
      closed := false;
    }
  }

  class TigernetHostBuilder {
    const prefix: string
    /** What reflection reports about each type. */
    const reflect: Reflection
    var routes: map<string, Handler>
    var services: map<TypeId, TypeId>

    constructor(prefix: string, reflect: Reflection)
      ensures this.prefix == prefix && this.reflect == reflect
      ensures routes == map[] && services == map[]
    {
      this.prefix := prefix;
      this.reflect := reflect;
      routes := map[];
      services := map[];
    }

    /** `MapRoute`: `Dictionary.Add`, which rejects a route already present and then changes nothing. */
    method MapRoute(route: string, handler: Handler) returns (r: Outcome<Error>)
      modifies this
      ensures route in old(routes) ==> r == Fail(DuplicateKey(route)) && routes == old(routes)
      ensures route !in old(routes) ==> r == Pass && routes == old(routes)[route := handler]
      ensures services == old(services)
    {
      if route in routes {
        return Fail(DuplicateKey(route));
      }
      routes := routes[route := handler];
      return Pass;
    }

    /**
     * `HandleRequest`: the handler stored under exactly the raw URL, query
     * string included, runs; any other URL gets status 404 (section 15.5.5
     * of RFC 9110) and a closed response. A getter handler answers with its
     * method's result as JSON text, its length counted in UTF-8 bytes; a
     * null result fails after the content type is set.
     */
    method HandleRequest(rawUrl: string, response: Response, invoke: Invoker) returns (r: Result<Dispatched, Error>)
      modifies response
      ensures rawUrl !in routes ==> r == Success(NotFound)
      ensures rawUrl !in routes ==> response.statusCode == 404 && response.closed
      ensures rawUrl !in routes ==> response.contentType == old(response.contentType) && response.body == old(response.body)
      ensures rawUrl in routes && routes[rawUrl].Application? ==> r == Success(Ran(routes[rawUrl])) && unchanged(response)
      ensures rawUrl in routes && routes[rawUrl].Getter? ==>
        var h := routes[rawUrl];
        response.contentType == Some("application/json") &&
        response.statusCode == old(response.statusCode) && response.closed == old(response.closed) &&
        (invoke(h.rester, h.methodName).None? ==> r == Failure(NullReference) && response.body == old(response.body)) &&
        (invoke(h.rester, h.methodName).Some? ==> (r == Success(Ran(h)) &&
          response.body == Utf8Encode(invoke(h.rester, h.methodName).value) &&
          response.contentLength == |response.body|))
    {
      if rawUrl !in routes {
        response.statusCode := 404;
        response.closed := true;
        return Success(NotFound);
      }
      var handler := routes[rawUrl];
      if handler.Application? {
        return Success(Ran(handler));
      }
      response.contentType := Some("application/json");
      var result := invoke(handler.rester, handler.methodName);
      if result.None? {
        return Failure(NullReference);
      }
      var content := Utf8Encode(result.value);
      response.contentLength := |content|;
      response.body := content;
      return Success(Ran(handler));
    }

    /** `AddService<T, TImpl>()`: binds the abstraction, replacing any earlier binding. */
    method AddService(abstraction: TypeId, implementation: TypeId)
      modifies this
      ensures services == old(services)[abstraction := implementation]
      ensures routes == old(routes)
    {
      services := services[abstraction := implementation];
    }

    /** `Get<T>()`: resolution of `typeof(T)`. */
    method Get(t: TypeId, ghost rank: TypeId -> nat) returns (r: Result<Instance, Error>)
      requires Acyclic(services, reflect, rank)
      ensures r == Resolve(services, reflect, rank, t)
    {
      r := GetService(t, rank);
    }

    /** `GetService`: reads the registrations only, and builds a new object graph on every call. */
    method GetService(t: TypeId, ghost rank: TypeId -> nat) returns (r: Result<Instance, Error>)
      requires Acyclic(services, reflect, rank)
      ensures r == Resolve(services, reflect, rank, t)
      decreases Height(services, rank, t), 1
    {
      if t !in services {
        return Failure(NotRegistered(t));
      }
      var implementation := services[t];
      var firstConstructor := reflect(implementation).firstConstructor;
      if firstConstructor.None? {
        return Failure(IndexOutOfRange);
      }
      var parameters := firstConstructor.value;
      if |parameters| == 0 {
        return Success(Instance(implementation, []));
      }
      var arguments := ResolveParameters(parameters, rank, Height(services, rank, t));
      if arguments.Failure? {
        return Failure(arguments.error);
      }
      return Success(Instance(implementation, arguments.value));
    }

    /** The loop filling `parameterInstances`, one `GetService` per parameter in order; an exception ends it. */
    method ResolveParameters(parameters: seq<TypeId>, ghost rank: TypeId -> nat, ghost bound: nat) returns (r: Result<seq<Instance>, Error>)
      requires Acyclic(services, reflect, rank) && ParametersBelow(services, rank, parameters, bound)
      ensures r == ResolveAll(services, reflect, rank, bound, parameters)
      decreases bound, 0
    {
      var instances: seq<Instance> := [];
      var i := 0;
      PrependNothing(ResolveAll(services, reflect, rank, bound, parameters));
      assert parameters[0..] == parameters;
      while i < |parameters|
        invariant 0 <= i <= |parameters|
        invariant ParametersBelow(services, rank, parameters[i..], bound)
        invariant ResolveAll(services, reflect, rank, bound, parameters) ==
          Prepend(instances, ResolveAll(services, reflect, rank, bound, parameters[i..]))
      {
        ResolveAllStep(services, reflect, rank, bound, parameters[i..]);
        assert parameters[i..][1..] == parameters[i + 1..];
        assert parameters[i..][0] == parameters[i];
        var instance := GetService(parameters[i], rank);
        if instance.Failure? {
          return Failure(instance.error);
        }
        PrependTwice(instances, [instance.value], ResolveAll(services, reflect, rank, bound, parameters[i + 1..]));
        instances := instances + [instance.value];
        i := i + 1;
      }
      assert instances + [] == instances;
      return Success(instances);
    }

    /**
     * `MapRester<T>(route)`: builds the controller once from its first
     * constructor, resolving each parameter through the container, then
     * registers a getter handler on that one controller for every method
     * carrying `GetterAttribute`.
     */
    method MapRester(resterType: TypeId, route: string, ghost rank: TypeId -> nat) returns (r: Outcome<Error>)
      requires Acyclic(services, reflect, rank)
      requires reflect(resterType).firstConstructor.Some? ==>
        ParametersBelow(services, rank, reflect(resterType).firstConstructor.value, rank(resterType) + 1)
      modifies this
      ensures services == old(services)
      ensures reflect(resterType).firstConstructor.None? ==> r == Fail(IndexOutOfRange) && routes == old(routes)
      ensures reflect(resterType).firstConstructor.Some? ==>
        var arguments := ResolveAll(services, reflect, rank, rank(resterType) + 1, reflect(resterType).firstConstructor.value);
        (arguments.Failure? ==> r == Fail(arguments.error) && routes == old(routes)) &&
        (arguments.Success? ==>
          var mapped := MapGetters(old(routes), route, Instance(resterType, arguments.value), reflect(resterType).methods);
          routes == mapped.0 && r == mapped.1)
    {
      var firstConstructor := reflect(resterType).firstConstructor;
      if firstConstructor.None? {
        return Fail(IndexOutOfRange);
      }
      var parameters := firstConstructor.value;
      var rester: Instance;
      if |parameters| == 0 {
        rester := Instance(resterType, []);
      } else {
        var arguments := ResolveParameters(parameters, rank, rank(resterType) + 1);
        if arguments.Failure? {
          return Fail(arguments.error);
        }
        rester := Instance(resterType, arguments.value);
      }
      var methods := reflect(resterType).methods;
      var i := 0;
      assert methods[0..] == methods;
      while i < |methods|
        invariant 0 <= i <= |methods|
        invariant services == old(services)
        invariant MapGetters(routes, route, rester, methods[i..]) == MapGetters(old(routes), route, rester, methods)
      {
        assert methods[i..][1..] == methods[i + 1..];
        var m := methods[i];
        if m.getter.Some? {
          var added := MapRoute(GetterRoute(route, m), Getter(rester, m.name));
          if added.Fail? {
            return added;
          }
        }
        i := i + 1;
      }
      return Pass;
    }
  }

  /** Mapping the getters keeps every route mapped before, with its handler, whether or not it succeeds. */
  lemma {:induction false} MapGettersKeeps(routes: map<string, Handler>, route: string, rester: Instance, methods: seq<MethodInfo>)
    ensures forall url :: url in routes ==> url in MapGetters(routes, route, rester, methods).0
    ensures forall url :: url in routes ==> MapGetters(routes, route, rester, methods).0[url] == routes[url]
    decreases |methods|
  {
    if methods != [] {
      if methods[0].getter.None? {
        MapGettersKeeps(routes, route, rester, methods[1..]);
      } else {
        var url := GetterRoute(route, methods[0]);
        if url !in routes {
          MapGettersKeeps(routes[url := Getter(rester, methods[0].name)], route, rester, methods[1..]);
        }
      }
    }
  }

  /** Every route in the table afterwards was there before or is derived by a getter method. */
  lemma {:induction false} MapGettersOnlyDerived(routes: map<string, Handler>, route: string, rester: Instance, methods: seq<MethodInfo>)
    ensures forall url :: url in MapGetters(routes, route, rester, methods).0 ==> url in routes || DerivedBy(route, methods, url)
    decreases |methods|
  {
    if methods != [] {
      var tail := methods[1..];
      var next := if methods[0].getter.None? || GetterRoute(route, methods[0]) in routes then routes
                  else routes[GetterRoute(route, methods[0]) := Getter(rester, methods[0].name)];
      if methods[0].getter.Some? && GetterRoute(route, methods[0]) in routes {
      } else {
        MapGettersOnlyDerived(next, route, rester, tail);
        forall url | url in MapGetters(routes, route, rester, methods).0
          ensures url in routes || DerivedBy(route, methods, url)
        {
          if url !in routes {
            if url !in next || url in routes {
              var k :| 0 <= k < |tail| && tail[k].getter.Some? && GetterRoute(route, tail[k]) == url;
              assert methods[k + 1] == tail[k];
            } else {
              assert GetterRoute(route, methods[0]) == url;
            }
          }
        }
      }
    }
  }

  /** When mapping succeeds, each getter's route runs that getter on the one controller. */
  lemma {:induction false} MapGettersBindsEach(routes: map<string, Handler>, route: string, rester: Instance, methods: seq<MethodInfo>)
    requires MapGetters(routes, route, rester, methods).1 == Pass
    ensures forall k :: 0 <= k < |methods| && methods[k].getter.Some? ==>
      GetterRoute(route, methods[k]) in MapGetters(routes, route, rester, methods).0 &&
      MapGetters(routes, route, rester, methods).0[GetterRoute(route, methods[k])] == Getter(rester, methods[k].name)
    decreases |methods|
  {
    if methods != [] {
      var tail := methods[1..];
      var next := if methods[0].getter.None? then routes
                  else routes[GetterRoute(route, methods[0]) := Getter(rester, methods[0].name)];
      MapGettersBindsEach(next, route, rester, tail);
      MapGettersKeeps(next, route, rester, tail);
      forall k | 1 <= k < |methods| && methods[k].getter.Some?
        ensures GetterRoute(route, methods[k]) in MapGetters(routes, route, rester, methods).0 &&
          MapGetters(routes, route, rester, methods).0[GetterRoute(route, methods[k])] == Getter(rester, methods[k].name)
      {
        assert methods[k] == tail[k - 1];
      }
    }
  }

  /** A getter whose route is already mapped makes mapping fail. */
  lemma {:induction false} MappedGetterFails(routes: map<string, Handler>, route: string, rester: Instance, methods: seq<MethodInfo>, j: nat)
    requires j < |methods| && methods[j].getter.Some? && GetterRoute(route, methods[j]) in routes
    ensures MapGetters(routes, route, rester, methods).1.Fail?
    decreases |methods|
  {
    if j > 0 {
      assert methods[1..][j - 1] == methods[j];
      if methods[0].getter.None? {
        MappedGetterFails(routes, route, rester, methods[1..], j - 1);
      } else if GetterRoute(route, methods[0]) !in routes {
        MappedGetterFails(routes[GetterRoute(route, methods[0]) := Getter(rester, methods[0].name)], route, rester, methods[1..], j - 1);
      }
    }
  }

  /** Two getters deriving the same route make mapping fail. */
  lemma {:induction false} DuplicateGettersFail(routes: map<string, Handler>, route: string, rester: Instance, methods: seq<MethodInfo>, i: nat, j: nat)
    requires i < j < |methods| && methods[i].getter.Some? && methods[j].getter.Some?
    requires GetterRoute(route, methods[i]) == GetterRoute(route, methods[j])
    ensures MapGetters(routes, route, rester, methods).1.Fail?
    decreases |methods|
  {
    var tail := methods[1..];
    assert tail[j - 1] == methods[j];
    if methods[0].getter.Some? && GetterRoute(route, methods[0]) !in routes {
      var next := routes[GetterRoute(route, methods[0]) := Getter(rester, methods[0].name)];
      if i == 0 {
        MappedGetterFails(next, route, rester, tail, j - 1);
      } else {
        assert tail[i - 1] == methods[i];
        DuplicateGettersFail(next, route, rester, tail, i - 1, j - 1);
      }
    } else if methods[0].getter.None? {
      assert tail[i - 1] == methods[i];
      DuplicateGettersFail(routes, route, rester, tail, i - 1, j - 1);
    }
  }

  /** New, pairwise different getter routes make mapping succeed. */
  lemma {:induction false} FreshGettersPass(routes: map<string, Handler>, route: string, rester: Instance, methods: seq<MethodInfo>)
    requires GettersFresh(routes, route, methods)
    ensures MapGetters(routes, route, rester, methods).1 == Pass
    decreases |methods|
  {
    if methods != [] {
      var tail := methods[1..];
      var next := if methods[0].getter.None? then routes
                  else routes[GetterRoute(route, methods[0]) := Getter(rester, methods[0].name)];
      assert GettersFresh(next, route, tail) by {
        forall k | 0 <= k < |tail| && tail[k].getter.Some?
          ensures GetterRoute(route, tail[k]) !in next
        {
          assert tail[k] == methods[k + 1];
        }
        forall i, j | 0 <= i < j < |tail| && tail[i].getter.Some? && tail[j].getter.Some?
          ensures GetterRoute(route, tail[i]) != GetterRoute(route, tail[j])
        {
          assert tail[i] == methods[i + 1] && tail[j] == methods[j + 1];
        }
      }
      FreshGettersPass(next, route, rester, tail);
    }
  }

  /** Mapping the getters succeeds exactly when their routes are new and pairwise different. */
  lemma MapGettersSucceeds(routes: map<string, Handler>, route: string, rester: Instance, methods: seq<MethodInfo>)
    ensures MapGetters(routes, route, rester, methods).1 == Pass <==> GettersFresh(routes, route, methods)
  {
    if GettersFresh(routes, route, methods) {
      FreshGettersPass(routes, route, rester, methods);
    } else if exists k :: 0 <= k < |methods| && methods[k].getter.Some? && GetterRoute(route, methods[k]) in routes {
      var k :| 0 <= k < |methods| && methods[k].getter.Some? && GetterRoute(route, methods[k]) in routes;
      MappedGetterFails(routes, route, rester, methods, k);
    } else {
      var i, j :| 0 <= i < j < |methods| && methods[i].getter.Some? && methods[j].getter.Some? &&
        GetterRoute(route, methods[i]) == GetterRoute(route, methods[j]);
      DuplicateGettersFail(routes, route, rester, methods, i, j);
    }
  }
}
