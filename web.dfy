/** The typed router of aiobp/aiohttp/web.py: an injector map seeded with the request
    type, an ordered route table, registration that builds one Provider per handler,
    and the dispatch wrapper that turns failed argument gathering into a bad request. */
module Web {
  import opened Builtins
  import opened Provider

  // aiohttp.hdrs method constants
  const METH_HEAD: string := "HEAD"
  const METH_GET: string := "GET"
  const METH_POST: string := "POST"
  const METH_PUT: string := "PUT"
  const METH_PATCH: string := "PATCH"
  const METH_DELETE: string := "DELETE"
  const METH_OPTIONS: string := "OPTIONS"
  const METH_ANY: string := "*"

  /** The builtin injector: `lambda request: request`. */
  const RequestIdentity: Factory := Factory(request => Req(request))

  /** What `route(method, path, **kwargs)` returns: the decorator, closed over its arguments. */
  datatype Decorator = Decorator(verb: string, path: string, options: map<string, string>)

  /** One web.RouteDef(method, path, wrapped, kwargs); `wrapped` is the handler together
      with the provider built for it, run by Dispatch. */
  datatype RouteDef = RouteDef(verb: string, path: string, handler: Handler,
                               provider: Provider, options: map<string, string>)

  /** What the transport sees from `wrapped`: an encoded response, the HTTPBadRequest it
      raises, or an exception it does not catch. */
  datatype Response =
    | Served(body: Value)
    | BadRequest(error: Exception)
    | Uncaught(error: Exception)

  /** provider.encode_response: web.Response(body=result). */
  function EncodeResponse(result: Value): Response {
    Served(result)
  }

  /** What `wrapped(request)` yields for a route whose provider holds `bindings`. */
  function Respond(bindings: seq<(string, Binding)>, handler: Handler, request: Request): Response {
    match Gather(bindings, request)
    case Raised(e) => if e.IsTypeError() then BadRequest(e) else Uncaught(e)
    case Returned(kwargs) => EncodeResponse(handler.body(kwargs))
  }

  /** Dispatch never lets an exception through: a failed gathering is a bad request
      carrying that failure (the handler is not called); otherwise the handler's result,
      computed from one keyword argument per binding, is the response body. */
  lemma RespondOutcome(bindings: seq<(string, Binding)>, handler: Handler, request: Request)
    ensures !Respond(bindings, handler, request).Uncaught?
    ensures Gather(bindings, request).Raised? ==>
              Respond(bindings, handler, request) == BadRequest(Gather(bindings, request).exc)
    ensures Gather(bindings, request).Returned? ==>
              && Respond(bindings, handler, request) == Served(handler.body(Gather(bindings, request).value))
              && |Gather(bindings, request).value| == |bindings|
              && forall i :: 0 <= i < |bindings| ==> Gather(bindings, request).value[i].0 == bindings[i].0
  {
    GatherRaisesTypeError(bindings, request);
    if Gather(bindings, request).Returned? {
      GatherKeys(bindings, request);
    }
  }

  /** `wrapped`: gather the arguments, answer a TypeError with HTTPBadRequest, otherwise
      call the handler and encode its result. */
  method Dispatch(route: RouteDef, request: Request) returns (response: Response)
    ensures response == Respond(route.provider.args, route.handler, request)
  {
    var gathered := route.provider.GatherArgs(request);
    match gathered {
      case Raised(e) =>
        if e.IsTypeError() {
          return BadRequest(e);
        }
        return Uncaught(e);
      case Returned(kwargs) =>
        var result := route.handler.body(kwargs);
        return EncodeResponse(result);
    }
  }

  /** web.Router */
  class Router {
    var injectors: map<TypeId, Factory>
    var items: seq<RouteDef>

    /** The request type always has an injector: it is seeded and never removed. */
    ghost predicate Valid()
      reads this
    {
      RequestType in injectors
    }

    /** Router.__init__: no routes, and the request type injected as itself. */
    constructor()
      ensures Valid()
      ensures injectors == map[RequestType := RequestIdentity]
      ensures items == []
    {
      injectors := map[RequestType := RequestIdentity];
      items := [];
    }

    /** Router.add_type_injector: sets or replaces the entry for `typ` only. Routes
        registered earlier keep the bindings their providers were built with. */
    method AddTypeInjector(typ: TypeId, factory: Factory)
      requires Valid()
      modifies this
      ensures Valid()
      ensures injectors == old(injectors)[typ := factory]
      ensures items == old(items)
      ensures forall i :: 0 <= i < |items| ==> items[i].provider.args == old(items[i].provider.args)
    {
      injectors := injectors[typ := factory];
    }

    /** Router.route(method, path, **kwargs): the decorator for that method and path. */
    function Route(verb: string, path: string, options: map<string, string>): (d: Decorator)
      ensures d.verb == verb && d.path == path && d.options == options
    {
      Decorator(verb, path, options)
    }

    /** decorate(handler): builds the handler's Provider against the current injectors;
        if that raises, the route table is untouched and the exception propagates;
        otherwise exactly one route is appended and the handler itself is returned. */
    method Decorate(d: Decorator, handler: Handler) returns (r: Outcome<Handler>)
      requires Valid()
      requires DistinctNames(handler.params)
      modifies this
      ensures Valid()
      ensures injectors == old(injectors)
      ensures |old(items)| <= |items| && items[..|old(items)|] == old(items)
      ensures forall i :: 0 <= i < |old(items)| ==> old(items[i].provider.args) == items[i].provider.args
      ensures Registration(handler, injectors).Raised? ==>
                r == Raised(Registration(handler, injectors).exc) && items == old(items)
      ensures Registration(handler, injectors).Returned? ==>
                && r == Returned(handler)
                && |items| == |old(items)| + 1
                && items[..|old(items)|] == old(items)
                && items[|old(items)|].verb == d.verb
                && items[|old(items)|].path == d.path
                && items[|old(items)|].options == d.options
                && items[|old(items)|].handler == handler
                && fresh(items[|old(items)|].provider)
                && items[|old(items)|].provider.args == Registration(handler, injectors).value
    {
      var provider := new Provider(injectors);
      var raised := provider.Inspect(handler);
      if raised.Some? {
        return Raised(raised.value);
      }
      items := items + [RouteDef(d.verb, d.path, handler, provider, d.options)];
      return Returned(handler);
    }

    /** Router.head */
    function Head(path: string, options: map<string, string>): (d: Decorator)
      ensures d.verb == METH_HEAD && d.path == path && d.options == options
    {
      Route(METH_HEAD, path, options)
    }

    /** Router.get */
    function Get(path: string, options: map<string, string>): (d: Decorator)
      ensures d.verb == METH_GET && d.path == path && d.options == options
    {
      Route(METH_GET, path, options)
    }

    /** Router.post */
    function Post(path: string, options: map<string, string>): (d: Decorator)
      ensures d.verb == METH_POST && d.path == path && d.options == options
    {
      Route(METH_POST, path, options)
    }

    /** Router.put */
    function Put(path: string, options: map<string, string>): (d: Decorator)
      ensures d.verb == METH_PUT && d.path == path && d.options == options
    {
      Route(METH_PUT, path, options)
    }

    /** Router.patch */
    function Patch(path: string, options: map<string, string>): (d: Decorator)
      ensures d.verb == METH_PATCH && d.path == path && d.options == options
    {
      Route(METH_PATCH, path, options)
    }

    /** Router.delete */
    function Delete(path: string, options: map<string, string>): (d: Decorator)
      ensures d.verb == METH_DELETE && d.path == path && d.options == options
    {
      Route(METH_DELETE, path, options)
    }

    /** Router.options */
    function Options(path: string, options: map<string, string>): (d: Decorator)
      ensures d.verb == METH_OPTIONS && d.path == path && d.options == options
    {
      Route(METH_OPTIONS, path, options)
    }

    /** Router.view: every method. */
    function View(path: string, options: map<string, string>): (d: Decorator)
      ensures d.verb == METH_ANY && d.path == path && d.options == options
    {
      Route(METH_ANY, path, options)
    }
  }

  // ---------------------------------------------------------------------------
  // Properties of a fresh router's bindings

  /** A fresh router's injectors: a parameter annotated with the request type, Optional
      or not, with or without a default, receives the request itself, unchanged. */
  lemma RequestParamGetsRequest(p: Param, m: Metadata, optional: bool, request: Request)
    requires m.Meta?
    requires p.hint == HintOf(Annotation(RequestType, optional, m))
    ensures BindParam(p, map[RequestType := RequestIdentity]) == Returned(Inject(RequestIdentity))
    ensures Invoke(p.name, Inject(RequestIdentity), request) == Returned(Req(request))
  {
    GetAnnotationOfHintOf(Annotation(RequestType, optional, m));
  }

  /** On any router, however its injectors were changed since, a parameter annotated
      with the request type is injected and never read from the path or the query. */
  lemma RequestParamInjected(router: Router, p: Param)
    requires router.Valid()
    requires GetAnnotation(p.hint).Returned? && GetAnnotation(p.hint).value.typ == RequestType
    ensures BindParam(p, router.injectors) == Returned(Inject(router.injectors[RequestType]))
  {
  }

  /** The eight verb helpers register eight different methods. */
  lemma VerbMethodsDistinct()
    ensures |{METH_HEAD, METH_GET, METH_POST, METH_PUT, METH_PATCH, METH_DELETE, METH_OPTIONS, METH_ANY}| == 8
  {
  }

  // ---------------------------------------------------------------------------
  // Clients of the router: what callers can conclude from the contracts alone

  /** `greet(who: Annotated[str, Meta])` at GET /hello/{who}: a request with who="Ada"
      is answered with what greet returns for who="Ada". */
  method GreetScenario(meta: nat, greet: seq<(string, Value)> -> Value)
  {
    var router := new Router();
    var handler := Handler("greet", [Param("who", Annotated(StrType, [Meta(meta)]), None)], greet);
    var hint := Annotated(StrType, [Meta(meta)]);
    assert GetAnnotation(hint) == Returned(Annotation(StrType, false, Meta(meta)));
    WellFormedRegistration(handler, router.injectors);
    var r := router.Decorate(router.Get("/hello/{who}", map[]), handler);
    assert r == Returned(handler);
    var route := router.items[0];
    var request := Request(map["who" := "Ada"], map[], 0);
    var response := Dispatch(route, request);
    var bindings := route.provider.args;
    assert bindings == [("who", Extract(StrType, false, None, Sources))];
    PathPreferred("who", StrType, false, None, request);
    assert Invoke("who", bindings[0].1, request) == Returned(Str("Ada"));
    assert bindings[1..] == [];
    assert FirstEscape(bindings, request) == None && Failures(bindings, request) == [];
    assert Successes(bindings, request) == [("who", Str("Ada"))];
    GatherOutcome(bindings, request);
    assert response == Served(greet([("who", Str("Ada"))]));
  }

  /** With who missing everywhere and no default, dispatch is a bad request naming who,
      for Optional-less and default-less `who`. */
  method MissingWhoScenario(meta: nat, greet: seq<(string, Value)> -> Value)
  {
    var router := new Router();
    var handler := Handler("greet", [Param("who", Annotated(StrType, [Meta(meta)]), None)], greet);
    assert GetAnnotation(Annotated(StrType, [Meta(meta)])) == Returned(Annotation(StrType, false, Meta(meta)));
    WellFormedRegistration(handler, router.injectors);
    var r := router.Decorate(router.Get("/hello", map[]), handler);
    var route := router.items[0];
    var request := Request(map[], map[], 0);
    var response := Dispatch(route, request);
    DefaultFallback("who", StrType, false, None, request);
    var bindings := route.provider.args;
    assert bindings == [("who", Extract(StrType, false, None, Sources))];
    assert Invoke("who", bindings[0].1, request) == Raised(MissingValue("who"));
    GatherOutcome(bindings, request);
    assert response == BadRequest(MissingValue("who"));
  }

  /** An injector added after a route was registered does not change how that route
      binds: the parameter stays an extracted one. */
  method LateInjectorScenario(meta: nat, body: seq<(string, Value)> -> Value, factory: Factory)
  {
    var router := new Router();
    var client := ClassType("RemoteClient");
    var handler := Handler("hello", [Param("client", Annotated(client, [Meta(meta)]), None)], body);
    assert GetAnnotation(Annotated(client, [Meta(meta)])) == Returned(Annotation(client, false, Meta(meta)));
    WellFormedRegistration(handler, router.injectors);
    var r := router.Decorate(router.Get("/hello", map[]), handler);
    var before := router.items[0].provider.args;
    assert before == [("client", Extract(client, false, None, Sources))];
    router.AddTypeInjector(client, factory);
    assert router.items[0].provider.args == before;
  }
}
