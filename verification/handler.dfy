/** The `Handler` registry (django_handlers.py:14-209): views per endpoint
    and method, hook lists, and the callable exposed under each endpoint
    name. */
module Handlers {
  import opened Ascii
  import opened Routing
  import opened Names
  import opened Traces

  /** The registry's mutable state: the method table of each endpoint, the
      two hook tables, and the callable exposed under each endpoint name. */
  datatype State = State(
    views: map<string, map<string, ViewId>>,
    preHooks: HookTable,
    postHooks: HookTable,
    endpoints: map<string, Callable>)
  {
    /** The part of the state a dispatch reads when it runs. */
    function Snapshot(): Registry {
      Registry(views, preHooks, postHooks)
    }
  }

  /** A freshly constructed registry. */
  const Empty: State := State(map[], map[], map[], map[])

  /** Every method a view is registered under is upper-cased. */
  predicate UpperKeys(methods: map<string, ViewId>) {
    forall m :: m in methods ==> IsUpperCased(m)
  }

  /** What registration keeps true: every endpoint with a view has exactly
      one callable, built on its own dispatch closure, no endpoint takes a
      reserved name, and views sit under upper-cased methods. */
  predicate Coherent(s: State, reserved: set<string>) {
    && s.endpoints.Keys == s.views.Keys
    && s.views.Keys !! reserved
    && (forall e :: e in s.endpoints ==> Core(s.endpoints[e]) == e)
    && (forall e :: e in s.views ==> s.views[e] != map[] && UpperKeys(s.views[e]))
  }

  /** `add_view` for a name that passed validation (django_handlers.py:36-37,
      42-43): the view is stored under the upper-cased method, replacing only
      that entry, and the endpoint's callable is created, wrapped by the
      constructor's decorators, only if the endpoint had no view yet. */
  function WithView(s: State, ambient: seq<DecoratorId>, httpMethod: string, name: string, view: ViewId): (r: State)
    ensures MethodsOf(r.views, name) == MethodsOf(s.views, name)[Upper(httpMethod) := view]
    ensures forall e :: e != name ==> MethodsOf(r.views, e) == MethodsOf(s.views, e)
    ensures name in r.views && r.views.Keys == s.views.Keys + {name}
    ensures r.preHooks == s.preHooks && r.postHooks == s.postHooks
    ensures name in s.views ==> r.endpoints == s.endpoints
    ensures name !in s.views ==> r.endpoints == s.endpoints[name := WrapAll(ambient, Base(name))]
  {
    State(s.views[name := MethodsOf(s.views, name)[Upper(httpMethod) := view]], s.preHooks, s.postHooks,
          if name in s.views then s.endpoints else s.endpoints[name := WrapAll(ambient, Base(name))])
  }

  /** `add_pre_hook(key, hook)`: `hook` is appended to the pre-hooks under
      `key`, creating the list if it is missing; nothing else changes. */
  function WithPreHook(s: State, key: Option<string>, hook: HookId): (r: State)
    ensures HooksOf(r.preHooks, key) == HooksOf(s.preHooks, key) + [hook]
    ensures forall k :: k != key ==> HooksOf(r.preHooks, k) == HooksOf(s.preHooks, k)
    ensures r.views == s.views && r.postHooks == s.postHooks && r.endpoints == s.endpoints
  {
    s.(preHooks := AppendHook(s.preHooks, key, hook))
  }

  /** `add_post_hook(key, hook)`: `hook` is appended to the post-hooks
      under `key`, creating the list if it is missing; nothing else changes. */
  function WithPostHook(s: State, key: Option<string>, hook: HookId): (r: State)
    ensures HooksOf(r.postHooks, key) == HooksOf(s.postHooks, key) + [hook]
    ensures forall k :: k != key ==> HooksOf(r.postHooks, k) == HooksOf(s.postHooks, k)
    ensures r.views == s.views && r.preHooks == s.preHooks && r.endpoints == s.endpoints
  {
    s.(postHooks := AppendHook(s.postHooks, key, hook))
  }

  /** `decorate(name, decorators)` on an existing endpoint: its callable
      gains `decorators` outside the layers it already had, the first-listed
      outermost, and still ends in the same dispatch closure; every other
      callable, the views and the hooks are untouched. */
  function WithDecorators(s: State, name: string, decorators: seq<DecoratorId>): (r: State)
    requires name in s.endpoints
    ensures r.endpoints.Keys == s.endpoints.Keys
    ensures Core(r.endpoints[name]) == Core(s.endpoints[name])
    ensures Layers(r.endpoints[name]) == decorators + Layers(s.endpoints[name])
    ensures forall e :: e in s.endpoints && e != name ==> r.endpoints[e] == s.endpoints[e]
    ensures r.views == s.views && r.preHooks == s.preHooks && r.postHooks == s.postHooks
  {
    s.(endpoints := s.endpoints[name := WrapAll(decorators, s.endpoints[name])])
  }

  /** Registering a view under a name that is not reserved keeps the
      registry coherent. */
  lemma WithViewKeepsCoherent(s: State, reserved: set<string>, ambient: seq<DecoratorId>, httpMethod: string, name: string, view: ViewId)
    requires Coherent(s, reserved)
    requires name !in reserved
    ensures Coherent(WithView(s, ambient, httpMethod, name, view), reserved)
  {
    var r := WithView(s, ambient, httpMethod, name, view);
    UpperIsUpperCased(httpMethod);
    assert UpperKeys(r.views[name]) && r.views[name] != map[] by {
      assert Upper(httpMethod) in r.views[name];
    }
  }

  /** Hooks and decorations never break coherence. */
  lemma HooksAndDecorationsKeepCoherent(s: State, reserved: set<string>, key: Option<string>, hook: HookId, name: string, decorators: seq<DecoratorId>)
    requires Coherent(s, reserved)
    ensures Coherent(WithPreHook(s, key, hook), reserved)
    ensures Coherent(WithPostHook(s, key, hook), reserved)
    ensures name in s.endpoints ==> Coherent(WithDecorators(s, name, decorators), reserved)
  {
  }

  /** Registering a second view for the same method replaces the first, and
      the endpoint's callable, decorations included, is the one the first
      registration created. */
  lemma ReRegistrationReplaces(s: State, ambient: seq<DecoratorId>, httpMethod: string, name: string, first: ViewId, second: ViewId)
    ensures WithView(WithView(s, ambient, httpMethod, name, first), ambient, httpMethod, name, second)
      == WithView(s, ambient, httpMethod, name, second)
  {
    var methods: map<string, ViewId> := MethodsOf(s.views, name);
    var key := Upper(httpMethod);
    assert methods[key := first][key := second] == methods[key := second];
  }

  /** After registration, a request whose method is the upper-cased
      registration method is served by the registered view, and only by it. */
  lemma RegisteredViewServes(s: State, ambient: seq<DecoratorId>, httpMethod: string, name: string, view: ViewId, request: Request, args: RoutingArgs)
    requires request.httpMethod == Upper(httpMethod)
    ensures var call := Dispatch(WithView(s, ambient, httpMethod, name, view).Snapshot(), name, request, args);
      && call.response == ViewResponse(view, request, args)
      && Select(call.trace, ViewRank) == [ViewCalled(view, request, args)]
  {
    DispatchCallsRegisteredView(WithView(s, ambient, httpMethod, name, view).Snapshot(), name, request, args);
  }

  /** In a coherent registry a request whose method is not upper-cased is
      never served by a view. */
  lemma CoherentRejectsLowerCase(s: State, reserved: set<string>, name: string, request: Request, args: RoutingArgs)
    requires Coherent(s, reserved)
    requires !IsUpperCased(request.httpMethod)
    ensures Dispatch(s.Snapshot(), name, request, args).response == NotAllowed(MethodsOf(s.views, name).Keys)
    ensures Select(Dispatch(s.Snapshot(), name, request, args).trace, ViewRank) == []
  {
    LowerCaseMethodNotAllowed(s.Snapshot(), name, request, args);
  }

  /** Decorating `name` changes what calling `name` does by entering the
      decorators, in list order, before what it did so far; every other
      endpoint behaves as before. */
  lemma DecorateWrapsOnlyNamed(s: State, name: string, decorators: seq<DecoratorId>, endpoint: string, request: Request, args: RoutingArgs)
    requires name in s.endpoints && endpoint in s.endpoints
    ensures var r := WithDecorators(s, name, decorators);
      var call := Run(s.endpoints[endpoint], s.Snapshot(), request, args);
      && endpoint in r.endpoints
      && Run(r.endpoints[endpoint], r.Snapshot(), request, args)
         == if endpoint == name then Call(DecoratorEvents(decorators) + call.trace, call.response) else call
  {
    RunWrapAll(decorators, s.endpoints[endpoint], s.Snapshot(), request, args);
  }

  class Handler {
    /** The decorators given at construction, applied to every endpoint. */
    const ambient: seq<DecoratorId>
    /** Names an endpoint may not take. */
    const reserved: set<string>
    /** Endpoint name to (upper-cased method to view). */
    var views: map<string, map<string, ViewId>>
    var preHooks: HookTable
    var postHooks: HookTable
    /** The callable exposed under each endpoint name. */
    var endpoints: map<string, Callable>

    /** The registry's fields as one value. */
    function Current(): State
      reads this
    {
      State(views, preHooks, postHooks, endpoints)
    }

    ghost predicate Valid()
      reads this
    {
      RegistrySurface <= reserved && Coherent(Current(), reserved)
    }

    /** `Handler(decorators)`: no view, no hook, no endpoint yet. */
    constructor (decorators: seq<DecoratorId>, builtins: set<string>)
      requires InterpreterNames(builtins)
      ensures Valid()
      ensures ambient == decorators && reserved == Reserved(builtins)
      ensures Current() == Empty
    {
      ambient := decorators;
      reserved := Reserved(builtins);
      views := map[];
      preHooks := map[];
      postHooks := map[];
      endpoints := map[];
    }

    /** `getattr(self, name)` for an endpoint name: the callable exposed
        under `name`, which in a valid registry ends in the dispatch closure
        of `name` itself; a name with no endpoint is not found. */
    function GetEndpoint(name: string): (r: Option<Callable>)
      reads this
      ensures r.Some? <==> name in endpoints
      ensures r.Some? ==> r.value == endpoints[name]
      ensures Valid() && r.Some? ==> Core(r.value) == name
    {
      if name in endpoints then Some(endpoints[name]) else None
    }

    /** `_add_endpoint`: expose the dispatch closure of `name`, wrapped by
        the constructor's decorators, the first-listed outermost. */
    method AddEndpoint(name: string)
      modifies this
      ensures endpoints == old(endpoints)[name := WrapAll(ambient, Base(name))]
      ensures views == old(views) && preHooks == old(preHooks) && postHooks == old(postHooks)
    {
      var endpoint := ApplyDecorators(ambient, Base(name));
      endpoints := endpoints[name := endpoint];
    }

    /** `_ensure_endpoint_exists`: reject a reserved name, and create the
        endpoint if this is the first registration for it. */
    method EnsureEndpointExists(name: string) returns (r: Outcome)
      modifies this
      ensures r == ValidateEndpointName(reserved, name)
      ensures views == old(views) && preHooks == old(preHooks) && postHooks == old(postHooks)
      ensures endpoints == if r.Pass? && name !in old(views)
        then old(endpoints)[name := WrapAll(ambient, Base(name))] else old(endpoints)
    {
      r := ValidateEndpointName(reserved, name);
      if r.Pass? && name !in views {
        AddEndpoint(name);
      }
    }

    /** `add_view`: fail on a reserved name and change nothing, or register
        the view as `WithView` says. */
    method AddView(httpMethod: string, name: string, view: ViewId) returns (r: Outcome)
      requires Valid()
      modifies this
      ensures Valid()
      ensures r == ValidateEndpointName(reserved, name)
      ensures Current() == if r.Pass? then WithView(old(Current()), ambient, httpMethod, name, view) else old(Current())
    {
      ghost var before := Current();
      r := EnsureEndpointExists(name);
      if r.Pass? {
        WithViewKeepsCoherent(before, reserved, ambient, httpMethod, name, view);
        views := views[name := MethodsOf(views, name)[Upper(httpMethod) := view]];
      }
    }

    /** `_register(httpMethod, name)(view)`: register and hand the view back. */
    method Register(httpMethod: string, name: string, view: ViewId) returns (r: Result<ViewId>)
      requires Valid()
      modifies this
      ensures Valid()
      ensures r == if name in reserved then Err(InvalidEndpointName(name)) else Ok(view)
      ensures Current() == if r.Ok? then WithView(old(Current()), ambient, httpMethod, name, view) else old(Current())
    {
      var outcome := AddView(httpMethod, name, view);
      r := if outcome.Pass? then Ok(view) else Err(outcome.error);
    }

    /** `get(name)(view)`. */
    method Get(name: string, view: ViewId) returns (r: Result<ViewId>)
      requires Valid()
      modifies this
      ensures Valid()
      ensures r == if name in reserved then Err(InvalidEndpointName(name)) else Ok(view)
      ensures Current() == if r.Ok? then WithView(old(Current()), ambient, "GET", name, view) else old(Current())
    {
      r := Register("GET", name, view);
    }

    /** `head(name)(view)`. */
    method Head(name: string, view: ViewId) returns (r: Result<ViewId>)
      requires Valid()
      modifies this
      ensures Valid()
      ensures r == if name in reserved then Err(InvalidEndpointName(name)) else Ok(view)
      ensures Current() == if r.Ok? then WithView(old(Current()), ambient, "HEAD", name, view) else old(Current())
    {
      r := Register("HEAD", name, view);
    }

    /** `options(name)(view)`. */
    method Options(name: string, view: ViewId) returns (r: Result<ViewId>)
      requires Valid()
      modifies this
      ensures Valid()
      ensures r == if name in reserved then Err(InvalidEndpointName(name)) else Ok(view)
      ensures Current() == if r.Ok? then WithView(old(Current()), ambient, "OPTIONS", name, view) else old(Current())
    {
      r := Register("OPTIONS", name, view);
    }

    /** `post(name)(view)`. */
    method Post(name: string, view: ViewId) returns (r: Result<ViewId>)
      requires Valid()
      modifies this
      ensures Valid()
      ensures r == if name in reserved then Err(InvalidEndpointName(name)) else Ok(view)
      ensures Current() == if r.Ok? then WithView(old(Current()), ambient, "POST", name, view) else old(Current())
    {
      r := Register("POST", name, view);
    }

    /** `put(name)(view)`. */
    method Put(name: string, view: ViewId) returns (r: Result<ViewId>)
      requires Valid()
      modifies this
      ensures Valid()
      ensures r == if name in reserved then Err(InvalidEndpointName(name)) else Ok(view)
      ensures Current() == if r.Ok? then WithView(old(Current()), ambient, "PUT", name, view) else old(Current())
    {
      r := Register("PUT", name, view);
    }

    /** `patch(name)(view)`. */
    method Patch(name: string, view: ViewId) returns (r: Result<ViewId>)
      requires Valid()
      modifies this
      ensures Valid()
      ensures r == if name in reserved then Err(InvalidEndpointName(name)) else Ok(view)
      ensures Current() == if r.Ok? then WithView(old(Current()), ambient, "PATCH", name, view) else old(Current())
    {
      r := Register("PATCH", name, view);
    }

    /** `delete(name)(view)`. */
    method Delete(name: string, view: ViewId) returns (r: Result<ViewId>)
      requires Valid()
      modifies this
      ensures Valid()
      ensures r == if name in reserved then Err(InvalidEndpointName(name)) else Ok(view)
      ensures Current() == if r.Ok? then WithView(old(Current()), ambient, "DELETE", name, view) else old(Current())
    {
      r := Register("DELETE", name, view);
    }

    /** `add_pre_hook`: append one hook to the list under `key` (`None` for
        every endpoint); nothing else changes. */
    method AddPreHook(key: Option<string>, hook: HookId)
      requires Valid()
      modifies this
      ensures Valid()
      ensures Current() == WithPreHook(old(Current()), key, hook)
    {
      preHooks := AppendHook(preHooks, key, hook);
    }

    /** `add_post_hook`: append one hook to the list under `key`. */
    method AddPostHook(key: Option<string>, hook: HookId)
      requires Valid()
      modifies this
      ensures Valid()
      ensures Current() == WithPostHook(old(Current()), key, hook)
    {
      postHooks := AppendHook(postHooks, key, hook);
    }

    /** `@before` applied to a hook: a pre-hook for every endpoint. */
    method BeforeAll(hook: HookId) returns (h: HookId)
      requires Valid()
      modifies this
      ensures Valid()
      ensures h == hook
      ensures Current() == WithPreHook(old(Current()), None, hook)
    {
      AddPreHook(None, hook);
      h := hook;
    }

    /** `before(name)(hook)`: a pre-hook for endpoint `name` only. */
    method Before(name: string, hook: HookId) returns (h: HookId)
      requires Valid()
      modifies this
      ensures Valid()
      ensures h == hook
      ensures Current() == WithPreHook(old(Current()), Some(name), hook)
    {
      AddPreHook(Some(name), hook);
      h := hook;
    }

    /** `@after` applied to a hook: a post-hook for every endpoint. */
    method AfterAll(hook: HookId) returns (h: HookId)
      requires Valid()
      modifies this
      ensures Valid()
      ensures h == hook
      ensures Current() == WithPostHook(old(Current()), None, hook)
    {
      AddPostHook(None, hook);
      h := hook;
    }

    /** `after(name)(hook)`: a post-hook for endpoint `name` only. */
    method After(name: string, hook: HookId) returns (h: HookId)
      requires Valid()
      modifies this
      ensures Valid()
      ensures h == hook
      ensures Current() == WithPostHook(old(Current()), Some(name), hook)
    {
      AddPostHook(Some(name), hook);
      h := hook;
    }

    /** `decorate`: wrap the current callable of `name` with `decorators`,
        the first-listed outermost; a single decorator is the one-element
        list. A name with no endpoint fails and changes nothing. */
    method Decorate(name: string, decorators: seq<DecoratorId>) returns (r: Outcome)
      requires Valid()
      modifies this
      ensures Valid()
      ensures r.Pass? <==> name in old(endpoints)
      ensures r.Fail? ==> r.error == EndpointNotFound(name)
      ensures Current() == if r.Pass? then WithDecorators(old(Current()), name, decorators) else old(Current())
    {
      var current := GetEndpoint(name);
      if current.None? {
        return Fail(EndpointNotFound(name));
      }
      var wrapped := ApplyDecorators(decorators, current.value);
      endpoints := endpoints[name := wrapped];
      r := Pass;
    }

    /** The dispatch closure of endpoint `name` (django_handlers.py:50-65):
        run the pre-hooks, the view for the request's method or the "method
        not allowed" fallback, then the post-hooks, reading the registry as
        it is now. */
    method Endpoint(name: string, request: Request, args: RoutingArgs) returns (trace: seq<Event>, response: Response)
      ensures Call(trace, response) == Dispatch(Current().Snapshot(), name, request, args)
    {
      var before := RunHooks(BeforeView, ResolveHooks(preHooks, name), request, args);
      var methods := MethodsOf(views, name);
      var viewCall: seq<Event>;
      if request.httpMethod in methods {
        var view := methods[request.httpMethod];
        viewCall := [ViewCalled(view, request, args)];
        response := ViewResponse(view, request, args);
      } else {
        viewCall := [];
        response := NotAllowed(methods.Keys);
      }
      var after := RunHooks(AfterView, ResolveHooks(postHooks, name), request, args);
      trace := before + viewCall + after;
    }

    /** Calling an exposed callable: each decorator is entered and calls the
        callable it wraps, down to the dispatch closure. */
    method Invoke(c: Callable, request: Request, args: RoutingArgs) returns (trace: seq<Event>, response: Response)
      ensures Call(trace, response) == Run(c, Current().Snapshot(), request, args)
      decreases c
    {
      match c
      case Base(e) =>
        trace, response := Endpoint(e, request, args);
      case Wrap(d, inner) =>
        var innerTrace;
        innerTrace, response := Invoke(inner, request, args);
        trace := [DecoratorEntered(d)] + innerTrace;
    }
  }
}
