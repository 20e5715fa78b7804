/** The situations exercised by tests/test_handler.py, replayed on the
    registry's state transitions (and, for reserved names, on the class
    itself). The tests' endpoint names, views and method tokens become
    parameters, so each lemma covers every instance of its test. */
module Scenarios {
  import opened Ascii
  import opened Routing
  import Names
  import opened Traces
  import opened Handlers

  const NoArgs: RoutingArgs := RoutingArgs([], map[])

  /** Method tokens as a client sends them: upper-cased and pairwise distinct. */
  predicate Tokens(methods: seq<string>) {
    && (forall i :: 0 <= i < |methods| ==> IsUpperCased(methods[i]))
    && (forall i, j :: 0 <= i < j < |methods| ==> methods[i] != methods[j])
  }

  /** The seven methods the tests register on one endpoint. */
  const Verbs: seq<string> := ["GET", "HEAD", "OPTIONS", "POST", "PUT", "PATCH", "DELETE"]

  lemma VerbsAreTokens()
    ensures Tokens(Verbs)
  {
  }

  /** Upper-casing a token leaves it alone, and distinct tokens stay distinct. */
  lemma TokensAreStored(methods: seq<string>)
    requires Tokens(methods)
    ensures forall i :: 0 <= i < |methods| ==> Upper(methods[i]) == methods[i]
    ensures forall i, j :: 0 <= i < j < |methods| ==> Upper(methods[i]) != Upper(methods[j])
  {
    forall i | 0 <= i < |methods|
      ensures Upper(methods[i]) == methods[i]
    {
      UpperFixesExactlyUpperCased(methods[i]);
    }
  }

  /** Registering `views[i]` under `methods[i]` on endpoint `name`, in order,
      on a registry constructed with the decorators `ambient`. */
  function RegisterEach(s: State, ambient: seq<DecoratorId>, name: string, methods: seq<string>, views: seq<ViewId>): (r: State)
    requires |methods| == |views|
    ensures r.preHooks == s.preHooks && r.postHooks == s.postHooks
    ensures forall e :: e != name ==> MethodsOf(r.views, e) == MethodsOf(s.views, e)
    ensures methods != [] ==> r.views.Keys == s.views.Keys + {name}
    ensures name in s.views ==> r.endpoints == s.endpoints
    ensures methods != [] && name !in s.views ==> r.endpoints == s.endpoints[name := WrapAll(ambient, Base(name))]
    decreases |methods|
  {
    if methods == [] then s
    else RegisterEach(WithView(s, ambient, methods[0], name, views[0]), ambient, name, methods[1..], views[1..])
  }

  /** When the upper-cased methods are pairwise distinct, each method ends up
      with the view registered for it. */
  lemma {:induction false} RegisterEachRoutes(s: State, ambient: seq<DecoratorId>, name: string, methods: seq<string>, views: seq<ViewId>, k: nat)
    requires |methods| == |views| && k < |methods|
    requires forall i, j :: 0 <= i < j < |methods| ==> Upper(methods[i]) != Upper(methods[j])
    ensures Upper(methods[k]) in MethodsOf(RegisterEach(s, ambient, name, methods, views).views, name)
    ensures MethodsOf(RegisterEach(s, ambient, name, methods, views).views, name)[Upper(methods[k])] == views[k]
    decreases |methods|
  {
    var next := WithView(s, ambient, methods[0], name, views[0]);
    if k == 0 {
      RegisterEachKeeps(next, ambient, name, methods[1..], views[1..], Upper(methods[0]));
    } else {
      RegisterEachRoutes(next, ambient, name, methods[1..], views[1..], k - 1);
    }
  }

  /** A method none of the later registrations names keeps its view. */
  lemma {:induction false} RegisterEachKeeps(s: State, ambient: seq<DecoratorId>, name: string, methods: seq<string>, views: seq<ViewId>, m: string)
    requires |methods| == |views|
    requires m in MethodsOf(s.views, name)
    requires forall i :: 0 <= i < |methods| ==> Upper(methods[i]) != m
    ensures m in MethodsOf(RegisterEach(s, ambient, name, methods, views).views, name)
    ensures MethodsOf(RegisterEach(s, ambient, name, methods, views).views, name)[m] == MethodsOf(s.views, name)[m]
    decreases |methods|
  {
    if methods != [] {
      RegisterEachKeeps(WithView(s, ambient, methods[0], name, views[0]), ambient, name, methods[1..], views[1..], m);
    }
  }

  /** The methods an endpoint has views for after the registrations: those
      it had, and the upper-cased registered ones. */
  lemma {:induction false} RegisterEachKeys(s: State, ambient: seq<DecoratorId>, name: string, methods: seq<string>, views: seq<ViewId>, m: string)
    requires |methods| == |views|
    ensures m in MethodsOf(RegisterEach(s, ambient, name, methods, views).views, name)
        <==> m in MethodsOf(s.views, name) || exists i :: 0 <= i < |methods| && Upper(methods[i]) == m
    decreases |methods|
  {
    if methods != [] {
      var next := WithView(s, ambient, methods[0], name, views[0]);
      RegisterEachKeys(next, ambient, name, methods[1..], views[1..], m);
      if exists i :: 0 <= i < |methods| && Upper(methods[i]) == m {
        var i :| 0 <= i < |methods| && Upper(methods[i]) == m;
        if i > 0 {
          assert Upper(methods[1..][i - 1]) == m;
        }
      }
    }
  }

  /** A request for a method the endpoint has a view for runs the endpoint's
      pre-hooks, that view, then its post-hooks. */
  lemma ServedTrace(st: Registry, endpoint: string, request: Request, args: RoutingArgs)
    requires request.httpMethod in MethodsOf(st.views, endpoint)
    ensures var view := MethodsOf(st.views, endpoint)[request.httpMethod];
      Run(Base(endpoint), st, request, args) == Call(
        HookEvents(BeforeView, ResolveHooks(st.preHooks, endpoint), request, args)
        + [ViewCalled(view, request, args)]
        + HookEvents(AfterView, ResolveHooks(st.postHooks, endpoint), request, args),
        ViewResponse(view, request, args))
  {
  }

  /** One endpoint given a view per method on top of `s`: a request for one
      of those methods runs the hooks `s` holds for it around that view. */
  lemma OneEndpointRoute(s: State, ambient: seq<DecoratorId>, name: string, methods: seq<string>, views: seq<ViewId>, k: nat, args: RoutingArgs)
    requires Tokens(methods) && |views| == |methods| && k < |methods|
    ensures Run(Base(name), RegisterEach(s, ambient, name, methods, views).Snapshot(), Request(methods[k]), args) == Call(
        HookEvents(BeforeView, ResolveHooks(s.preHooks, name), Request(methods[k]), args)
        + [ViewCalled(views[k], Request(methods[k]), args)]
        + HookEvents(AfterView, ResolveHooks(s.postHooks, name), Request(methods[k]), args),
        ViewResponse(views[k], Request(methods[k]), args))
  {
    TokensAreStored(methods);
    RegisterEachRoutes(s, ambient, name, methods, views, k);
    ServedTrace(RegisterEach(s, ambient, name, methods, views).Snapshot(), name, Request(methods[k]), args);
  }

  /** With a view registered for each method on a fresh registry, a request
      is served by the view registered for its method, which receives the
      routing arguments unchanged, and by no other code
      (tests/test_handler.py:7-51, 78-89). */
  lemma RoutesByMethod(name: string, methods: seq<string>, views: seq<ViewId>, k: nat, args: RoutingArgs)
    requires Tokens(methods) && |views| == |methods| && k < |methods|
    ensures RegisterEach(Empty, [], name, methods, views).endpoints == map[name := Base(name)]
    ensures Run(Base(name), RegisterEach(Empty, [], name, methods, views).Snapshot(), Request(methods[k]), args)
      == Call([ViewCalled(views[k], Request(methods[k]), args)], ViewResponse(views[k], Request(methods[k]), args))
  {
    OneEndpointRoute(Empty, [], name, methods, views, k, args);
    assert ResolveHooks(map[], name) == [];
  }

  /** The test's seven verbs, each registered with its own view on one
      endpoint: a request for any of them is answered by that verb's view
      alone (tests/test_handler.py:7-51). */
  lemma RoutesEveryVerb(name: string, views: seq<ViewId>, k: nat, args: RoutingArgs)
    requires |views| == |Verbs| && k < |Verbs|
    ensures Run(Base(name), RegisterEach(Empty, [], name, Verbs, views).Snapshot(), Request(Verbs[k]), args)
      == Call([ViewCalled(views[k], Request(Verbs[k]), args)], ViewResponse(views[k], Request(Verbs[k]), args))
  {
    VerbsAreTokens();
    RoutesByMethod(name, Verbs, views, k, args);
  }

  /** A request for a method with no view gets "method not allowed" listing
      exactly the registered methods, and no view runs
      (tests/test_handler.py:54-75). */
  lemma NotAllowedListsRegistered(name: string, methods: seq<string>, views: seq<ViewId>, m: string, args: RoutingArgs)
    requires Tokens(methods) && |views| == |methods|
    requires m !in methods
    ensures RegisterEach(Empty, [], name, methods, views).endpoints
      == if methods == [] then map[] else map[name := Base(name)]
    ensures var call := Run(Base(name), RegisterEach(Empty, [], name, methods, views).Snapshot(), Request(m), args);
      && call.trace == []
      && call.response.NotAllowed?
      && (forall x :: x in call.response.allowed <==> x in methods)
  {
    var st := RegisterEach(Empty, [], name, methods, views).Snapshot();
    TokensAreStored(methods);
    forall x
      ensures x in MethodsOf(st.views, name) <==> x in methods
    {
      RegisterEachKeys(Empty, [], name, methods, views, x);
    }
    DispatchNotAllowed(st, name, Request(m), args);
    assert ResolveHooks(map[], name) == [];
  }

  /** The method is upper-cased when a view is stored but not when a request
      is looked up: the upper-cased spelling is served, and a spelling with
      a lower-case letter is not allowed (django_handlers.py:37, 55). */
  lemma MethodLookupIsCaseSensitive(name: string, httpMethod: string, view: ViewId, args: RoutingArgs)
    requires !IsUpperCased(httpMethod)
    ensures var st := WithView(Empty, [], httpMethod, name, view).Snapshot();
      && Run(Base(name), st, Request(Upper(httpMethod)), args).response == ViewResponse(view, Request(Upper(httpMethod)), args)
      && Run(Base(name), st, Request(httpMethod), args).response == NotAllowed({Upper(httpMethod)})
  {
    var s := WithView(Empty, [], httpMethod, name, view);
    RegisteredViewServes(Empty, [], httpMethod, name, view, Request(Upper(httpMethod)), args);
    WithViewKeepsCoherent(Empty, {}, [], httpMethod, name, view);
    CoherentRejectsLowerCase(s, {}, name, Request(httpMethod), args);
    assert MethodsOf(s.views, name).Keys == {Upper(httpMethod)};
  }

  /** Two endpoints `a` and `b`, each given a view per method, on top of the
      hooks and views already in `s`. */
  function TwoEndpoints(s: State, a: string, b: string, methods: seq<string>, aViews: seq<ViewId>, bViews: seq<ViewId>): State
    requires |aViews| == |methods| && |bViews| == |methods|
  {
    RegisterEach(RegisterEach(s, [], a, methods, aViews), [], b, methods, bViews)
  }

  /** Each of the two endpoints serves each method with its own view,
      between the hooks `s` holds for it. */
  lemma TwoEndpointsRoute(s: State, a: string, b: string, methods: seq<string>, aViews: seq<ViewId>, bViews: seq<ViewId>, k: nat, endpoint: string)
    requires Tokens(methods) && |aViews| == |methods| && |bViews| == |methods| && k < |methods|
    requires a != b && s.views == map[] && s.endpoints == map[]
    requires endpoint == a || endpoint == b
    ensures TwoEndpoints(s, a, b, methods, aViews, bViews).endpoints == map[a := Base(a), b := Base(b)]
    ensures Run(Base(endpoint), TwoEndpoints(s, a, b, methods, aViews, bViews).Snapshot(), Request(methods[k]), NoArgs).trace
      == HookEvents(BeforeView, ResolveHooks(s.preHooks, endpoint), Request(methods[k]), NoArgs)
         + [ViewCalled(if endpoint == a then aViews[k] else bViews[k], Request(methods[k]), NoArgs)]
         + HookEvents(AfterView, ResolveHooks(s.postHooks, endpoint), Request(methods[k]), NoArgs)
  {
    TokensAreStored(methods);
    var first := RegisterEach(s, [], a, methods, aViews);
    RegisterEachRoutes(s, [], a, methods, aViews, k);
    RegisterEachRoutes(first, [], b, methods, bViews, k);
    ServedTrace(TwoEndpoints(s, a, b, methods, aViews, bViews).Snapshot(), endpoint, Request(methods[k]), NoArgs);
  }

  /** A table holding one hook for every endpoint applies it to each. */
  lemma GlobalHookTable(hook: HookId, endpoint: string)
    ensures ResolveHooks(AppendHook(map[], None, hook), endpoint) == [hook]
  {
    assert None != Some(endpoint);
  }

  /** A table holding one hook for endpoint `name` applies it to that
      endpoint alone. */
  lemma BoundHookTable(name: string, hook: HookId, endpoint: string)
    ensures ResolveHooks(AppendHook(map[], Some(name), hook), endpoint) == if name == endpoint then [hook] else []
  {
  }

  lemma NoHookEvents(stage: Stage, endpoint: string, request: Request, args: RoutingArgs)
    ensures HookEvents(stage, ResolveHooks(map[], endpoint), request, args) == []
  {
  }

  lemma OneHookEvent(stage: Stage, hook: HookId, request: Request, args: RoutingArgs)
    ensures HookEvents(stage, [hook], request, args) == [HookCalled(stage, hook, request, args)]
  {
  }

  /** A pre-hook bound to `hooked` runs before that endpoint's view and never
      for `skipped` (tests/test_handler.py:92-129). */
  lemma PreHookForOneEndpoint(hook: HookId, hooked: string, skipped: string, methods: seq<string>, hookedViews: seq<ViewId>, skippedViews: seq<ViewId>, k: nat, endpoint: string)
    requires Tokens(methods) && |hookedViews| == |methods| && |skippedViews| == |methods| && k < |methods|
    requires hooked != skipped && (endpoint == hooked || endpoint == skipped)
    ensures var r := TwoEndpoints(WithPreHook(Empty, Some(hooked), hook), hooked, skipped, methods, hookedViews, skippedViews);
      var request := Request(methods[k]);
      && r.endpoints[endpoint] == Base(endpoint)
      && Run(r.endpoints[endpoint], r.Snapshot(), request, NoArgs).trace
         == if endpoint == hooked
            then [HookCalled(BeforeView, hook, request, NoArgs), ViewCalled(hookedViews[k], request, NoArgs)]
            else [ViewCalled(skippedViews[k], request, NoArgs)]
  {
    var s := WithPreHook(Empty, Some(hooked), hook);
    TwoEndpointsRoute(s, hooked, skipped, methods, hookedViews, skippedViews, k, endpoint);
    BoundHookTable(hooked, hook, endpoint);
    OneHookEvent(BeforeView, hook, Request(methods[k]), NoArgs);
    NoHookEvents(AfterView, endpoint, Request(methods[k]), NoArgs);
  }

  /** A global pre-hook runs before the view of every endpoint
      (tests/test_handler.py:132-166). */
  lemma PreHookForAll(hook: HookId, a: string, b: string, methods: seq<string>, aViews: seq<ViewId>, bViews: seq<ViewId>, k: nat, endpoint: string)
    requires Tokens(methods) && |aViews| == |methods| && |bViews| == |methods| && k < |methods|
    requires a != b && (endpoint == a || endpoint == b)
    ensures var r := TwoEndpoints(WithPreHook(Empty, None, hook), a, b, methods, aViews, bViews);
      var request := Request(methods[k]);
      var view := if endpoint == a then aViews[k] else bViews[k];
      && r.endpoints[endpoint] == Base(endpoint)
      && Run(r.endpoints[endpoint], r.Snapshot(), request, NoArgs).trace
         == [HookCalled(BeforeView, hook, request, NoArgs), ViewCalled(view, request, NoArgs)]
  {
    var s := WithPreHook(Empty, None, hook);
    TwoEndpointsRoute(s, a, b, methods, aViews, bViews, k, endpoint);
    GlobalHookTable(hook, endpoint);
    OneHookEvent(BeforeView, hook, Request(methods[k]), NoArgs);
    NoHookEvents(AfterView, endpoint, Request(methods[k]), NoArgs);
  }

  /** A post-hook bound to `hooked` runs after that endpoint's view and never
      for `skipped` (tests/test_handler.py:169-206). */
  lemma PostHookForOneEndpoint(hook: HookId, hooked: string, skipped: string, methods: seq<string>, hookedViews: seq<ViewId>, skippedViews: seq<ViewId>, k: nat, endpoint: string)
    requires Tokens(methods) && |hookedViews| == |methods| && |skippedViews| == |methods| && k < |methods|
    requires hooked != skipped && (endpoint == hooked || endpoint == skipped)
    ensures var r := TwoEndpoints(WithPostHook(Empty, Some(hooked), hook), hooked, skipped, methods, hookedViews, skippedViews);
      var request := Request(methods[k]);
      && r.endpoints[endpoint] == Base(endpoint)
      && Run(r.endpoints[endpoint], r.Snapshot(), request, NoArgs).trace
         == if endpoint == hooked
            then [ViewCalled(hookedViews[k], request, NoArgs), HookCalled(AfterView, hook, request, NoArgs)]
            else [ViewCalled(skippedViews[k], request, NoArgs)]
  {
    var s := WithPostHook(Empty, Some(hooked), hook);
    TwoEndpointsRoute(s, hooked, skipped, methods, hookedViews, skippedViews, k, endpoint);
    BoundHookTable(hooked, hook, endpoint);
    OneHookEvent(AfterView, hook, Request(methods[k]), NoArgs);
    NoHookEvents(BeforeView, endpoint, Request(methods[k]), NoArgs);
  }

  /** A global post-hook runs after the view of every endpoint
      (tests/test_handler.py:209-243). */
  lemma PostHookForAll(hook: HookId, a: string, b: string, methods: seq<string>, aViews: seq<ViewId>, bViews: seq<ViewId>, k: nat, endpoint: string)
    requires Tokens(methods) && |aViews| == |methods| && |bViews| == |methods| && k < |methods|
    requires a != b && (endpoint == a || endpoint == b)
    ensures var r := TwoEndpoints(WithPostHook(Empty, None, hook), a, b, methods, aViews, bViews);
      var request := Request(methods[k]);
      var view := if endpoint == a then aViews[k] else bViews[k];
      && r.endpoints[endpoint] == Base(endpoint)
      && Run(r.endpoints[endpoint], r.Snapshot(), request, NoArgs).trace
         == [ViewCalled(view, request, NoArgs), HookCalled(AfterView, hook, request, NoArgs)]
  {
    var s := WithPostHook(Empty, None, hook);
    TwoEndpointsRoute(s, a, b, methods, aViews, bViews, k, endpoint);
    GlobalHookTable(hook, endpoint);
    OneHookEvent(AfterView, hook, Request(methods[k]), NoArgs);
    NoHookEvents(BeforeView, endpoint, Request(methods[k]), NoArgs);
  }

  /** Global and endpoint hooks, each list in registration order. */
  lemma TwoHookTable(global: HookId, bound: HookId, name: string)
    ensures ResolveHooks(AppendHook(AppendHook(map[], Some(name), bound), None, global), name) == [global, bound]
  {
    assert None != Some(name);
  }

  lemma TwoHookEvents(stage: Stage, first: HookId, second: HookId, request: Request, args: RoutingArgs)
    ensures HookEvents(stage, [first, second], request, args)
      == [HookCalled(stage, first, request, args), HookCalled(stage, second, request, args)]
  {
    assert [first, second][..1] == [first];
  }

  /** Hooks for endpoint `name` added first, global hooks after them. */
  function BoundThenGlobal(name: string, pre1: HookId, pre2: HookId, post1: HookId, post2: HookId): State {
    WithPostHook(WithPostHook(WithPreHook(WithPreHook(Empty, Some(name), pre2), None, pre1), Some(name), post2), None, post1)
  }

  lemma BoundThenGlobalTables(name: string, pre1: HookId, pre2: HookId, post1: HookId, post2: HookId)
    ensures ResolveHooks(BoundThenGlobal(name, pre1, pre2, post1, post2).preHooks, name) == [pre1, pre2]
    ensures ResolveHooks(BoundThenGlobal(name, pre1, pre2, post1, post2).postHooks, name) == [post1, post2]
    ensures BoundThenGlobal(name, pre1, pre2, post1, post2).views == map[]
  {
    TwoHookTable(pre1, pre2, name);
    TwoHookTable(post1, post2, name);
  }

  /** Global hooks run before the endpoint's own, in each stage, whatever
      the order they were added in (django_handlers.py:55-63, 72-76). */
  lemma HookOrder(name: string, methods: seq<string>, views: seq<ViewId>, k: nat, pre1: HookId, pre2: HookId, post1: HookId, post2: HookId)
    requires Tokens(methods) && |views| == |methods| && k < |methods|
    ensures var r := RegisterEach(BoundThenGlobal(name, pre1, pre2, post1, post2), [], name, methods, views);
      var request := Request(methods[k]);
      Run(Base(name), r.Snapshot(), request, NoArgs).trace
        == [HookCalled(BeforeView, pre1, request, NoArgs), HookCalled(BeforeView, pre2, request, NoArgs),
            ViewCalled(views[k], request, NoArgs),
            HookCalled(AfterView, post1, request, NoArgs), HookCalled(AfterView, post2, request, NoArgs)]
  {
    var request := Request(methods[k]);
    OneEndpointRoute(BoundThenGlobal(name, pre1, pre2, post1, post2), [], name, methods, views, k, NoArgs);
    BoundThenGlobalTables(name, pre1, pre2, post1, post2);
    TwoHookEvents(BeforeView, pre1, pre2, request, NoArgs);
    TwoHookEvents(AfterView, post1, post2, request, NoArgs);
  }

  /** The dispatch closure reads the hook tables when it runs: a hook added
      after the endpoint was created still runs (django_handlers.py:50-65). */
  lemma HookAddedLaterRuns(name: string, methods: seq<string>, views: seq<ViewId>, k: nat, hook: HookId)
    requires Tokens(methods) && |views| == |methods| && k < |methods|
    ensures var r := WithPreHook(RegisterEach(Empty, [], name, methods, views), Some(name), hook);
      var request := Request(methods[k]);
      Run(Base(name), r.Snapshot(), request, NoArgs).trace
        == [HookCalled(BeforeView, hook, request, NoArgs), ViewCalled(views[k], request, NoArgs)]
  {
    var r := WithPreHook(RegisterEach(Empty, [], name, methods, views), Some(name), hook);
    var request := Request(methods[k]);
    TokensAreStored(methods);
    RegisterEachRoutes(Empty, [], name, methods, views, k);
    ServedTrace(r.Snapshot(), name, request, NoArgs);
    BoundHookTable(name, hook, name);
    OneHookEvent(BeforeView, hook, request, NoArgs);
    NoHookEvents(AfterView, name, request, NoArgs);
  }

  /** The constructor's decorators wrap every endpoint, the first-listed
      outermost: calling it enters them in list order, then the view
      (tests/test_handler.py:246-280). */
  lemma AmbientDecorators(ds: seq<DecoratorId>, name: string, methods: seq<string>, views: seq<ViewId>, k: nat)
    requires Tokens(methods) && |views| == |methods| && k < |methods|
    ensures var r := RegisterEach(Empty, ds, name, methods, views);
      var request := Request(methods[k]);
      && r.endpoints == map[name := WrapAll(ds, Base(name))]
      && Run(r.endpoints[name], r.Snapshot(), request, NoArgs).trace
         == DecoratorEvents(ds) + [ViewCalled(views[k], request, NoArgs)]
  {
    var r := RegisterEach(Empty, ds, name, methods, views);
    OneEndpointRoute(Empty, ds, name, methods, views, k, NoArgs);
    NoHookEvents(BeforeView, name, Request(methods[k]), NoArgs);
    NoHookEvents(AfterView, name, Request(methods[k]), NoArgs);
    RunWrapAll(ds, Base(name), r.Snapshot(), Request(methods[k]), NoArgs);
  }

  /** Two endpoints on a fresh registry: each request runs its view alone. */
  lemma TwoEndpointsUnhooked(a: string, b: string, methods: seq<string>, aViews: seq<ViewId>, bViews: seq<ViewId>, k: nat, endpoint: string)
    requires Tokens(methods) && |aViews| == |methods| && |bViews| == |methods| && k < |methods|
    requires a != b && (endpoint == a || endpoint == b)
    ensures TwoEndpoints(Empty, a, b, methods, aViews, bViews).endpoints == map[a := Base(a), b := Base(b)]
    ensures Run(Base(endpoint), TwoEndpoints(Empty, a, b, methods, aViews, bViews).Snapshot(), Request(methods[k]), NoArgs).trace
      == [ViewCalled(if endpoint == a then aViews[k] else bViews[k], Request(methods[k]), NoArgs)]
  {
    TwoEndpointsRoute(Empty, a, b, methods, aViews, bViews, k, endpoint);
    NoHookEvents(BeforeView, endpoint, Request(methods[k]), NoArgs);
    NoHookEvents(AfterView, endpoint, Request(methods[k]), NoArgs);
  }

  /** `decorate` wraps the named endpoint alone: its calls enter the
      decorators in list order, the other endpoint's calls enter none
      (tests/test_handler.py:283-354). */
  lemma DecorateOneEndpoint(ds: seq<DecoratorId>, a: string, b: string, methods: seq<string>, aViews: seq<ViewId>, bViews: seq<ViewId>, k: nat, decorated: string, endpoint: string)
    requires Tokens(methods) && |aViews| == |methods| && |bViews| == |methods| && k < |methods|
    requires a != b && (decorated == a || decorated == b) && (endpoint == a || endpoint == b)
    ensures var t := TwoEndpoints(Empty, a, b, methods, aViews, bViews);
      && decorated in t.endpoints
      && var r := WithDecorators(t, decorated, ds);
         var request := Request(methods[k]);
         && endpoint in r.endpoints
         && Run(r.endpoints[endpoint], r.Snapshot(), request, NoArgs).trace
            == (if endpoint == decorated then DecoratorEvents(ds) else [])
               + [ViewCalled(if endpoint == a then aViews[k] else bViews[k], request, NoArgs)]
  {
    var t := TwoEndpoints(Empty, a, b, methods, aViews, bViews);
    var request := Request(methods[k]);
    TwoEndpointsUnhooked(a, b, methods, aViews, bViews, k, endpoint);
    DecorateWrapsOnlyNamed(t, decorated, ds, endpoint, request, NoArgs);
    if endpoint != decorated {
      assert [] + [ViewCalled(if endpoint == a then aViews[k] else bViews[k], request, NoArgs)]
        == [ViewCalled(if endpoint == a then aViews[k] else bViews[k], request, NoArgs)];
    }
  }

  /** Registering a view under the name of one of the registry's own
      methods fails and leaves the registry without endpoints
      (tests/test_handler.py:357-378). */
  method ReservedNameRejected(builtins: set<string>, name: string, view: ViewId) returns (r: Result<ViewId>, endpoints: map<string, Callable>)
    requires Names.InterpreterNames(builtins)
    requires name in Names.HandlerMethods
    ensures r == Err(InvalidEndpointName(name))
    ensures endpoints == map[]
  {
    var h := new Handler([], builtins);
    r := h.Get(name, view);
    endpoints := h.endpoints;
  }
}
