# django-handlers: a Dafny model of the `Handler` registry

`django_handlers.Handler` groups Django views by endpoint name and HTTP method.
Registering a view (`handler.get('users')(view)`, `add_view`) stores it in a
table keyed by endpoint name and upper-cased method. The first registration
for a name creates one dispatch callable for the endpoint and exposes it as an
attribute of the handler. Before exposing it, the constructor's decorators
wrap it, with the first-listed decorator outermost. Calling the callable
runs, in order:

- the global pre-hooks, then the endpoint's own pre-hooks;
- the view registered for the request's method, or a "method not allowed"
  response listing the registered methods;
- the global post-hooks, then the endpoint's own post-hooks.

`decorate` wraps an endpoint's current callable again. A name the registry
already uses for its own attributes cannot become an endpoint, with one
exception in the source: `_invalid_endpoint_names` (see Findings). The model
reserves that name too.

The model has six modules:

- `Ascii` (`ascii.dfy`): the upper-casing applied to a method token.
- `Routing` (`routing.dfy`): these entities and their operations.
  - Views, hooks and decorators are opaque identities.
  - The exposed callable is a term `Base(endpoint) | Wrap(decorator, inner)`.
  - Hook tables are keyed by `Option<string>`, where `None` means every endpoint.
  - Also here: the decorator fold and hook resolution.
- `Names` (`names.dfy`): the reserved names and name validation.
- `Traces` (`traces.dfy`): what a call does.
  - `Dispatch` is the dispatch closure run on the registry state at call time.
    It returns the call trace (hooks, view, decorator entries) and the response.
  - `Run` is the same for a decorated callable.
  - Lemmas give the trace's phase structure.
- `Handlers` (`handler.dfy`): the registry itself.
  - The `Handler` class has mutable fields: views, pre-hooks, post-hooks and
    endpoints.
  - Each mutating method is proved against a pure transition on the
    `State` value: `WithView`, `WithPreHook`, `WithPostHook` or `WithDecorators`.
  - The public methods keep the invariant `Valid()`. The two private steps
    `AddEndpoint` and `EnsureEndpointExists` do not, since they run halfway
    through `AddView`, before the view is stored.
- `Scenarios` (`scenarios.dfy`): the situations exercised by
  `tests/test_handler.py`, stated over every endpoint name, view identity and
  set of distinct upper-cased method tokens. The concrete names and methods of
  the tests are one instance each.

## Model

| member | source | states |
|---|---|---|
| Ascii.Upper | django_handlers.py:37 | upper-casing keeps the token's length |
| Ascii.UpperIsUpperCased | django_handlers.py:37 | every token produced by upper-casing is upper-cased |
| Ascii.UpperFixesExactlyUpperCased | django_handlers.py:37 | upper-casing leaves a token unchanged exactly when it is already upper-cased |
| Ascii.UpperIdempotent | django_handlers.py:37 | upper-casing twice equals upper-casing once |
| Routing.WrapAll | django_handlers.py:67-68 | folding decorators keeps the endpoint at the bottom and puts the decorators, first-listed outermost, over the existing layers |
| Routing.WrapAllTwice | django_handlers.py:195-209 | decorating with `inner` and then `outer` is decorating once with `outer + inner`: the latest decoration is outermost |
| Routing.ApplyDecorators | django_handlers.py:67-68 | the loop over the reversed decorator list yields the `WrapAll` term |
| Routing.HooksOf | django_handlers.py:72-76 | a key that was never written reads as the empty list, the `defaultdict(list)` default; a written key reads its list |
| Routing.MethodsOf | django_handlers.py:55-57 | an endpoint with no view reads as an empty method table, the `defaultdict(dict)` default; otherwise its table |
| Routing.ResolveHooks | django_handlers.py:72-76 | the resolved hooks are the global list followed by the endpoint's list, each in insertion order |
| Routing.AppendHook | django_handlers.py:165 | the list under the key grows by exactly the new hook; every other key's list is unchanged |
| Names.Reserved | django_handlers.py:21-26 | the reserved set is exactly what `dir(self)` lists at construction plus `_invalid_endpoint_names` itself; so it contains the registry's whole attribute surface and the interpreter's attributes |
| Names.ValidateEndpointName | django_handlers.py:45-47 | validation fails exactly on a reserved name, with `InvalidEndpointName(name)` |
| Names.ListedNamesAdmitReservedListName | django_handlers.py:26 | the list taken by `dir(self)` admits `_invalid_endpoint_names`, which the corrected reserved set rejects |
| Traces.HookEvents | django_handlers.py:51-52 | running a hook list records exactly one call per hook |
| Traces.HookEventsAt | django_handlers.py:51-52 | the i-th recorded call is that of the i-th hook, with the request and routing arguments |
| Traces.RunHooks | django_handlers.py:51-52 | the hook loop records one call per hook, in list order, each with the request and routing arguments |
| Traces.HookEventsRank | django_handlers.py:51-52 | every hook call of a stage receives exactly the request and arguments the endpoint was called with |
| Traces.DecoratorEventsAt | django_handlers.py:67-68 | the i-th decorator entry is that of the i-th listed decorator |
| Traces.Dispatch | django_handlers.py:50-65 | the response is a view's exactly when the request's method has a view; otherwise it is "not allowed" listing exactly the registered methods (the trace is described by `DispatchPhases`) |
| Traces.Enter | django_handlers.py:67-68 | entering the decorators adds one entry per layer and returns what the innermost callable returned |
| Traces.Run | django_handlers.py:67-70 | the response of an exposed callable is that of the dispatch closure at its bottom; decorators never change it |
| Traces.DispatchPhases | django_handlers.py:50-65 | a dispatch trace is ordered by phase, enters no decorator, and its pre- and post-hook calls are the resolved hook lists in order |
| Traces.DispatchCallsRegisteredView | django_handlers.py:54-60 | a request whose method has a view is served by exactly that view, called once, and gets its response |
| Traces.DispatchNotAllowed | django_handlers.py:54-58 | a request whose method has no view gets "not allowed" with every registered method, calls no view, and still runs all hooks |
| Traces.EnterPeels | django_handlers.py:67-68 | a wrapped callable enters its decorators outermost first and returns what the innermost callable returns |
| Traces.RunPeelsDecorators | django_handlers.py:67-70 | calling an endpoint's callable gives its decorator entries, then the dispatch trace, and the dispatch response |
| Traces.RunWrapAll | django_handlers.py:203-205 | wrapping with a list adds its entries, first-listed first, before the wrapped callable's trace and keeps the response |
| Traces.RunOrdered | django_handlers.py:50-70 | a call never goes back to an earlier phase: decorators, then pre-hooks, then the view, then post-hooks |
| Traces.RunSelect | django_handlers.py:50-76 | each phase of a call holds the decorators or the dispatch closure's events of that phase |
| Traces.HookEventsMember | django_handlers.py:51-52 | a hook's call appears in a stage's trace exactly when the hook is in the resolved list |
| Traces.HookIsolation | django_handlers.py:72-76 | a hook runs in a call of endpoint `e` iff it was added globally or for `e`, in that stage; another endpoint's hooks never run |
| Traces.ResponseIgnoresHooksAndDecorators | django_handlers.py:50-65 | the response depends on the views, the request and the routing arguments alone, not on hooks or decorators |
| Traces.LowerCaseMethodNotAllowed | django_handlers.py:55 | the request method is looked up as given: a token with a lower-case letter finds no upper-cased key and gets "not allowed" |
| Handlers.WithView | django_handlers.py:36-43 | registration stores the view under the upper-cased method, changes no other entry, and creates the wrapped callable only for a new endpoint |
| Handlers.WithPreHook | django_handlers.py:165 | the pre-hook list under the key grows by exactly the new hook, created if missing; every other list, the views, the post-hooks and the endpoints are unchanged |
| Handlers.WithPostHook | django_handlers.py:193 | the post-hook list under the key grows by exactly the new hook, created if missing; every other list, the views, the pre-hooks and the endpoints are unchanged |
| Handlers.WithDecorators | django_handlers.py:195-209 | the named endpoint's callable gains the decorators, first-listed outermost, over its existing layers and keeps its dispatch closure; every other callable, the views and the hooks are unchanged |
| Handlers.WithViewKeepsCoherent | django_handlers.py:28-43 | registering under an unreserved name keeps the registry coherent: one callable per endpoint with views, built on its own dispatch closure, upper-cased keys |
| Handlers.HooksAndDecorationsKeepCoherent | django_handlers.py:159-209 | adding hooks and decorating an existing endpoint keep the registry coherent |
| Handlers.ReRegistrationReplaces | django_handlers.py:36-43 | registering twice for the same endpoint and method equals registering the second view once; the callable is not rewrapped |
| Handlers.RegisteredViewServes | django_handlers.py:55-60 | after registration, a request spelt like the upper-cased method is served by the registered view alone |
| Handlers.CoherentRejectsLowerCase | django_handlers.py:55 | in a coherent registry a request method with a lower-case letter is never served by a view |
| Handlers.DecorateWrapsOnlyNamed | django_handlers.py:195-209 | decorating an endpoint puts its decorators' entries before what it did; every other endpoint behaves as before |
| Handlers.Handler.GetEndpoint | django_handlers.py:201 | the callable exposed under the name, found exactly when the name is an endpoint; in a valid registry it ends in that name's own dispatch closure |
| Handlers.Handler.constructor | django_handlers.py:21-26 | a new registry has no views, hooks or endpoints, keeps its decorators and reserves its own surface |
| Handlers.Handler.AddEndpoint | django_handlers.py:49-70 | the endpoint's callable becomes its dispatch closure wrapped by the constructor's decorators; nothing else changes |
| Handlers.Handler.EnsureEndpointExists | django_handlers.py:39-43 | a reserved name fails; a new valid name gets its callable; an existing one keeps it |
| Handlers.Handler.AddView | django_handlers.py:28-37 | a reserved name fails and changes nothing; otherwise the state becomes `WithView` of the old state; the invariant is kept |
| Handlers.Handler.Register | django_handlers.py:78-82 | the registrar hands the view back unchanged, or the error for a reserved name, and updates the state like `AddView` |
| Handlers.Handler.Get | django_handlers.py:84-89 | registers for `GET` and returns the view |
| Handlers.Handler.Head | django_handlers.py:91-97 | registers for `HEAD` and returns the view |
| Handlers.Handler.Options | django_handlers.py:99-105 | registers for `OPTIONS` and returns the view |
| Handlers.Handler.Post | django_handlers.py:107-113 | registers for `POST` and returns the view |
| Handlers.Handler.Put | django_handlers.py:115-121 | registers for `PUT` and returns the view |
| Handlers.Handler.Patch | django_handlers.py:123-129 | registers for `PATCH` and returns the view |
| Handlers.Handler.Delete | django_handlers.py:131-137 | registers for `DELETE` and returns the view |
| Handlers.Handler.AddPreHook | django_handlers.py:159-165 | appends one pre-hook under the key; nothing else changes |
| Handlers.Handler.AddPostHook | django_handlers.py:187-193 | appends one post-hook under the key; nothing else changes |
| Handlers.Handler.BeforeAll | django_handlers.py:139-157 | `@before` on a function adds it as a global pre-hook and returns it |
| Handlers.Handler.Before | django_handlers.py:139-157 | `before(name)` adds a pre-hook for that endpoint only and returns it |
| Handlers.Handler.AfterAll | django_handlers.py:167-185 | `@after` on a function adds it as a global post-hook and returns it |
| Handlers.Handler.After | django_handlers.py:167-185 | `after(name)` adds a post-hook for that endpoint only and returns it |
| Handlers.Handler.Decorate | django_handlers.py:195-209 | an existing endpoint's callable is wrapped, first-listed outermost, and no other endpoint changes; a missing endpoint fails and changes nothing |
| Handlers.Handler.Endpoint | django_handlers.py:50-65 | the dispatch closure produces exactly the `Dispatch` trace and response of the state at call time |
| Handlers.Handler.Invoke | django_handlers.py:67-70 | calling an exposed callable produces exactly the `Run` trace and response |
| Scenarios.RegisterEachRoutes | django_handlers.py:36-37 | after several registrations with distinct upper-cased methods, each method maps to its own view |
| Scenarios.RegisterEachKeeps | django_handlers.py:37 | a method no later registration names keeps its view |
| Scenarios.RegisterEachKeys | django_handlers.py:37 | the registered methods of an endpoint are the earlier ones plus the upper-cased new ones |
| Scenarios.TokensAreStored | django_handlers.py:37 | upper-cased distinct tokens are stored as given and stay distinct |
| Scenarios.RoutesByMethod | tests/test_handler.py:7-51 | with one view per method, each request is served by its method's view alone, with the routing arguments unchanged (also tests/test_handler.py:78-89) |
| Scenarios.RoutesEveryVerb | tests/test_handler.py:7-51 | with the seven verbs of the test each given its own view, a request for any verb is answered by that verb's view alone |
| Scenarios.NotAllowedListsRegistered | tests/test_handler.py:54-75 | the endpoint exists, unwrapped, exactly when some method was registered; an unregistered method then gets "not allowed" listing exactly the registered methods, and no view runs |
| Scenarios.MethodLookupIsCaseSensitive | django_handlers.py:55 | a view registered under a lower-case spelling serves the upper-cased request; the lower-case spelling gets "not allowed" |
| Scenarios.PreHookForOneEndpoint | tests/test_handler.py:92-129 | a pre-hook for `hooked` runs before its view and never for `skipped` |
| Scenarios.PreHookForAll | tests/test_handler.py:132-166 | a global pre-hook runs before the view of every endpoint |
| Scenarios.PostHookForOneEndpoint | tests/test_handler.py:169-206 | a post-hook for `hooked` runs after its view and never for `skipped` |
| Scenarios.PostHookForAll | tests/test_handler.py:209-243 | a global post-hook runs after the view of every endpoint |
| Scenarios.HookOrder | django_handlers.py:72-76 | global hooks run before the endpoint's own in both stages, even when added after them |
| Scenarios.HookAddedLaterRuns | django_handlers.py:50-52 | a hook added after the endpoint was created still runs |
| Scenarios.AmbientDecorators | tests/test_handler.py:246-280 | the constructor's decorators wrap each endpoint once and are entered in list order before the view |
| Scenarios.DecorateOneEndpoint | tests/test_handler.py:283-354 | decorating one endpoint enters its decorators in list order for that endpoint and none for the other |
| Scenarios.ReservedNameRejected | tests/test_handler.py:357-378 | registering under the name of one of the registry's methods fails with `InvalidEndpointName` and creates no endpoint |

## Left out

- The body of Django's `HttpResponseNotAllowed` is not modelled. The response is `NotAllowed(methods)`.
- The request is reduced to its method string.
- Routing arguments (`*args`, `**kwargs`) are one value, passed through unchanged.
- Views, hooks and decorators are identities.
  - A view's response is `ViewResponse(view, request, args)`: whatever that view returns for that request and those arguments. What a view computes is not modelled.
  - A decorator is assumed to record its entry, call the callable it wraps once, and return that result.
  - That is what every decorator in the tests does. Arbitrary decorator code is not modelled.
- `dir(self)` is modelled as a set fixed at construction.
  - The names the interpreter supplies are a parameter (`builtins`); the constructor requires them to be dunder names (`Names.InterpreterNames`).
  - The class uses the corrected set `Names.Reserved`; see Findings.
- `setattr`/`getattr` on attributes are modelled as an explicit map from endpoint name to callable.
- Handlers.Handler.Decorate: the source's `getattr` also succeeds on a registry method name such as `get`, which the model reports as `EndpointNotFound`. The model only decorates registered endpoints.
- `decorate` on a name with no attribute raises `AttributeError` in the source; the model returns `EndpointNotFound`.
- The `callable(target)` test in `before`/`after` is modelled as two entry points each, `BeforeAll`/`Before` and `AfterAll`/`After`.
- `before(None)` and `after(None)` register `None` itself as a global hook (django_handlers.py:154-155, 182-183) and return `None`.
  - Every later dispatch then fails with a `TypeError` when it calls that hook (lines 52 and 63).
  - The model has no entry point for this: a hook is an identity and cannot be `None`.
- The `isinstance(decorator, Iterable)` test in `decorate` is not modelled: a single decorator is passed as a one-element list.
- Exceptions raised by views, hooks or decorators are not modelled; they would propagate unhandled.
- Reading a missing key of a `defaultdict` inserts an empty entry in the source.
  - The model reads a missing key as empty without inserting it.
  - Nothing observable depends on the insertion.
- Ascii.Upper: upper-cases ASCII letters only, not the full Unicode case mapping of `str.upper()`.
- Concurrency is not modelled; the registry is used sequentially.
- Traces.Dispatch: a call reads one snapshot of the registry. The source reads the pre-hook lists lazily through `chain` (django_handlers.py:51, 73), the view table after the pre-hooks (line 55) and the post-hook lists after the view (line 62). A hook or view that changes the registry during the call, say by adding a post-hook, is not modelled.
- Handlers.Handler.constructor: the decorator list is kept as a copy (`ambient`). The source keeps the caller's list object (`decorators or []`, line 22), so a caller who mutates that list afterwards changes the decorators of endpoints created later. That aliasing is not modelled.
- `setup.py` is packaging metadata and is not part of this model.
- Scenarios replay the tests on the pure state transitions, which the class methods are proved to perform; only `ReservedNameRejected` drives the class itself.

Points where the code's behaviour is easy to misread, and which the model follows:

- Post-hooks receive the request and the routing arguments, as pre-hooks do, but not the response (django_handlers.py:63).
- In both stages the global hooks run before the endpoint's own, whatever order they were added in (`Scenarios.HookOrder`). For example:
  - the hooks added are global pre-hook A, pre-hook B for the endpoint, post-hook C for the endpoint, then global post-hook D;
  - the view is H;
  - a call runs A, B, H, D, C.
- `decorate` wraps the current callable, which already carries the constructor's decorators, so the new decorators end up outermost (`Routing.WrapAllTwice`).
- The request's method is not upper-cased at lookup (django_handlers.py:55); only registration upper-cases.

## Findings

| source | as written | input that shows it | evidently intended | confidence | as-written member | corrected member |
|---|---|---|---|---|---|---|
| django_handlers.py:26 | the reserved list is `dir(self)` taken before the attribute `_invalid_endpoint_names` exists, so that name is not reserved | registering a view under `_invalid_endpoint_names`: validation passes, and creating the endpoint replaces the reserved list with the endpoint callable, so every later registration fails with a `TypeError` | every attribute of the registry, including `_invalid_endpoint_names`, is reserved | not executed | Names.ListedNamesAdmitReservedListName | Names.Reserved |
