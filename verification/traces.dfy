/** What calling an endpoint does: the call trace of hooks, view and
    decorators, and the response it returns (django_handlers.py:50-65). */
module Traces {
  import opened Ascii
  import opened Routing

  /** The part of an incoming request the registry looks at. */
  datatype Request = Request(httpMethod: string)

  /** Positional and keyword routing arguments, passed through unchanged. */
  datatype RoutingArgs = RoutingArgs(positional: seq<string>, keyword: map<string, string>)

  /** The registry state a dispatch reads at call time. */
  datatype Registry = Registry(
    views: map<string, map<string, ViewId>>,
    preHooks: HookTable,
    postHooks: HookTable)

  datatype Stage = BeforeView | AfterView

  /** One observable call made while serving a request. */
  datatype Event =
    | DecoratorEntered(decorator: DecoratorId)
    | HookCalled(stage: Stage, hook: HookId, request: Request, args: RoutingArgs)
    | ViewCalled(view: ViewId, request: Request, args: RoutingArgs)

  /** What a dispatch returns: whatever the selected view returned when
      called on the request and the routing arguments, or the "method not
      allowed" response listing the registered methods. */
  datatype Response =
    | ViewResponse(view: ViewId, request: Request, args: RoutingArgs)
    | NotAllowed(allowed: set<string>)

  datatype Call = Call(trace: seq<Event>, response: Response)

  function HookTableOf(st: Registry, stage: Stage): HookTable {
    if stage == BeforeView then st.preHooks else st.postHooks
  }

  /** Running the hooks `hs` one after another, each on the request and the
      routing arguments. */
  function HookEvents(stage: Stage, hs: seq<HookId>, request: Request, args: RoutingArgs): (r: seq<Event>)
    ensures |r| == |hs|
  {
    if hs == [] then []
    else HookEvents(stage, hs[..|hs| - 1], request, args) + [HookCalled(stage, hs[|hs| - 1], request, args)]
  }

  /** The loop `for hook in hs: hook(request, *args, **kwargs)`, recording
      each call. */
  method RunHooks(stage: Stage, hs: seq<HookId>, request: Request, args: RoutingArgs) returns (events: seq<Event>)
    ensures events == HookEvents(stage, hs, request, args)
  {
    events := [];
    var i := 0;
    while i < |hs|
      invariant 0 <= i <= |hs|
      invariant events == HookEvents(stage, hs[..i], request, args)
    {
      assert hs[..i + 1][..i] == hs[..i];
      events := events + [HookCalled(stage, hs[i], request, args)];
      i := i + 1;
    }
    assert hs[..|hs|] == hs;
  }

  /** Entering the decorators `ds`, outermost first. */
  function DecoratorEvents(ds: seq<DecoratorId>): (r: seq<Event>)
    ensures |r| == |ds|
  {
    if ds == [] then [] else [DecoratorEntered(ds[0])] + DecoratorEvents(ds[1..])
  }

  /** The `i`-th entry is that of the `i`-th decorator. */
  lemma {:induction false} DecoratorEventsAt(ds: seq<DecoratorId>, i: nat)
    requires i < |ds|
    ensures DecoratorEvents(ds)[i] == DecoratorEntered(ds[i])
  {
    if i > 0 {
      DecoratorEventsAt(ds[1..], i - 1);
    }
  }

  /** The dispatch closure of `endpoint` (django_handlers.py:50-65), run on
      the registry state as it is when the call happens. */
  function Dispatch(st: Registry, endpoint: string, request: Request, args: RoutingArgs): (r: Call)
    ensures r.response.ViewResponse? <==> request.httpMethod in MethodsOf(st.views, endpoint)
    ensures r.response.NotAllowed? ==> r.response.allowed == MethodsOf(st.views, endpoint).Keys
  {
    var methods := MethodsOf(st.views, endpoint);
    var before := HookEvents(BeforeView, ResolveHooks(st.preHooks, endpoint), request, args);
    var after := HookEvents(AfterView, ResolveHooks(st.postHooks, endpoint), request, args);
    var found := request.httpMethod in methods;
    var viewCall := if found then [ViewCalled(methods[request.httpMethod], request, args)] else [];
    var response := if found then ViewResponse(methods[request.httpMethod], request, args) else NotAllowed(methods.Keys);
    Call(before + viewCall + after, response)
  }

  /** Entering the decorators of `c` around `inner`, what the dispatch
      closure at its bottom does: each decorator records its entry, calls
      the callable it wraps and returns what that returned. */
  function Enter(c: Callable, inner: Call): (r: Call)
    ensures r.response == inner.response
    ensures |r.trace| == |Layers(c)| + |inner.trace|
  {
    match c
    case Base(_) => inner
    case Wrap(d, wrapped) =>
      var call := Enter(wrapped, inner);
      Call([DecoratorEntered(d)] + call.trace, call.response)
  }

  /** Calling the callable `c`: its decorators around the dispatch closure
      of the endpoint at its bottom. */
  function Run(c: Callable, st: Registry, request: Request, args: RoutingArgs): (r: Call)
    ensures r.response == Dispatch(st, Core(c), request, args).response
  {
    Enter(c, Dispatch(st, Core(c), request, args))
  }

  // Projections of a trace onto its phases.

  const DecoratorRank: nat := 0
  const PreHookRank: nat := 1
  const ViewRank: nat := 2
  const PostHookRank: nat := 3

  function StageRank(stage: Stage): nat {
    if stage == BeforeView then PreHookRank else PostHookRank
  }

  /** The phase an event belongs to. */
  function Rank(ev: Event): nat {
    match ev
    case DecoratorEntered(_) => DecoratorRank
    case HookCalled(stage, _, _, _) => StageRank(stage)
    case ViewCalled(_, _, _) => ViewRank
  }

  /** The events of phase `k`, in trace order. */
  function Select(t: seq<Event>, k: nat): (r: seq<Event>)
    ensures |r| <= |t|
    ensures forall ev :: ev in r <==> ev in t && Rank(ev) == k
  {
    if t == [] then [] else (if Rank(t[0]) == k then [t[0]] else []) + Select(t[1..], k)
  }

  /** No event of a later phase precedes an event of an earlier one. */
  ghost predicate Ordered(t: seq<Event>) {
    forall i, j :: 0 <= i < j < |t| ==> Rank(t[i]) <= Rank(t[j])
  }

  ghost predicate AllRank(t: seq<Event>, k: nat) {
    forall ev :: ev in t ==> Rank(ev) == k
  }

  lemma {:induction false} SelectConcat(a: seq<Event>, b: seq<Event>, k: nat)
    ensures Select(a + b, k) == Select(a, k) + Select(b, k)
  {
    if a == [] {
      assert a + b == b;
    } else {
      assert (a + b)[1..] == a[1..] + b;
      SelectConcat(a[1..], b, k);
    }
  }

  lemma {:induction false} SelectAllRank(t: seq<Event>, k: nat, k': nat)
    requires AllRank(t, k)
    ensures Select(t, k') == if k == k' then t else []
  {
    if t != [] {
      assert t[0] in t;
      SelectAllRank(t[1..], k, k');
      assert t == [t[0]] + t[1..];
    }
  }

  /** Three blocks of uniform, non-decreasing phase form an ordered trace. */
  lemma OrderedBlocks(a: seq<Event>, b: seq<Event>, c: seq<Event>, ka: nat, kb: nat, kc: nat)
    requires AllRank(a, ka) && AllRank(b, kb) && AllRank(c, kc)
    requires ka <= kb <= kc
    ensures Ordered(a + b + c)
  {
    var t := a + b + c;
    forall i | 0 <= i < |t|
      ensures Rank(t[i]) == if i < |a| then ka else if i < |a| + |b| then kb else kc
    {
      if i < |a| {
        assert t[i] == a[i] && a[i] in a;
      } else if i < |a| + |b| {
        assert t[i] == b[i - |a|] && b[i - |a|] in b;
      } else {
        assert t[i] == c[i - |a| - |b|] && c[i - |a| - |b|] in c;
      }
    }
  }

  lemma {:induction false} HookEventsAt(stage: Stage, hs: seq<HookId>, request: Request, args: RoutingArgs, i: nat)
    requires i < |hs|
    ensures HookEvents(stage, hs, request, args)[i] == HookCalled(stage, hs[i], request, args)
  {
    if i < |hs| - 1 {
      HookEventsAt(stage, hs[..|hs| - 1], request, args, i);
    }
  }

  /** Every hook of a stage runs on the request and routing arguments the
      endpoint was called with. */
  lemma HookEventsRank(stage: Stage, hs: seq<HookId>, request: Request, args: RoutingArgs)
    ensures AllRank(HookEvents(stage, hs, request, args), StageRank(stage))
    ensures forall ev :: ev in HookEvents(stage, hs, request, args) ==> ev.request == request && ev.args == args
  {
    var t := HookEvents(stage, hs, request, args);
    forall ev | ev in t
      ensures Rank(ev) == StageRank(stage) && ev.request == request && ev.args == args
    {
      var i :| 0 <= i < |t| && t[i] == ev;
      HookEventsAt(stage, hs, request, args, i);
    }
  }

  /** Three blocks of uniform phase, split back by `Select`. */
  lemma SelectBlocks(a: seq<Event>, b: seq<Event>, c: seq<Event>, ka: nat, kb: nat, kc: nat, k: nat)
    requires AllRank(a, ka) && AllRank(b, kb) && AllRank(c, kc)
    ensures Select(a + b + c, k) == (if k == ka then a else []) + (if k == kb then b else []) + (if k == kc then c else [])
  {
    SelectConcat(a + b, c, k);
    SelectConcat(a, b, k);
    SelectAllRank(a, ka, k);
    SelectAllRank(b, kb, k);
    SelectAllRank(c, kc, k);
  }

  /** A dispatch trace as three blocks: the pre-hooks, the view call if any,
      and the post-hooks. */
  lemma DispatchBlocks(st: Registry, endpoint: string, request: Request, args: RoutingArgs)
    returns (before: seq<Event>, viewCall: seq<Event>, after: seq<Event>)
    ensures before == HookEvents(BeforeView, ResolveHooks(st.preHooks, endpoint), request, args)
    ensures after == HookEvents(AfterView, ResolveHooks(st.postHooks, endpoint), request, args)
    ensures viewCall == if request.httpMethod in MethodsOf(st.views, endpoint)
      then [ViewCalled(MethodsOf(st.views, endpoint)[request.httpMethod], request, args)] else []
    ensures Dispatch(st, endpoint, request, args).trace == before + viewCall + after
    ensures AllRank(before, PreHookRank) && AllRank(viewCall, ViewRank) && AllRank(after, PostHookRank)
  {
    var methods := MethodsOf(st.views, endpoint);
    before := HookEvents(BeforeView, ResolveHooks(st.preHooks, endpoint), request, args);
    after := HookEvents(AfterView, ResolveHooks(st.postHooks, endpoint), request, args);
    viewCall := if request.httpMethod in methods then [ViewCalled(methods[request.httpMethod], request, args)] else [];
    HookEventsRank(BeforeView, ResolveHooks(st.preHooks, endpoint), request, args);
    HookEventsRank(AfterView, ResolveHooks(st.postHooks, endpoint), request, args);
  }

  /** The hook and decorator events of phase `k` in one dispatch. */
  lemma DispatchSelect(st: Registry, endpoint: string, request: Request, args: RoutingArgs, k: nat)
    requires k != ViewRank
    ensures Select(Dispatch(st, endpoint, request, args).trace, k) ==
      if k == PreHookRank then HookEvents(BeforeView, ResolveHooks(st.preHooks, endpoint), request, args)
      else if k == PostHookRank then HookEvents(AfterView, ResolveHooks(st.postHooks, endpoint), request, args)
      else []
  {
    var before, viewCall, after := DispatchBlocks(st, endpoint, request, args);
    SelectBlocks(before, viewCall, after, PreHookRank, ViewRank, PostHookRank, k);
  }

  /** The phases of one dispatch: the pre-hooks (global, then the endpoint's
      own), the selected view if any, then the post-hooks (global, then the
      endpoint's own); no decorator is entered. */
  lemma DispatchPhases(st: Registry, endpoint: string, request: Request, args: RoutingArgs)
    ensures var call := Dispatch(st, endpoint, request, args);
      && Ordered(call.trace)
      && Select(call.trace, DecoratorRank) == []
      && Select(call.trace, PreHookRank) == HookEvents(BeforeView, ResolveHooks(st.preHooks, endpoint), request, args)
      && Select(call.trace, PostHookRank) == HookEvents(AfterView, ResolveHooks(st.postHooks, endpoint), request, args)
  {
    DispatchOrdered(st, endpoint, request, args);
    DispatchSelect(st, endpoint, request, args, DecoratorRank);
    DispatchSelect(st, endpoint, request, args, PreHookRank);
    DispatchSelect(st, endpoint, request, args, PostHookRank);
  }

  /** A request whose method has a registered view is served by exactly that
      view, called once, and gets its response. */
  lemma DispatchCallsRegisteredView(st: Registry, endpoint: string, request: Request, args: RoutingArgs)
    requires request.httpMethod in MethodsOf(st.views, endpoint)
    ensures var view := MethodsOf(st.views, endpoint)[request.httpMethod];
      var call := Dispatch(st, endpoint, request, args);
      && call.response == ViewResponse(view, request, args)
      && Select(call.trace, ViewRank) == [ViewCalled(view, request, args)]
  {
    var before, viewCall, after := DispatchBlocks(st, endpoint, request, args);
    SelectBlocks(before, viewCall, after, PreHookRank, ViewRank, PostHookRank, ViewRank);
  }

  /** A request whose method has no view gets "method not allowed" listing
      every registered method; no view is called, and the hooks still run. */
  lemma DispatchNotAllowed(st: Registry, endpoint: string, request: Request, args: RoutingArgs)
    requires request.httpMethod !in MethodsOf(st.views, endpoint)
    ensures var call := Dispatch(st, endpoint, request, args);
      && call.response == NotAllowed(MethodsOf(st.views, endpoint).Keys)
      && Select(call.trace, ViewRank) == []
      && call.trace == HookEvents(BeforeView, ResolveHooks(st.preHooks, endpoint), request, args)
                       + HookEvents(AfterView, ResolveHooks(st.postHooks, endpoint), request, args)
  {
    var before, viewCall, after := DispatchBlocks(st, endpoint, request, args);
    SelectBlocks(before, viewCall, after, PreHookRank, ViewRank, PostHookRank, ViewRank);
    assert viewCall == [];
    assert before + viewCall == before;
  }

  /** One more decorator in front adds its entry in front. */
  lemma PrependEntry(d: DecoratorId, ds: seq<DecoratorId>, trace: seq<Event>)
    ensures DecoratorEvents([d] + ds) + trace == [DecoratorEntered(d)] + (DecoratorEvents(ds) + trace)
  {
    assert ([d] + ds)[1..] == ds;
  }

  /** Entering a decorated callable enters its decorators outermost first,
      then runs the callable at its bottom, and returns what that returns. */
  lemma {:induction false} EnterPeels(c: Callable, inner: Call)
    ensures Enter(c, inner) == Call(DecoratorEvents(Layers(c)) + inner.trace, inner.response)
  {
    match c
    case Base(_) =>
      assert [] + inner.trace == inner.trace;
    case Wrap(d, wrapped) =>
      EnterPeels(wrapped, inner);
      PrependEntry(d, Layers(wrapped), inner.trace);
  }

  /** Calling a decorated callable enters its decorators outermost first,
      then runs the dispatch closure, and returns what the closure returns. */
  lemma RunPeelsDecorators(c: Callable, st: Registry, request: Request, args: RoutingArgs)
    ensures var call := Dispatch(st, Core(c), request, args);
      Run(c, st, request, args) == Call(DecoratorEvents(Layers(c)) + call.trace, call.response)
  {
    EnterPeels(c, Dispatch(st, Core(c), request, args));
  }

  /** Wrapping `c` with `ds` around any inner call. */
  lemma {:induction false} EnterWrapAll(ds: seq<DecoratorId>, c: Callable, inner: Call)
    ensures var call := Enter(c, inner);
      Enter(WrapAll(ds, c), inner) == Call(DecoratorEvents(ds) + call.trace, call.response)
  {
    var call := Enter(c, inner);
    if ds == [] {
      assert [] + call.trace == call.trace;
    } else {
      EnterWrapAll(ds[1..], c, inner);
      assert ds == [ds[0]] + ds[1..];
      PrependEntry(ds[0], ds[1..], call.trace);
    }
  }

  /** Wrapping with `ds` puts the entries of `ds`, first-listed first, in
      front of the wrapped callable's trace and leaves its response alone. */
  lemma RunWrapAll(ds: seq<DecoratorId>, c: Callable, st: Registry, request: Request, args: RoutingArgs)
    ensures var call := Run(c, st, request, args);
      Run(WrapAll(ds, c), st, request, args) == Call(DecoratorEvents(ds) + call.trace, call.response)
  {
    EnterWrapAll(ds, c, Dispatch(st, Core(c), request, args));
  }

  lemma DecoratorEventsRank(ds: seq<DecoratorId>)
    ensures AllRank(DecoratorEvents(ds), DecoratorRank)
  {
    forall ev | ev in DecoratorEvents(ds)
      ensures Rank(ev) == DecoratorRank
    {
      var i :| 0 <= i < |ds| && DecoratorEvents(ds)[i] == ev;
      DecoratorEventsAt(ds, i);
    }
  }

  /** Events of the first phase in front of an ordered trace keep it ordered. */
  lemma OrderedAfterDecorators(outer: seq<Event>, inner: seq<Event>)
    requires AllRank(outer, DecoratorRank) && Ordered(inner)
    ensures Ordered(outer + inner)
  {
    var t := outer + inner;
    forall i, j | 0 <= i < j < |t|
      ensures Rank(t[i]) <= Rank(t[j])
    {
      if i < |outer| {
        assert t[i] in outer;
      } else {
        assert t[i] == inner[i - |outer|] && t[j] == inner[j - |outer|];
      }
    }
  }

  /** One dispatch never goes back to an earlier phase. */
  lemma DispatchOrdered(st: Registry, endpoint: string, request: Request, args: RoutingArgs)
    ensures Ordered(Dispatch(st, endpoint, request, args).trace)
  {
    var before, viewCall, after := DispatchBlocks(st, endpoint, request, args);
    OrderedBlocks(before, viewCall, after, PreHookRank, ViewRank, PostHookRank);
  }

  /** The phases of calling an endpoint's callable: its decorators, outermost
      first, then the phases of its dispatch closure, in that order. */
  lemma RunOrdered(c: Callable, st: Registry, request: Request, args: RoutingArgs)
    ensures Ordered(Run(c, st, request, args).trace)
  {
    RunPeelsDecorators(c, st, request, args);
    DecoratorEventsRank(Layers(c));
    DispatchOrdered(st, Core(c), request, args);
    OrderedAfterDecorators(DecoratorEvents(Layers(c)), Dispatch(st, Core(c), request, args).trace);
  }

  /** The events of phase `k` when calling `c`: its decorators for the first
      phase, those of its dispatch closure for the others. */
  lemma RunSelect(c: Callable, st: Registry, request: Request, args: RoutingArgs, k: nat)
    ensures Select(Run(c, st, request, args).trace, k) ==
      if k == DecoratorRank then DecoratorEvents(Layers(c))
      else Select(Dispatch(st, Core(c), request, args).trace, k)
  {
    var inner := Dispatch(st, Core(c), request, args).trace;
    var outer := DecoratorEvents(Layers(c));
    RunPeelsDecorators(c, st, request, args);
    DecoratorEventsRank(Layers(c));
    SelectConcat(outer, inner, k);
    SelectAllRank(outer, DecoratorRank, k);
    if k == DecoratorRank {
      DispatchSelect(st, Core(c), request, args, k);
      assert outer + [] == outer;
    }
  }

  lemma HookEventsMember(stage: Stage, hs: seq<HookId>, request: Request, args: RoutingArgs, hook: HookId)
    ensures HookCalled(stage, hook, request, args) in HookEvents(stage, hs, request, args) <==> hook in hs
  {
    var events := HookEvents(stage, hs, request, args);
    if hook in hs {
      var i :| 0 <= i < |hs| && hs[i] == hook;
      HookEventsAt(stage, hs, request, args, i);
    }
    if HookCalled(stage, hook, request, args) in events {
      var i :| 0 <= i < |events| && events[i] == HookCalled(stage, hook, request, args);
      HookEventsAt(stage, hs, request, args, i);
    }
  }

  /** A hook shows up in a call of endpoint `Core(c)` exactly when it was
      registered globally or for that endpoint, in the matching stage: hooks
      of one endpoint never run for another. */
  lemma HookIsolation(c: Callable, st: Registry, request: Request, args: RoutingArgs, stage: Stage, hook: HookId)
    ensures HookCalled(stage, hook, request, args) in Run(c, st, request, args).trace
        <==> hook in HooksOf(HookTableOf(st, stage), None) || hook in HooksOf(HookTableOf(st, stage), Some(Core(c)))
  {
    var k := StageRank(stage);
    var hs := ResolveHooks(HookTableOf(st, stage), Core(c));
    var trace := Run(c, st, request, args).trace;
    assert Rank(HookCalled(stage, hook, request, args)) == k;
    RunSelect(c, st, request, args, k);
    DispatchSelect(st, Core(c), request, args, k);
    assert Select(trace, k) == HookEvents(stage, hs, request, args);
    HookEventsMember(stage, hs, request, args, hook);
  }

  /** The response depends on the views, the request and the routing
      arguments alone: hooks and decorators cannot change it. */
  lemma ResponseIgnoresHooksAndDecorators(c: Callable, st1: Registry, st2: Registry, request: Request, args: RoutingArgs)
    requires st1.views == st2.views
    ensures Run(c, st1, request, args).response == Run(c, st2, request, args).response
    ensures Run(c, st1, request, args).response == Dispatch(st1, Core(c), request, args).response
  {
    RunPeelsDecorators(c, st1, request, args);
    RunPeelsDecorators(c, st2, request, args);
  }

  /** The request's method is looked up as given: when every registered
      method is upper-cased, a method spelt with a lower-case letter is not
      allowed, even if its upper-cased form has a view. */
  lemma LowerCaseMethodNotAllowed(st: Registry, endpoint: string, request: Request, args: RoutingArgs)
    requires forall m :: m in MethodsOf(st.views, endpoint) ==> IsUpperCased(m)
    requires !IsUpperCased(request.httpMethod)
    ensures Dispatch(st, endpoint, request, args).response == NotAllowed(MethodsOf(st.views, endpoint).Keys)
    ensures Select(Dispatch(st, endpoint, request, args).trace, ViewRank) == []
  {
    DispatchNotAllowed(st, endpoint, request, args);
  }
}
