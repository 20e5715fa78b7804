/** The values the registry stores: opaque identities for views, hooks and
    decorators, the callable exposed under an endpoint name, the hook lists
    keyed by endpoint, and the errors registration can raise. */
module Routing {

  /** A view function, a hook function and a decorator are opaque to the
      registry; each is known by an identity. */
  type ViewId = nat
  type HookId = nat
  type DecoratorId = nat

  datatype Option<+T> = None | Some(value: T)

  datatype Error =
    | InvalidEndpointName(name: string)   // ValueError raised at registration
    | EndpointNotFound(name: string)      // AttributeError raised by `decorate`

  datatype Outcome = Pass | Fail(error: Error)

  datatype Result<+T> = Ok(value: T) | Err(error: Error)

  /** The callable bound to an endpoint name: the dispatch closure of one
      endpoint, possibly wrapped by decorators, outermost first. */
  datatype Callable =
    | Base(endpoint: string)
    | Wrap(decorator: DecoratorId, inner: Callable)

  /** The endpoint whose dispatch closure sits at the bottom of `c`. */
  function Core(c: Callable): string {
    match c
    case Base(e) => e
    case Wrap(_, inner) => Core(inner)
  }

  /** The decorators wrapped around the dispatch closure, outermost first. */
  function Layers(c: Callable): seq<DecoratorId> {
    match c
    case Base(_) => []
    case Wrap(d, inner) => [d] + Layers(inner)
  }

  /** Applying the decorators `ds` in reverse order, so that `ds[0]` ends up
      outermost: the fold at django_handlers.py:67-68 and 204-205. */
  function WrapAll(ds: seq<DecoratorId>, c: Callable): (r: Callable)
    ensures Core(r) == Core(c)
    ensures Layers(r) == ds + Layers(c)
  {
    if ds == [] then c else Wrap(ds[0], WrapAll(ds[1..], c))
  }

  /** Decorating with `inner` and then with `outer` is decorating once with
      `outer + inner`: the most recent decoration is the outermost one. */
  lemma {:induction false} WrapAllTwice(outer: seq<DecoratorId>, inner: seq<DecoratorId>, c: Callable)
    ensures WrapAll(outer, WrapAll(inner, c)) == WrapAll(outer + inner, c)
  {
    if outer != [] {
      WrapAllTwice(outer[1..], inner, c);
      assert (outer + inner)[1..] == outer[1..] + inner;
    } else {
      assert outer + inner == inner;
    }
  }

  /** The loop `for d in reversed(ds): c = d(c)`. */
  method ApplyDecorators(ds: seq<DecoratorId>, c: Callable) returns (r: Callable)
    ensures r == WrapAll(ds, c)
  {
    r := c;
    var i := |ds|;
    while i > 0
      invariant 0 <= i <= |ds|
      invariant r == WrapAll(ds[i..], c)
    {
      i := i - 1;
      assert ds[i..][1..] == ds[i + 1..];
      r := Wrap(ds[i], r);
    }
  }

  /** A hook list keyed by endpoint name, `None` standing for every endpoint. */
  type HookTable = map<Option<string>, seq<HookId>>

  /** Reading a `defaultdict(list)`: a missing key reads as the empty list. */
  function HooksOf(table: HookTable, key: Option<string>): (r: seq<HookId>)
    ensures key !in table ==> r == []
    ensures key in table ==> r == table[key]
  {
    if key in table then table[key] else []
  }

  /** `_get_pre_hooks` / `_get_post_hooks`: the global hooks, then the hooks
      registered for `endpoint`, each in insertion order. */
  function ResolveHooks(table: HookTable, endpoint: string): (r: seq<HookId>)
    ensures |r| == |HooksOf(table, None)| + |HooksOf(table, Some(endpoint))|
    ensures r[..|HooksOf(table, None)|] == HooksOf(table, None)
    ensures r[|HooksOf(table, None)|..] == HooksOf(table, Some(endpoint))
  {
    HooksOf(table, None) + HooksOf(table, Some(endpoint))
  }

  /** Appending `hook` to the list under `key`. */
  function AppendHook(table: HookTable, key: Option<string>, hook: HookId): (r: HookTable)
    ensures HooksOf(r, key) == HooksOf(table, key) + [hook]
    ensures forall k :: k != key ==> HooksOf(r, k) == HooksOf(table, k)
  {
    table[key := HooksOf(table, key) + [hook]]
  }

  /** The method table of one endpoint in the view registry (`defaultdict(dict)`). */
  function MethodsOf(views: map<string, map<string, ViewId>>, endpoint: string): (r: map<string, ViewId>)
    ensures endpoint !in views ==> r == map[]
    ensures endpoint in views ==> r == views[endpoint]
  {
    if endpoint in views then views[endpoint] else map[]
  }
}
