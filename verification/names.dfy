/** The names an endpoint may not take: the registry's own attribute surface
    (django_handlers.py:21-26, 45-47). */
module Names {
  import opened Routing

  /** The methods the `Handler` class defines. */
  const HandlerMethods: set<string> := {
    "__init__", "add_view", "_ensure_endpoint_exists", "_validate_endpoint_name",
    "_add_endpoint", "_get_pre_hooks", "_get_post_hooks", "_register",
    "get", "head", "options", "post", "put", "patch", "delete",
    "before", "add_pre_hook", "after", "add_post_hook", "decorate"
  }

  /** The instance attributes assigned before the reserved list is taken. */
  const FieldsBeforeListing: set<string> := {"_decorators", "_views", "_pre_hooks", "_post_hooks"}

  /** The attribute holding the reserved list itself, assigned by the very
      statement that takes the list. */
  const ReservedListName: string := "_invalid_endpoint_names"

  /** Every attribute a constructed registry has before any endpoint exists. */
  const RegistrySurface: set<string> := HandlerMethods + FieldsBeforeListing + {ReservedListName}

  /** An interpreter-supplied attribute such as `__class__` or `__dict__`. */
  predicate IsDunder(n: string) {
    |n| >= 4 && n[..2] == "__" && n[|n| - 2..] == "__"
  }

  /** What the interpreter adds to `dir(self)`: dunder names only. */
  predicate InterpreterNames(builtins: set<string>) {
    forall n :: n in builtins ==> IsDunder(n)
  }

  /** `dir(self)` as the constructor takes it: the class's methods, the four
      attributes already assigned, and what the interpreter supplies. */
  function ListedAtConstruction(builtins: set<string>): set<string> {
    HandlerMethods + FieldsBeforeListing + builtins
  }

  /** The reserved names a registry is given: its whole surface, including the
      attribute that holds this very set, and what the interpreter supplies. */
  function Reserved(builtins: set<string>): (r: set<string>)
    ensures RegistrySurface <= r
    ensures builtins <= r
    ensures ListedAtConstruction(builtins) <= r
    ensures r == ListedAtConstruction(builtins) + {ReservedListName}
  {
    RegistrySurface + builtins
  }

  /** `_validate_endpoint_name`: a reserved name raises `ValueError`. */
  function ValidateEndpointName(reserved: set<string>, name: string): (r: Outcome)
    ensures r.Pass? <==> name !in reserved
    ensures r.Fail? ==> r.error == InvalidEndpointName(name)
  {
    if name in reserved then Fail(InvalidEndpointName(name)) else Pass
  }

  /** The list taken by `dir(self)` misses the attribute it is stored in, so
      validation lets an endpoint take the name `_invalid_endpoint_names`;
      creating it replaces the list with the endpoint callable. */
  lemma ListedNamesAdmitReservedListName(builtins: set<string>)
    requires InterpreterNames(builtins)
    ensures ReservedListName in RegistrySurface
    ensures ValidateEndpointName(ListedAtConstruction(builtins), ReservedListName).Pass?
    ensures ValidateEndpointName(Reserved(builtins), ReservedListName).Fail?
  {
    ReservedListNameUnlisted();
    assert !IsDunder(ReservedListName) by {
      assert ReservedListName[..2] == "_i";
    }
  }

  /** The reserved list's own attribute is neither a method nor one of the
      attributes assigned before the list is taken. */
  lemma ReservedListNameUnlisted()
    ensures ReservedListName !in HandlerMethods + FieldsBeforeListing
  {
  }
}
