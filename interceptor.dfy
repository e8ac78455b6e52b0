/** The verdict types every interceptor returns (dharahil/interceptor.py), and the
    generic interception interface's base behaviour. */
module Interceptor {
  import opened Wrappers
  import opened Errors
  import opened Json
  import opened Context

  /** `InterceptorAction(str, Enum)`: three members, each valued by its own name. */
  datatype InterceptorAction = ALLOW | DENY | REQUIRE_APPROVAL

  /** The member's name, as listed in `InterceptorAction.__members__`. */
  function Name(a: InterceptorAction): string {
    match a
    case ALLOW => "ALLOW"
    case DENY => "DENY"
    case REQUIRE_APPROVAL => "REQUIRE_APPROVAL"
  }

  /** The member's string value (`InterceptorAction.X.value`). */
  function Value(a: InterceptorAction): string {
    match a
    case ALLOW => "ALLOW"
    case DENY => "DENY"
    case REQUIRE_APPROVAL => "REQUIRE_APPROVAL"
  }

  /** `name in InterceptorAction.__members__` followed by the lookup. */
  function FromName(name: string): (r: Option<InterceptorAction>)
    ensures r.Some? ==> Name(r.value) == name
    ensures r.None? ==> forall a: InterceptorAction :: Name(a) != name
  {
    if name == "ALLOW" then Some(ALLOW)
    else if name == "DENY" then Some(DENY)
    else if name == "REQUIRE_APPROVAL" then Some(REQUIRE_APPROVAL)
    else None
  }

  /** Each member's value is its name, and names tell members apart, so looking a
      member up by name or constructing it from its value give the same member. */
  lemma ValuesAreNames(a: InterceptorAction, b: InterceptorAction)
    ensures Value(a) == Name(a)
    ensures FromName(Value(a)) == Some(a)
    ensures Name(a) == Name(b) ==> a == b
  {
  }

  /** `InterceptorResult`: the verdict of one `before_execute`. */
  datatype InterceptorResult = InterceptorResult(
    action: InterceptorAction,
    requestId: Option<string>,
    reason: Option<string>,
    expiresAt: Option<string>)   // ISO-8601 expiry from the gateway, kept as given

  /** The dataclass constructor: `request_id`, `reason` and `expires_at` default to None,
      and what is given is stored unchanged. */
  function MakeResult(action: InterceptorAction, requestId: Option<string> := None,
                      reason: Option<string> := None, expiresAt: Option<string> := None)
    : (r: InterceptorResult)
    ensures r.action == action && r.requestId == requestId
    ensures r.reason == reason && r.expiresAt == expiresAt
  {
    InterceptorResult(action, requestId, reason, expiresAt)
  }

  /** The two shapes a caller may pass as the context: a loose mapping or a `ToolContext`. */
  datatype ContextArg = MapContext(fields: Dict) | TypedContext(ctx: ToolContext)

  /** `ToolExecutionInterceptor.before_execute`: the base interface raises for every call. */
  function BaseBeforeExecute(toolName: string, toolArgs: Dict, context: ContextArg)
    : (r: Result<InterceptorResult, Error>)
    ensures r == Failure(NotImplemented)
  {
    Failure(NotImplemented)
  }

  lemma DefaultResultFields(a: InterceptorAction)
    ensures MakeResult(a).requestId == None && MakeResult(a).reason == None
    ensures MakeResult(a).expiresAt == None
  {
  }
}
