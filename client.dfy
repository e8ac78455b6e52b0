/** The gateway client's request/response logic (dharahil/client.py): the client's
    configuration, the registration payload `before_execute` sends, how it reads the
    gateway's answer into a verdict, the status snapshot `get_request` returns, and the
    payload `submit_proposal_update` sends. The HTTP exchange itself is abstract: each
    remote call is given the gateway's answer as a value. */
module Client {
  import opened Wrappers
  import opened Errors
  import opened Json
  import opened Context
  import opened Interceptor
  import opened Redaction

  datatype ClientConfig = ClientConfig(
    baseUrl: string, apiKey: string, tenantId: string, appId: string, environment: string)

  /** `s.rstrip("/")`. */
  function StripTrailingSlashes(s: string): (r: string)
    ensures |r| <= |s| && r == s[..|r|]
    ensures forall i :: |r| <= i < |s| ==> s[i] == '/'
    ensures r == [] || r[|r| - 1] != '/'
  {
    if s != [] && s[|s| - 1] == '/' then StripTrailingSlashes(s[..|s| - 1]) else s
  }

  /** `DharaHILClient.__init__`: the base URL loses its trailing slashes, the rest is kept. */
  function NewClient(baseUrl: string, apiKey: string, tenantId: string, appId: string,
                     environment: string): (c: ClientConfig)
    ensures c.baseUrl == StripTrailingSlashes(baseUrl)
    ensures c.apiKey == apiKey && c.tenantId == tenantId && c.appId == appId
    ensures c.environment == environment
  {
    ClientConfig(StripTrailingSlashes(baseUrl), apiKey, tenantId, appId, environment)
  }

  /** Accept both shapes of context: a `ToolContext` becomes its `to_dict`. */
  function NormalizeContext(context: ContextArg): Dict {
    match context
    case MapContext(fields) => fields
    case TypedContext(c) => c.ToDict()
  }

  /** The keys of the registration body, in the order it lists them. */
  const RegistrationKeys: seq<string> := ["tenant_id", "app_id", "agent_id", "run_id",
    "step_id", "tool_name", "tool_args", "tool_args_redacted", "context_summary", "risk_level",
    "environment", "tags", "idempotency_key", "webhook", "metadata", "display_hints"]

  lemma RegistrationKeysDistinct()
    ensures forall i, j :: 0 <= i < j < |RegistrationKeys| ==> RegistrationKeys[i] != RegistrationKeys[j]
  {
  }

  /** The values of the registration body, with the context's defaults filled in. */
  function RegistrationValues(cfg: ClientConfig, toolName: string, toolArgs: Dict, ctx: Dict)
    : (vs: seq<Json>)
    ensures |vs| == |RegistrationKeys|
  {
    [ JStr(cfg.tenantId),
      JStr(cfg.appId),
      GetOr(ctx, "agent_id", JStr("unknown")),
      GetOr(ctx, "run_id", JStr("run")),
      GetOr(ctx, "step_id", JStr("step")),
      JStr(toolName),
      JObj(toolArgs),
      JObj(Redacted(toolArgs)),
      GetOr(ctx, "context_summary", JStr("")),
      GetOr(ctx, "risk_level", JStr("MEDIUM")),
      JStr(cfg.environment),
      GetOr(ctx, "tags", JArr([])),
      GetOr(ctx, "idempotency_key", GetOr(ctx, "run_id", JStr("run"))),
      JObj([("decision_url", GetOr(ctx, "decision_url", JStr("")))]),
      GetOr(ctx, "metadata", JObj([])),
      GetOr(ctx, "display", JNull) ]
  }

  /** The body of `POST /v1/requests`. */
  function RegistrationPayload(cfg: ClientConfig, toolName: string, toolArgs: Dict, ctx: Dict)
    : (p: Dict)
    ensures Keys(p) == RegistrationKeys
  {
    Zip(RegistrationKeys, RegistrationValues(cfg, toolName, toolArgs, ctx))
  }

  /** `d.get` of the i-th registration key. */
  lemma RegistrationGet(cfg: ClientConfig, toolName: string, toolArgs: Dict, ctx: Dict, i: nat)
    requires i < |RegistrationKeys|
    ensures Get(RegistrationPayload(cfg, toolName, toolArgs, ctx), RegistrationKeys[i])
            == Some(RegistrationValues(cfg, toolName, toolArgs, ctx)[i])
  {
    RegistrationKeysDistinct();
    GetZip(RegistrationKeys, RegistrationValues(cfg, toolName, toolArgs, ctx), i);
  }

  /** The registration sends the configured tenant, app and environment and the given
      tool name; it always carries a `display_hints` key (null when the context has no
      "display"), the arguments both as given and redacted, the context's summary and
      decision URL (both "" when absent), and an idempotency key that falls back to the run
      id, then to "run", only when the context has none. */
  lemma RegistrationPayloadFields(cfg: ClientConfig, toolName: string, toolArgs: Dict, ctx: Dict)
    ensures var p := RegistrationPayload(cfg, toolName, toolArgs, ctx);
      && Get(p, "tenant_id") == Some(JStr(cfg.tenantId))
      && Get(p, "app_id") == Some(JStr(cfg.appId))
      && Get(p, "tool_name") == Some(JStr(toolName))
      && Get(p, "environment") == Some(JStr(cfg.environment))
      && Get(p, "display_hints") == Some(GetOr(ctx, "display", JNull))
      && (Get(ctx, "display").None? ==> Get(p, "display_hints") == Some(JNull))
      && Get(p, "tool_args") == Some(JObj(toolArgs))
      && Get(p, "tool_args_redacted") == Some(JObj(Redacted(toolArgs)))
      && (Get(ctx, "context_summary").Some? ==>
            Get(p, "context_summary") == Get(ctx, "context_summary"))
      && (Get(ctx, "context_summary").None? ==> Get(p, "context_summary") == Some(JStr("")))
      && (Get(ctx, "decision_url").Some? ==>
            Get(p, "webhook") == Some(JObj([("decision_url", Get(ctx, "decision_url").value)])))
      && (Get(ctx, "decision_url").None? ==>
            Get(p, "webhook") == Some(JObj([("decision_url", JStr(""))])))
      && (Get(ctx, "idempotency_key").Some? ==>
            Get(p, "idempotency_key") == Get(ctx, "idempotency_key"))
      && (Get(ctx, "idempotency_key").None? ==>
            Get(p, "idempotency_key") == Some(GetOr(ctx, "run_id", JStr("run"))))
  {
    RegistrationGet(cfg, toolName, toolArgs, ctx, 0);
    RegistrationGet(cfg, toolName, toolArgs, ctx, 1);
    RegistrationGet(cfg, toolName, toolArgs, ctx, 5);
    RegistrationGet(cfg, toolName, toolArgs, ctx, 6);
    RegistrationGet(cfg, toolName, toolArgs, ctx, 7);
    RegistrationGet(cfg, toolName, toolArgs, ctx, 8);
    RegistrationGet(cfg, toolName, toolArgs, ctx, 10);
    RegistrationGet(cfg, toolName, toolArgs, ctx, 12);
    RegistrationGet(cfg, toolName, toolArgs, ctx, 13);
    RegistrationGet(cfg, toolName, toolArgs, ctx, 15);
  }

  /** An identity key the context supplies is sent as the context's value; a missing one
      is sent as "unknown", "run" or "step". */
  lemma ContextIdsOrDefaults(cfg: ClientConfig, toolName: string, toolArgs: Dict, ctx: Dict)
    ensures var p := RegistrationPayload(cfg, toolName, toolArgs, ctx);
      && (Get(ctx, "agent_id").Some? ==> Get(p, "agent_id") == Get(ctx, "agent_id"))
      && (Get(ctx, "agent_id").None? ==> Get(p, "agent_id") == Some(JStr("unknown")))
      && (Get(ctx, "run_id").Some? ==> Get(p, "run_id") == Get(ctx, "run_id"))
      && (Get(ctx, "run_id").None? ==> Get(p, "run_id") == Some(JStr("run")))
      && (Get(ctx, "step_id").Some? ==> Get(p, "step_id") == Get(ctx, "step_id"))
      && (Get(ctx, "step_id").None? ==> Get(p, "step_id") == Some(JStr("step")))
  {
    RegistrationGet(cfg, toolName, toolArgs, ctx, 2);
    RegistrationGet(cfg, toolName, toolArgs, ctx, 3);
    RegistrationGet(cfg, toolName, toolArgs, ctx, 4);
  }

  /** A risk level, tag list or metadata the context supplies is sent as given; missing
      ones are sent as "MEDIUM", an empty list and an empty dict. */
  lemma ContextLabelsOrDefaults(cfg: ClientConfig, toolName: string, toolArgs: Dict, ctx: Dict)
    ensures var p := RegistrationPayload(cfg, toolName, toolArgs, ctx);
      && (Get(ctx, "risk_level").Some? ==> Get(p, "risk_level") == Get(ctx, "risk_level"))
      && (Get(ctx, "risk_level").None? ==> Get(p, "risk_level") == Some(JStr("MEDIUM")))
      && (Get(ctx, "tags").Some? ==> Get(p, "tags") == Get(ctx, "tags"))
      && (Get(ctx, "tags").None? ==> Get(p, "tags") == Some(JArr([])))
      && (Get(ctx, "metadata").Some? ==> Get(p, "metadata") == Get(ctx, "metadata"))
      && (Get(ctx, "metadata").None? ==> Get(p, "metadata") == Some(JObj([])))
  {
    RegistrationGet(cfg, toolName, toolArgs, ctx, 9);
    RegistrationGet(cfg, toolName, toolArgs, ctx, 11);
    RegistrationGet(cfg, toolName, toolArgs, ctx, 14);
  }

  /** A registration built from a `ToolContext` sends the context's own fields: its
      `to_dict` emits every key, so no default of the engine applies — in particular the
      idempotency key is the context's (by default "") and never the run id, and
      `display_hints` is null exactly when the context has no display hints. */
  lemma TypedContextRegistration(cfg: ClientConfig, toolName: string, toolArgs: Dict, c: ToolContext)
    ensures var p := RegistrationPayload(cfg, toolName, toolArgs, NormalizeContext(TypedContext(c)));
      && Get(p, "agent_id") == Some(JStr(c.agentId))
      && Get(p, "run_id") == Some(JStr(c.runId))
      && Get(p, "step_id") == Some(JStr(c.stepId))
      && Get(p, "risk_level") == Some(JStr(c.riskLevel))
      && Get(p, "tags") == Some(StrList(c.tags))
      && Get(p, "idempotency_key") == Some(JStr(c.idempotencyKey))
      && Get(p, "metadata") == Some(JObj(c.metadata))
      && Get(p, "display_hints") == Some(DisplayJson(c.display))
  {
    var ctx := c.ToDict();
    ToDictReadsBack(c);
    ContextIdsOrDefaults(cfg, toolName, toolArgs, ctx);
    ContextLabelsOrDefaults(cfg, toolName, toolArgs, ctx);
    RegistrationPayloadFields(cfg, toolName, toolArgs, ctx);
  }

  /** A key of a JSON body: absent, present with null, or present with a value. */
  datatype Field<T> = Missing | Null | Present(value: T)

  /** The gateway's answer to a registration: the HTTP status, the error detail a 400
      carries, and the body fields a 2xx carries. */
  datatype RegisterReply = RegisterReply(
    statusCode: int,
    detail: string,
    action: Option<string>,
    requestId: Field<string>,
    expiresAt: Option<string>)

  predicate SliceIs(s: string, i: int, sub: string)
    requires 0 <= i <= |s| - |sub|
  {
    s[i..i + |sub|] == sub
  }

  /** `sub in s` for strings. */
  predicate Contains(s: string, sub: string) {
    exists i :: 0 <= i <= |s| - |sub| && SliceIs(s, i, sub)
  }

  predicate IsSuccessStatus(code: int) {
    200 <= code < 300
  }

  /** Python truthiness of `data.get("action")`. */
  predicate ActionTruthy(action: Option<string>) {
    action.Some? && action.value != ""
  }

  /** Python truthiness of `data.get("request_id")`. */
  predicate RequestIdTruthy(id: Field<string>) {
    id.Present? && id.value != ""
  }

  /** An action name mapped onto the enum, unknown names to ALLOW. */
  function MapAction(name: string): (a: InterceptorAction)
    ensures FromName(name).Some? ==> Name(a) == name
    ensures FromName(name).None? ==> a == ALLOW
  {
    match FromName(name)
    case Some(x) => x
    case None => ALLOW
  }

  /** How `before_execute` reads the gateway's answer. */
  function InterpretReply(reply: RegisterReply): Result<InterceptorResult, Error> {
    if reply.statusCode == 400 then
      // legacy gateway: the detail text decides
      var action := if Contains(reply.detail, "DENY") then DENY else ALLOW;
      Success(MakeResult(action, reason := Some(reply.detail)))
    else if !IsSuccessStatus(reply.statusCode) then
      Failure(HttpStatusError(reply.statusCode))
    else if ActionTruthy(reply.action) && !RequestIdTruthy(reply.requestId) then
      // current gateway: an immediate policy decision
      Success(MakeResult(MapAction(reply.action.value),
                         reason := Some("Policy decision: " + reply.action.value)))
    else
      match reply.requestId
      case Missing => Failure(MissingRequestId)
      case Null => Success(MakeResult(REQUIRE_APPROVAL, None, Some("Awaiting human approval"), reply.expiresAt))
      case Present(id) => Success(MakeResult(REQUIRE_APPROVAL, Some(id), Some("Awaiting human approval"), reply.expiresAt))
  }

  /** The three ways a registration resolves. A 400 is DENY exactly when its detail
      mentions "DENY" and ALLOW otherwise, with the detail as the reason; any other
      non-2xx raises. A 2xx body with a truthy action and a falsy request id is that
      action's member (ALLOW for an unknown name), with reason "Policy decision: <action>".
      Any other 2xx body needs approval, with reason "Awaiting human approval", and
      carries the request id and `expires_at` as given, or raises when it has no request id. */
  lemma InterpretReplyCases(reply: RegisterReply)
    ensures reply.statusCode == 400 ==>
      && InterpretReply(reply).Success?
      && (InterpretReply(reply).value.action == DENY <==> Contains(reply.detail, "DENY"))
      && (InterpretReply(reply).value.action == ALLOW <==> !Contains(reply.detail, "DENY"))
      && InterpretReply(reply).value.reason == Some(reply.detail)
    ensures reply.statusCode != 400 && !IsSuccessStatus(reply.statusCode) ==>
      InterpretReply(reply) == Failure(HttpStatusError(reply.statusCode))
    ensures IsSuccessStatus(reply.statusCode) && ActionTruthy(reply.action) &&
            !RequestIdTruthy(reply.requestId) ==>
      && InterpretReply(reply).Success?
      && InterpretReply(reply).value.requestId == None
      && InterpretReply(reply).value.reason == Some("Policy decision: " + reply.action.value)
      && (FromName(reply.action.value).Some? ==>
            Name(InterpretReply(reply).value.action) == reply.action.value)
      && (FromName(reply.action.value).None? ==> InterpretReply(reply).value.action == ALLOW)
    ensures IsSuccessStatus(reply.statusCode) &&
            !(ActionTruthy(reply.action) && !RequestIdTruthy(reply.requestId)) ==>
      if reply.requestId.Missing? then InterpretReply(reply) == Failure(MissingRequestId)
      else
        && InterpretReply(reply).Success?
        && InterpretReply(reply).value.action == REQUIRE_APPROVAL
        && InterpretReply(reply).value.reason == Some("Awaiting human approval")
        && InterpretReply(reply).value.expiresAt == reply.expiresAt
        && InterpretReply(reply).value.requestId ==
             (if reply.requestId.Present? then Some(reply.requestId.value) else None)
  {
  }

  /** An immediate verdict never needs approval unless the gateway names that action,
      and a verdict that needs approval with a request id always comes from a 2xx body
      that asked for one. */
  lemma ApprovalOnlyFromBody(reply: RegisterReply)
    requires InterpretReply(reply).Success?
    requires InterpretReply(reply).value.action == REQUIRE_APPROVAL
    ensures IsSuccessStatus(reply.statusCode)
    ensures InterpretReply(reply).value.requestId.Some? ==>
              reply.requestId.Present? && (RequestIdTruthy(reply.requestId) || !ActionTruthy(reply.action))
  {
  }

  /** The result of `before_execute`: what was sent, and the verdict or the raised error. */
  datatype Registration = Registration(payload: Dict, verdict: Result<InterceptorResult, Error>)

  /** `DharaHILClient.before_execute`: build the payload from the normalized context,
      then read the gateway's `reply` to it (a transport failure propagates). */
  function BeforeExecute(cfg: ClientConfig, toolName: string, toolArgs: Dict,
                         context: ContextArg, reply: Result<RegisterReply, Error>): (r: Registration)
    ensures r.payload == RegistrationPayload(cfg, toolName, toolArgs, NormalizeContext(context))
    ensures reply.Failure? ==> r.verdict == Failure(reply.error)
    ensures reply.Success? ==> r.verdict == InterpretReply(reply.value)
  {
    var payload := RegistrationPayload(cfg, toolName, toolArgs, NormalizeContext(context));
    match reply
    case Failure(e) => Registration(payload, Failure(e))
    case Success(answer) => Registration(payload, InterpretReply(answer))
  }

  /** A status snapshot of a pending action, as `GET /v1/requests/{id}` (or a proposal
      submission) returns it. `None` stands for a key that is absent or null. */
  datatype Snapshot = Snapshot(
    status: Option<string>,
    version: Option<int>,
    lastDecision: Option<string>,
    note: Option<string>,
    reviseInput: Option<string>)

  /** One remote call for a snapshot: the snapshot, or the error it raised. */
  type Fetch = Result<Snapshot, Error>

  /** The full replacement proposal sent with a revision. `displayHints` is JSON null when
      the caller supplies none. */
  datatype ProposalUpdate = ProposalUpdate(
    versionFrom: int,
    toolName: string,
    toolArgs: Dict,
    toolArgsRedacted: Dict,
    contextSummary: Json,
    riskLevel: Json,
    tags: Json,
    displayHints: Json)

  /** The seven keys every proposal payload has. */
  const ProposalKeys: seq<string> := ["version_from", "updated_tool_name", "updated_tool_args",
    "updated_tool_args_redacted", "updated_context_summary", "updated_risk_level", "tags"]

  lemma ProposalKeysDistinct()
    ensures forall i, j :: 0 <= i < j < |ProposalKeys + ["display_hints"]| ==>
              (ProposalKeys + ["display_hints"])[i] != (ProposalKeys + ["display_hints"])[j]
  {
  }

  /** The values of the seven fixed keys. */
  function ProposalValues(u: ProposalUpdate): (vs: seq<Json>)
    ensures |vs| == |ProposalKeys|
  {
    [ JNum(u.versionFrom), JStr(u.toolName), JObj(u.toolArgs), JObj(u.toolArgsRedacted),
      u.contextSummary, u.riskLevel, u.tags ]
  }

  /** The body of `POST /v1/requests/{id}/proposal`. */
  function ProposalPayload(u: ProposalUpdate): (p: Dict)
    ensures u.displayHints == JNull ==> Keys(p) == ProposalKeys
    ensures u.displayHints != JNull ==> Keys(p) == ProposalKeys + ["display_hints"]
  {
    var fixed := Zip(ProposalKeys, ProposalValues(u));
    if u.displayHints != JNull then fixed + [("display_hints", u.displayHints)] else fixed
  }

  /** `d.get` of the i-th fixed proposal key: its value, whether or not display hints
      follow. */
  lemma ProposalGet(u: ProposalUpdate, i: nat)
    requires i < |ProposalKeys|
    ensures Get(ProposalPayload(u), ProposalKeys[i]) == Some(ProposalValues(u)[i])
  {
    var p := ProposalPayload(u);
    ProposalKeysDistinct();
    assert forall j :: 0 <= j < |ProposalKeys| ==> p[j] == (ProposalKeys[j], ProposalValues(u)[j]);
    GetFirst(p, i);
  }

  /** Each of the seven fixed keys carries its field of the proposal, as given. */
  lemma ProposalPayloadFields(u: ProposalUpdate)
    ensures Get(ProposalPayload(u), "version_from") == Some(JNum(u.versionFrom))
    ensures Get(ProposalPayload(u), "updated_tool_name") == Some(JStr(u.toolName))
    ensures Get(ProposalPayload(u), "updated_tool_args") == Some(JObj(u.toolArgs))
    ensures Get(ProposalPayload(u), "updated_tool_args_redacted") == Some(JObj(u.toolArgsRedacted))
    ensures Get(ProposalPayload(u), "updated_context_summary") == Some(u.contextSummary)
    ensures Get(ProposalPayload(u), "updated_risk_level") == Some(u.riskLevel)
    ensures Get(ProposalPayload(u), "tags") == Some(u.tags)
  {
    ProposalGet(u, 0);
    ProposalGet(u, 1);
    ProposalGet(u, 2);
    ProposalGet(u, 3);
    ProposalGet(u, 4);
    ProposalGet(u, 5);
    ProposalGet(u, 6);
  }

  /** The proposal payload has no `display_hints` key at all when none is supplied, and
      the supplied value itself, unchanged, when there is one. */
  lemma ProposalDisplayHints(u: ProposalUpdate)
    ensures u.displayHints == JNull ==> Get(ProposalPayload(u), "display_hints") == None
    ensures u.displayHints != JNull ==> Get(ProposalPayload(u), "display_hints") == Some(u.displayHints)
  {
    var p := ProposalPayload(u);
    ProposalKeysDistinct();
    if u.displayHints != JNull {
      GetFirst(p, |ProposalKeys|);
    } else {
      GetMeaning(p, "display_hints");
      assert "display_hints" == (ProposalKeys + ["display_hints"])[|ProposalKeys|];
    }
  }

  /** `submit_proposal_update`: builds the payload, adding `display_hints` in place only
      when it is supplied, and returns the gateway's `reply` to it. */
  method SubmitProposalUpdate(u: ProposalUpdate, reply: Fetch) returns (payload: Dict, response: Fetch)
    ensures payload == ProposalPayload(u)
    ensures response == reply
  {
    payload := [ ("version_from", JNum(u.versionFrom)),
                 ("updated_tool_name", JStr(u.toolName)),
                 ("updated_tool_args", JObj(u.toolArgs)),
                 ("updated_tool_args_redacted", JObj(u.toolArgsRedacted)),
                 ("updated_context_summary", u.contextSummary),
                 ("updated_risk_level", u.riskLevel),
                 ("tags", u.tags) ];
    if u.displayHints != JNull {
      payload := payload + [("display_hints", u.displayHints)];
    }
    response := reply;
  }
}
