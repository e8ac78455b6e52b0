/** The LangGraph tool wrapper (dharahil/langgraph_adapter.py): the decision tree inside
    `wrapped_tool`, which registers every call with the gateway and then runs the tool,
    refuses it, or pauses the graph for a human and acts on the decision it resumes with.

    The graph's `interrupt` and the wrapped tool are injected functions; a failure of
    either propagates. The record `AdapterRun` keeps what the wrapper handed to each of
    them, so that the properties of the tree can be stated about it. */
module LangGraphAdapter {
  import opened Wrappers
  import opened Errors
  import opened Json
  import opened Interceptor
  import opened Client

  /** `interrupt(payload)`: the decision payload the graph is resumed with. */
  type Interrupt = Dict -> Result<Dict, Error>

  /** `await tool(*args, **kwargs)`. */
  type Tool = (seq<Json>, Dict) -> Result<Json, Error>

  /** Why a wrapped call raised. */
  datatype AdapterError =
    | Raised(error: Error)                              // registration, interrupt or tool raised
    | DeniedByPolicy(toolName: string, reason: Option<string>)
    | RejectedByHuman(toolName: string, note: Json)     // `note` is null when absent
    | CancelledAfterRevise
    | InvalidDecisionPayload

  datatype ToolCall = ToolCall(args: seq<Json>, kwargs: Dict)

  /** One call of the wrapper: its result, the keyword arguments it registered, the pause
      payloads it passed to `interrupt` and the calls it made to the tool. */
  datatype AdapterRun = AdapterRun(result: Result<Json, AdapterError>, registeredArgs: Dict,
                                   pauses: seq<Dict>, calls: seq<ToolCall>)

  const ContextKey: string := "_dhara_context"

  /** `before_execute(tool_name, kwargs, context)` on a context taken from the keyword
      arguments: a JSON object is a plain dict context; any other value has no `.get`, so
      reading it raises before anything is sent. */
  function Register(cfg: ClientConfig, toolName: string, toolArgs: Dict, context: Json,
                    reply: Result<RegisterReply, Error>): (v: Result<InterceptorResult, Error>)
    ensures context.JObj? ==>
              v == BeforeExecute(cfg, toolName, toolArgs, MapContext(context.fields), reply).verdict
    ensures !context.JObj? ==> v.Failure?
  {
    match context
    case JObj(fields) => BeforeExecute(cfg, toolName, toolArgs, MapContext(fields), reply).verdict
    case _ => Failure(ForeignError("AttributeError: object has no attribute 'get'"))
  }

  /** The payload the graph is paused with. */
  function PausePayload(requestId: Option<string>, toolName: string, context: Json,
                        expiresAt: Option<string>): (p: Dict)
    ensures Keys(p) == ["request_id", "tool_name", "context", "expires_at"]
  {
    [("request_id", OptStr(requestId)), ("tool_name", JStr(toolName)), ("context", context),
     ("expires_at", OptStr(expiresAt))]
  }

  /** Run the tool once with `args` and `kwargs`, after `pauses`. */
  function RunTool(tool: Tool, args: seq<Json>, kwargs: Dict, pauses: seq<Dict>): (run: AdapterRun)
    ensures run.calls == [ToolCall(args, kwargs)] && run.pauses == pauses
  {
    var out := tool(args, kwargs);
    AdapterRun(if out.Success? then Success(out.value) else Failure(Raised(out.error)),
               kwargs, pauses, [ToolCall(args, kwargs)])
  }

  /** `wrapped_tool(*args, **kwargs)`: split the context off the keyword arguments,
      register the call, and act on the verdict. */
  function WrappedTool(cfg: ClientConfig, toolName: string, args: seq<Json>, kwargs: Dict,
                       reply: Result<RegisterReply, Error>, interrupt: Interrupt, tool: Tool)
    : (run: AdapterRun)
  {
    var (context, toolKwargs) := Pop(kwargs, ContextKey, JObj([]));
    Dispatch(toolName, args, toolKwargs, context, Register(cfg, toolName, toolKwargs, context, reply),
             interrupt, tool)
  }

  /** The decision tree of `wrapped_tool` once the verdict is known, `toolKwargs` being the
      keyword arguments without the context. */
  function Dispatch(toolName: string, args: seq<Json>, toolKwargs: Dict, context: Json,
                    verdict: Result<InterceptorResult, Error>, interrupt: Interrupt, tool: Tool)
    : (run: AdapterRun)
  {
    match verdict
    case Failure(e) => AdapterRun(Failure(Raised(e)), toolKwargs, [], [])
    case Success(verdict) =>
      if verdict.action == ALLOW then RunTool(tool, args, toolKwargs, [])
      else if verdict.action == DENY then
        AdapterRun(Failure(DeniedByPolicy(toolName, verdict.reason)), toolKwargs, [], [])
      else
        var pause := PausePayload(verdict.requestId, toolName, context, verdict.expiresAt);
        match interrupt(pause)
        case Failure(e) => AdapterRun(Failure(Raised(e)), toolKwargs, [pause], [])
        case Success(payload) =>
          var decision := Get(payload, "decision");
          if decision == Some(JStr("approve")) then RunTool(tool, args, toolKwargs, [pause])
          else if decision == Some(JStr("reject")) then
            AdapterRun(Failure(RejectedByHuman(toolName, GetOr(payload, "note", JNull))),
                       toolKwargs, [pause], [])
          else if decision == Some(JStr("revise")) then
            if Truthy(GetOr(payload, "execute", JBool(false))) then RunTool(tool, args, toolKwargs, [pause])
            else AdapterRun(Failure(CancelledAfterRevise), toolKwargs, [pause], [])
          else AdapterRun(Failure(InvalidDecisionPayload), toolKwargs, [pause], [])
  }

  /** The wrapper registers the keyword arguments without the context entry, with the
      context it held (an empty dict when none), and dispatches on that verdict. */
  lemma WrappedToolDispatches(cfg: ClientConfig, toolName: string, args: seq<Json>, kwargs: Dict,
                              reply: Result<RegisterReply, Error>, interrupt: Interrupt, tool: Tool)
    ensures WrappedTool(cfg, toolName, args, kwargs, reply, interrupt, tool)
            == Dispatch(toolName, args, Without(kwargs, ContextKey), GetOr(kwargs, ContextKey, JObj([])),
                        VerdictFor(cfg, toolName, kwargs, reply), interrupt, tool)
    ensures ContextKey !in Keys(Without(kwargs, ContextKey))
  {
  }

  /** The verdict the wrapper acts on. */
  function VerdictFor(cfg: ClientConfig, toolName: string, kwargs: Dict,
                      reply: Result<RegisterReply, Error>): Result<InterceptorResult, Error> {
    Register(cfg, toolName, Without(kwargs, ContextKey), GetOr(kwargs, ContextKey, JObj([])), reply)
  }

  /** A decision payload that lets the tool run: an approval, or a revision whose
      `execute` flag is truthy. */
  predicate Approves(payload: Dict) {
    || Get(payload, "decision") == Some(JStr("approve"))
    || (Get(payload, "decision") == Some(JStr("revise")) &&
        Truthy(GetOr(payload, "execute", JBool(false))))
  }

  /** The tool only ever sees the keyword arguments the wrapper registered, and the
      record keeps those arguments as given. */
  lemma ToolSeesRegisteredArgs(toolName: string, args: seq<Json>, toolKwargs: Dict, context: Json,
                               verdict: Result<InterceptorResult, Error>, interrupt: Interrupt, tool: Tool)
    ensures var run := Dispatch(toolName, args, toolKwargs, context, verdict, interrupt, tool);
            && run.registeredArgs == toolKwargs
            && forall c :: c in run.calls ==> c == ToolCall(args, toolKwargs)
  {
  }

  /** The tool runs at most once, and runs exactly when policy allows the call or, when
      it asks for approval, the graph resumes with a payload that lets it run. Its result
      is then the wrapper's result, and its failure the wrapper's failure. */
  lemma ToolRunsWhenAuthorized(toolName: string, args: seq<Json>, toolKwargs: Dict, context: Json,
                               verdict: Result<InterceptorResult, Error>, interrupt: Interrupt, tool: Tool)
    ensures var run := Dispatch(toolName, args, toolKwargs, context, verdict, interrupt, tool);
            && |run.calls| <= 1
            && (verdict.Failure? ==> run.calls == [])
            && (verdict.Success? ==>
                  var pause := PausePayload(verdict.value.requestId, toolName, context, verdict.value.expiresAt);
                  (|run.calls| == 1 <==>
                     || verdict.value.action == ALLOW
                     || (verdict.value.action == REQUIRE_APPROVAL &&
                         interrupt(pause).Success? && Approves(interrupt(pause).value))))
            && (|run.calls| == 1 ==>
                  var out := tool(args, toolKwargs);
                  run.result == if out.Success? then Success(out.value) else Failure(Raised(out.error)))
  {
  }

  /** The graph pauses at most once, exactly when policy asks for approval, with the
      request id, the tool name, the context and the expiry. */
  lemma PausesOnlyForApproval(toolName: string, args: seq<Json>, toolKwargs: Dict, context: Json,
                              verdict: Result<InterceptorResult, Error>, interrupt: Interrupt, tool: Tool)
    ensures var run := Dispatch(toolName, args, toolKwargs, context, verdict, interrupt, tool);
            && |run.pauses| <= 1
            && (|run.pauses| == 1 <==> verdict.Success? && verdict.value.action == REQUIRE_APPROVAL)
            && (|run.pauses| == 1 ==>
                  && Get(run.pauses[0], "request_id") == Some(OptStr(verdict.value.requestId))
                  && Get(run.pauses[0], "tool_name") == Some(JStr(toolName))
                  && Get(run.pauses[0], "context") == Some(context)
                  && Get(run.pauses[0], "expires_at") == Some(OptStr(verdict.value.expiresAt)))
  {
    if verdict.Success? && verdict.value.action == REQUIRE_APPROVAL {
      var p := PausePayload(verdict.value.requestId, toolName, context, verdict.value.expiresAt);
      GetFirst(p, 0);
      GetFirst(p, 1);
      GetFirst(p, 2);
      GetFirst(p, 3);
    }
  }

  /** A DENY verdict raises with the tool's name and the policy's reason, the tool does
      not run and the graph does not pause; a registration that fails raises its error
      the same way. */
  lemma DenyStopsEverything(toolName: string, args: seq<Json>, toolKwargs: Dict, context: Json,
                            verdict: Result<InterceptorResult, Error>, interrupt: Interrupt, tool: Tool)
    ensures var run := Dispatch(toolName, args, toolKwargs, context, verdict, interrupt, tool);
            && (verdict.Success? && verdict.value.action == DENY ==>
                  run == AdapterRun(Failure(DeniedByPolicy(toolName, verdict.value.reason)), toolKwargs, [], []))
            && (verdict.Failure? ==> run == AdapterRun(Failure(Raised(verdict.error)), toolKwargs, [], []))
  {
  }

  /** What the decision payload leads to when the tool does not run: a rejection raises
      with the human's note, a revision without `execute` is cancelled, and anything
      else is an invalid payload. */
  lemma DecisionOutcomes(toolName: string, args: seq<Json>, toolKwargs: Dict, context: Json,
                         verdict: Result<InterceptorResult, Error>, interrupt: Interrupt, tool: Tool)
    requires verdict.Success? && verdict.value.action == REQUIRE_APPROVAL
    requires interrupt(PausePayload(verdict.value.requestId, toolName, context, verdict.value.expiresAt)).Success?
    ensures var run := Dispatch(toolName, args, toolKwargs, context, verdict, interrupt, tool);
            var payload := interrupt(PausePayload(verdict.value.requestId, toolName, context,
                                                  verdict.value.expiresAt)).value;
            var decision := Get(payload, "decision");
            && (decision == Some(JStr("reject")) ==>
                  run.result == Failure(RejectedByHuman(toolName, GetOr(payload, "note", JNull))))
            && (decision == Some(JStr("revise")) && !Truthy(GetOr(payload, "execute", JBool(false))) ==>
                  run.result == Failure(CancelledAfterRevise))
            && (decision != Some(JStr("approve")) && decision != Some(JStr("reject")) &&
                decision != Some(JStr("revise")) ==>
                  run.result == Failure(InvalidDecisionPayload))
            && (!Approves(payload) ==> run.calls == [])
  {
  }

  /** The message of the DENY error: it names the tool and shows the policy's reason,
      or "None" when the verdict has none. */
  function DeniedMessage(toolName: string, reason: Option<string>): (m: string)
    ensures Contains(m, toolName)
    ensures reason.Some? ==> Contains(m, reason.value)
    ensures reason.None? ==> Contains(m, "None")
  {
    var prefix := "DharaHIL denied tool " + toolName + ": ";
    var shown := if reason.Some? then reason.value else "None";
    var m := prefix + shown;
    assert SliceIs(m, |prefix|, shown);
    assert SliceIs(m, |"DharaHIL denied tool "|, toolName);
    m
  }
}
