# dharahil SDK core, modelled in Dafny

This project models the client side of DharaHIL's human-approval protocol and proves
properties of the model. An agent registers a tool call with the gateway, which answers
ALLOW, DENY or "needs approval". In the last case the client polls the request's status
until a reviewer decides. It may also negotiate revisions: it runs a revise callback,
submits the revised proposal with the version it is based on, and waits again after the
version the gateway returns. The modules follow the source files:

- `Wrappers`, `Errors` and `Json` are shared vocabulary. `Json` holds the dynamic values
  and Python dicts as ordered association lists, with `dict.get`, `dict.pop` and
  truthiness.
- `Interceptor` models `dharahil/interceptor.py`: the verdict enum, the verdict record
  and the abstract interface.
- `Context` models `dharahil/context.py`: `DisplayHints`, `ToolContext`, their defaults
  and their `to_dict` forms.
- `Redaction` models `dharahil/redaction.py`. The `Redact` method is the source's loop,
  proved against the functions `Redacted`/`ReportOf`; the lemmas about those functions
  state the redaction rules.
- `Client` models `dharahil/client.py`: the configuration, the registration payload,
  how `before_execute` reads the gateway's answer, and the proposal payload with the
  `SubmitProposalUpdate` method.
- `Polling` models `wait_for_decision`. The `WaitForDecision`/`PollUntil` methods are
  the source's loop, proved against the specification functions
  `EffectiveTimeout`/`PollFrom`/`Wait`.
- `ApprovalLoop` models `run_approval_loop`. The loop (`RunApprovalLoop`,
  `NegotiateLoop`, `DecideStep`, `ReviseStep`) is proved equal to the specification
  `ApprovalRun`/`Negotiate`. The lemmas about `Negotiate` state the version chain, the
  branch precedence and the short-circuit on auto-resolution.
- `LangGraphAdapter` models the `wrapped_tool` decision tree of
  `dharahil/langgraph_adapter.py`.

Remote parties are values. The gateway's answers to the registration, to each status
fetch and to each proposal submission are a script, consumed in call order. A call past
the end of a script fails with a transport error. Time is an integer clock in
milliseconds. The poll interval is a positive number of milliseconds, and timeouts are in
seconds. Parsing `expires_at` is an injected function that gives the expiry instant in
milliseconds. The revise callback, LangGraph's `interrupt` and the wrapped tool are
injected functions that return a value or an error. The approval loop terminates because
every round consumes at least one scripted fetch.

The staleness filter is modelled as the code writes it (client.py:165-177):

- A decided snapshot that is still PENDING or REVISE_REQUESTED, at a version at or
  above `after_version`, is skipped.
- A decided snapshot whose version is *below* `after_version` is not filtered at all.
  It ends the wait (`Polling.LaggingDecisionEndsWait`). The docstring of
  `wait_for_decision` (client.py:133-137) says a decision made before the given version
  is ignored, but the filter the code applies (client.py:171-177) skips only PENDING and
  REVISE_REQUESTED snapshots at or above `after_version`; the model follows the code.
- A genuine second revise request reported at the version just submitted is
  indistinguishable from a stale one, and the wait times out
  (`Polling.SecondReviseAtSameVersionTimesOut`).
- The two-revision test (tests/test_approval_loop.py:353-415) replaces
  `wait_for_decision` with a mock. Behind the real filter, the same gateway answers give
  a single revision (`ApprovalLoop.SecondReviseSkipped`).

## Model

| member | source | states |
|---|---|---|
| Interceptor.FromName | dharahil/interceptor.py:10-13 | a name looks up the member with that name, and no member when none has it |
| Interceptor.ValuesAreNames | dharahil/interceptor.py:10-13 | each member's value is its own name, looking it up by that value gives it back, and distinct members have distinct names |
| Interceptor.MakeResult | dharahil/interceptor.py:16-21 | the verdict record stores action, request id, reason and `expires_at` exactly as given |
| Interceptor.DefaultResultFields | dharahil/interceptor.py:19-21 | request id, reason and `expires_at` default to None |
| Interceptor.BaseBeforeExecute | dharahil/interceptor.py:30-33 | the base interface fails with NotImplementedError on every call |
| Context.DisplayHints.ToDict | dharahil/context.py:15-20 | the hints' dict has the keys title, category, sections in that order; title and category read back as the fields, `sections` as the same list |
| Context.DefaultDisplayHints | dharahil/context.py:11-13 | default hints are "", "" and an empty section list |
| Context.NewToolContext | dharahil/context.py:27-36 | a context built from agent and run ids has step "step", risk "MEDIUM", no tags, empty summary, idempotency key and decision URL, empty metadata and no display |
| Context.ToolContext.ToDict | dharahil/context.py:38-50 | `to_dict` emits exactly the ten keys, in the source's order |
| Context.DisplayJson | dharahil/context.py:49 | "display" is null exactly when the context has no hints |
| Context.ToDictReadsBack | dharahil/context.py:38-50 | every key of `to_dict` reads back through `dict.get` as its field; "display" is null without hints and the hints' own dict with them |
| Redaction.Lower | dharahil/redaction.py:19 | lower-casing keeps the length and maps each character on its own |
| Redaction.MaskHasNoLongRun | dharahil/redaction.py:22-23 | the mask token is 14 characters long and has no run of 12 alphanumerics |
| Redaction.MaskString | dharahil/redaction.py:21-24 | a string is replaced, and only ever by the mask token, exactly when it is longer than 12 and holds a 12-character alphanumeric run |
| Redaction.Redacted | dharahil/redaction.py:26-42 | the copy has one entry per input entry |
| Redaction.Redact | dharahil/redaction.py:10-44 | the loop builds exactly the redacted copy and the report that `Redacted`/`ReportOf` define |
| Redaction.RedactedAt | dharahil/redaction.py:29-42 | entry i of the copy has the input's key i and that entry's value, redacted on its own |
| Redaction.RedactedKeys | dharahil/redaction.py:26-42 | the copy has exactly the input's keys, in the input's order |
| Redaction.RedactEntryRules | dharahil/redaction.py:30-42 | non-strings pass unreported; a string under a secret key becomes the mask, reported `secret_key`; another string is masked and reported `high_entropy` iff it is longer than 12 with a 12-alphanumeric run; unreported values are copied unchanged |
| Redaction.RedactEntryIdempotent | dharahil/redaction.py:30-42 | redacting an already redacted value changes nothing |
| Redaction.RedactIdempotent | dharahil/redaction.py:10-44 | redacting the redacted copy again gives the same copy |
| Redaction.ReportOfAppend | dharahil/redaction.py:29-38 | the report of a concatenation is the concatenation of the reports, so entries follow input order |
| Redaction.ReportOfMembers | dharahil/redaction.py:27-38 | a (key, reason) pair is reported iff some input entry under that key is redacted for that reason |
| Redaction.ReportKeysFromInput | dharahil/redaction.py:29-38 | every reported key is a key of the input |
| Redaction.ReportKeysDistinct | dharahil/redaction.py:29-38 | for a dict with distinct keys, no key is reported twice |
| Json.Pop | dharahil/langgraph_adapter.py:28 | `pop` gives the value under the key, or the default when it is absent, and a dict that has no entry for the key and every other entry of the input |
| Client.StripTrailingSlashes | dharahil/client.py:32 | the result is a prefix of the input that ends in no slash, and only slashes were removed |
| Client.NewClient | dharahil/client.py:23-36 | the base URL is stored without trailing slashes, every other setting as given |
| Client.RegistrationPayload | dharahil/client.py:52-71 | the registration body has the sixteen keys in the source's order |
| Client.RegistrationPayloadFields | dharahil/client.py:52-71 | tenant, app, environment and tool name are sent as configured and given; `display_hints` is always present, null without a context "display"; the arguments are sent as given and redacted; the summary and `webhook.decision_url` are the context's or ""; the idempotency key is the context's, or else the run id, or else "run" |
| Client.ContextIdsOrDefaults | dharahil/client.py:55-57 | agent, run and step ids the context supplies are sent as the context's values; missing ones are sent as "unknown", "run" and "step" |
| Client.ContextLabelsOrDefaults | dharahil/client.py:49-69 | a risk level, tag list or metadata the context supplies is sent as given; missing ones are sent as "MEDIUM", `[]` and `{}` |
| Client.TypedContextRegistration | dharahil/client.py:41-71 | a registration from a `ToolContext` sends the context's own fields, so the idempotency key is the context's (default "") and never the run id, and `display_hints` is null exactly without hints |
| Client.MapAction | dharahil/client.py:96 | a member's name maps to that member, any other name to ALLOW |
| Client.InterpretReplyCases | dharahil/client.py:80-105 | a 400 is DENY iff its detail contains "DENY" and ALLOW otherwise, with the detail as reason; another non-2xx raises; a 2xx with truthy action and falsy request id is that action (ALLOW if unknown) with reason "Policy decision: <action>"; any other 2xx needs approval, with reason "Awaiting human approval" and the request id and expiry as given, or raises without a request id |
| Client.ApprovalOnlyFromBody | dharahil/client.py:93-105 | a verdict that needs approval only comes from a 2xx reply, and carries a request id only when the body had one |
| Client.BeforeExecute | dharahil/client.py:38-105 | the payload is built from the normalized context; a transport failure propagates; otherwise the verdict is the reading of the reply |
| Client.ProposalPayload | dharahil/client.py:203-213 | the proposal body has exactly the seven fixed keys, plus `display_hints` last only when it is not null |
| Client.ProposalPayloadFields | dharahil/client.py:203-211 | each of the seven fixed keys carries its field as given: base version, tool name, arguments, redacted arguments, summary, risk level and tags |
| Client.ProposalDisplayHints | dharahil/client.py:212-213 | without hints the body has no `display_hints` key; with hints it has the given value unchanged |
| Client.SubmitProposalUpdate | dharahil/client.py:190-221 | the method builds the proposal body in place and returns the gateway's reply unchanged |
| Polling.StopsRule | dharahil/client.py:163-185 | a status other than PENDING/REVISE_REQUESTED always ends the wait; a waiting one ends it only with a decision and, given `after_version`, a version below it |
| Polling.NoFilterWithoutAfter | dharahil/client.py:163-180 | without `after_version`, any decision ends the wait |
| Polling.LaggingDecisionEndsWait | dharahil/client.py:165-177 | a decided snapshot behind `after_version` is not filtered and ends the wait |
| Polling.SameVersionReviseIsSkipped | dharahil/client.py:171-174 | a revise request at exactly `after_version` is skipped |
| Polling.TruncDiv | dharahil/client.py:152 | `int()` of a quotient truncates toward zero, for both signs |
| Polling.EffectiveTimeout | dharahil/client.py:146-156 | an explicit timeout wins; otherwise a parseable expiry gives a wait that outlasts it by more than 4 s and at most 5 s, but lasts at least 10 s; otherwise 600 s |
| Polling.TicksIsCeiling | dharahil/client.py:158-186 | a wait that no snapshot ends makes ceil(window / interval) fetches |
| Polling.TicksOneSecondEvery300 | dharahil/client.py:158-186 | one second polled every 300 ms is four fetches |
| Polling.PollFrom | dharahil/client.py:161-186 | the poll ends at the first fetch that fails or stops it, every earlier fetch skipped, or times out after all its fetches, all skipped |
| Polling.PollStep | dharahil/client.py:161-186 | one fetch ends the poll (failure or stop) or the poll goes on from the next fetch |
| Polling.WaitOutcome | dharahil/client.py:158-188 | a wait returns the first snapshot that stops it, or the error of the fetch that raised, or a TimeoutError after the full number of skipped fetches |
| Polling.NonPositiveTimeoutRaises | dharahil/client.py:158-188 | with a deadline already passed nothing is fetched and TimeoutError is raised |
| Polling.StaleRevisesSkipped | tests/test_approval_loop.py:23-57 | after version 2, two stale revise reads are skipped and the approval read third ends the wait |
| Polling.FirstDecisionWithoutAfter | tests/test_approval_loop.py:60-80 | without `after_version` the first decided read is returned |
| Polling.PendingTimesOut | dharahil/client.py:158-188 | a request left pending is fetched four times in 1 s at 300 ms, then TimeoutError names the request and the timeout |
| Polling.SecondReviseAtSameVersionTimesOut | dharahil/client.py:165-188 | a genuine revise request at the version just submitted is never acted on, and the wait times out |
| Polling.WaitForDecision | dharahil/client.py:116-188 | the method returns what `Wait` specifies, with the effective timeout, and its clock has advanced one interval per skipped fetch |
| Polling.PollUntil | dharahil/client.py:158-188 | the polling loop makes exactly the fetches `PollFrom` specifies and advances the clock by one interval after each skipped one |
| ApprovalLoop.Classify | dharahil/client.py:277-367 | a snapshot takes the first branch it signals, in the order approve, reject, auto-allow, auto-deny, expired, revise, and any other falls through |
| ApprovalLoop.UpdateFor | dharahil/client.py:328-341 | a proposal is based on the current version and carries the tool name, the callback's arguments, those redacted, the context's summary, risk level and tags (or "", "MEDIUM" and `[]`), and no display hints |
| ApprovalLoop.Round | dharahil/client.py:266-272 | a round starts with one wait, with `after_version` only above version 1, and a round that goes on has consumed fetches |
| ApprovalLoop.Decide | dharahil/client.py:274-367 | a decision that lets the loop go on has consumed the fetches of its wait |
| ApprovalLoop.Revise | dharahil/client.py:313-360 | a revision that lets the loop go on has consumed the fetches of its wait |
| ApprovalLoop.Negotiate | dharahil/client.py:266-367 | every negotiation makes at least one remote call |
| ApprovalLoop.RoundWaitFails | dharahil/client.py:267-272 | an error raised by the wait ends the loop with that error |
| ApprovalLoop.RoundWaitAnswers | dharahil/client.py:267-275 | a wait that returns a snapshot did not time out and read at least one fetch, and the round then acts on that snapshot |
| ApprovalLoop.RoundFacts | dharahil/client.py:266-360 | a round waits once, calls the callback at most once, on the current arguments with an empty patch, proposes at most once from the current version and only what that call returned, ends with the call's error when it fails, goes on only after a pending proposal with the reply's version (or one more) and the callback's arguments, and ends after a proposal only on failure or auto-resolution, with that outcome |
| ApprovalLoop.RoundReviseInput | dharahil/client.py:313-326 | the callback is called only when the waited-for snapshot asks for a revision, on the current arguments, that snapshot's revise input ("" when absent) and an empty patch |
| ApprovalLoop.NegotiationArgs | dharahil/client.py:313-360 | over a whole run, the first callback call gets the starting arguments and each later one the previous proposal's arguments, always with an empty patch; each proposal carries exactly what the call before it returned; a call with no proposal after it failed and ended the run with its error |
| ApprovalLoop.NegotiationVersions | dharahil/client.py:262-342 | waits and proposals form a chain: the first wait has no `after_version`, each proposal and each later wait uses the version the previous reply gave, and every proposal but the last was left pending |
| ApprovalLoop.NegotiationOutcome | dharahil/client.py:277-360 | an outcome carrying arguments carries those of the last proposal, or the original arguments; a run with no wait after its last proposal ends with that proposal's error or auto-resolution |
| ApprovalLoop.ShortCircuit | dharahil/client.py:344-357 | a proposal that failed or that policy auto-resolved is the last one, no wait follows it, and the run ends with its error or the policy's outcome |
| ApprovalLoop.AfterVersionsValid | dharahil/client.py:271 | every `after_version` passed is None or above 1 |
| ApprovalLoop.VersionsIncrease | dharahil/client.py:342 | if each reply reports a version above its proposal's, the proposals' base versions strictly increase |
| ApprovalLoop.ReviseThenApprove | tests/test_approval_loop.py:225-279 | revise at version 1 with a callback, then approve at 2: one proposal from version 1 with the revised text, two waits, approved with the revised arguments at version 2 |
| ApprovalLoop.ReviseWithoutCallback | tests/test_approval_loop.py:192-222 | without a callback a revise request is handed back with its input, the current arguments and version, after one wait |
| ApprovalLoop.AutoAllowedAfterProposal | tests/test_approval_loop.py:282-319 | a proposal policy auto-allows ends the loop with the revised arguments and no further wait |
| ApprovalLoop.SecondReviseSkipped | tests/test_approval_loop.py:352-415 | behind the real filter, the second revise request at version 2 is skipped and the first revision is approved at version 3 after one proposal |
| ApprovalLoop.ImmediateVerdicts | dharahil/client.py:250-264 | a failed registration, ALLOW (original arguments) or DENY (its reason) return at once with no call; only a verdict needing approval waits, first without `after_version`, and the first proposal is based on version 1 |
| ApprovalLoop.RunApprovalLoop | dharahil/client.py:223-367 | the method produces the outcome and the record of calls that `ApprovalRun` specifies |
| ApprovalLoop.NegotiateLoop | dharahil/client.py:262-367 | the `while True` loop produces the outcome and calls that `Negotiate` specifies from version 1 |
| ApprovalLoop.DecideStep | dharahil/client.py:274-367 | the branch tests in source order give what `Decide` specifies |
| ApprovalLoop.ReviseStep | dharahil/client.py:313-360 | the revision branch gives what `Revise` specifies |
| LangGraphAdapter.Register | dharahil/langgraph_adapter.py:28-30 | a dict context registers through `before_execute`; any other context value raises |
| LangGraphAdapter.PausePayload | dharahil/langgraph_adapter.py:38-43 | the pause payload has the keys request_id, tool_name, context, expires_at |
| LangGraphAdapter.RunTool | dharahil/langgraph_adapter.py:32-33 | running the tool records exactly one call, with the given arguments |
| LangGraphAdapter.WrappedToolDispatches | dharahil/langgraph_adapter.py:27-30 | `_dhara_context` is removed from the kwargs, defaults to an empty dict, and is used as the context for registration |
| LangGraphAdapter.ToolSeesRegisteredArgs | dharahil/langgraph_adapter.py:28-58 | the tool is only ever called with the kwargs that were registered |
| LangGraphAdapter.ToolRunsWhenAuthorized | dharahil/langgraph_adapter.py:32-58 | the tool runs at most once, exactly on ALLOW or on approval followed by an approving payload, and its result or failure is the wrapper's |
| LangGraphAdapter.PausesOnlyForApproval | dharahil/langgraph_adapter.py:37-44 | the graph pauses at most once, exactly on REQUIRE_APPROVAL, with the request id, tool name, context and expiry |
| LangGraphAdapter.DenyStopsEverything | dharahil/langgraph_adapter.py:30-35 | DENY raises with the tool name and reason, with no tool call and no pause; a registration failure raises the same way |
| LangGraphAdapter.DecisionOutcomes | dharahil/langgraph_adapter.py:46-58 | reject raises with the note, revise without `execute` is cancelled, any other decision is invalid, and a non-approving payload never runs the tool |
| LangGraphAdapter.DeniedMessage | dharahil/langgraph_adapter.py:35 | the DENY message names the tool and shows the reason, or "None" |

## Left out

- HTTP transport is not modelled (client.py:73-78, 107-114, 214-221). Each remote call is a scripted answer or an error value. `raise_for_status` becomes the non-2xx error, and headers and URLs are not modelled.
- The fallback from `resp.json()` to `resp.text` for a 400 detail (client.py:82-85) is not modelled. The detail is a given string.
- `Client.StripTrailingSlashes`: the base URL is stored but never used, because URLs are not modelled.
- The wall clock, `datetime.fromisoformat` and `asyncio.sleep` become parameters. The clock is an integer in ms, and `parse` is an injected function.
- Polling.WaitForDecision: the clock advances only through the sleeps. Time spent inside a fetch is not counted.
- The float poll interval is modelled as a positive integer number of milliseconds. A zero or negative interval is excluded, since it would make the loop spin without sleeping.
- Python's float seconds become whole milliseconds, with the `int()` truncation kept.
- async/await is not modelled; every call is sequential.
- Redaction.Lower: lower-cases ASCII letters only, because Python's Unicode case mapping is not modelled. A key that Python lowers to a secret name only through a non-ASCII mapping is missed: "TO\u212AEN" (U+212A KELVIN SIGN lowers to 'k') is a secret key for `is_secret_key` but not in the model, which goes on to the high-entropy test for its value.
- Client.RegisterReply: `action` is an optional string, so a truthy non-string action (the source maps, say, `1` to ALLOW with reason "Policy decision: 1", client.py:96-97) cannot be represented, nor can a 2xx body that is not JSON, for which `resp.json()` raises (client.py:91).
- Polling.WaitForDecision, ApprovalLoop.RunApprovalLoop: keyword defaults are not modelled, so every argument is passed explicitly. These are `timeout_seconds=None` and `poll_interval_seconds=2.0` of `wait_for_decision` (client.py:120-122), and `on_revise=None` and `poll_interval_seconds=2.0` of `run_approval_loop` (client.py:229-230).
- Client.Snapshot: a key that is absent and a key that is null are both None. The loop reads these fields with `.get(key, default)`, which applies the default only to an absent key. A null `version` would therefore reach the loop as null, not as the default.
- Polling.PollUntil: `None >= after_version` raising TypeError for a null version is not modelled, because snapshot versions are always integers or absent here.
- Exhausting a fetch or proposal script is a transport error. The real gateway has no such bound.
- Errors are structured values, not messages. `LangGraphAdapter.DeniedMessage` is the only message modelled. ApprovalLoop.Outcome keeps the structured fields of each returned dict, not its dict form.
- LangGraphAdapter.RejectedByHuman: keeps the tool name and note but not the message text.
- The revise callback, LangGraph's `interrupt` and the wrapped tool are injected functions. Their side effects, and how LangGraph resumes a paused graph, are not modelled.
- LangGraphAdapter.Register: the `before_execute` failure for a context that is not a dict is one foreign error. A `ToolContext` passed through the kwargs is not modelled.
- `dharahil/__init__.py` re-exports names and the `DharaClient` alias. It is not part of this model.
- Not modelled: the adapter tests' `"type"` pause key, the re-interrupts on revision, and approve-with-`updated_args` (tests/test_langgraph_adapter.py:98, 117-305). The adapter as written does none of these.
- `get_request` is not a separate member. Its answer is the next scripted fetch.
- ApprovalLoop: the loop terminates because the fetch script shrinks. The source's `while True` has no bound when the gateway keeps answering.
- ApprovalLoop.Round, ApprovalLoop.Decide, ApprovalLoop.Revise, ApprovalLoop.Negotiate: their own contracts state only that a round that goes on consumes fetches, which is what termination needs. What a round computes is stated by `RoundFacts`, `RoundReviseInput`, `NegotiationVersions`, `NegotiationOutcome` and `NegotiationArgs`, and the methods `DecideStep`/`ReviseStep`/`NegotiateLoop` are proved equal to them.
- Redaction.Redacted: its own contract states only the length. Its entry-by-entry meaning is `RedactedAt` and `RedactEntryRules`.
