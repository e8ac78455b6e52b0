/** `run_approval_loop` (dharahil/client.py): register the action, return at once on an
    immediate verdict, otherwise wait for a decision and negotiate revisions until a
    terminal outcome.

    `Negotiate` is the specification of the wait-and-revise rounds as a function of the
    gateway's scripted answers; `RunApprovalLoop` is the loop itself, proved to produce
    the same outcome and the same record of remote calls. */
module ApprovalLoop {
  import opened Wrappers
  import opened Errors
  import opened Json
  import opened Interceptor
  import opened Redaction
  import opened Client
  import opened Polling

  /** The branches of the outcome state machine, in the order they are tested. */
  datatype Branch = ApproveBranch | RejectBranch | AutoAllowBranch | AutoDenyBranch
                  | ExpireBranch | ReviseBranch | OtherBranch

  function Rank(b: Branch): nat {
    match b
    case ApproveBranch => 0
    case RejectBranch => 1
    case AutoAllowBranch => 2
    case AutoDenyBranch => 3
    case ExpireBranch => 4
    case ReviseBranch => 5
    case OtherBranch => 6
  }

  /** The snapshot asks for branch `b`; every snapshot may fall through to `OtherBranch`. */
  predicate Signals(s: Snapshot, b: Branch) {
    match b
    case ApproveBranch => s.lastDecision == Some("approve") || StatusOf(s) == "APPROVED"
    case RejectBranch => s.lastDecision == Some("reject") || StatusOf(s) == "REJECTED"
    case AutoAllowBranch => StatusOf(s) == "AUTO_ALLOWED"
    case AutoDenyBranch => StatusOf(s) == "AUTO_DENIED"
    case ExpireBranch => StatusOf(s) == "EXPIRED"
    case ReviseBranch => s.lastDecision == Some("revise") || StatusOf(s) == "REVISE_REQUESTED"
    case OtherBranch => true
  }

  /** The branch a decided snapshot takes: the first, in precedence order, that it
      signals — so an approval beats a rejection, which beats the policy statuses, which
      beat expiry, which beats a revise request. */
  function Classify(s: Snapshot): (b: Branch)
    ensures Signals(s, b)
    ensures forall c :: Signals(s, c) ==> Rank(b) <= Rank(c)
    ensures b == OtherBranch <==> forall c :: c != OtherBranch ==> !Signals(s, c)
  {
    if Signals(s, ApproveBranch) then ApproveBranch
    else if Signals(s, RejectBranch) then RejectBranch
    else if Signals(s, AutoAllowBranch) then AutoAllowBranch
    else if Signals(s, AutoDenyBranch) then AutoDenyBranch
    else if Signals(s, ExpireBranch) then ExpireBranch
    else if Signals(s, ReviseBranch) then ReviseBranch
    else OtherBranch
  }

  const AutoDeniedReason: string := "Policy auto-denied the revised proposal"

  /** The dicts `run_approval_loop` returns, one constructor per "action". */
  datatype Outcome =
    | Allow(toolArgs: Dict)
    | Deny(reason: Option<string>)
    | Approved(requestId: Option<string>, toolArgs: Dict, version: int)
    | Rejected(requestId: Option<string>, note: string, version: int)
    | AutoAllowed(requestId: Option<string>, toolArgs: Dict)
    | AutoDenied(requestId: Option<string>, denial: string)
    | Expired(requestId: Option<string>)
    | ReviseRequested(requestId: Option<string>, reviseInput: string, currentArgs: Dict, version: int)
    | Unknown(action: string, requestId: Option<string>, raw: Snapshot)

  /** The caller's revision callback: (current args, revise input, revise patch). */
  type ReviseCallback = (Dict, string, Dict) -> Result<Dict, Error>

  /** The gateway's scripted answers: to the registration, to each status fetch, and to
      each proposal submission, in call order. */
  datatype Gateway = Gateway(register: Result<RegisterReply, Error>, fetches: seq<Fetch>,
                             proposals: seq<Fetch>)

  /** What stays fixed during one negotiation. */
  datatype Env = Env(
    requestId: Option<string>,
    toolName: string,
    ctx: Dict,
    expiresAt: Option<string>,
    pollMs: int,
    onRevise: Option<ReviseCallback>,
    parse: string -> Option<int>)

  /** What a round changes: the current version and arguments, the clock, and the
      gateway answers not yet consumed. */
  datatype State = State(version: int, args: Dict, clock: int, fetches: seq<Fetch>,
                         proposals: seq<Fetch>)

  /** A remote call or callback the loop made. */
  datatype Step =
    | Waited(afterVersion: Option<int>, fetched: nat)
    | Revised(currentArgs: Dict, reviseInput: string, patch: Dict)
    | Proposed(update: ProposalUpdate, reply: Fetch)

  datatype Run = Run(result: Result<Outcome, Error>, trace: seq<Step>)

  /** `after_version=current_version if current_version > 1 else None`. */
  function AfterVersion(version: int): Option<int> {
    if version > 1 then Some(version) else None
  }

  /** The proposal a revision submits: the callback's arguments, redacted, with the
      context's summary, risk level and tags (or their defaults), and no display hints. */
  function UpdateFor(env: Env, version: int, args: Dict): (u: ProposalUpdate)
    ensures u.versionFrom == version && u.toolName == env.toolName && u.toolArgs == args
    ensures u.toolArgsRedacted == Redacted(args) && u.displayHints == JNull
    ensures Get(env.ctx, "context_summary").Some? ==> u.contextSummary == Get(env.ctx, "context_summary").value
    ensures Get(env.ctx, "context_summary").None? ==> u.contextSummary == JStr("")
    ensures Get(env.ctx, "risk_level").Some? ==> u.riskLevel == Get(env.ctx, "risk_level").value
    ensures Get(env.ctx, "risk_level").None? ==> u.riskLevel == JStr("MEDIUM")
    ensures Get(env.ctx, "tags").Some? ==> u.tags == Get(env.ctx, "tags").value
    ensures Get(env.ctx, "tags").None? ==> u.tags == JArr([])
  {
    ProposalUpdate(version, env.toolName, args, Redacted(args),
                   GetOr(env.ctx, "context_summary", JStr("")),
                   GetOr(env.ctx, "risk_level", JStr("MEDIUM")),
                   GetOr(env.ctx, "tags", JArr([])),
                   JNull)
  }

  /** The script after its first answer. */
  function Rest(script: seq<Fetch>): seq<Fetch> {
    if |script| > 0 then script[1..] else []
  }

  /** How one round of the loop ends: with the run's result, or by going round again from
      `next`. `steps` are the calls the round made. */
  datatype RoundEnd =
    | Done(result: Result<Outcome, Error>, steps: seq<Step>)
    | Again(steps: seq<Step>, next: State)

  /** One round from state `st`: wait, then act on the snapshot the wait returned
      (`Decide`), or end with the wait's error. */
  function Round(env: Env, st: State): (r: RoundEnd)
    requires env.pollMs > 0
    ensures |r.steps| > 0 && r.steps[0].Waited? && r.steps[0].afterVersion == AfterVersion(st.version)
    ensures r.Again? ==> |r.next.fetches| < |st.fetches|
  {
    var after := AfterVersion(st.version);
    var timeout := EffectiveTimeout(None, env.expiresAt, st.clock, env.parse);
    var (decision, fetched) := Wait(st.fetches, after, timeout, env.pollMs, env.requestId);
    WaitOutcome(st.fetches, after, timeout, env.pollMs, env.requestId);
    match decision
    case Failure(e) => Done(Failure(e), [Waited(after, fetched)])
    case Success(s) =>
      match Decide(env, st, s, fetched)
      case Done(result, steps) => Done(result, [Waited(after, fetched)] + steps)
      case Again(steps, next) => Again([Waited(after, fetched)] + steps, next)
  }

  /** What a decided snapshot `s` leads to, `fetched` being the fetches its wait made;
      the version reported with an approval or a rejection defaults to the current one. */
  function Decide(env: Env, st: State, s: Snapshot, fetched: nat): (r: RoundEnd)
    requires 0 < fetched <= |st.fetches|
    ensures r.Again? ==> |r.next.fetches| < |st.fetches|
  {
    match Classify(s)
    case ApproveBranch => Done(Success(Approved(env.requestId, st.args, s.version.GetOr(st.version))), [])
    case RejectBranch =>
      Done(Success(Rejected(env.requestId, s.note.GetOr(""), s.version.GetOr(st.version))), [])
    case AutoAllowBranch => Done(Success(AutoAllowed(env.requestId, st.args)), [])
    case AutoDenyBranch => Done(Success(AutoDenied(env.requestId, AutoDeniedReason)), [])
    case ExpireBranch => Done(Success(Expired(env.requestId)), [])
    case ReviseBranch => Revise(env, st, s.reviseInput.GetOr(""), fetched)
    case OtherBranch =>
      Done(Success(Unknown(if StatusOf(s) != "" then StatusOf(s) else "UNKNOWN", env.requestId, s)), [])
  }

  /** A revise request: without a callback it is handed back to the caller; with one, the
      callback's arguments are submitted as a new proposal, and unless policy resolves
      that proposal at once, the loop goes round again with the version the gateway
      returned (one more than the current one if it returned none), the callback's
      arguments and the gateway answers not yet read. */
  function Revise(env: Env, st: State, input: string, fetched: nat): (r: RoundEnd)
    requires 0 < fetched <= |st.fetches|
    ensures r.Again? ==> |r.next.fetches| < |st.fetches|
  {
    if env.onRevise.None? then
      Done(Success(ReviseRequested(env.requestId, input, st.args, st.version)), [])
    else
      var revised := [Revised(st.args, input, [])];
      match env.onRevise.value(st.args, input, [])
      case Failure(e) => Done(Failure(e), revised)
      case Success(newArgs) =>
        var u := UpdateFor(env, st.version, newArgs);
        var reply := FetchAt(st.proposals, 0);
        var proposed := revised + [Proposed(u, reply)];
        match reply
        case Failure(e) => Done(Failure(e), proposed)
        case Success(resp) =>
          if resp.status == Some("AUTO_ALLOWED") then
            Done(Success(AutoAllowed(env.requestId, newArgs)), proposed)
          else if resp.status == Some("AUTO_DENIED") then
            Done(Success(AutoDenied(env.requestId, AutoDeniedReason)), proposed)
          else
            Again(proposed, State(resp.version.GetOr(st.version + 1), newArgs,
                                  st.clock + env.pollMs * (fetched - 1),
                                  st.fetches[fetched..], Rest(st.proposals)))
  }

  /** The whole negotiation from state `st`: rounds until one is done. */
  function Negotiate(env: Env, st: State): (run: Run)
    requires env.pollMs > 0
    ensures |run.trace| > 0
    decreases |st.fetches|
  {
    match Round(env, st)
    case Done(result, steps) => Run(result, steps)
    case Again(steps, next) =>
      var rest := Negotiate(env, next);
      Run(rest.result, steps + rest.trace)
  }

  /** A round whose wait fails ends with that error. */
  lemma RoundWaitFails(env: Env, st: State, e: Error, fetched: nat)
    requires env.pollMs > 0
    requires Wait(st.fetches, AfterVersion(st.version), EffectiveTimeout(None, env.expiresAt, st.clock, env.parse),
                  env.pollMs, env.requestId) == (Failure(e), fetched)
    ensures Round(env, st) == Done(Failure(e), [Waited(AfterVersion(st.version), fetched)])
  {
  }

  /** A round whose wait returns `s` goes on as `Decide` says, and the wait did not time
      out. */
  lemma RoundWaitAnswers(env: Env, st: State, s: Snapshot, fetched: nat)
    requires env.pollMs > 0
    requires Wait(st.fetches, AfterVersion(st.version), EffectiveTimeout(None, env.expiresAt, st.clock, env.parse),
                  env.pollMs, env.requestId) == (Success(s), fetched)
    ensures 0 < fetched <= |st.fetches|
    ensures !PollFrom(st.fetches, AfterVersion(st.version),
                      Ticks(EffectiveTimeout(None, env.expiresAt, st.clock, env.parse) * 1000, env.pollMs), 0).0.TimedOut?
    ensures Round(env, st) == match Decide(env, st, s, fetched)
                              case Done(result, steps) => Done(result, [Waited(AfterVersion(st.version), fetched)] + steps)
                              case Again(steps, next) => Again([Waited(AfterVersion(st.version), fetched)] + steps, next)
  {
    WaitOutcome(st.fetches, AfterVersion(st.version), EffectiveTimeout(None, env.expiresAt, st.clock, env.parse),
                env.pollMs, env.requestId);
  }

  /** The `after_version` of each wait in a trace, in order. */
  function WaitsOf(trace: seq<Step>): seq<Option<int>> {
    if trace == [] then [] else WaitOf(trace[0]) + WaitsOf(trace[1..])
  }

  function WaitOf(step: Step): seq<Option<int>> {
    if step.Waited? then [step.afterVersion] else []
  }

  /** Each proposal in a trace with the gateway's reply to it, in order. */
  function ProposalsOf(trace: seq<Step>): seq<(ProposalUpdate, Fetch)> {
    if trace == [] then [] else ProposalOf(trace[0]) + ProposalsOf(trace[1..])
  }

  function ProposalOf(step: Step): seq<(ProposalUpdate, Fetch)> {
    if step.Proposed? then [(step.update, step.reply)] else []
  }

  /** Each call of the revise callback in a trace, as (current args, revise input,
      revise patch), in order. */
  function RevisionsOf(trace: seq<Step>): seq<(Dict, string, Dict)> {
    if trace == [] then [] else RevisionOf(trace[0]) + RevisionsOf(trace[1..])
  }

  function RevisionOf(step: Step): seq<(Dict, string, Dict)> {
    if step.Revised? then [(step.currentArgs, step.reviseInput, step.patch)] else []
  }

  lemma {:induction false} RevisionsAppend(a: seq<Step>, b: seq<Step>)
    ensures RevisionsOf(a + b) == RevisionsOf(a) + RevisionsOf(b)
  {
    if a == [] {
      assert a + b == b;
    } else {
      assert (a + b)[0] == a[0];
      assert (a + b)[1..] == a[1..] + b;
      RevisionsAppend(a[1..], b);
    }
  }

  lemma {:induction false} WaitsAppend(a: seq<Step>, b: seq<Step>)
    ensures WaitsOf(a + b) == WaitsOf(a) + WaitsOf(b)
  {
    if a == [] {
      assert a + b == b;
    } else {
      assert (a + b)[0] == a[0];
      assert (a + b)[1..] == a[1..] + b;
      WaitsAppend(a[1..], b);
    }
  }

  lemma {:induction false} ProposalsAppend(a: seq<Step>, b: seq<Step>)
    ensures ProposalsOf(a + b) == ProposalsOf(a) + ProposalsOf(b)
  {
    if a == [] {
      assert a + b == b;
    } else {
      assert (a + b)[0] == a[0];
      assert (a + b)[1..] == a[1..] + b;
      ProposalsAppend(a[1..], b);
    }
  }

  lemma TraceSingle(step: Step)
    ensures WaitsOf([step]) == WaitOf(step) && ProposalsOf([step]) == ProposalOf(step)
    ensures RevisionsOf([step]) == RevisionOf(step)
  {
    assert [step][1..] == [];
  }

  lemma TraceAppend(a: seq<Step>, b: seq<Step>)
    ensures WaitsOf(a + b) == WaitsOf(a) + WaitsOf(b)
    ensures ProposalsOf(a + b) == ProposalsOf(a) + ProposalsOf(b)
    ensures RevisionsOf(a + b) == RevisionsOf(a) + RevisionsOf(b)
  {
    WaitsAppend(a, b);
    ProposalsAppend(a, b);
    RevisionsAppend(a, b);
  }

  /** The version a proposal's reply moves the negotiation to. */
  function NextVersion(p: (ProposalUpdate, Fetch)): int
    requires p.1.Success?
  {
    p.1.value.version.GetOr(p.0.versionFrom + 1)
  }

  /** A reply by which policy resolved a proposal at once. */
  predicate AutoResolved(reply: Fetch) {
    reply.Success? && (reply.value.status == Some("AUTO_ALLOWED") || reply.value.status == Some("AUTO_DENIED"))
  }

  /** The arguments an outcome carries, where it carries any. */
  function ArgsOf(o: Outcome): Option<Dict> {
    match o
    case Approved(_, args, _) => Some(args)
    case AutoAllowed(_, args) => Some(args)
    case ReviseRequested(_, _, args, _) => Some(args)
    case _ => None
  }

  /** The callback `env` holds, applied to a recorded call. */
  function CallbackOn(env: Env, call: (Dict, string, Dict)): Result<Dict, Error>
    requires env.onRevise.Some?
  {
    env.onRevise.value(call.0, call.1, call.2)
  }

  /** The callback calls of one round, `args` being the arguments it starts from: at most
      one call, only when there is a callback, on `args` with an empty patch; a proposal
      only after it, carrying exactly what it returned; and a failing call ends the
      round with its error. */
  ghost predicate CallsRound(env: Env, args: Dict, r: RoundEnd) {
    var rs := RevisionsOf(r.steps);
    var ps := ProposalsOf(r.steps);
    && |rs| <= 1 && |ps| <= |rs|
    && (|rs| == 1 ==> env.onRevise.Some? && rs[0].0 == args && rs[0].2 == [])
    && (|ps| == 1 ==> CallbackOn(env, rs[0]) == Success(ps[0].0.toolArgs))
    && (|rs| == 1 && |ps| == 0 ==>
          r.Done? && CallbackOn(env, rs[0]).Failure? && r.result == Failure(CallbackOn(env, rs[0]).error))
    && (r.Again? ==> |ps| == 1 && r.next.args == ps[0].0.toolArgs)
  }

  /** What a revision round's steps hold, before the wait is put in front of them. */
  ghost predicate RevisionSteps(env: Env, st: State, r: RoundEnd) {
    var ps := ProposalsOf(r.steps);
    && WaitsOf(r.steps) == []
    && CallsRound(env, st.args, r)
    && |ps| <= 1
    && (|ps| == 1 ==> ps[0].0 == UpdateFor(env, st.version, ps[0].0.toolArgs))
    && (r.Again? ==> |ps| == 1 && ps[0].1.Success? && !AutoResolved(ps[0].1) &&
                     r.next.version == NextVersion(ps[0]) && r.next.args == ps[0].0.toolArgs)
    && (r.Done? && |ps| == 1 ==> ps[0].1.Failure? || AutoResolved(ps[0].1))
    && (r.Done? && |ps| == 1 && ps[0].1.Failure? ==> r.result == Failure(ps[0].1.error))
    && (r.Done? && |ps| == 1 && AutoResolved(ps[0].1) ==>
          r.result == Success(if ps[0].1.value.status == Some("AUTO_ALLOWED")
                              then AutoAllowed(env.requestId, ps[0].0.toolArgs)
                              else AutoDenied(env.requestId, AutoDeniedReason)))
    && (r.Done? && r.result.Success? && ArgsOf(r.result.value).Some? ==>
          ArgsOf(r.result.value).value == (if |ps| == 0 then st.args else ps[0].0.toolArgs))
  }

  lemma ReviseFacts(env: Env, st: State, input: string, fetched: nat)
    requires 0 < fetched <= |st.fetches|
    ensures RevisionSteps(env, st, Revise(env, st, input, fetched))
    ensures var rs := RevisionsOf(Revise(env, st, input, fetched).steps);
            (env.onRevise.Some? ==> |rs| == 1) && (|rs| == 1 ==> rs[0].1 == input)
  {
    var r := Revise(env, st, input, fetched);
    if env.onRevise.Some? {
      var revised := Revised(st.args, input, []);
      TraceSingle(revised);
      match env.onRevise.value(st.args, input, [])
      case Failure(e) =>
        assert r.steps == [revised];
      case Success(newArgs) =>
        var proposed := Proposed(UpdateFor(env, st.version, newArgs), FetchAt(st.proposals, 0));
        assert r.steps == [revised] + [proposed];
        TraceSingle(proposed);
        TraceAppend([revised], [proposed]);
    }
  }

  lemma DecideFacts(env: Env, st: State, s: Snapshot, fetched: nat)
    requires 0 < fetched <= |st.fetches|
    ensures RevisionSteps(env, st, Decide(env, st, s, fetched))
    ensures var rs := RevisionsOf(Decide(env, st, s, fetched).steps);
            |rs| == 1 ==> Classify(s) == ReviseBranch && rs[0].1 == s.reviseInput.GetOr("")
  {
    if Classify(s) == ReviseBranch {
      ReviseFacts(env, st, s.reviseInput.GetOr(""), fetched);
    }
  }

  /** One round waits exactly once, after the current version if it is above 1. It makes
      at most one proposal, based on the current version and carrying its arguments
      redacted. A round that goes on made a proposal whose reply the policy left pending,
      and the next round starts at the version that reply gave (one more than the
      proposal's if none) with the proposal's arguments. A round that ends after a
      proposal ends because the submission failed or the policy resolved it, and then
      with an outcome of the policy's. */
  lemma RoundFacts(env: Env, st: State)
    requires env.pollMs > 0
    ensures WaitsOf(Round(env, st).steps) == [AfterVersion(st.version)]
    ensures var r := Round(env, st); RevisionSteps(env, st, r.(steps := r.steps[1..]))
    ensures Round(env, st).steps[0].Waited?
    ensures ProposalsOf(Round(env, st).steps) == ProposalsOf(Round(env, st).steps[1..])
    ensures RevisionsOf(Round(env, st).steps) == RevisionsOf(Round(env, st).steps[1..])
  {
    var after := AfterVersion(st.version);
    var timeout := EffectiveTimeout(None, env.expiresAt, st.clock, env.parse);
    var (decision, fetched) := Wait(st.fetches, after, timeout, env.pollMs, env.requestId);
    var r := Round(env, st);
    var w := Waited(after, fetched);
    TraceSingle(w);
    if decision.Failure? {
      RoundWaitFails(env, st, decision.error, fetched);
      assert r.steps == [w];
    } else {
      RoundWaitAnswers(env, st, decision.value, fetched);
      var d := Decide(env, st, decision.value, fetched);
      DecideFacts(env, st, decision.value, fetched);
      assert r.steps == [w] + d.steps;
      TraceAppend([w], d.steps);
      assert r.steps[1..] == d.steps;
      assert r.(steps := r.steps[1..]) == d;
    }
  }

  /** The waits and proposals of a negotiation that starts at `version`, as a chain: the
      first wait is after `version`, the first proposal is based on it, every proposal but
      the last was left pending by the gateway, and each later proposal and each later
      wait is based on the version the previous proposal's reply gave. A run waits once
      more than it proposes, or, when it ends right after a proposal, as often. */
  ghost predicate VersionChain(env: Env, version: int, ws: seq<Option<int>>,
                               ps: seq<(ProposalUpdate, Fetch)>) {
    && |ws| > 0 && ws[0] == AfterVersion(version)
    && (|ws| == |ps| + 1 || |ws| == |ps|)
    && (|ps| > 0 ==> ps[0].0.versionFrom == version)
    && (forall k :: 0 <= k < |ps| ==> ps[k].0 == UpdateFor(env, ps[k].0.versionFrom, ps[k].0.toolArgs))
    && (forall k :: 0 <= k < |ps| - 1 ==>
          ps[k].1.Success? && !AutoResolved(ps[k].1) && ps[k + 1].0.versionFrom == NextVersion(ps[k]))
    && (forall k :: 0 <= k < |ws| - 1 ==>
          k < |ps| && ps[k].1.Success? && !AutoResolved(ps[k].1) &&
          ws[k + 1] == AfterVersion(NextVersion(ps[k])))
  }

  lemma {:induction false} NegotiationVersions(env: Env, st: State)
    requires env.pollMs > 0
    ensures VersionChain(env, st.version, WaitsOf(Negotiate(env, st).trace),
                         ProposalsOf(Negotiate(env, st).trace))
    decreases |st.fetches|
  {
    var r := Round(env, st);
    var rest := if r.Again? then Negotiate(env, r.next) else Run(r.result, []);
    NegotiateRound(env, st);
    assert Negotiate(env, st) == Then(r, rest);
    RoundChains(env, st);
    if r.Again? {
      NegotiationVersions(env, r.next);
    }
    ChainStep(env, st.version, r, rest);
  }

  /** How a round's end joins the run that follows it. */
  function Then(r: RoundEnd, rest: Run): Run {
    if r.Done? then Run(r.result, r.steps) else Run(rest.result, r.steps + rest.trace)
  }

  /** A negotiation is its first round, then, if that round goes on, the negotiation
      from the state it leaves. */
  lemma NegotiateRound(env: Env, st: State)
    requires env.pollMs > 0
    ensures Round(env, st).Done? ==> Negotiate(env, st) == Run(Round(env, st).result, Round(env, st).steps)
    ensures Round(env, st).Again? ==> Negotiate(env, st) == Then(Round(env, st), Negotiate(env, Round(env, st).next))
  {
  }

  /** What one round contributes to the version chain. */
  ghost predicate ChainsRound(env: Env, version: int, r: RoundEnd) {
    var ps := ProposalsOf(r.steps);
    && WaitsOf(r.steps) == [AfterVersion(version)]
    && |ps| <= 1 && (|ps| == 1 ==> ps[0].0 == UpdateFor(env, version, ps[0].0.toolArgs))
    && (r.Again? ==> |ps| == 1 && ps[0].1.Success? && !AutoResolved(ps[0].1) && r.next.version == NextVersion(ps[0]))
  }

  lemma RoundChains(env: Env, st: State)
    requires env.pollMs > 0
    ensures ChainsRound(env, st.version, Round(env, st))
  {
    RoundFacts(env, st);
  }

  /** A round followed by a chain from the version it leaves is a chain. */
  lemma ChainStep(env: Env, version: int, r: RoundEnd, rest: Run)
    requires ChainsRound(env, version, r)
    requires r.Again? ==> VersionChain(env, r.next.version, WaitsOf(rest.trace), ProposalsOf(rest.trace))
    ensures VersionChain(env, version, WaitsOf(Then(r, rest).trace), ProposalsOf(Then(r, rest).trace))
  {
    var ps := ProposalsOf(r.steps);
    if r.Again? {
      TraceAppend(r.steps, rest.trace);
      ChainExtend(env, version, ps[0], WaitsOf(rest.trace), ProposalsOf(rest.trace));
      assert ps == [ps[0]];
    } else {
      ChainLast(env, version, ps);
    }
  }

  /** A round that ended is a chain of one wait and at most one proposal. */
  lemma ChainLast(env: Env, version: int, ps: seq<(ProposalUpdate, Fetch)>)
    requires |ps| <= 1 && (|ps| == 1 ==> ps[0].0 == UpdateFor(env, version, ps[0].0.toolArgs))
    ensures VersionChain(env, version, [AfterVersion(version)], ps)
  {
  }

  /** A round that proposed `p` and went on puts one wait and one proposal in front of
      the chain of the rest of the run. */
  lemma ChainExtend(env: Env, version: int, p: (ProposalUpdate, Fetch), ws: seq<Option<int>>,
                    ps: seq<(ProposalUpdate, Fetch)>)
    requires p.0 == UpdateFor(env, version, p.0.toolArgs)
    requires p.1.Success? && !AutoResolved(p.1)
    requires VersionChain(env, NextVersion(p), ws, ps)
    ensures VersionChain(env, version, [AfterVersion(version)] + ws, [p] + ps)
  {
    var ws2 := [AfterVersion(version)] + ws;
    var ps2 := [p] + ps;
    forall k | 0 <= k < |ps2| ensures ps2[k].0 == UpdateFor(env, ps2[k].0.versionFrom, ps2[k].0.toolArgs) {
      if k > 0 { assert ps2[k] == ps[k - 1]; }
    }
    forall k | 0 <= k < |ps2| - 1
      ensures ps2[k].1.Success? && !AutoResolved(ps2[k].1) && ps2[k + 1].0.versionFrom == NextVersion(ps2[k])
    {
      assert ps2[k + 1] == ps[k];
      if k > 0 { assert ps2[k] == ps[k - 1]; }
    }
    forall k | 0 <= k < |ws2| - 1
      ensures k < |ps2| && ps2[k].1.Success? && !AutoResolved(ps2[k].1) &&
              ws2[k + 1] == AfterVersion(NextVersion(ps2[k]))
    {
      assert ws2[k + 1] == ws[k];
      if k > 0 { assert ps2[k] == ps[k - 1]; }
    }
  }

  /** The result of a run that ends right after proposal `p`: the error of a failed
      submission, or the outcome of the policy that resolved it. */
  predicate EndsWithProposal(env: Env, p: (ProposalUpdate, Fetch), result: Result<Outcome, Error>) {
    || (p.1.Failure? && result == Failure(p.1.error))
    || (p.1.Success? && p.1.value.status == Some("AUTO_ALLOWED") &&
        result == Success(AutoAllowed(env.requestId, p.0.toolArgs)))
    || (p.1.Success? && p.1.value.status == Some("AUTO_DENIED") &&
        result == Success(AutoDenied(env.requestId, AutoDeniedReason)))
  }

  /** How a run's outcome relates to its proposals: an outcome that carries arguments
      carries those of the last proposal, or `args` if there was none; a run that waits
      no more often than it proposes ended right after its last proposal. */
  ghost predicate OutcomeShape(env: Env, args: Dict, run: Run) {
    var ws := WaitsOf(run.trace);
    var ps := ProposalsOf(run.trace);
    && (run.result.Success? && ArgsOf(run.result.value).Some? ==>
          ArgsOf(run.result.value).value == (if |ps| == 0 then args else ps[|ps| - 1].0.toolArgs))
    && (|ws| <= |ps| ==> |ps| > 0 && EndsWithProposal(env, ps[|ps| - 1], run.result))
  }

  lemma {:induction false} NegotiationOutcome(env: Env, st: State)
    requires env.pollMs > 0
    ensures OutcomeShape(env, st.args, Negotiate(env, st))
    decreases |st.fetches|
  {
    var r := Round(env, st);
    var rest := if r.Again? then Negotiate(env, r.next) else Run(r.result, []);
    NegotiateRound(env, st);
    assert Negotiate(env, st) == Then(r, rest);
    RoundShapes(env, st);
    if r.Again? {
      NegotiationOutcome(env, r.next);
    }
    ShapeStep(env, st.version, st.args, r, rest);
  }

  /** What one round contributes to the shape of the outcome, `args` being the arguments
      it starts from. */
  ghost predicate ShapesRound(env: Env, version: int, args: Dict, r: RoundEnd) {
    var ps := ProposalsOf(r.steps);
    && WaitsOf(r.steps) == [AfterVersion(version)]
    && |ps| <= 1
    && (r.Again? ==> |ps| == 1 && r.next.args == ps[0].0.toolArgs)
    && (r.Done? && |ps| == 1 ==> EndsWithProposal(env, ps[0], r.result))
    && (r.Done? && r.result.Success? && ArgsOf(r.result.value).Some? ==>
          ArgsOf(r.result.value).value == (if |ps| == 0 then args else ps[0].0.toolArgs))
  }

  lemma RoundShapes(env: Env, st: State)
    requires env.pollMs > 0
    ensures ShapesRound(env, st.version, st.args, Round(env, st))
  {
    RoundFacts(env, st);
  }

  /** A round followed by a run of the right shape from the arguments it leaves has the
      right shape. */
  lemma ShapeStep(env: Env, version: int, args: Dict, r: RoundEnd, rest: Run)
    requires ShapesRound(env, version, args, r)
    requires r.Again? ==> OutcomeShape(env, r.next.args, rest)
    ensures OutcomeShape(env, args, Then(r, rest))
  {
    var ps := ProposalsOf(r.steps);
    if r.Again? {
      TraceAppend(r.steps, rest.trace);
      assert ps == [ps[0]];
      ShapeExtend(env, ps[0], rest, AfterVersion(version));
    }
  }

  /** A round that proposed `p` and went on leaves the shape of the rest of the run as it
      is, `p`'s arguments being the ones the rest starts from. */
  lemma ShapeExtend(env: Env, p: (ProposalUpdate, Fetch), rest: Run, after: Option<int>)
    requires OutcomeShape(env, p.0.toolArgs, rest)
    ensures var ws := [after] + WaitsOf(rest.trace);
            var ps := [p] + ProposalsOf(rest.trace);
            && (rest.result.Success? && ArgsOf(rest.result.value).Some? ==>
                  ArgsOf(rest.result.value).value == ps[|ps| - 1].0.toolArgs)
            && (|ws| <= |ps| ==> EndsWithProposal(env, ps[|ps| - 1], rest.result))
  {
    var ps := [p] + ProposalsOf(rest.trace);
    if |ProposalsOf(rest.trace)| > 0 {
      assert ps[|ps| - 1] == ProposalsOf(rest.trace)[|ProposalsOf(rest.trace)| - 1];
    }
  }

  /** A round calls the callback with the arguments it starts from and the revise input
      of the snapshot its wait returned ("" when the snapshot has none), and only when
      that snapshot asks for a revision. */
  lemma RoundReviseInput(env: Env, st: State)
    requires env.pollMs > 0
    ensures var rs := RevisionsOf(Round(env, st).steps);
            var w := Wait(st.fetches, AfterVersion(st.version),
                          EffectiveTimeout(None, env.expiresAt, st.clock, env.parse), env.pollMs, env.requestId).0;
            |rs| > 0 ==> w.Success? && Classify(w.value) == ReviseBranch &&
                         rs[0] == (st.args, w.value.reviseInput.GetOr(""), [])
  {
    var after := AfterVersion(st.version);
    var timeout := EffectiveTimeout(None, env.expiresAt, st.clock, env.parse);
    var (decision, fetched) := Wait(st.fetches, after, timeout, env.pollMs, env.requestId);
    RoundFacts(env, st);
    if decision.Failure? {
      RoundWaitFails(env, st, decision.error, fetched);
      TraceSingle(Waited(after, fetched));
    } else {
      RoundWaitAnswers(env, st, decision.value, fetched);
      DecideFacts(env, st, decision.value, fetched);
      var r := Round(env, st);
      assert r.steps[1..] == Decide(env, st, decision.value, fetched).steps;
    }
  }

  /** How the arguments evolve over a run that starts from `args`: the callback is first
      called on `args`, then each time on the previous proposal's arguments, always with
      an empty patch; each proposal carries exactly what the call before it returned; a
      call may have no proposal after it only when it failed, and then it is the last
      and the run ends with its error. */
  ghost predicate ArgsChain(env: Env, args: Dict, run: Run) {
    var rs := RevisionsOf(run.trace);
    var ps := ProposalsOf(run.trace);
    && (|rs| == |ps| || |rs| == |ps| + 1)
    && (|rs| > 0 ==> env.onRevise.Some? && rs[0].0 == args)
    && (forall k :: 0 <= k < |rs| ==> rs[k].2 == [])
    && (forall k :: 0 <= k < |ps| ==> CallbackOn(env, rs[k]) == Success(ps[k].0.toolArgs))
    && (forall k :: 0 <= k < |rs| - 1 ==> rs[k + 1].0 == ps[k].0.toolArgs)
    && (|rs| == |ps| + 1 ==>
          CallbackOn(env, rs[|ps|]).Failure? && run.result == Failure(CallbackOn(env, rs[|ps|]).error))
  }

  lemma {:induction false} NegotiationArgs(env: Env, st: State)
    requires env.pollMs > 0
    ensures ArgsChain(env, st.args, Negotiate(env, st))
    decreases |st.fetches|
  {
    var r := Round(env, st);
    var rest := if r.Again? then Negotiate(env, r.next) else Run(r.result, []);
    NegotiateRound(env, st);
    assert Negotiate(env, st) == Then(r, rest);
    RoundCalls(env, st);
    if r.Again? {
      NegotiationArgs(env, r.next);
    }
    ArgsStep(env, st.args, r, rest);
  }

  lemma RoundCalls(env: Env, st: State)
    requires env.pollMs > 0
    ensures CallsRound(env, st.args, Round(env, st))
  {
    RoundFacts(env, st);
    var r := Round(env, st);
    assert CallsRound(env, st.args, r.(steps := r.steps[1..]));
  }

  /** A round followed by a run whose arguments evolve as they should from the ones the
      round leaves is such a run. */
  lemma ArgsStep(env: Env, args: Dict, r: RoundEnd, rest: Run)
    requires CallsRound(env, args, r)
    requires r.Again? ==> ArgsChain(env, r.next.args, rest)
    ensures ArgsChain(env, args, Then(r, rest))
  {
    if r.Again? {
      var rs := RevisionsOf(r.steps);
      var ps := ProposalsOf(r.steps);
      RevisionsAppend(r.steps, rest.trace);
      ProposalsAppend(r.steps, rest.trace);
      assert rs == [rs[0]] && ps == [ps[0]];
      ArgsExtend(env, args, rs[0], ps[0], rest, r.steps + rest.trace);
    }
  }

  /** A trace holding one call and the proposal carrying its result in front of a run that
      goes on from that proposal's arguments. */
  lemma ArgsExtend(env: Env, args: Dict, call: (Dict, string, Dict), p: (ProposalUpdate, Fetch),
                   rest: Run, trace: seq<Step>)
    requires env.onRevise.Some? && call.0 == args && call.2 == []
    requires CallbackOn(env, call) == Success(p.0.toolArgs)
    requires ArgsChain(env, p.0.toolArgs, rest)
    requires RevisionsOf(trace) == [call] + RevisionsOf(rest.trace)
    requires ProposalsOf(trace) == [p] + ProposalsOf(rest.trace)
    ensures ArgsChain(env, args, Run(rest.result, trace))
  {
    var rs0 := RevisionsOf(rest.trace);
    var ps0 := ProposalsOf(rest.trace);
    var rs := [call] + rs0;
    var ps := [p] + ps0;
    forall k | 0 <= k < |rs| ensures rs[k].2 == [] {
      if k > 0 { assert rs[k] == rs0[k - 1]; }
    }
    forall k | 0 <= k < |ps| ensures CallbackOn(env, rs[k]) == Success(ps[k].0.toolArgs) {
      if k > 0 { assert rs[k] == rs0[k - 1] && ps[k] == ps0[k - 1]; }
    }
    forall k | 0 <= k < |rs| - 1 ensures rs[k + 1].0 == ps[k].0.toolArgs {
      assert rs[k + 1] == rs0[k];
      if k > 0 { assert ps[k] == ps0[k - 1]; }
    }
    if |rs| == |ps| + 1 {
      assert rs[|ps|] == rs0[|ps0|];
    }
  }

  /** A proposal whose submission failed or that policy resolved at once is the last
      one: no wait follows it, and the run ends with its error or policy's outcome. */
  lemma ShortCircuit(env: Env, st: State, k: nat)
    requires env.pollMs > 0
    requires var ps := ProposalsOf(Negotiate(env, st).trace);
             k < |ps| && (ps[k].1.Failure? || AutoResolved(ps[k].1))
    ensures var run := Negotiate(env, st);
            var ps := ProposalsOf(run.trace);
            && k == |ps| - 1 && |WaitsOf(run.trace)| == |ps|
            && EndsWithProposal(env, ps[k], run.result)
  {
    NegotiationVersions(env, st);
    NegotiationOutcome(env, st);
  }

  /** Every `after_version` a negotiation passes is absent or above 1. */
  lemma AfterVersionsValid(env: Env, st: State)
    requires env.pollMs > 0
    ensures forall v :: v in WaitsOf(Negotiate(env, st).trace) ==> v.None? || v.value > 1
  {
    NegotiationVersions(env, st);
    var ws := WaitsOf(Negotiate(env, st).trace);
    var ps := ProposalsOf(Negotiate(env, st).trace);
    forall v | v in ws ensures v.None? || v.value > 1 {
      var k :| 0 <= k < |ws| && ws[k] == v;
      if k > 0 {
        assert ws[k] == AfterVersion(NextVersion(ps[k - 1]));
      }
    }
  }

  /** When every reply that reports a version reports one above the proposal's own, the
      proposals of a negotiation are based on strictly increasing versions. */
  lemma VersionsIncrease(env: Env, st: State)
    requires env.pollMs > 0
    requires var ps := ProposalsOf(Negotiate(env, st).trace);
             forall k :: 0 <= k < |ps| && ps[k].1.Success? && ps[k].1.value.version.Some? ==>
               ps[k].1.value.version.value > ps[k].0.versionFrom
    ensures var ps := ProposalsOf(Negotiate(env, st).trace);
            forall k :: 0 <= k < |ps| - 1 ==> ps[k].0.versionFrom < ps[k + 1].0.versionFrom
  {
    NegotiationVersions(env, st);
  }

  /** A round whose first fetch ends the wait goes on as `Decide` says about it. */
  lemma FirstFetchDecides(env: Env, st: State)
    requires env.pollMs > 0
    requires |st.fetches| > 0 && st.fetches[0].Success?
    requires Stops(st.fetches[0].value, AfterVersion(st.version))
    ensures Round(env, st) == match Decide(env, st, st.fetches[0].value, 1)
                              case Done(result, steps) => Done(result, [Waited(AfterVersion(st.version), 1)] + steps)
                              case Again(steps, next) => Again([Waited(AfterVersion(st.version), 1)] + steps, next)
  {
    var timeout := EffectiveTimeout(None, env.expiresAt, st.clock, env.parse);
    TicksIsCeiling(timeout * 1000, env.pollMs);
    PollStep(st.fetches, AfterVersion(st.version), Ticks(timeout * 1000, env.pollMs), 0);
    RoundWaitAnswers(env, st, st.fetches[0].value, 1);
  }

  /** A round whose first fetch is skipped and whose second ends the wait goes on as
      `Decide` says about the second, when the interval leaves room for two fetches. */
  lemma SecondFetchDecides(env: Env, st: State)
    requires 0 < env.pollMs < 10000
    requires |st.fetches| > 1 && st.fetches[0].Success? && st.fetches[1].Success?
    requires !Stops(st.fetches[0].value, AfterVersion(st.version))
    requires Stops(st.fetches[1].value, AfterVersion(st.version))
    ensures Round(env, st) == match Decide(env, st, st.fetches[1].value, 2)
                              case Done(result, steps) => Done(result, [Waited(AfterVersion(st.version), 2)] + steps)
                              case Again(steps, next) => Again([Waited(AfterVersion(st.version), 2)] + steps, next)
  {
    var timeout := EffectiveTimeout(None, env.expiresAt, st.clock, env.parse);
    var n := Ticks(timeout * 1000, env.pollMs);
    TicksIsCeiling(timeout * 1000, env.pollMs);
    assert n > 1;
    PollStep(st.fetches, AfterVersion(st.version), n, 0);
    PollStep(st.fetches, AfterVersion(st.version), n - 1, 1);
    RoundWaitAnswers(env, st, st.fetches[1].value, 2);
  }

  /** The revise callback of the approval-loop tests: append " - revised" to the text. */
  function AppendRevised(args: Dict, input: string, patch: Dict): Result<Dict, Error> {
    match Get(args, "text")
    case Some(JStr(t)) => Success([("text", JStr(t + " - revised"))])
    case _ => Failure(ForeignError("KeyError: 'text'"))
  }

  function Decided(status: string, version: int, decision: string, input: Option<string>): Snapshot {
    Snapshot(Some(status), Some(version), Some(decision), None, input)
  }

  function Submitted(status: string, version: int): Snapshot {
    Snapshot(Some(status), Some(version), None, None, None)
  }

  /** A revise request at version 1 with a callback: the callback's arguments are proposed
      from version 1, the gateway moves the request to version 2, and the approval read
      next is returned with the revised arguments and version 2. The run waits twice, the
      second time after version 2, and calls the callback and submits once in between. */
  lemma ReviseThenApprove(env: Env, now: int)
    requires env.pollMs > 0 && env.onRevise == Some(AppendRevised)
    ensures var original := [("text", JStr("hello"))];
            var revised := [("text", JStr("hello - revised"))];
            Negotiate(env, State(1, original, now, [ReviseAt1, ApproveAt2], [PendingAt2]))
              == Run(Success(Approved(env.requestId, revised, 2)),
                     [Waited(None, 1), Revised(original, "add signature", []),
                      Proposed(UpdateFor(env, 1, revised), PendingAt2), Waited(Some(2), 1)])
  {
    var original := [("text", JStr("hello"))];
    var revised := [("text", JStr("hello - revised"))];
    var st := State(1, original, now, [ReviseAt1, ApproveAt2], [PendingAt2]);
    ReviseThenApproveFirst(env, now);
    ReviseThenApproveSecond(env, now);
    NegotiateRound(env, st);
    NegotiateRound(env, State(2, revised, now, [ApproveAt2], []));
  }

  const ReviseAt1: Fetch := Success(Decided("REVISE_REQUESTED", 1, "revise", Some("add signature")))
  const ApproveAt2: Fetch := Success(Decided("APPROVED", 2, "approve", None))
  const PendingAt2: Fetch := Success(Submitted("PENDING", 2))

  /** The first round of `ReviseThenApprove`: wait, revise, propose, go on at version 2. */
  lemma ReviseThenApproveFirst(env: Env, now: int)
    requires env.pollMs > 0 && env.onRevise == Some(AppendRevised)
    ensures var original := [("text", JStr("hello"))];
            var revised := [("text", JStr("hello - revised"))];
            Round(env, State(1, original, now, [ReviseAt1, ApproveAt2], [PendingAt2]))
              == Again([Waited(None, 1), Revised(original, "add signature", []),
                        Proposed(UpdateFor(env, 1, revised), PendingAt2)],
                       State(2, revised, now, [ApproveAt2], []))
  {
    var st := State(1, [("text", JStr("hello"))], now, [ReviseAt1, ApproveAt2], [PendingAt2]);
    FirstFetchDecides(env, st);
    assert Classify(ReviseAt1.value) == ReviseBranch;
    ReviseAt1Proposes(env, now);
  }

  /** The revision of `ReviseThenApproveFirst`: the callback appends to the text, the
      proposal from version 1 is left pending at version 2. */
  lemma ReviseAt1Proposes(env: Env, now: int)
    requires env.pollMs > 0 && env.onRevise == Some(AppendRevised)
    ensures var original := [("text", JStr("hello"))];
            var revised := [("text", JStr("hello - revised"))];
            Revise(env, State(1, original, now, [ReviseAt1, ApproveAt2], [PendingAt2]), "add signature", 1)
              == Again([Revised(original, "add signature", []),
                        Proposed(UpdateFor(env, 1, revised), PendingAt2)],
                       State(2, revised, now, [ApproveAt2], []))
  {
    var original := [("text", JStr("hello"))];
    GetFirst(original, 0);
    assert "hello" + " - revised" == "hello - revised";
    assert AppendRevised(original, "add signature", []) == Success([("text", JStr("hello - revised"))]);
  }

  /** The second round of `ReviseThenApprove`: the approval after version 2 ends it. */
  lemma ReviseThenApproveSecond(env: Env, now: int)
    requires env.pollMs > 0
    ensures var revised := [("text", JStr("hello - revised"))];
            Round(env, State(2, revised, now, [ApproveAt2], []))
              == Done(Success(Approved(env.requestId, revised, 2)), [Waited(Some(2), 1)])
  {
    FirstFetchDecides(env, State(2, [("text", JStr("hello - revised"))], now, [ApproveAt2], []));
  }

  /** A revise request without a callback is handed back with the request's input, the
      current arguments and version, after a single wait. */
  lemma ReviseWithoutCallback(env: Env, now: int)
    requires env.pollMs > 0 && env.onRevise.None?
    ensures var current := [("text", JStr("hello"))];
            Negotiate(env, State(1, current, now,
                                 [Success(Decided("REVISE_REQUESTED", 1, "revise", Some("add greeting")))], []))
              == Run(Success(ReviseRequested(env.requestId, "add greeting", current, 1)), [Waited(None, 1)])
  {
    FirstFetchDecides(env, State(1, [("text", JStr("hello"))], now,
                                 [Success(Decided("REVISE_REQUESTED", 1, "revise", Some("add greeting")))], []));
  }

  /** The revise callback that always proposes safe content. */
  function SafeContent(args: Dict, input: string, patch: Dict): Result<Dict, Error> {
    Success([("text", JStr("safe content"))])
  }

  /** Policy auto-allowing the revised proposal ends the loop at once with the revised
      arguments: one wait, one proposal, no further read. */
  lemma AutoAllowedAfterProposal(env: Env, now: int)
    requires env.pollMs > 0 && env.onRevise == Some(SafeContent)
    ensures var original := [("text", JStr("risky"))];
            var safe := [("text", JStr("safe content"))];
            var allowed := Success(Submitted("AUTO_ALLOWED", 2));
            Negotiate(env, State(1, original, now,
                                 [Success(Decided("REVISE_REQUESTED", 1, "revise", Some("make it safer")))],
                                 [allowed]))
              == Run(Success(AutoAllowed(env.requestId, safe)),
                     [Waited(None, 1), Revised(original, "make it safer", []),
                      Proposed(UpdateFor(env, 1, safe), allowed)])
  {
    FirstFetchDecides(env, State(1, [("text", JStr("risky"))], now,
                                 [Success(Decided("REVISE_REQUESTED", 1, "revise", Some("make it safer")))],
                                 [Success(Submitted("AUTO_ALLOWED", 2))]));
  }

  /** The revise callback of the two-revision test, as a function of the request's input. */
  function NumberedRevision(args: Dict, input: string, patch: Dict): Result<Dict, Error> {
    Success([("text", JStr(if input == "change 1" then "revision-1" else "revision-2"))])
  }

  const ReviseOne: Fetch := Success(Decided("REVISE_REQUESTED", 1, "revise", Some("change 1")))
  const ReviseTwo: Fetch := Success(Decided("REVISE_REQUESTED", 2, "revise", Some("change 2")))
  const ApproveAt3: Fetch := Success(Decided("APPROVED", 3, "approve", None))
  const PendingAt3: Fetch := Success(Submitted("PENDING", 3))

  /** Two revise requests, the second reported at version 2, then an approval at version 3,
      behind the real staleness filter: after the first proposal moves the request to
      version 2, the second revise request is read as stale and skipped, so the first
      revision is the one approved, after a single proposal; the second wait reads twice. */
  lemma SecondReviseSkipped(env: Env, now: int)
    requires 0 < env.pollMs < 10000 && env.onRevise == Some(NumberedRevision)
    ensures var original := [("text", JStr("original"))];
            var first := [("text", JStr("revision-1"))];
            Negotiate(env, State(1, original, now, [ReviseOne, ReviseTwo, ApproveAt3], [PendingAt2, PendingAt3]))
              == Run(Success(Approved(env.requestId, first, 3)),
                     [Waited(None, 1), Revised(original, "change 1", []),
                      Proposed(UpdateFor(env, 1, first), PendingAt2), Waited(Some(2), 2)])
  {
    var st := State(1, [("text", JStr("original"))], now, [ReviseOne, ReviseTwo, ApproveAt3], [PendingAt2, PendingAt3]);
    SecondReviseSkippedFirst(env, now);
    SecondReviseSkippedSecond(env, now);
    NegotiateRound(env, st);
    NegotiateRound(env, State(2, [("text", JStr("revision-1"))], now, [ReviseTwo, ApproveAt3], [PendingAt3]));
  }

  /** The first round of `SecondReviseSkipped`: the first revision, proposed from version 1. */
  lemma SecondReviseSkippedFirst(env: Env, now: int)
    requires env.pollMs > 0 && env.onRevise == Some(NumberedRevision)
    ensures var original := [("text", JStr("original"))];
            var first := [("text", JStr("revision-1"))];
            Round(env, State(1, original, now, [ReviseOne, ReviseTwo, ApproveAt3], [PendingAt2, PendingAt3]))
              == Again([Waited(None, 1), Revised(original, "change 1", []),
                        Proposed(UpdateFor(env, 1, first), PendingAt2)],
                       State(2, first, now, [ReviseTwo, ApproveAt3], [PendingAt3]))
  {
    var st := State(1, [("text", JStr("original"))], now, [ReviseOne, ReviseTwo, ApproveAt3], [PendingAt2, PendingAt3]);
    FirstFetchDecides(env, st);
    assert st.fetches[1..] == [ReviseTwo, ApproveAt3];
  }

  /** The second round of `SecondReviseSkipped`: the revise request at version 2 is skipped
      and the approval read after it ends the wait. */
  lemma SecondReviseSkippedSecond(env: Env, now: int)
    requires 0 < env.pollMs < 10000
    ensures var first := [("text", JStr("revision-1"))];
            Round(env, State(2, first, now, [ReviseTwo, ApproveAt3], [PendingAt3]))
              == Done(Success(Approved(env.requestId, first, 3)), [Waited(Some(2), 2)])
  {
    SecondFetchDecides(env, State(2, [("text", JStr("revision-1"))], now, [ReviseTwo, ApproveAt3], [PendingAt3]));
  }

  /** The whole of `run_approval_loop`: register with the context as a dict, return at
      once on ALLOW (the original arguments) or DENY (the policy's reason), and otherwise
      negotiate from version 1 with the original arguments. */
  function ApprovalRun(cfg: ClientConfig, toolName: string, toolArgs: Dict, context: ContextArg,
                       gateway: Gateway, onRevise: Option<ReviseCallback>, pollMs: int,
                       parse: string -> Option<int>, now: int): (run: Run)
    requires pollMs > 0
  {
    var ctx := NormalizeContext(context);
    var registration := BeforeExecute(cfg, toolName, toolArgs, MapContext(ctx), gateway.register);
    match registration.verdict
    case Failure(e) => Run(Failure(e), [])
    case Success(verdict) =>
      if verdict.action == ALLOW then Run(Success(Allow(toolArgs)), [])
      else if verdict.action == DENY then Run(Success(Deny(verdict.reason)), [])
      else
        var env := Env(verdict.requestId, toolName, ctx, verdict.expiresAt, pollMs, onRevise, parse);
        Negotiate(env, State(1, toolArgs, now, gateway.fetches, gateway.proposals))
  }

  /** `run_approval_loop` returns at once, having waited for nothing, exactly when the
      registration failed or policy answered ALLOW (with the original arguments) or DENY
      (with its reason). Otherwise the first wait has no `after_version` and the first
      proposal, if any, is based on version 1. */
  lemma ImmediateVerdicts(cfg: ClientConfig, toolName: string, toolArgs: Dict, context: ContextArg,
                          gateway: Gateway, onRevise: Option<ReviseCallback>, pollMs: int,
                          parse: string -> Option<int>, now: int)
    requires pollMs > 0
    ensures var run := ApprovalRun(cfg, toolName, toolArgs, context, gateway, onRevise, pollMs, parse, now);
            var v := BeforeExecute(cfg, toolName, toolArgs, MapContext(NormalizeContext(context)),
                                   gateway.register).verdict;
            && (v.Failure? ==> run == Run(Failure(v.error), []))
            && (v.Success? && v.value.action == ALLOW ==> run == Run(Success(Allow(toolArgs)), []))
            && (v.Success? && v.value.action == DENY ==> run == Run(Success(Deny(v.value.reason)), []))
            && (run.trace == [] <==> !(v.Success? && v.value.action == REQUIRE_APPROVAL))
            && (run.trace != [] ==>
                  && WaitsOf(run.trace)[0] == None
                  && (ProposalsOf(run.trace) != [] ==> ProposalsOf(run.trace)[0].0.versionFrom == 1))
  {
    var ctx := NormalizeContext(context);
    var v := BeforeExecute(cfg, toolName, toolArgs, MapContext(ctx), gateway.register).verdict;
    if v.Success? && v.value.action == REQUIRE_APPROVAL {
      var env := Env(v.value.requestId, toolName, ctx, v.value.expiresAt, pollMs, onRevise, parse);
      NegotiationVersions(env, State(1, toolArgs, now, gateway.fetches, gateway.proposals));
    }
  }

  /** `DharaHILClient.run_approval_loop`. The result is the outcome dict, or the error that
      propagated out of it; `trace` records every wait, callback call and proposal. */
  method RunApprovalLoop(cfg: ClientConfig, toolName: string, toolArgs: Dict, context: ContextArg,
                         gateway: Gateway, onRevise: Option<ReviseCallback>, pollMs: int,
                         parse: string -> Option<int>, now: int)
    returns (result: Result<Outcome, Error>, trace: seq<Step>)
    requires pollMs > 0
    ensures Run(result, trace) ==
            ApprovalRun(cfg, toolName, toolArgs, context, gateway, onRevise, pollMs, parse, now)
  {
    var ctx := NormalizeContext(context);
    var registration := BeforeExecute(cfg, toolName, toolArgs, MapContext(ctx), gateway.register);
    trace := [];
    if registration.verdict.Failure? {
      result := Failure(registration.verdict.error);
      return;
    }
    var verdict := registration.verdict.value;
    if verdict.action == ALLOW {
      result := Success(Allow(toolArgs));
      return;
    }
    if verdict.action == DENY {
      result := Success(Deny(verdict.reason));
      return;
    }
    var env := Env(verdict.requestId, toolName, ctx, verdict.expiresAt, pollMs, onRevise, parse);
    result, trace := NegotiateLoop(env, toolArgs, now, gateway.fetches, gateway.proposals);
  }

  /** The `while True` loop of `run_approval_loop`, from version 1 and the original
      arguments: each round waits, then acts on the decision (`DecideStep`). */
  method NegotiateLoop(env: Env, toolArgs: Dict, now: int, fetchScript: seq<Fetch>,
                       proposalScript: seq<Fetch>)
    returns (result: Result<Outcome, Error>, trace: seq<Step>)
    requires env.pollMs > 0
    ensures Run(result, trace) == Negotiate(env, State(1, toolArgs, now, fetchScript, proposalScript))
  {
    ghost var whole := Negotiate(env, State(1, toolArgs, now, fetchScript, proposalScript));
    var st := State(1, toolArgs, now, fetchScript, proposalScript);
    trace := [];
    while true
      invariant Negotiate(env, st).result == whole.result
      invariant trace + Negotiate(env, st).trace == whole.trace
      decreases |st.fetches|
    {
      var after := if st.version > 1 then Some(st.version) else None;
      var decisionData, fetched, clockAfter :=
        WaitForDecision(env.requestId, st.fetches, None, env.expiresAt, env.pollMs, after, st.clock, env.parse);
      if decisionData.Failure? {
        RoundWaitFails(env, st, decisionData.error, fetched);
        result := Failure(decisionData.error);
        trace := trace + [Waited(after, fetched)];
        return;
      }
      RoundWaitAnswers(env, st, decisionData.value, fetched);
      NegotiateRound(env, st);
      var end := DecideStep(env, st, decisionData.value, fetched, clockAfter);
      if end.Done? {
        result := end.result;
        trace := trace + ([Waited(after, fetched)] + end.steps);
        return;
      }
      assert Round(env, st) == Again([Waited(after, fetched)] + end.steps, end.next);
      trace := trace + ([Waited(after, fetched)] + end.steps);
      st := end.next;
    }
  }

  /** The body of the loop once a decision is in: the branches in the order the source
      tests them. */
  method DecideStep(env: Env, st: State, data: Snapshot, fetched: nat, clockAfter: int)
    returns (end: RoundEnd)
    requires 0 < fetched <= |st.fetches|
    requires clockAfter == st.clock + env.pollMs * (fetched - 1)
    ensures end == Decide(env, st, data, fetched)
  {
    var requestId := env.requestId;
    var currentVersion := st.version;
    var currentArgs := st.args;
    var decision := data.lastDecision;
    var status := StatusOf(data);
    if decision == Some("approve") || status == "APPROVED" {
      return Done(Success(Approved(requestId, currentArgs, data.version.GetOr(currentVersion))), []);
    }
    if decision == Some("reject") || status == "REJECTED" {
      return Done(Success(Rejected(requestId, data.note.GetOr(""), data.version.GetOr(currentVersion))), []);
    }
    if status == "AUTO_ALLOWED" {
      return Done(Success(AutoAllowed(requestId, currentArgs)), []);
    }
    if status == "AUTO_DENIED" {
      return Done(Success(AutoDenied(requestId, AutoDeniedReason)), []);
    }
    if status == "EXPIRED" {
      return Done(Success(Expired(requestId)), []);
    }
    if !(decision == Some("revise") || status == "REVISE_REQUESTED") {
      return Done(Success(Unknown(if status != "" then status else "UNKNOWN", requestId, data)), []);
    }
    var reviseInput := data.reviseInput.GetOr("");
    end := ReviseStep(env, st, reviseInput, fetched, clockAfter);
  }

  /** The revision branch: hand the request back without a callback, otherwise run the
      callback, redact its arguments, submit them, and stop if policy resolves the
      proposal. */
  method ReviseStep(env: Env, st: State, reviseInput: string, fetched: nat, clockAfter: int)
    returns (end: RoundEnd)
    requires 0 < fetched <= |st.fetches|
    requires clockAfter == st.clock + env.pollMs * (fetched - 1)
    ensures end == Revise(env, st, reviseInput, fetched)
  {
    var requestId := env.requestId;
    var currentVersion := st.version;
    var currentArgs := st.args;
    var ctx := env.ctx;
    var revisePatch: Dict := [];
    if env.onRevise.None? {
      end := Done(Success(ReviseRequested(requestId, reviseInput, currentArgs, currentVersion)), []);
      assert end == Revise(env, st, reviseInput, fetched);
      return;
    }
    var updatedArgs := env.onRevise.value(currentArgs, reviseInput, revisePatch);
    var steps := [Revised(currentArgs, reviseInput, revisePatch)];
    if updatedArgs.Failure? {
      end := Done(Failure(updatedArgs.error), steps);
      assert end == Revise(env, st, reviseInput, fetched);
      return;
    }
    currentArgs := updatedArgs.value;
    var redactedArgs, _ := Redact(currentArgs);
    var contextSummary := GetOr(ctx, "context_summary", JStr(""));
    var riskLevel := GetOr(ctx, "risk_level", JStr("MEDIUM"));
    var tags := GetOr(ctx, "tags", JArr([]));
    var update := ProposalUpdate(currentVersion, env.toolName, currentArgs, redactedArgs,
                                 contextSummary, riskLevel, tags, JNull);
    assert update == UpdateFor(env, st.version, currentArgs) by {
      assert redactedArgs == Redacted(currentArgs);
    }
    var _, proposalResp := SubmitProposalUpdate(update, FetchAt(st.proposals, 0));
    steps := steps + [Proposed(update, proposalResp)];
    if proposalResp.Failure? {
      end := Done(Failure(proposalResp.error), steps);
      assert end == Revise(env, st, reviseInput, fetched);
      return;
    }
    currentVersion := proposalResp.value.version.GetOr(currentVersion + 1);
    var newStatus := proposalResp.value.status;
    if newStatus == Some("AUTO_ALLOWED") {
      end := Done(Success(AutoAllowed(requestId, currentArgs)), steps);
      assert end == Revise(env, st, reviseInput, fetched);
      return;
    }
    if newStatus == Some("AUTO_DENIED") {
      end := Done(Success(AutoDenied(requestId, AutoDeniedReason)), steps);
      assert end == Revise(env, st, reviseInput, fetched);
      return;
    }
    ghost var revised := Revised(st.args, reviseInput, []);
    ghost var proposed := Proposed(UpdateFor(env, st.version, currentArgs), FetchAt(st.proposals, 0));
    assert steps == [revised] + [proposed];
    ghost var next := State(currentVersion, currentArgs, clockAfter, st.fetches[fetched..], Rest(st.proposals));
    assert next == State(proposalResp.value.version.GetOr(st.version + 1), currentArgs,
                                  st.clock + env.pollMs * (fetched - 1),
                                  st.fetches[fetched..], Rest(st.proposals));
    end := Again(steps, State(currentVersion, currentArgs, clockAfter, st.fetches[fetched..], Rest(st.proposals)));
  }
}
