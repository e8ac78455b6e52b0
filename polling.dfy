/** `wait_for_decision` (dharahil/client.py): choosing the wait's timeout, the staleness
    filter applied to each status snapshot, and the polling loop.

    Time is an integer number of milliseconds. The gateway's answers to successive
    `get_request` calls are a script, `fetch[k]` being the answer to the k-th call; a call
    past the end of the script fails with a transport error. */
module Polling {
  import opened Wrappers
  import opened Errors
  import opened Client

  /** `last.get("status", "")`. */
  function StatusOf(s: Snapshot): string {
    s.status.GetOr("")
  }

  /** `last.get("version", 1)`. */
  function VersionOf(s: Snapshot): int {
    s.version.GetOr(1)
  }

  /** The two statuses in which a request is still waiting for a human. */
  predicate Waiting(status: string) {
    status == "PENDING" || status == "REVISE_REQUESTED"
  }

  /** A decision the filter sets aside as belonging to an earlier round: the request is
      still waiting, at the version the caller is waiting after or a later one. */
  predicate IsStale(s: Snapshot, after: Option<int>) {
    after.Some? && s.lastDecision.Some? && Waiting(StatusOf(s)) && VersionOf(s) >= after.value
  }

  /** `has_decision` once the staleness filter has run. */
  predicate HasDecision(s: Snapshot, after: Option<int>) {
    s.lastDecision.Some? && !IsStale(s, after)
  }

  /** The snapshot ends the wait: a fresh decision, or a status that no longer waits. */
  predicate Stops(s: Snapshot, after: Option<int>) {
    HasDecision(s, after) || !Waiting(StatusOf(s))
  }

  /** The filter as a direct rule: a request that is no longer waiting always ends the
      wait; one that is still waiting ends it only with a decision and, when the caller
      waits after a version, a snapshot version below that version. */
  lemma StopsRule(s: Snapshot, after: Option<int>)
    ensures !Waiting(StatusOf(s)) ==> Stops(s, after)
    ensures Waiting(StatusOf(s)) ==>
      (Stops(s, after) <==> s.lastDecision.Some? && (after.None? || VersionOf(s) < after.value))
  {
  }

  /** Without `after_version` nothing is filtered: any decision ends the wait. */
  lemma NoFilterWithoutAfter(s: Snapshot)
    ensures HasDecision(s, None) <==> s.lastDecision.Some?
    ensures Stops(s, None) <==> s.lastDecision.Some? || !Waiting(StatusOf(s))
  {
  }

  /** `int(x)` of a quotient: division truncating toward zero. */
  function TruncDiv(a: int, b: int): (q: int)
    requires b > 0
    ensures a >= 0 ==> 0 <= a - q * b < b
    ensures a < 0 ==> -b < a - q * b <= 0
  {
    if a >= 0 then a / b else -((-a) / b)
  }

  function Max(a: int, b: int): int {
    if a >= b then a else b
  }

  /** The wait's timeout in seconds. An explicit timeout wins; otherwise an `expires_at`
      that parses (`parse` yields its instant in milliseconds; `now` is the clock) gives
      the whole seconds left plus a 5 s buffer, at least 10 s; otherwise 600 s. */
  function EffectiveTimeout(timeoutSeconds: Option<int>, expiresAt: Option<string>, now: int,
                            parse: string -> Option<int>): (t: int)
    ensures timeoutSeconds.Some? ==> t == timeoutSeconds.value
    ensures timeoutSeconds.None? ==> t >= 10
    ensures (timeoutSeconds.None? &&
             (expiresAt.None? || expiresAt.value == "" || parse(expiresAt.value).None?)) ==> t == 600
    ensures (timeoutSeconds.None? && expiresAt.Some? && expiresAt.value != "" &&
             parse(expiresAt.value).Some?) ==>
              // the wait outlasts the expiry by more than 4 s, and by at most 5 s unless
              // the 10 s minimum applies
              && now + t * 1000 > parse(expiresAt.value).value + 4000
              && (t == 10 || now + t * 1000 <= parse(expiresAt.value).value + 5000)
  {
    if timeoutSeconds.Some? then timeoutSeconds.value
    else if expiresAt.Some? && expiresAt.value != "" then
      match parse(expiresAt.value)
      case Some(expiry) => Max(TruncDiv(expiry - now, 1000) + 5, 10)
      case None => 600
    else 600
  }

  /** How many times a wait whose deadline is `window` ms away fetches, when no snapshot
      ends it, polling every `pollMs` ms. */
  function Ticks(window: int, pollMs: int): nat
    requires pollMs > 0
    decreases window
  {
    if window <= 0 then 0 else 1 + Ticks(window - pollMs, pollMs)
  }

  /** A wait that never ends early fetches ceil(window / pollMs) times: the last fetch
      is the one whose instant is still before the deadline. */
  lemma {:induction false} TicksIsCeiling(window: int, pollMs: int)
    requires pollMs > 0
    ensures window <= 0 ==> Ticks(window, pollMs) == 0
    ensures window > 0 ==>
      (Ticks(window, pollMs) - 1) * pollMs < window <= Ticks(window, pollMs) * pollMs
    decreases window
  {
    if window > 0 {
      var rest := Ticks(window - pollMs, pollMs);
      TicksIsCeiling(window - pollMs, pollMs);
      assert Ticks(window, pollMs) == rest + 1;
      assert (rest + 1) * pollMs == rest * pollMs + pollMs;
      if window - pollMs > 0 {
        assert (rest - 1) * pollMs == rest * pollMs - pollMs;
      }
    }
  }

  /** One second polled every 300 ms is four fetches. */
  lemma TicksOneSecondEvery300()
    ensures Ticks(1000, 300) == 4
  {
  }

  /** The k-th answer of a script. */
  function FetchAt(script: seq<Fetch>, k: nat): Fetch {
    if k < |script| then script[k] else Failure(TransportError)
  }

  /** The k-th fetch returned a snapshot that did not end the wait. */
  predicate Skipped(script: seq<Fetch>, after: Option<int>, k: nat) {
    FetchAt(script, k).Success? && !Stops(FetchAt(script, k).value, after)
  }

  datatype PollOutcome = Answered(snapshot: Snapshot) | FetchFailed(error: Error) | TimedOut

  /** Polling from fetch `i` with `n` fetches left before the deadline: the outcome and
      the number of fetches made so far. The wait ends at the first fetch that fails or
      returns a snapshot that stops it; every fetch before that was skipped. */
  function PollFrom(script: seq<Fetch>, after: Option<int>, n: nat, i: nat): (r: (PollOutcome, nat))
    ensures i <= r.1 <= i + n
    ensures r.0.TimedOut? <==> r.1 == i + n && forall k :: i <= k < i + n ==> Skipped(script, after, k)
    ensures !r.0.TimedOut? ==> i < r.1 && forall k :: i <= k < r.1 - 1 ==> Skipped(script, after, k)
    ensures r.0.Answered? ==>
              FetchAt(script, r.1 - 1) == Success(r.0.snapshot) && Stops(r.0.snapshot, after)
    ensures r.0.FetchFailed? ==> FetchAt(script, r.1 - 1) == Failure(r.0.error)
    decreases n
  {
    if n == 0 then (TimedOut, i)
    else
      match FetchAt(script, i)
      case Failure(e) =>
        assert !Skipped(script, after, i);
        (FetchFailed(e), i + 1)
      case Success(s) =>
        if Stops(s, after) then
          assert !Skipped(script, after, i);
          (Answered(s), i + 1)
        else
          PollFrom(script, after, n - 1, i + 1)
  }

  /** What a wait returns, and how many fetches it made: the snapshot that ended it, the
      error a fetch raised, or a `TimeoutError` naming the request and the timeout. */
  function Wait(script: seq<Fetch>, after: Option<int>, timeout: int, pollMs: int,
                requestId: Option<string>): (r: (Result<Snapshot, Error>, nat))
    requires pollMs > 0
  {
    var (outcome, fetched) := PollFrom(script, after, Ticks(timeout * 1000, pollMs), 0);
    match outcome
    case Answered(s) => (Success(s), fetched)
    case FetchFailed(e) => (Failure(e), fetched)
    case TimedOut => (Failure(TimeoutError(requestId, timeout)), fetched)
  }

  /** What a wait means in terms of the fetches: it succeeds with the first snapshot that
      ends it, every earlier one skipped; it fails with the error of the fetch that raised,
      every earlier one skipped; or it raises `TimeoutError` after the full number of
      fetches, all skipped. It never fetches more than `Ticks` times. */
  lemma WaitOutcome(script: seq<Fetch>, after: Option<int>, timeout: int, pollMs: int,
                    requestId: Option<string>)
    requires pollMs > 0
    ensures var (r, fetched) := Wait(script, after, timeout, pollMs, requestId);
      && fetched <= Ticks(timeout * 1000, pollMs)
      && (r.Success? ==>
            && 0 < fetched
            && FetchAt(script, fetched - 1) == Success(r.value) && Stops(r.value, after)
            && forall k :: 0 <= k < fetched - 1 ==> Skipped(script, after, k))
      && (r.Failure? ==>
            || (0 < fetched && FetchAt(script, fetched - 1) == Failure(r.error) &&
                forall k :: 0 <= k < fetched - 1 ==> Skipped(script, after, k))
            || (fetched == Ticks(timeout * 1000, pollMs) &&
                r.error == TimeoutError(requestId, timeout) &&
                forall k :: 0 <= k < fetched ==> Skipped(script, after, k)))
  {
  }

  /** A wait with a timeout that is not positive fetches nothing and raises at once. */
  lemma NonPositiveTimeoutRaises(script: seq<Fetch>, after: Option<int>, timeout: int,
                                 pollMs: int, requestId: Option<string>)
    requires pollMs > 0 && timeout <= 0
    ensures Wait(script, after, timeout, pollMs, requestId) ==
            (Failure(TimeoutError(requestId, timeout)), 0)
  {
  }

  /** A decided snapshot reporting a version behind the awaited one is not filtered: it
      ends the wait, whatever its status. */
  lemma LaggingDecisionEndsWait(s: Snapshot, after: Option<int>)
    requires after.Some? && s.lastDecision.Some? && VersionOf(s) < after.value
    ensures HasDecision(s, after) && Stops(s, after)
  {
  }

  /** A revise request at exactly the awaited version is filtered like a stale one. */
  lemma SameVersionReviseIsSkipped(s: Snapshot, after: Option<int>)
    requires after.Some? && StatusOf(s) == "REVISE_REQUESTED" && VersionOf(s) == after.value
    ensures !Stops(s, after)
  {
  }

  function Snap(status: string, version: int, decision: Option<string>): Snapshot {
    Snapshot(Some(status), Some(version), decision, None, None)
  }

  /** After submitting version 2, two reads still reporting the revise at version 2 are
      skipped and the third, approved at version 2, ends the wait. */
  lemma StaleRevisesSkipped()
    ensures var stale := Snap("REVISE_REQUESTED", 2, Some("revise"));
            var approved := Snap("APPROVED", 2, Some("approve"));
            Wait([Success(stale), Success(stale), Success(approved)], Some(2), 10, 10, Some("req1"))
              == (Success(approved), 3)
  {
    var stale := Snap("REVISE_REQUESTED", 2, Some("revise"));
    var approved := Snap("APPROVED", 2, Some("approve"));
    var script := [Success(stale), Success(stale), Success(approved)];
    TicksIsCeiling(10000, 10);
    PollStep(script, Some(2), Ticks(10000, 10), 0);
    PollStep(script, Some(2), Ticks(10000, 10) - 1, 1);
    PollStep(script, Some(2), Ticks(10000, 10) - 2, 2);
  }

  /** Without `after_version` the first decided read ends the wait. */
  lemma FirstDecisionWithoutAfter()
    ensures var revise := Snap("REVISE_REQUESTED", 2, Some("revise"));
            Wait([Success(revise)], None, 5, 10, Some("req1")) == (Success(revise), 1)
  {
    var revise := Snap("REVISE_REQUESTED", 2, Some("revise"));
    TicksIsCeiling(5000, 10);
    PollStep([Success(revise)], None, Ticks(5000, 10), 0);
  }

  /** A request left pending, waited on for 1 s every 300 ms, is fetched four times and
      then raises `TimeoutError` naming the request and the timeout. */
  lemma PendingTimesOut()
    ensures var pending := Snap("PENDING", 1, None);
            Wait([Success(pending), Success(pending), Success(pending), Success(pending)],
                 None, 1, 300, Some("req-6"))
              == (Failure(TimeoutError(Some("req-6"), 1)), 4)
  {
  }

  /** A second, genuine revise request reported at the version just submitted is never
      acted on: a wait after version 2 that only ever reads it times out. */
  lemma SecondReviseAtSameVersionTimesOut()
    ensures var revise := Snap("REVISE_REQUESTED", 2, Some("revise"));
            Wait([Success(revise), Success(revise), Success(revise), Success(revise)],
                 Some(2), 1, 300, Some("req1"))
              == (Failure(TimeoutError(Some("req1"), 1)), 4)
  {
  }

  /** One step of the poll: the fetch at `i` ends it or the poll goes on from `i + 1`. */
  lemma PollStep(script: seq<Fetch>, after: Option<int>, n: nat, i: nat)
    requires n > 0
    ensures FetchAt(script, i).Failure? ==>
              PollFrom(script, after, n, i) == (FetchFailed(FetchAt(script, i).error), i + 1)
    ensures FetchAt(script, i).Success? && Stops(FetchAt(script, i).value, after) ==>
              PollFrom(script, after, n, i) == (Answered(FetchAt(script, i).value), i + 1)
    ensures Skipped(script, after, i) ==>
              PollFrom(script, after, n, i) == PollFrom(script, after, n - 1, i + 1)
  {
  }

  /** `wait_for_decision`. The sleeps advance the clock, which is returned with the
      result and the number of fetches made. */
  method WaitForDecision(requestId: Option<string>, script: seq<Fetch>,
                         timeoutSeconds: Option<int>, expiresAt: Option<string>, pollMs: int,
                         after: Option<int>, now: int, parse: string -> Option<int>)
    returns (r: Result<Snapshot, Error>, fetched: nat, clock: int)
    requires pollMs > 0
    ensures (r, fetched) ==
            Wait(script, after, EffectiveTimeout(timeoutSeconds, expiresAt, now, parse), pollMs, requestId)
    ensures var timedOut := PollFrom(script, after,
              Ticks(EffectiveTimeout(timeoutSeconds, expiresAt, now, parse) * 1000, pollMs), 0).0.TimedOut?;
            clock + (if timedOut then 0 else pollMs) == now + pollMs * fetched
  {
    var effectiveTimeout := EffectiveTimeout(timeoutSeconds, expiresAt, now, parse);
    var deadline := now + effectiveTimeout * 1000;
    var outcome;
    outcome, fetched, clock := PollUntil(script, after, pollMs, now, deadline);
    match outcome
    case Answered(s) => r := Success(s);
    case FetchFailed(e) => r := Failure(e);
    case TimedOut => r := Failure(TimeoutError(requestId, effectiveTimeout));
  }

  /** The polling loop of `wait_for_decision`: fetch, stop on a decision or a final
      status, otherwise sleep one interval, until the clock reaches the deadline. */
  method PollUntil(script: seq<Fetch>, after: Option<int>, pollMs: int, now: int, deadline: int)
    returns (outcome: PollOutcome, fetched: nat, clock: int)
    requires pollMs > 0
    ensures (outcome, fetched) == PollFrom(script, after, Ticks(deadline - now, pollMs), 0)
    ensures clock + (if outcome.TimedOut? then 0 else pollMs) == now + pollMs * fetched
  {
    ghost var total := Ticks(deadline - now, pollMs);
    ghost var spec := PollFrom(script, after, total, 0);
    clock := now;
    fetched := 0;
    while clock < deadline
      invariant clock == now + pollMs * fetched
      invariant fetched + Ticks(deadline - clock, pollMs) == total
      invariant spec == PollFrom(script, after, Ticks(deadline - clock, pollMs), fetched)
      decreases deadline - clock
    {
      ghost var left := Ticks(deadline - clock, pollMs);
      assert left == 1 + Ticks(deadline - (clock + pollMs), pollMs);
      PollStep(script, after, left, fetched);
      var last := FetchAt(script, fetched);
      fetched := fetched + 1;
      assert pollMs * fetched == pollMs * (fetched - 1) + pollMs;
      if last.Failure? {
        return FetchFailed(last.error), fetched, clock;
      }
      var snapshot := last.value;
      var hasDecision := snapshot.lastDecision.Some?;
      if hasDecision && after.Some? {
        var currentStatus := StatusOf(snapshot);
        var currentVersion := VersionOf(snapshot);
        if currentStatus == "REVISE_REQUESTED" && currentVersion >= after.value {
          hasDecision := false;
        } else if currentStatus == "PENDING" && currentVersion >= after.value {
          hasDecision := false;
        }
      }
      assert hasDecision == HasDecision(snapshot, after);
      if hasDecision {
        return Answered(snapshot), fetched, clock;
      }
      var status := StatusOf(snapshot);
      if status != "PENDING" && status != "REVISE_REQUESTED" {
        return Answered(snapshot), fetched, clock;
      }
      clock := clock + pollMs;
    }
    assert Ticks(deadline - clock, pollMs) == 0;
    outcome := TimedOut;
  }
}
