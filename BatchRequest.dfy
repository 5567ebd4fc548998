/**
 * A model of the rate-limited batch runner of utils/batchRequest.js.
 *
 * A fixed number of requesters drain one shared queue of payloads through a
 * caller-supplied function. A response whose `rate-limit-remaining` header is 0
 * puts the payload back at the end of the queue and pauses every requester;
 * other responses are recorded as errors or results. When the last requester
 * finds the queue empty, the batch settles with the combined results.
 *
 * The callbacks of the source become methods of the class `Batch`: the caller
 * of the model chooses which in-flight call answers next and which pending
 * timer fires next.
 */
module BatchRequest {

  datatype Option<T> = None | Some(value: T)

  // ---------------------------------------------------------------------------
  // Responses and the rate-limit classifier
  // ---------------------------------------------------------------------------

  /** The two rate-limit headers of a response, already parsed. None stands for
      an absent header (or, for `rate-limit-remaining`, one that does not parse
      as an integer, which can never equal 0 either). */
  datatype Headers = Headers(remaining: Option<int>, window: Option<int>)

  /** What the callback of the invoked function receives: an error or a result,
      each carrying the headers of the response it came from. Every answer is
      taken to carry `_response.headers`; one without them (no error and no
      result, or a transport error) makes line 83 throw and is not modelled. */
  datatype Response<R, E> =
    | Failed(error: E, headers: Headers)
    | Succeeded(result: R, headers: Headers)

  /** hitRateLimit (utils/batchRequest.js:82-84); the response inspected is
      `err || result` (line 33), that is, whichever of the two is present. */
  predicate HitRateLimit<R, E>(response: Response<R, E>)
  {
    response.headers.remaining == Some(0)
  }

  /** calculateWaitTime (utils/batchRequest.js:92-102): the window in
      milliseconds minus the time already spent in this round, floored at 0.
      An absent window header gives `undefined * 1000`, which is NaN; NaN > 0 is
      false, so the function then returns 0 (line 101). */
  function CalculateWaitTime(headers: Headers, roundStartTime: int, now: int): (wait: int)
    ensures wait >= 0
    ensures headers.window.None? ==> wait == 0
    ensures headers.window.Some? ==> wait >= headers.window.value * 1000 - (now - roundStartTime)
    ensures wait > 0 ==> headers.window.Some? && wait == headers.window.value * 1000 - (now - roundStartTime)
  {
    match headers.window
    case None => 0
    case Some(seconds) =>
      var waitTime := seconds * 1000 - (now - roundStartTime);
      if waitTime > 0 then waitTime else 0
  }

  /** The rate-limit classification looks at the `rate-limit-remaining` header
      and nothing else: with the same headers, an error and a result are
      classified alike. */
  lemma HitRateLimitExactly<R, E>(response: Response<R, E>, error: E, result: R)
    ensures HitRateLimit(response) <==> response.headers.remaining.Some? && response.headers.remaining.value == 0
    ensures HitRateLimit<R, E>(Failed(error, response.headers)) == HitRateLimit<R, E>(Succeeded(result, response.headers))
  {
  }

  /** As called at lines 43-44, with the round just started at `now`, the wait
      is the whole window, or 0 when the window is absent or negative. */
  lemma WaitAtRoundStart(headers: Headers, now: int)
    ensures headers.window.Some? && headers.window.value >= 0 ==> CalculateWaitTime(headers, now, now) == headers.window.value * 1000
    ensures headers.window.Some? && headers.window.value < 0 ==> CalculateWaitTime(headers, now, now) == 0
  {
  }

  /** The later the wait is computed in a round, the shorter it is. */
  lemma WaitShrinksWithTime(headers: Headers, roundStartTime: int, now: int, later: int)
    requires now <= later
    ensures CalculateWaitTime(headers, roundStartTime, later) <= CalculateWaitTime(headers, roundStartTime, now)
  {
  }

  // ---------------------------------------------------------------------------
  // The combined results and how a batch settles
  // ---------------------------------------------------------------------------

  /** One entry of `combinedResults.errors` (utils/batchRequest.js:59-62). */
  datatype ErrorEntry<P, E> = ErrorEntry(payload: P, error: E)

  /** `combinedResults` while the batch runs (utils/batchRequest.js:127-133).
      Successful results go to `data`; see the note at OnOutcome. */
  datatype Aggregate<P, R, E> = Aggregate(
    rejectedCount: int,
    acceptedCount: int,
    batchesCount: int,
    errors: seq<ErrorEntry<P, E>>,
    data: seq<R>)

  /** `combinedResults` as handed to resolve or reject: the `errors` key may have
      been deleted (None). */
  datatype Report<P, R, E> = Report(
    rejectedCount: int,
    acceptedCount: int,
    batchesCount: int,
    errors: Option<seq<ErrorEntry<P, E>>>,
    data: seq<R>)

  /** The state of the promise returned by batchRequest. */
  datatype Settlement<P, R, E> =
    | Pending
    | Resolved(report: Report<P, R, E>)
    | Rejected(report: Report<P, R, E>)

  /** Lines 138-140 of done: the `errors` key is deleted when no error was
      recorded; everything else is reported as it is. */
  function Finalize<P, R, E>(results: Aggregate<P, R, E>): (report: Report<P, R, E>)
    ensures report.errors.None? <==> results.errors == []
    ensures report.errors.Some? ==> report.errors.value == results.errors
    ensures report.rejectedCount == results.rejectedCount && report.acceptedCount == results.acceptedCount
    ensures report.batchesCount == results.batchesCount && report.data == results.data
  {
    Report(results.rejectedCount, results.acceptedCount, results.batchesCount,
           if |results.errors| == 0 then None else Some(results.errors),
           results.data)
  }

  /** Lines 142-143 of done. As written, line 142 tests `combinedResults.accepted`,
      a property that is never assigned, so every batch is rejected (see
      AsWritten.SettleAsWritten). This is the evident intent: resolve when at
      least one payload was accepted. */
  function Settle<P, R, E>(report: Report<P, R, E>): (s: Settlement<P, R, E>)
    ensures !s.Pending? && s.report == report
    ensures s.Resolved? <==> report.acceptedCount > 0
  {
    if report.acceptedCount > 0 then Resolved(report) else Rejected(report)
  }

  // ---------------------------------------------------------------------------
  // Number of requesters
  // ---------------------------------------------------------------------------

  /** `settings.max_requesters || 10` (utils/batchRequest.js:113, 117): an
      absent or zero setting falls back to 10; any other value, negative ones
      included, is truthy and kept. */
  function ConfiguredRequesters(setting: Option<int>): (m: int)
    ensures m != 0
    ensures setting.None? ==> m == 10
    ensures setting.Some? ==> m == (if setting.value == 0 then 10 else setting.value)
  {
    if setting.None? || setting.value == 0 then 10 else setting.value
  }

  /** Line 125: never more requesters than payloads. The result is the minimum
      of the configured number and the queue length. */
  function ClampRequesters(configured: int, queueLength: nat): (m: int)
    ensures m <= configured && m <= queueLength
    ensures m == configured || m == queueLength
  {
    if configured > queueLength then queueLength else configured
  }

  /** The number of requesters the `for` loop at lines 148-151 starts: a
      negative clamp starts none. */
  function Started(maxRequesters: int): nat
  {
    if maxRequesters < 0 then 0 else maxRequesters
  }

  /** With an empty queue no requester starts, so `done` is never called. */
  lemma EmptyQueueStartsNone(setting: Option<int>)
    ensures ClampRequesters(ConfiguredRequesters(setting), 0) <= 0
    ensures Started(ClampRequesters(ConfiguredRequesters(setting), 0)) == 0
  {
  }

  /** With a positive setting (or none) the loop starts exactly
      min(setting || 10, queue length) requesters. */
  lemma StartedIsMinimum(setting: Option<int>, queueLength: nat)
    requires setting.None? || setting.value >= 0
    ensures var n := Started(ClampRequesters(ConfiguredRequesters(setting), queueLength));
      n <= queueLength && n <= ConfiguredRequesters(setting) &&
      (n == queueLength || n == ConfiguredRequesters(setting))
  {
  }

  // ---------------------------------------------------------------------------
  // The shared state and its transitions
  // ---------------------------------------------------------------------------

  /** Everything one batch shares among its requesters: the queue, the `state`
      object (utils/batchRequest.js:115-122) and `combinedResults`. The last
      five fields are ghost bookkeeping. Three stand for what the source keeps
      only in closures and pending timers: the payloads whose call has not
      answered yet, the requesters parked on the timer of line 25, and the
      timers of line 47 not yet fired. Two have no counterpart in the source
      at all and serve the proofs only: the payloads of the queue passed in
      (the source drains that array in place) and the payloads behind
      `results.data`, in the same order (the source keeps results only). */
  datatype State<P, R, E> = State(
    queue: seq<P>,
    requesterCount: int,
    waiting: int,
    roundStartTime: int,
    actuallyHit: int,
    maxRequesters: int,
    results: Aggregate<P, R, E>,
    initial: multiset<P>,
    inFlight: multiset<P>,
    succeeded: seq<P>,
    sleeping: int,
    resumePending: int)

  /** The payloads of a list of errors. */
  ghost function ErrorPayloads<P, E>(errors: seq<ErrorEntry<P, E>>): multiset<P>
  {
    if errors == [] then multiset{} else multiset{errors[0].payload} + ErrorPayloads(errors[1..])
  }

  /** Recording one more error records exactly its payload. */
  lemma {:induction false} ErrorPayloadsAppend<P, E>(errors: seq<ErrorEntry<P, E>>, entry: ErrorEntry<P, E>)
    ensures ErrorPayloads(errors + [entry]) == ErrorPayloads(errors) + multiset{entry.payload}
  {
    if errors != [] {
      assert (errors + [entry])[1..] == errors[1..] + [entry];
      ErrorPayloadsAppend(errors[1..], entry);
    }
  }

  /** Every error entry carries one payload. */
  lemma {:induction false} ErrorPayloadsSize<P, E>(errors: seq<ErrorEntry<P, E>>)
    ensures |ErrorPayloads(errors)| == |errors|
  {
    if errors != [] {
      ErrorPayloadsSize(errors[1..]);
    }
  }

  /** The invariant of a batch while `running` requesters execute their
      synchronous code: 0 between callbacks, 1 inside one. */
  ghost predicate Inv<P, R, E>(st: State<P, R, E>, running: nat)
  {
    // every live requester is in flight, parked on a timer, or running
    && st.requesterCount == |st.inFlight| + st.sleeping + st.resumePending + running
    && st.sleeping >= 0 && st.resumePending >= 0
    && st.requesterCount <= Started(st.maxRequesters)
    && st.maxRequesters <= |st.initial|
    // no payload is lost or duplicated
    && Outstanding(st) + Settled(st) == st.initial
    && st.results.rejectedCount == |st.results.errors|
    && st.results.acceptedCount == |st.results.data| == |st.succeeded|
    // pause episodes are started by rate-limited answers only, and a pause in
    // force always has a pending timer that will end it
    && st.resumePending <= st.results.batchesCount <= st.actuallyHit
    && st.waiting >= 0
    && (st.waiting > 0 ==> st.resumePending > 0)
  }

  /** The payloads still queued or in flight. */
  ghost function Outstanding<P, R, E>(st: State<P, R, E>): multiset<P>
  {
    multiset(st.queue) + st.inFlight
  }

  /** The payloads whose outcome has been recorded. */
  ghost function Settled<P, R, E>(st: State<P, R, E>): multiset<P>
  {
    ErrorPayloads(st.results.errors) + multiset(st.succeeded)
  }

  /** Some callback or timer is still to come. */
  ghost predicate CanProgress<P, R, E>(st: State<P, R, E>)
  {
    |st.inFlight| > 0 || st.sleeping > 0 || st.resumePending > 0
  }

  /** Lines 115-133: the state before any requester starts. */
  function Initial<P, R, E>(payloads: seq<P>, setting: Option<int>, now: int): State<P, R, E>
  {
    State(payloads, 0, 0, now, 0, ClampRequesters(ConfiguredRequesters(setting), |payloads|),
          Aggregate(0, 0, 0, [], []), multiset(payloads), multiset{}, [], 0, 0)
  }

  /** done (lines 135-144): nothing while another requester lives; otherwise
      the batch settles with the report. */
  function DoneResult<P, R, E>(st: State<P, R, E>): Settlement<P, R, E>
  {
    if st.requesterCount > 0 then Pending else Settle(Finalize(st.results))
  }

  /** requester (lines 17-32): exit and call done when the queue is empty, park
      on the timer of line 25 while a pause is in force, otherwise put the
      front payload in flight. */
  function Requester<P, R, E>(st: State<P, R, E>): (State<P, R, E>, Settlement<P, R, E>)
  {
    if |st.queue| <= 0 then
      var st := st.(requesterCount := st.requesterCount - 1);
      (st, DoneResult(st))
    else if st.waiting > 0 then
      (st.(sleeping := st.sleeping + 1), Pending)
    else
      (st.(queue := st.queue[1..], inFlight := st.inFlight + multiset{st.queue[0]}), Pending)
  }

  /** Lines 36-37: the answered payload is rate-limited; it goes back to the
      END of the queue (`push`) and a hit is counted. */
  function Requeued<P, R, E>(st: State<P, R, E>, payload: P): State<P, R, E>
  {
    st.(inFlight := st.inFlight - multiset{payload}, actuallyHit := st.actuallyHit + 1,
        queue := st.queue + [payload])
  }

  /** Lines 41-51: the first requester to hit the limit while no pause is in
      force counts a pause episode, starts the round now, sets the wait from
      the window header and schedules the one timer that ends the pause. The
      two clock reads of lines 43 and 93 are taken to be the same instant. */
  function PauseStarted<P, R, E>(st: State<P, R, E>, headers: Headers, now: int): State<P, R, E>
  {
    st.(results := st.results.(batchesCount := st.results.batchesCount + 1),
        roundStartTime := now,
        waiting := CalculateWaitTime(headers, now, now),
        resumePending := st.resumePending + 1)
  }

  /** Lines 58-69: an answer that is not rate-limited is recorded, an error
      with its payload or the result.

      Line 65 pushes the result onto `combinedResults.results`, a property
      that does not exist (the object has `data`, line 132); the model appends
      to `data`, which is evidently meant (see AsWritten.SuccessPushThrows).
      At line 69, `!!result` is 1 on this path: line 83 has already read
      `result._response`, so `result` is an object. The `each` hook of line 71
      is the no-op of line 118. */
  function Recorded<P, R, E>(st: State<P, R, E>, payload: P, response: Response<R, E>): State<P, R, E>
  {
    var st := st.(inFlight := st.inFlight - multiset{payload});
    match response
    case Failed(error, _) =>
      st.(results := st.results.(errors := st.results.errors + [ErrorEntry(payload, error)],
                                 rejectedCount := st.results.rejectedCount + 1))
    case Succeeded(result, _) =>
      st.(results := st.results.(data := st.results.data + [result],
                                 acceptedCount := st.results.acceptedCount + 1),
          succeeded := st.succeeded + [payload])
  }

  /** The callback of lines 32-74 for `payload`, answered with `response` at
      time `now`. A requester that hits the limit while a pause is already in
      force runs `requester` again (line 54), which parks it. */
  function Callback<P, R, E>(st: State<P, R, E>, payload: P, response: Response<R, E>, now: int): (State<P, R, E>, Settlement<P, R, E>)
  {
    if HitRateLimit(response) then
      var st := Requeued(st, payload);
      if st.waiting == 0 then (PauseStarted(st, response.headers, now), Pending) else Requester(st)
    else
      Requester(Recorded(st, payload, response))
  }

  /** The timer of lines 47-51 fires: the pause ends and the requester that
      started it runs again. */
  function ResumeTimer<P, R, E>(st: State<P, R, E>): (State<P, R, E>, Settlement<P, R, E>)
    requires st.resumePending > 0
  {
    Requester(st.(waiting := 0, resumePending := st.resumePending - 1))
  }

  /** The timer of lines 25-27 fires: a parked requester runs again. */
  function SleepTimer<P, R, E>(st: State<P, R, E>): (State<P, R, E>, Settlement<P, R, E>)
    requires st.sleeping > 0
  {
    Requester(st.(sleeping := st.sleeping - 1))
  }

  // ---------------------------------------------------------------------------
  // What the transitions keep and what they do
  // ---------------------------------------------------------------------------

  /** The start loop leaves no payload behind and no requester unaccounted. */
  lemma {:induction false} StartKeepsInvariant<P, R, E>(payloads: seq<P>, setting: Option<int>, now: int)
    ensures var st := Initial<P, R, E>(payloads, setting, now);
      Started(st.maxRequesters) <= |payloads| && Inv(Spawned(st, Started(st.maxRequesters)), 0)
  {
    var st := Initial<P, R, E>(payloads, setting, now);
    var k := Started(st.maxRequesters);
    SpawnedTakesPrefix(st, k);
    StartedStateKeepsInvariant(st, k);
  }

  /** The state after the start loop, in closed form, satisfies the invariant. */
  lemma StartedStateKeepsInvariant<P, R, E>(st: State<P, R, E>, k: nat)
    requires st == Initial(st.queue, None, st.roundStartTime).(maxRequesters := st.maxRequesters)
    requires k == Started(st.maxRequesters) && st.maxRequesters <= |st.queue|
    ensures Inv(st.(requesterCount := k, queue := st.queue[k..], inFlight := multiset(st.queue[..k])), 0)
  {
    var started := st.(requesterCount := k, queue := st.queue[k..], inFlight := multiset(st.queue[..k]));
    assert st.queue == st.queue[..k] + st.queue[k..];
    assert Outstanding(started) == multiset(st.queue);
  }

  /** One pass of the start loop (lines 148-151) while no pause is in force:
      a new requester is counted and takes the front payload. */
  function Launched<P, R, E>(st: State<P, R, E>): State<P, R, E>
    requires |st.queue| > 0
  {
    st.(requesterCount := st.requesterCount + 1, queue := st.queue[1..],
        inFlight := st.inFlight + multiset{st.queue[0]})
  }

  /** The state after `k` passes of the start loop. */
  function Spawned<P, R, E>(st: State<P, R, E>, k: nat): (r: State<P, R, E>)
    requires k <= |st.queue|
    ensures |r.queue| == |st.queue| - k
  {
    if k == 0 then st else Launched(Spawned(st, k - 1))
  }

  /** A pass of the start loop is the requester step of a newly counted
      requester. */
  lemma LaunchIsRequesterStep<P, R, E>(st: State<P, R, E>)
    requires |st.queue| > 0 && st.waiting == 0
    ensures Requester(st.(requesterCount := st.requesterCount + 1)) == (Launched(st), Pending)
  {
  }

  /** The passes of the start loop take the first `k` payloads, in order, and
      each adds one requester; nothing else changes. */
  lemma {:induction false} SpawnedTakesPrefix<P, R, E>(st: State<P, R, E>, k: nat)
    requires k <= |st.queue|
    ensures Spawned(st, k).queue == st.queue[k..]
    ensures Spawned(st, k).inFlight == st.inFlight + multiset(st.queue[..k])
    ensures Spawned(st, k) == st.(requesterCount := st.requesterCount + k, queue := Spawned(st, k).queue,
                                  inFlight := Spawned(st, k).inFlight)
  {
    if k > 0 {
      SpawnedTakesPrefix(st, k - 1);
      var prev := Spawned(st, k - 1);
      assert prev.queue[1..] == st.queue[k..];
      assert st.queue[..k] == st.queue[..k - 1] + [prev.queue[0]];
    }
  }

  /** A requester step ends with the running requester accounted for again. */
  lemma RequesterKeepsInvariant<P, R, E>(st: State<P, R, E>)
    requires Inv(st, 1)
    ensures Inv(Requester(st).0, 0)
  {
    if |st.queue| == 0 {
      assert Requester(st).0 == st.(requesterCount := st.requesterCount - 1);
    } else if st.waiting > 0 {
      assert Requester(st).0 == st.(sleeping := st.sleeping + 1);
    } else {
      DispatchKeepsInvariant(st);
    }
  }

  /** Taking the front payload moves it from the queue to the in-flight calls. */
  lemma DispatchKeepsInvariant<P, R, E>(st: State<P, R, E>)
    requires Inv(st, 1) && |st.queue| > 0 && st.waiting == 0
    ensures Inv(Requester(st).0, 0)
  {
    var next := st.(queue := st.queue[1..], inFlight := st.inFlight + multiset{st.queue[0]});
    assert Requester(st).0 == next;
    assert st.queue == [st.queue[0]] + st.queue[1..];
    assert multiset(st.queue) == multiset{st.queue[0]} + multiset(st.queue[1..]);
    assert Outstanding(next) == Outstanding(st);
    assert Settled(next) == Settled(st);
  }

  /** Re-queueing moves the payload from the in-flight calls to the queue. */
  lemma RequeuedKeepsInvariant<P, R, E>(st: State<P, R, E>, payload: P)
    requires Inv(st, 0) && payload in st.inFlight
    ensures var next := Requeued(st, payload);
      Inv(next, 1) && next.results.batchesCount < next.actuallyHit
  {
    var next := Requeued(st, payload);
    assert Outstanding(next) == Outstanding(st);
    assert Settled(next) == Settled(st);
  }

  /** Starting a pause episode hands the running requester over to its timer. */
  lemma PauseStartedKeepsInvariant<P, R, E>(st: State<P, R, E>, headers: Headers, now: int)
    requires Inv(st, 1) && st.waiting == 0 && st.results.batchesCount < st.actuallyHit
    ensures Inv(PauseStarted(st, headers, now), 0)
  {
  }

  /** Recording an error moves its payload from the in-flight calls to the
      errors. */
  lemma {:induction false} RecordedErrorKeepsInvariant<P, R, E>(st: State<P, R, E>, payload: P, error: E, headers: Headers)
    requires Inv(st, 0) && payload in st.inFlight
    ensures Inv(Recorded(st, payload, Failed(error, headers)), 1)
  {
    var next := Recorded(st, payload, Failed(error, headers));
    var entry := ErrorEntry(payload, error);
    assert next == st.(inFlight := st.inFlight - multiset{payload},
      results := st.results.(errors := st.results.errors + [entry], rejectedCount := st.results.rejectedCount + 1));
    ErrorPayloadsAppend(st.results.errors, entry);
    MovedToSettled(st, next, payload);
  }

  /** Recording a result moves its payload from the in-flight calls to the
      payloads behind `data`. */
  lemma RecordedResultKeepsInvariant<P, R, E>(st: State<P, R, E>, payload: P, result: R, headers: Headers)
    requires Inv(st, 0) && payload in st.inFlight
    ensures Inv(Recorded(st, payload, Succeeded(result, headers)), 1)
  {
    var next := Recorded(st, payload, Succeeded(result, headers));
    assert next == st.(inFlight := st.inFlight - multiset{payload},
      results := st.results.(data := st.results.data + [result], acceptedCount := st.results.acceptedCount + 1),
      succeeded := st.succeeded + [payload]);
    assert multiset(next.succeeded) == multiset(st.succeeded) + multiset{payload};
    MovedToSettled(st, next, payload);
  }

  /** A payload taken from the in-flight calls and added to the recorded
      outcomes is neither lost nor duplicated. */
  lemma MovedToSettled<P, R, E>(st: State<P, R, E>, next: State<P, R, E>, payload: P)
    requires payload in st.inFlight && next.queue == st.queue && next.inFlight == st.inFlight - multiset{payload}
    requires Settled(next) == Settled(st) + multiset{payload}
    requires Outstanding(st) + Settled(st) == st.initial && next.initial == st.initial
    ensures Outstanding(next) + Settled(next) == next.initial
  {
    assert Outstanding(next) + multiset{payload} == Outstanding(st);
  }

  /** The callback keeps the invariant on every kind of answer. */
  lemma {:induction false} CallbackKeepsInvariant<P, R, E>(st: State<P, R, E>, payload: P, response: Response<R, E>, now: int)
    requires Inv(st, 0) && payload in st.inFlight
    ensures Inv(Callback(st, payload, response, now).0, 0)
  {
    if HitRateLimit(response) {
      var next := Requeued(st, payload);
      RequeuedKeepsInvariant(st, payload);
      if next.waiting == 0 {
        assert Callback(st, payload, response, now).0 == PauseStarted(next, response.headers, now);
        PauseStartedKeepsInvariant(next, response.headers, now);
      } else {
        assert Callback(st, payload, response, now) == Requester(next);
        RequesterKeepsInvariant(next);
      }
    } else {
      var next := Recorded(st, payload, response);
      assert Callback(st, payload, response, now) == Requester(next);
      if response.Failed? {
        RecordedErrorKeepsInvariant(st, payload, response.error, response.headers);
      } else {
        RecordedResultKeepsInvariant(st, payload, response.result, response.headers);
      }
      RequesterKeepsInvariant(next);
    }
  }

  lemma ResumeTimerKeepsInvariant<P, R, E>(st: State<P, R, E>)
    requires Inv(st, 0) && st.resumePending > 0
    ensures Inv(ResumeTimer(st).0, 0)
  {
    RequesterKeepsInvariant(st.(waiting := 0, resumePending := st.resumePending - 1));
  }

  lemma SleepTimerKeepsInvariant<P, R, E>(st: State<P, R, E>)
    requires Inv(st, 0) && st.sleeping > 0
    ensures Inv(SleepTimer(st).0, 0)
  {
    RequesterKeepsInvariant(st.(sleeping := st.sleeping - 1));
  }

  // ---------------------------------------------------------------------------
  // One pause timer per episode
  // ---------------------------------------------------------------------------

  /** Exactly one timer of line 47 is pending while a pause is in force, and
      none otherwise: the timer that will resume the first rate-limited
      requester and clear `state.waiting` (lines 39 and 46). */
  predicate OnePauseTimer<P, R, E>(st: State<P, R, E>)
  {
    st.resumePending == (if st.waiting > 0 then 1 else 0)
  }

  /** A rate-limited answer carries a positive `rate-limit-window`, so the
      pause it starts lasts a positive time. */
  predicate PositiveWindow<R, E>(response: Response<R, E>)
  {
    HitRateLimit(response) ==> response.headers.window.Some? && response.headers.window.value > 0
  }

  /** Before the first answer no pause is in force and no timer is pending. */
  lemma StartHasNoPauseTimer<P, R, E>(payloads: seq<P>, setting: Option<int>, now: int)
    ensures var st := Initial<P, R, E>(payloads, setting, now);
      Started(st.maxRequesters) <= |payloads| &&
      var started := Spawned(st, Started(st.maxRequesters));
      OnePauseTimer(started) && started.waiting == 0 && started.resumePending == 0
  {
    var st := Initial<P, R, E>(payloads, setting, now);
    StartKeepsInvariant<P, R, E>(payloads, setting, now);
    SpawnedTakesPrefix(st, Started(st.maxRequesters));
  }

  /** A requester step never touches the pause. */
  lemma RequesterKeepsOnePauseTimer<P, R, E>(st: State<P, R, E>)
    requires OnePauseTimer(st)
    ensures Requester(st).0.waiting == st.waiting && Requester(st).0.resumePending == st.resumePending
    ensures OnePauseTimer(Requester(st).0)
  {
  }

  /** When every rate-limited answer carries a positive window, the callback
      keeps one pause timer per episode: the first hit while no pause is in
      force starts the one timer and puts the pause in force; any later hit
      only parks its requester. */
  lemma CallbackKeepsOnePauseTimer<P, R, E>(st: State<P, R, E>, payload: P, response: Response<R, E>, now: int)
    requires OnePauseTimer(st) && PositiveWindow(response)
    ensures OnePauseTimer(Callback(st, payload, response, now).0)
    ensures Callback(st, payload, response, now).0.resumePending <= 1
  {
    if HitRateLimit(response) {
      var requeued := Requeued(st, payload);
      if requeued.waiting == 0 {
        assert CalculateWaitTime(response.headers, now, now) == response.headers.window.value * 1000;
      } else {
        RequesterKeepsOnePauseTimer(requeued);
      }
    } else {
      RequesterKeepsOnePauseTimer(Recorded(st, payload, response));
    }
  }

  /** The pause timer ends the pause and leaves no timer behind. */
  lemma ResumeTimerKeepsOnePauseTimer<P, R, E>(st: State<P, R, E>)
    requires OnePauseTimer(st) && st.resumePending > 0
    ensures st.waiting > 0
    ensures ResumeTimer(st).0.waiting == 0 && ResumeTimer(st).0.resumePending == 0
    ensures OnePauseTimer(ResumeTimer(st).0)
  {
    RequesterKeepsOnePauseTimer(st.(waiting := 0, resumePending := st.resumePending - 1));
  }

  /** A parked requester's timer leaves the pause alone. */
  lemma SleepTimerKeepsOnePauseTimer<P, R, E>(st: State<P, R, E>)
    requires OnePauseTimer(st) && st.sleeping > 0
    ensures OnePauseTimer(SleepTimer(st).0)
  {
    RequesterKeepsOnePauseTimer(st.(sleeping := st.sleeping - 1));
  }

  /** Without a positive window the bound fails: a hit whose window is absent
      starts an episode with a wait of 0, so its timer is pending while no
      pause is in force, and the next hit starts a second episode and a second
      timer. */
  lemma ZeroWaitEpisodeLeavesTimer<P, R, E>(st: State<P, R, E>, payload: P, response: Response<R, E>, now: int)
    requires OnePauseTimer(st) && st.waiting == 0
    requires HitRateLimit(response) && response.headers.window.None?
    ensures var next := Callback(st, payload, response, now).0;
      next.waiting == 0 && next.resumePending == 1 && !OnePauseTimer(next)
  {
  }

  /** The number of in-flight payloads never exceeds the number of live
      requesters, which never exceeds min(setting || 10, queue length); the
      batch can make progress exactly while some requester lives. */
  lemma ConcurrencyBound<P, R, E>(st: State<P, R, E>)
    requires Inv(st, 0)
    ensures |st.inFlight| <= st.requesterCount <= Started(st.maxRequesters) <= |st.initial|
    ensures CanProgress(st) <==> st.requesterCount > 0
  {
  }

  /** An empty queue starts no requester and leaves no callback or timer, so
      done is never called and the batch never settles. */
  lemma EmptyBatchNeverSettles<P, R, E>(setting: Option<int>, now: int)
    ensures var st := Initial<P, R, E>([], setting, now);
      Started(st.maxRequesters) == 0 &&
      var started := Spawned(st, 0);
      started.requesterCount == 0 && !CanProgress(started) && started.queue == []
  {
  }

  /** A requester step (lines 18-30): with an empty queue it only decrements
      the count and calls done; while paused it takes nothing; otherwise it
      takes exactly the front payload. */
  lemma RequesterCases<P, R, E>(st: State<P, R, E>)
    ensures |st.queue| == 0 ==>
      Requester(st) == (st.(requesterCount := st.requesterCount - 1), DoneResult(st.(requesterCount := st.requesterCount - 1)))
    ensures |st.queue| > 0 && st.waiting > 0 ==>
      Requester(st).0 == st.(sleeping := st.sleeping + 1) && Requester(st).1 == Pending
    ensures |st.queue| > 0 && st.waiting == 0 ==>
      && Requester(st).0.queue == st.queue[1..]
      && Requester(st).0.inFlight == st.inFlight + multiset{st.queue[0]}
      && Requester(st).0 == st.(queue := Requester(st).0.queue, inFlight := Requester(st).0.inFlight)
      && Requester(st).1 == Pending
  {
  }

  /** A rate-limited answer (lines 35-55) re-queues the payload at the back,
      counts a hit, leaves counts, errors and results alone, and starts a
      pause episode only when none is in force: `batches_count` counts
      episodes, not hits. */
  lemma RateLimitedAnswer<P, R, E>(st: State<P, R, E>, payload: P, response: Response<R, E>, now: int)
    requires HitRateLimit(response) && st.waiting >= 0
    ensures var (next, s) := Callback(st, payload, response, now);
      && s == Pending
      && next.queue == st.queue + [payload]
      && next.inFlight == st.inFlight - multiset{payload}
      && next.actuallyHit == st.actuallyHit + 1
      && next.requesterCount == st.requesterCount
      && next.results.errors == st.results.errors && next.results.data == st.results.data
      && next.results.rejectedCount == st.results.rejectedCount
      && next.results.acceptedCount == st.results.acceptedCount
      && (st.waiting == 0 ==>
            && next.results.batchesCount == st.results.batchesCount + 1
            && next.roundStartTime == now
            && next.waiting == CalculateWaitTime(response.headers, now, now)
            && next.resumePending == st.resumePending + 1
            && next.sleeping == st.sleeping)
      && (st.waiting > 0 ==>
            && next.results.batchesCount == st.results.batchesCount
            && next.roundStartTime == st.roundStartTime && next.waiting == st.waiting
            && next.resumePending == st.resumePending
            && next.sleeping == st.sleeping + 1)
  {
    var next := Requeued(st, payload);
    if st.waiting == 0 {
      assert Callback(st, payload, response, now) == (PauseStarted(next, response.headers, now), Pending);
    } else {
      assert Callback(st, payload, response, now) == Requester(next);
      assert |next.queue| > 0;
    }
  }

  /** Any other answer (lines 57-73) is recorded, and the pause state and the
      episode count are untouched; then the requester runs again, which
      touches the queue only by taking its front payload. */
  lemma OrdinaryAnswer<P, R, E>(st: State<P, R, E>, payload: P, response: Response<R, E>, now: int)
    requires !HitRateLimit(response)
    ensures var (next, s) := Callback(st, payload, response, now);
      && next.actuallyHit == st.actuallyHit && next.waiting == st.waiting
      && next.roundStartTime == st.roundStartTime && next.resumePending == st.resumePending
      && next.results.batchesCount == st.results.batchesCount
      && (response.Failed? ==>
            && next.results.errors == st.results.errors + [ErrorEntry(payload, response.error)]
            && next.results.rejectedCount == st.results.rejectedCount + 1
            && next.results.data == st.results.data
            && next.results.acceptedCount == st.results.acceptedCount)
      && (response.Succeeded? ==>
            && next.results.data == st.results.data + [response.result]
            && next.results.acceptedCount == st.results.acceptedCount + 1
            && next.results.errors == st.results.errors
            && next.results.rejectedCount == st.results.rejectedCount)
      && (st.queue == [] ==> next.queue == [] && next.requesterCount == st.requesterCount - 1)
      && (st.queue != [] && st.waiting > 0 ==> next.queue == st.queue && s == Pending)
      && (st.queue != [] && st.waiting == 0 ==> next.queue == st.queue[1..] && s == Pending)
  {
  }

  /** When done proceeds (the last requester found the queue empty), nothing
      is in flight or pending, every payload has exactly one recorded outcome,
      the `errors` key is absent exactly when nothing was rejected, and the
      batch resolves exactly when something was accepted. */
  lemma {:induction false} DoneSettles<P, R, E>(st: State<P, R, E>)
    requires Inv(st, 0) && st.queue == []
    ensures DoneResult(st).Pending? <==> st.requesterCount > 0
    ensures var s := DoneResult(st); !s.Pending? ==>
      && st.inFlight == multiset{} && !CanProgress(st)
      && ErrorPayloads(st.results.errors) + multiset(st.succeeded) == st.initial
      && s.report.rejectedCount + s.report.acceptedCount == |st.initial|
      && |s.report.data| == s.report.acceptedCount
      && (s.report.errors.None? <==> s.report.rejectedCount == 0)
      && (s.Resolved? <==> s.report.acceptedCount > 0)
  {
    ErrorPayloadsSize(st.results.errors);
  }

  /** The batch settles only from the step of the last live requester, and
      then no callback or timer is left that could run a requester again:
      resolve or reject is called at most once. */
  lemma {:induction false} SettlesOnce<P, R, E>(st: State<P, R, E>)
    requires Inv(st, 1)
    ensures var (next, s) := Requester(st);
      !s.Pending? ==>
        && st.queue == [] && next.queue == [] && next.requesterCount == 0
        && !CanProgress(next)
        && Settled(next) == next.initial
  {
    RequesterKeepsInvariant(st);
    var (next, s) := Requester(st);
    if !s.Pending? {
      assert |st.queue| == 0 && next == st.(requesterCount := st.requesterCount - 1);
      ConcurrencyBound(next);
    }
  }

  // ---------------------------------------------------------------------------
  // The batch object
  // ---------------------------------------------------------------------------

  /** One call of batchRequest: its queue, `state` and `combinedResults`, which
      the requesters' callbacks and timers update in place. Each handler is a
      method whose effect is the transition of the same name above. */
  class Batch<P(==), R, E> {
    var queue: seq<P>
    var requesterCount: int
    /** `state.waiting`: 0 stands for null. Both are falsy, and the source only
        tests the truthiness of this field (lines 24 and 40). */
    var waiting: int
    var roundStartTime: int
    var actuallyHit: int
    /** `state.max_requesters` after the clamp of line 125. */
    const maxRequesters: int
    var results: Aggregate<P, R, E>

    ghost const initial: multiset<P>
    ghost var inFlight: multiset<P>
    ghost var succeeded: seq<P>
    ghost var sleeping: int
    ghost var resumePending: int

    ghost function Snapshot(): State<P, R, E>
      reads this
    {
      State(queue, requesterCount, waiting, roundStartTime, actuallyHit, maxRequesters, results,
            initial, inFlight, succeeded, sleeping, resumePending)
    }

    ghost predicate Valid()
      reads this
    {
      Inv(Snapshot(), 0)
    }

    /** batchRequest (utils/batchRequest.js:112-151): set up the state, clamp
        the number of requesters, and start them one after the other; each
        takes the next payload from the front of the queue. */
    constructor (payloads: seq<P>, maxRequestersSetting: Option<int>, now: int)
      ensures Valid()
      ensures Started(maxRequesters) <= |payloads|
      ensures Snapshot() == Spawned(Initial(payloads, maxRequestersSetting, now), Started(maxRequesters))
    {
      queue := payloads;
      roundStartTime := now;
      maxRequesters := ClampRequesters(ConfiguredRequesters(maxRequestersSetting), |payloads|);
      requesterCount := 0;
      waiting := 0;
      actuallyHit := 0;
      results := Aggregate(0, 0, 0, [], []);
      initial := multiset(payloads);
      inFlight := multiset{};
      succeeded := [];
      sleeping := 0;
      resumePending := 0;
      new;
      ghost var st := Snapshot();
      assert st == Initial(payloads, maxRequestersSetting, now);
      StartKeepsInvariant<P, R, E>(payloads, maxRequestersSetting, now);
      StartRequesters(st);
    }

    /** The `for` loop of lines 148-151: each pass adds a requester and runs it
        at once; none of them meets a pause, so each takes the next payload.
        An internal step of the constructor, not an event of its own. */
    method StartRequesters(ghost st: State<P, R, E>)
      requires Snapshot() == st && st.waiting == 0 && Started(st.maxRequesters) <= |st.queue|
      modifies this`requesterCount, this`sleeping, this`queue, this`inFlight
      ensures Snapshot() == Spawned(st, Started(maxRequesters))
    {
      var i: nat := 0;
      while i < maxRequesters
        invariant i <= Started(maxRequesters) <= |st.queue|
        invariant Snapshot() == Spawned(st, i)
      {
        Launch();
        i := i + 1;
      }
    }

    /** The body of the start loop (lines 149-150): count one more requester
        and run it. An internal step of `StartRequesters`. */
    method Launch()
      requires |queue| > 0 && waiting == 0
      modifies this`requesterCount, this`sleeping, this`queue, this`inFlight
      ensures Snapshot() == Launched(old(Snapshot()))
    {
      ghost var st := Snapshot();
      requesterCount := requesterCount + 1;
      var _ := Step();
      LaunchIsRequesterStep(st);
    }

    /** done (lines 135-144). An internal step of `Step`; clients drive the
        batch through the constructor and the three `On` event methods. */
    method Done() returns (s: Settlement<P, R, E>)
      ensures s == DoneResult(Snapshot())
      ensures s.Pending? <==> requesterCount > 0
      ensures !s.Pending? ==> (s.report.errors.None? <==> results.errors == [])
      ensures !s.Pending? ==> (s.Resolved? <==> results.acceptedCount > 0)
    {
      if requesterCount > 0 {
        return Pending;
      }
      var report := Finalize(results);
      s := Settle(report);
    }

    /** requester (lines 17-32). An internal step of the event methods: called
        on its own, outside the protocol, it may settle a batch early. */
    method Step() returns (s: Settlement<P, R, E>)
      modifies this`requesterCount, this`sleeping, this`queue, this`inFlight
      ensures (Snapshot(), s) == Requester(old(Snapshot()))
    {
      if |queue| <= 0 {
        requesterCount := requesterCount - 1;
        s := Done();
        return;
      }
      if waiting > 0 {
        sleeping := sleeping + 1;
        return Pending;
      }
      var payload := queue[0];
      queue := queue[1..];
      inFlight := inFlight + multiset{payload};
      s := Pending;
    }

    /** The callback of lines 32-74, run when the call for `payload` answers
        with `response` at time `now`. */
    method OnOutcome(payload: P, response: Response<R, E>, now: int) returns (s: Settlement<P, R, E>)
      requires Valid() && payload in inFlight
      modifies this
      ensures Valid()
      ensures (Snapshot(), s) == Callback(old(Snapshot()), payload, response, now)
    {
      ghost var st := Snapshot();
      if HitRateLimit(response) {
        s := OnRateLimited(payload, response, now);
      } else {
        s := OnAnswer(payload, response, now);
      }
      CallbackKeepsInvariant(st, payload, response, now);
    }

    /** Lines 35-55: the answer is rate-limited. An internal step of
        `OnOutcome`. */
    method OnRateLimited(payload: P, response: Response<R, E>, now: int) returns (s: Settlement<P, R, E>)
      requires HitRateLimit(response)
      modifies this
      ensures (Snapshot(), s) == Callback(old(Snapshot()), payload, response, now)
    {
      ghost var st := Snapshot();
      inFlight := inFlight - multiset{payload};
      actuallyHit := actuallyHit + 1;
      queue := queue + [payload];
      assert Snapshot() == Requeued(st, payload);
      if waiting == 0 {
        BeginPause(response.headers, now);
        s := Pending;
      } else {
        s := Step();
      }
    }

    /** Lines 41-51: the first requester to be rate-limited while no pause is
        in force starts a pause episode. An internal step of `OnRateLimited`. */
    method BeginPause(headers: Headers, now: int)
      modifies this`results, this`roundStartTime, this`waiting, this`resumePending
      ensures Snapshot() == PauseStarted(old(Snapshot()), headers, now)
    {
      results := results.(batchesCount := results.batchesCount + 1);
      roundStartTime := now;
      waiting := CalculateWaitTime(headers, roundStartTime, now);
      resumePending := resumePending + 1;
    }

    /** Lines 57-73: any other answer is recorded and the requester runs again.
        An internal step of `OnOutcome`. */
    method OnAnswer(payload: P, response: Response<R, E>, now: int) returns (s: Settlement<P, R, E>)
      requires !HitRateLimit(response)
      modifies this
      ensures (Snapshot(), s) == Callback(old(Snapshot()), payload, response, now)
    {
      ghost var st := Snapshot();
      inFlight := inFlight - multiset{payload};
      if response.Failed? {
        results := results.(errors := results.errors + [ErrorEntry(payload, response.error)],
                            rejectedCount := results.rejectedCount + 1);
      } else {
        results := results.(data := results.data + [response.result],
                            acceptedCount := results.acceptedCount + 1);
        succeeded := succeeded + [payload];
      }
      assert Snapshot() == Recorded(st, payload, response);
      s := Step();
    }

    /** The timer of lines 47-51 fires. */
    method OnResumeTimer() returns (s: Settlement<P, R, E>)
      requires Valid() && resumePending > 0
      modifies this`waiting, this`resumePending, this`requesterCount, this`sleeping, this`queue, this`inFlight
      ensures Valid()
      ensures (Snapshot(), s) == ResumeTimer(old(Snapshot()))
    {
      ghost var st := Snapshot();
      waiting, resumePending := 0, resumePending - 1;
      assert Snapshot() == st.(waiting := 0, resumePending := st.resumePending - 1);
      s := Step();
      assert (Snapshot(), s) == ResumeTimer(st);
      ResumeTimerKeepsInvariant(st);
    }

    /** The timer of lines 25-27 fires. */
    method OnSleepTimer() returns (s: Settlement<P, R, E>)
      requires Valid() && sleeping > 0
      modifies this`requesterCount, this`sleeping, this`queue, this`inFlight
      ensures Valid()
      ensures (Snapshot(), s) == SleepTimer(old(Snapshot()))
    {
      ghost var st := Snapshot();
      sleeping := sleeping - 1;
      assert Snapshot() == st.(sleeping := st.sleeping - 1);
      s := Step();
      assert (Snapshot(), s) == SleepTimer(st);
      SleepTimerKeepsInvariant(st);
    }
  }
}
