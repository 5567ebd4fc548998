# A verified model of the batch runner in `utils/batchRequest.js`

`batchRequest(func, queue, settings)` sends every payload of `queue` through
`func` with a fixed number of *requesters*. A requester takes the front payload,
calls `func`, and runs again from the callback. An answer whose
`rate-limit-remaining` header is 0 counts as rate-limited. It goes back to the end
of the queue. The first such answer while no pause is in force starts a pause
episode: it sets `state.waiting` from the `rate-limit-window` header, and one
timer ends the pause. Any other answer is recorded as an error or a result.
When a requester finds the queue empty it exits, and the last one to exit
settles the promise with the combined results.

The model has one module per concern:

- `BatchRequest` (BatchRequest.dfy) contains:
  - the rate-limit helpers `HitRateLimit` and `CalculateWaitTime`;
  - the settling logic of `done`: `Finalize` removes the `errors` key and
    `Settle` decides resolve or reject;
  - the requester count: `ConfiguredRequesters` for `|| 10`, `ClampRequesters`
    for line 125, and `Started` for the `for` loop;
  - the shared state as a datatype `State`, with one pure transition per
    handler: `Requester` (lines 17-32), `Callback` (lines 32-74) built from
    `Requeued`, `PauseStarted` and `Recorded`, `ResumeTimer` (lines 47-51),
    `SleepTimer` (lines 25-27) and `DoneResult` (lines 135-144);
  - the invariant `Inv` and the lemmas about these transitions;
  - the class `Batch`. Its fields are the `state` object, the queue and
    `combinedResults`, and each handler of the source is one method. A method
    updates the fields in place, and its `ensures` equates the new state with
    the transition of the same name applied to the old state.
- `AsWritten` (AsWritten.dfy) models lines 65 and 142 exactly as written. They
  differ from the evident intent, which `BatchRequest` uses (see Findings).

The asynchronous interleaving is a choice of the caller of the model. A client
builds a `Batch` with its constructor and then drives it only through the three
event methods below; `Step`, `Done`, `Launch`, `StartRequesters`,
`OnRateLimited`, `OnAnswer` and `BeginPause` are internal steps of those and
promise nothing about `Valid()` when called on their own. At any moment the
caller may:

- answer any in-flight payload (`OnOutcome`, which requires the payload to be in
  the ghost multiset `inFlight`);
- fire a pending pause timer (`OnResumeTimer`);
- fire a parked requester's timer (`OnSleepTimer`).

Ghost fields of `Batch` keep what the source keeps only in closures and timers:

- the in-flight payloads;
- the number of parked requesters;
- the number of pending pause timers.

Two more ghost fields are proof bookkeeping with no counterpart in the source,
which keeps neither: the initial payloads (the queue is drained in place) and
the payloads behind `data` (which holds results only).

`Valid()` holds between handlers. It states:

- conservation of payloads;
- that every live requester is in flight, parked or pending;
- the bound on live requesters;
- that counters match the lists;
- that a pause in force has a timer that will end it.

## Model

| member | source | states |
|---|---|---|
| `BatchRequest.HitRateLimitExactly` | utils/batchRequest.js:82-84 | an answer is rate-limited exactly when `rate-limit-remaining` is present and equals 0; whether it is an error or a result makes no difference for the same headers |
| `BatchRequest.CalculateWaitTime` | utils/batchRequest.js:92-102 | the wait is never negative; it is 0 without a window header; otherwise at least `window*1000 - (now - roundStart)`, and equal to it whenever positive |
| `BatchRequest.WaitAtRoundStart` | utils/batchRequest.js:43-44 | with the round started at the current instant, the wait is the whole window in milliseconds for a non-negative window, and 0 for a negative one |
| `BatchRequest.WaitShrinksWithTime` | utils/batchRequest.js:93-101 | computed later in the same round, the wait is never longer |
| `BatchRequest.Finalize` | utils/batchRequest.js:138-140 | the reported `errors` key is absent exactly when no error was recorded; every other part of the results is reported unchanged |
| `BatchRequest.Settle` | utils/batchRequest.js:142-143 | the batch always settles with the report. It resolves exactly when at least one payload was accepted and is rejected otherwise |
| `BatchRequest.ConfiguredRequesters` | utils/batchRequest.js:113-117 | an absent or zero `max_requesters` gives 10; any other value is kept |
| `BatchRequest.ClampRequesters` | utils/batchRequest.js:125 | the clamp is the minimum of the configured count and the queue length |
| `BatchRequest.EmptyQueueStartsNone` | utils/batchRequest.js:124-151 | with an empty queue the clamp is at most 0 and no requester starts |
| `BatchRequest.StartedIsMinimum` | utils/batchRequest.js:117-151 | for an absent or non-negative setting, the loop starts exactly `min(max_requesters \|\| 10, queue.length)` requesters |
| `BatchRequest.ErrorPayloadsAppend` | utils/batchRequest.js:59-62 | pushing an error entry adds exactly its payload to the recorded error payloads |
| `BatchRequest.ErrorPayloadsSize` | utils/batchRequest.js:59-62 | every error entry holds one payload |
| `BatchRequest.StartKeepsInvariant` | utils/batchRequest.js:115-151 | the requesters started never exceed the payloads, and the state after the start loop satisfies the invariant |
| `BatchRequest.LaunchIsRequesterStep` | utils/batchRequest.js:148-151 | one pass of the start loop, while no pause is in force, is the requester step of a newly counted requester: it takes the front payload and leaves the batch pending |
| `BatchRequest.Spawned` | utils/batchRequest.js:148-151 | after `k` passes of the start loop the queue is `k` payloads shorter |
| `BatchRequest.SpawnedTakesPrefix` | utils/batchRequest.js:148-151 | `k` passes of the start loop put exactly the first `k` payloads in flight, leave the rest queued in order, add `k` requesters and change nothing else |
| `BatchRequest.StartedStateKeepsInvariant` | utils/batchRequest.js:115-133 | the freshly set-up state with the first `k` payloads in flight satisfies the invariant |
| `BatchRequest.RequesterKeepsInvariant` | utils/batchRequest.js:17-32 | a requester step keeps conservation and the other invariant parts, with the running requester accounted for again |
| `BatchRequest.DispatchKeepsInvariant` | utils/batchRequest.js:30-32 | taking the front payload moves it from the queue to the in-flight calls and keeps the invariant |
| `BatchRequest.RequeuedKeepsInvariant` | utils/batchRequest.js:35-37 | re-queueing moves the payload from in flight back to the queue and keeps more hits counted than pause episodes |
| `BatchRequest.PauseStartedKeepsInvariant` | utils/batchRequest.js:40-51 | starting a pause episode hands the requester over to its timer and keeps the invariant |
| `BatchRequest.RecordedErrorKeepsInvariant` | utils/batchRequest.js:58-68 | recording an error moves its payload from in flight to the errors and keeps `rejected_count` equal to the number of errors |
| `BatchRequest.RecordedResultKeepsInvariant` | utils/batchRequest.js:64-69 | recording a result moves its payload from in flight to the successes and keeps `accepted_count` equal to the length of `data` |
| `BatchRequest.MovedToSettled` | utils/batchRequest.js:58-66 | a payload taken from the in-flight calls and added to the recorded outcomes is neither lost nor duplicated |
| `BatchRequest.CallbackKeepsInvariant` | utils/batchRequest.js:32-74 | the callback keeps the invariant on every kind of answer |
| `BatchRequest.ResumeTimerKeepsInvariant` | utils/batchRequest.js:47-51 | the pause timer keeps the invariant |
| `BatchRequest.SleepTimerKeepsInvariant` | utils/batchRequest.js:24-27 | a parked requester's timer keeps the invariant |
| `BatchRequest.StartHasNoPauseTimer` | utils/batchRequest.js:115-151 | after set-up and the start loop no pause is in force and no pause timer is pending |
| `BatchRequest.RequesterKeepsOnePauseTimer` | utils/batchRequest.js:17-32 | a requester step leaves `waiting` and the pending pause timers unchanged |
| `BatchRequest.CallbackKeepsOnePauseTimer` | utils/batchRequest.js:35-55 | when rate-limited answers carry a positive window, exactly one pause timer is pending while a pause is in force and none otherwise; the callback keeps this and leaves at most one pending: only the first hit while no pause is in force schedules a timer |
| `BatchRequest.ResumeTimerKeepsOnePauseTimer` | utils/batchRequest.js:46-51 | the pending pause timer fires only during a pause; it ends the pause and leaves no pause timer pending |
| `BatchRequest.SleepTimerKeepsOnePauseTimer` | utils/batchRequest.js:24-27 | a parked requester's timer keeps one pause timer per episode |
| `BatchRequest.ZeroWaitEpisodeLeavesTimer` | utils/batchRequest.js:40-51 | a hit with no window header, while no pause is in force, starts an episode whose timer is pending with no pause in force, so the one-timer bound fails for 0 ms episodes |
| `BatchRequest.ConcurrencyBound` | utils/batchRequest.js:18-32 | the in-flight payloads never outnumber the live requesters, which never outnumber the clamp, which never exceeds the initial queue length. Some callback or timer is still to come exactly while a requester lives |
| `BatchRequest.EmptyBatchNeverSettles` | utils/batchRequest.js:124-151 | an empty queue starts no requester and leaves no callback or timer, so `done` is never called |
| `BatchRequest.RequesterCases` | utils/batchRequest.js:17-30 | with an empty queue a step only decrements the count and calls `done`; while paused it only parks the requester; otherwise it removes exactly the front payload and puts it in flight |
| `BatchRequest.RateLimitedAnswer` | utils/batchRequest.js:35-55 | a rate-limited answer appends the payload to the back of the queue and adds 1 to `actually_hit`, and leaves counts, errors and data unchanged. It counts an episode, sets the round start and the wait, and schedules the pause timer only when no pause is in force; otherwise it parks the requester |
| `BatchRequest.OrdinaryAnswer` | utils/batchRequest.js:57-73 | any other answer appends `{payload, error}` and adds 1 to `rejected_count`, or appends the result and adds 1 to `accepted_count`. It leaves the pause state alone, and the queue changes only by the next step's removal of its front |
| `BatchRequest.DoneSettles` | utils/batchRequest.js:135-144 | `done` does nothing while a requester lives. When it proceeds, nothing is in flight or pending and every payload has exactly one recorded outcome; `errors` is absent exactly when nothing was rejected, and the batch resolves exactly when something was accepted |
| `BatchRequest.SettlesOnce` | utils/batchRequest.js:17-21 | the batch settles only from the step of the last live requester, with the queue empty, and no callback or timer is left to run a requester again |
| `BatchRequest.Batch.constructor` | utils/batchRequest.js:112-151 | the state after set-up and the start loop is the initial state with `Started(max_requesters)` requesters spawned, and it satisfies the invariant |
| `BatchRequest.Batch.StartRequesters` | utils/batchRequest.js:147-151 | the loop spawns `Started(max_requesters)` requesters, each taking the next payload from the front |
| `BatchRequest.Batch.Launch` | utils/batchRequest.js:149-150 | counting a requester and running it, with the queue non-empty and no pause in force, is one pass of `Launched` |
| `BatchRequest.Batch.Done` | utils/batchRequest.js:135-144 | pending exactly while a requester lives; otherwise `errors` is absent exactly when empty, and the batch resolves exactly when something was accepted |
| `BatchRequest.Batch.Step` | utils/batchRequest.js:17-32 | the new state and the settlement are those of `Requester` applied to the old state |
| `BatchRequest.Batch.OnOutcome` | utils/batchRequest.js:32-74 | keeps `Valid()`; the new state is that of `Callback` applied to the old state |
| `BatchRequest.Batch.OnRateLimited` | utils/batchRequest.js:35-55 | the new state matches `Callback` on a rate-limited answer |
| `BatchRequest.Batch.BeginPause` | utils/batchRequest.js:41-47 | the new state is that of `PauseStarted`: one more episode, the round restarted now, the wait set from the window, one more pending pause timer |
| `BatchRequest.Batch.OnAnswer` | utils/batchRequest.js:57-73 | the new state matches `Callback` on any other answer |
| `BatchRequest.Batch.OnResumeTimer` | utils/batchRequest.js:47-51 | keeps `Valid()`; clears the pause and runs the requester again, as `ResumeTimer` |
| `BatchRequest.Batch.OnSleepTimer` | utils/batchRequest.js:25-27 | keeps `Valid()`; runs a parked requester again, as `SleepTimer` |
| `AsWritten.NumberProperty` | utils/batchRequest.js:127-133 | the three counters read their values; a name that is not a key of the object, `accepted` among them, reads `undefined`; the arrays `errors` and `data` are not read as numbers here |
| `AsWritten.SettleAsWritten` | utils/batchRequest.js:142-143 | as written, the batch resolves exactly when the `accepted` property is a positive number |
| `AsWritten.SettleAsWrittenAlwaysRejects` | utils/batchRequest.js:142 | as written, every batch is rejected |
| `AsWritten.AcceptedBatchRejectedAsWritten` | utils/batchRequest.js:142 | with line 65 corrected, a batch that accepted one payload is rejected by line 142 as written, while `Settle` resolves it; the two defects interact, since with line 65 as written no settled batch has accepted anything |
| `AsWritten.RecordAsWritten` | utils/batchRequest.js:58-69 | as written, an error is recorded as intended and every success throws a TypeError |
| `AsWritten.SuccessPushThrows` | utils/batchRequest.js:65 | on a success, the as-written code throws while `Recorded` appends to `data`; on an error the two agree |

## Left out

- Bluebird promises, `setTimeout` delays and `new Date()`. The current time is a
  `now` parameter. One instant stands for both clock reads of a pause start
  (lines 43 and 93). A timer firing is a method call, and the order in which
  timers and answers arrive is the caller's choice, not modelled delays.
- The function `func` itself. Its answer is a parameter of `OnOutcome`. A
  `func` that calls its callback synchronously, inside the start loop, is
  not modelled: the model runs the whole start loop before any answer.
- `Response` carries either an error or a result, never both. The JavaScript
  callback looks at `err || result` for the rate limit and at `err` first for
  recording.
- Every answer is assumed to carry `_response.headers`. In the source, an
  answer with neither `err` nor `result`, or an `err` without `_response` (a
  transport error raised before any HTTP answer), makes line 83 throw a
  TypeError inside the callback: the payload is never recorded,
  `requester_count` never drops and the promise never settles. The model has
  no such answer.
- `parseInt` and JavaScript coercions. The headers are optional integers, so a
  fractional window or a non-numeric header cannot be expressed. An absent
  window makes the intermediate `waitTime` NaN at line 95; `NaN > 0` is false,
  so the source returns 0 at line 101, as the model does.
- The `each` hook: line 118 installs a no-op and line 71 calls it.
- `accepted_count += !!result` (line 69) is modelled as adding 1. The property
  lookup at line 83 has already required `result` to be an object, so `!!result`
  is 1 there.
- `state.waiting` is an integer, with 0 standing for `null`. The source only
  tests whether it is truthy, and uses it as the delay of both timers (lines 27
  and 51), where `null` and 0 both mean 0 ms.
- The queue is given as a sequence, and the model keeps its own copy. The
  source drains and reorders the caller's array in place with `shift` and
  `push`, so the caller sees its array emptied; that aliasing is not modelled.
  The default `settings` object is an absent
  `max_requesters`, which gives the same value of 10.
- A rate-limited payload goes back to the end of the queue (`push`, line 37),
  as the code does. This model does not put it at the front.
- `index.js`, `lobPlus.js` and `utils/getResources.js` are not part of this
  model. They are SDK wrappers and an `instanceof` scan.
- Pause episodes are not told apart. When every rate-limited answer carries
  a positive window, at most one pause timer is pending, exactly while a pause
  is in force (`CallbackKeepsOnePauseTimer` and the timer lemmas beside it).
  The bound fails only for 0 ms episodes: as in the source, an episode whose
  wait is 0 (an absent or non-positive window) leaves a 0 ms timer pending
  with `waiting` still 0 (`ZeroWaitEpisodeLeavesTimer`), so a later hit can
  start a second episode, and the first timer's `state.waiting = null`
  (line 48) then ends that second pause early. For such answers the invariant
  promises only that a pause in force has at least one pending timer.
- A rejected or resolved promise has no observable continuation here.
  `Settlement` records only which of the two happened and with what.

## Findings

| source | as written | input that shows it | evidently intended | confidence | as-written member | corrected member |
|---|---|---|---|---|---|---|
| utils/batchRequest.js:142 | `combinedResults.accepted > 0` reads a property that is never assigned, so the test is always false and every batch rejects | with line 65 corrected, one payload whose call succeeds: `accepted_count` is 1 and the batch is still rejected. The two defects interact: with line 65 as written every success throws before it is counted, so that batch never settles, and every batch that does settle has `accepted_count` 0 | resolve when `accepted_count > 0` | not executed | `AsWritten.AcceptedBatchRejectedAsWritten` | `BatchRequest.Settle` |
| utils/batchRequest.js:65 | `combinedResults.results.push(result)` calls `push` on `undefined`, since the object only has `data` (line 132), so every success throws a TypeError inside the callback | any call of `func` that answers with a result and no rate-limit hit | append the result to `data` | not executed | `AsWritten.SuccessPushThrows` | `BatchRequest.RecordedResultKeepsInvariant` |
