# Policy evaluation in the update manager

A Dafny model of the policy-evaluation protocol of the update manager in
`update_manager/update_manager-inl.h`. A policy method returns one of three
statuses: `kSucceeded`, `kFailed` or `kAskMeAgainLater`. The update manager:

- evaluates the policy method on an evaluation context, falling back once to
  the default policy when the primary policy fails (`EvaluatePolicy`);
- in an asynchronous request, either delivers a definitive status to the
  caller's continuation, or arms a reevaluation that re-enters the same step
  when an input it read changes or a timeout passes
  (`OnPolicyReadyToEvaluate`);
- offers a synchronous entry point, `PolicyRequest` (one pass on a fresh
  context), and an asynchronous one, `AsyncPolicyRequest` (posts the first
  step to the main loop and returns).

Files:

- `policy.dfy`: `EvalStatus`, the inputs and outputs of one policy-method
  call, and the status-combination rule.
  - A policy object is a function value from (method name, invocation) to
    outcome.
  - The invocation holds four things: the expiration flag the policy can
    observe, the input values during the pass, the error string and result
    slot handed in, and the method's arguments.
  - The outcome holds the status, the error string and result slot as left by
    the policy, and the variables the policy read through the context.
- `evaluation_context.dfy`: the objects a request mutates.
  - `EvaluationContext` has an expiration flag, a read set, one armable
    wake-up, and a ghost log of its resets and the policy calls made on it.
  - `Callback` records every call of the continuation.
  - `MainLoop` is the queue of pending steps.
- `update_manager.dfy`: `EvaluatePass`, the specification of one pass, and
  the `UpdateManager` class with the four operations as methods proved
  against it.
- `async_request.dfy`: a whole asynchronous request over a sequence of
  environment rounds. Each round says three things: whether the expiration
  timeout passed, the inputs during the pass, and whether a reevaluation can
  be armed.
  - `AsyncRun` specifies the request over those rounds.
  - Lemmas give the deferral count, the finality of a delivery, and how a
    pending request resumes.
  - `RunAsyncRequest` drives the real methods through the main loop and is
    proved equal to `AsyncRun`.
- `scenarios.dfy`: two concrete requests worked through the model.

Two behaviours of the code that the model keeps:

- A synchronous request that defers only gets a debug-build check and a
  warning. The release build returns the deferral unchanged, and so does the
  model.
- The continuation is not guaranteed to run on every request. After a
  successful arming it runs only if the wake-up fires. `AsyncRun` reports such
  a request as still pending (`delivered == None`).

## Model

| member | source | states |
|---|---|---|
| `Policy.FallbackStatus` | update_manager/update_manager-inl.h:51-57 | the default policy's status is kept unless it is a deferral, which becomes `Failed`; the result is never a deferral |
| `Policy.FinalStatus` | update_manager/update_manager-inl.h:42-58 | a non-failing primary status is final; the pass defers iff the primary deferred; it succeeds iff the primary succeeded or the primary failed and the default succeeded; otherwise it fails |
| `UpdateManager.EvaluatePass` | update_manager/update_manager-inl.h:17-63 | the expiration is reset first iff the context was expired, and the pass still goes on. The bookkeeping is reset once, right before the primary call. No policy sees the context expired, and all see the same inputs, arguments and an empty error string. A succeeding or deferring primary is final, with no default call. A failing primary leads to exactly one default call, on the primary's result slot, whose coerced status and result are final. The pass defers iff the primary deferred. The read set holds only this pass's reads |
| `UpdateManager.UpdateManager.EvaluatePolicy` | update_manager/update_manager-inl.h:17-63 | the returned status and result, the context's new read set and the events appended to its log are those of `EvaluatePass` for the context's expiration flag on entry; afterwards the context is not expired and its armed wake-up is unchanged |
| `UpdateManager.UpdateManager.OnPolicyReadyToEvaluate` | update_manager/update_manager-inl.h:65-98 | one pass on a fresh result slot. A definitive status is delivered once to the continuation and nothing is armed. A deferral that can be armed arms a re-entry with the same context, continuation, method and arguments, and the continuation is not called. A deferral that cannot be armed is delivered once as `AskMeAgainLater` |
| `UpdateManager.UpdateManager.PolicyRequest` | update_manager/update_manager-inl.h:100-120 | the status and result are those of one pass on a fresh, unexpired context, and the context's log is exactly that pass's events, so no other pass is made; the status is a deferral iff the primary policy deferred, and it is returned unchanged |
| `UpdateManager.UpdateManager.AsyncPolicyRequest` | update_manager/update_manager-inl.h:122-138 | exactly one step is appended to the main loop, and earlier steps are kept. The step carries a fresh context with an expiration timeout, which is unexpired and unarmed and has seen no reset or policy call. It also carries the caller's continuation, method and arguments. The continuation is outside the method's frame, so nothing is evaluated or delivered |
| `Context.EvaluationContext.constructor` | update_manager/update_manager-inl.h:129-130 | a new context is unexpired, has read nothing, has nothing armed, and has an expiration timeout exactly when one is given |
| `Context.EvaluationContext.Expire` | update_manager/update_manager-inl.h:28 | the expiration event whose flag line 28 tests: for a context with an expiration timeout, the flag is set and nothing else changes |
| `Context.EvaluationContext.ResetExpiration` | update_manager/update_manager-inl.h:31 | clears the expiration flag and logs the reset; read set and wake-up unchanged |
| `Context.EvaluationContext.ResetEvaluation` | update_manager/update_manager-inl.h:35 | empties the read set and logs the reset; expiration flag and wake-up unchanged |
| `Context.EvaluationContext.RecordPolicyRun` | update_manager/update_manager-inl.h:42-43 | a policy call on the context adds the variables it read to the read set and is logged |
| `Context.EvaluationContext.RunOnValueChangeOrTimeout` | update_manager/update_manager-inl.h:84-89 | succeeds iff a reevaluation can be scheduled and none is armed yet; on success the given step is armed, otherwise nothing changes |
| `Context.EvaluationContext.OnValueChangedOrTimeout` | update_manager/update_manager-inl.h:84-88 | a change or timeout releases the armed step, if any, and disarms the context |
| `Context.Callback.Run` | update_manager/update_manager-inl.h:79 | appends one (status, result) call to the continuation's record |
| `Context.MainLoop.RunFromMainLoop` | update_manager/update_manager-inl.h:137 | appends the step to the main loop's queue |
| `Context.MainLoop.TakeNext` | update_manager/update_manager-inl.h:134-137 | removes and returns the oldest pending step |
| `AsyncRequest.AsyncRun` | update_manager/update_manager-inl.h:65-98 | at most one pass per round. Every pass before the last deferred and armed a reevaluation. With no delivery, every round rescheduled. A delivery is what the first concluding pass produced. A delivered deferral means the primary policy deferred and no reevaluation could be armed |
| `AsyncRequest.DeferredKTimes` | update_manager/update_manager-inl.h:77-89 | a request whose first k passes defer and reschedule, and whose next pass concludes, makes exactly k + 1 passes and delivers that pass's status and result |
| `AsyncRequest.DeliveryIsFinal` | update_manager/update_manager-inl.h:77-81 | once the continuation has been called, later rounds change neither the passes nor the delivery |
| `AsyncRequest.PendingResumes` | update_manager/update_manager-inl.h:83-89 | a request still pending after some rounds continues as a request started afresh on the remaining rounds, since the re-entry reuses the same context, continuation, method and arguments |
| `AsyncRequest.RunRound` | update_manager/update_manager-inl.h:65-98 | one main-loop round with the step pending makes exactly one evaluation pass: the context's log grows by that pass's events and its read set is that pass's. If the pass concludes, the queue empties and the continuation receives that pass's delivery; otherwise the step is queued again and the continuation is not called |
| `AsyncRequest.RunAsyncRequest` | update_manager/update_manager-inl.h:122-138 | driving `AsyncPolicyRequest` and the reevaluation steps through the main loop makes exactly the passes `AsyncRun` counts. The request's context logs one pass per round run, in order, and nothing else, so it holds exactly that many bookkeeping resets. The continuation is called at most once, with `AsyncRun`'s delivery |
| `AsyncRequest.OneResetPerPass` | update_manager/update_manager-inl.h:34-35 | every evaluation pass resets the context's bookkeeping exactly once |
| `AsyncRequest.PassLogsResets` | update_manager/update_manager-inl.h:65-98 | the passes of n rounds leave exactly n bookkeeping resets on the context |
| `Scenarios.ThresholdReachedAfterOneDeferral` | update_manager/update_manager-inl.h:77-89 | a policy waiting for V to reach 10 reads V, defers on V = 5 and succeeds with 12 on the next pass; the request makes two passes, delivers (success, 12) and never calls the default policy |
| `Scenarios.AsyncRequestWaitsForThreshold` | update_manager/update_manager-inl.h:122-138 | the same request run through the update manager delivers exactly (success, 12) after two passes |
| `Scenarios.SyncRequestFallsBack` | update_manager/update_manager-inl.h:100-120 | a synchronous request whose primary policy fails with "no data" returns the default policy's (success, 42) |

## Left out

- Logging, `PolicyRequestName` and `DumpContext`. They produce diagnostics only. The error string is modelled as data handed to and returned by policies, but nothing reads it.
- `UpdateManager.UpdateManager.OnPolicyReadyToEvaluate`: a fresh result slot starts at the fixed value `initialResult`. In C++, `R result;` leaves a scalar `R` uninitialised. A policy that never writes the slot then delivers an unspecified value, which the model does not capture.
- The debug-build `DCHECK` in `PolicyRequest`. The release behaviour, which returns the status, is modelled.
- `base::Bind`, `base::Callback`, `scoped_refptr` and `base::Unretained`. The context is owned by the one request that created it. A bound closure is a `Task` value holding its context, continuation, method and arguments.
- The real event loop and several requests sharing it. `RunAsyncRequest` drives a single request.
- The point at which an armed wake-up fires. The model fires it at the end of the round that armed it.
- `EvaluationContext` internals are not part of this model: the clock, the evaluation and expiration timeouts, variable observers, and the caching of constant variables across `ResetEvaluation`.
  - Whether a reevaluation can be armed is the environment's `schedulable` flag.
  - When the expiration passes is the environment's `expire` flag.
- `Context.EvaluationContext.RunOnValueChangeOrTimeout`: arming succeeds exactly when the environment says a reevaluation can be scheduled and no callback is armed yet. The context's own decision, based on the variables read and on the timeout, is not modelled.
- Concrete `Policy` implementations and `State` providers. A policy is an arbitrary function value. The state is the input values visible during a pass, given by the environment.
- The `ActualArgs`/`ExpectedArgs` conversion, a C++ typing matter. Arguments have one generic type.
