/**
 * The policy-evaluation protocol of the update manager: one evaluation pass
 * (the primary policy, with one fallback to the default policy), one step of
 * the asynchronous reevaluation loop, and the synchronous and asynchronous
 * request entry points.
 */
module UpdateManager {
  import opened Wrappers
  import opened Policy
  import opened Context

  /** What one evaluation pass yields and what it does to its context. */
  datatype Pass<S, R, A> = Pass(status: EvalStatus, result: R, readSet: set<VariableName>, log: seq<ContextEvent<S, R, A>>)

  /**
   * The call of the primary policy in a pass: after the expiration has been
   * consumed, with a fresh error string and the caller's result slot.
   */
  function PrimaryCall<S, R, A>(m: MethodName, inputs: S, result: R, args: A): PolicyCall<S, R, A>
  {
    PolicyCall(Primary, m, Invocation(false, inputs, "", result, args))
  }

  /**
   * The call of the default policy after the primary one failed: same method,
   * inputs and arguments, a cleared error string, and the result slot as the
   * primary policy left it.
   */
  function DefaultCall<S, R, A>(m: MethodName, inputs: S, result: R, args: A): PolicyCall<S, R, A>
  {
    PolicyCall(Default, m, Invocation(false, inputs, "", result, args))
  }

  /**
   * `event` is a policy call that saw the context unexpired, the pass's
   * inputs and arguments, and an empty error string.
   */
  ghost predicate SeesFreshPass<S, R, A>(event: ContextEvent<S, R, A>, inputs: S, args: A)
  {
    && event.PolicyRun?
    && !event.call.inv.expired
    && event.call.inv.inputs == inputs && event.call.inv.args == args && event.call.inv.error == ""
  }

  /**
   * One evaluation pass of method `m` on a context whose expiration flag is
   * `expired` on entry.
   */
  function EvaluatePass<S, R, A>(policy: Policy<S, R, A>, defaultPolicy: Policy<S, R, A>, m: MethodName,
                                 expired: bool, inputs: S, result: R, args: A): (p: Pass<S, R, A>)
    // An expired context is reset before anything else, and the pass goes on.
    ensures |p.log| >= if expired then 3 else 2
    ensures p.log[0] == ExpirationReset <==> expired
    // The bookkeeping is reset once, right before the primary policy runs.
    ensures var k := if expired then 1 else 0;
      p.log[k] == EvaluationReset && p.log[k + 1] == PolicyRun(PrimaryCall(m, inputs, result, args))
    // The policy calls follow the reset; no call sees the context expired, and all see the
    // pass's inputs and arguments and an empty error string.
    ensures var k := if expired then 1 else 0;
      && |p.log| <= k + 3
      && SeesFreshPass(p.log[k + 1], inputs, args)
      && (|p.log| == k + 3 ==> SeesFreshPass(p.log[k + 2], inputs, args))
    // Success or deferral of the primary policy is final and the default policy is not called.
    ensures var o := policy(m, PrimaryCall(m, inputs, result, args).inv);
      o.status != Failed ==>
        && p.status == o.status && p.result == o.result && p.readSet == o.consulted
        && |p.log| == (if expired then 3 else 2)
    // Failure of the primary policy falls back to the default policy exactly once.
    ensures var o := policy(m, PrimaryCall(m, inputs, result, args).inv);
      o.status == Failed ==>
        var d := defaultPolicy(m, DefaultCall(m, inputs, o.result, args).inv);
        && p.status == FallbackStatus(d.status) && p.result == d.result
        && p.readSet == o.consulted + d.consulted
        && |p.log| == (if expired then 4 else 3)
        && p.log[|p.log| - 1] == PolicyRun(DefaultCall(m, inputs, o.result, args))
    // A pass defers only when the primary policy deferred.
    ensures p.status == AskMeAgainLater <==> policy(m, PrimaryCall(m, inputs, result, args).inv).status == AskMeAgainLater
  {
    var prologue := if expired then [ExpirationReset, EvaluationReset] else [EvaluationReset];
    var first := PrimaryCall(m, inputs, result, args);
    var o := policy(m, first.inv);
    if o.status != Failed then
      Pass(o.status, o.result, o.consulted, prologue + [PolicyRun(first)])
    else
      var second := DefaultCall(m, inputs, o.result, args);
      var d := defaultPolicy(m, second.inv);
      Pass(FinalStatus(o.status, d.status), d.result, o.consulted + d.consulted, prologue + [PolicyRun(first), PolicyRun(second)])
  }

  /**
   * The update manager: the policy it consults, the default policy it falls
   * back on, and the value a fresh result slot holds.
   */
  class UpdateManager<S, R, A> {
    const policy: Policy<S, R, A>
    const defaultPolicy: Policy<S, R, A>
    const initialResult: R

    constructor (policy: Policy<S, R, A>, defaultPolicy: Policy<S, R, A>, initialResult: R)
      ensures this.policy == policy && this.defaultPolicy == defaultPolicy && this.initialResult == initialResult
    {
      this.policy := policy;
      this.defaultPolicy := defaultPolicy;
      this.initialResult := initialResult;
    }

    /**
     * Evaluates method `m` once on `ec`, with the inputs the context exposes
     * during this pass; `result` is the caller's result slot on entry and
     * `result'` on exit.
     */
    method EvaluatePolicy(ec: EvaluationContext<S, R, A>, m: MethodName, inputs: S, result: R, args: A)
      returns (status: EvalStatus, result': R)
      modifies ec
      ensures var p := EvaluatePass(policy, defaultPolicy, m, old(ec.expired), inputs, result, args);
        && status == p.status && result' == p.result
        && ec.readSet == p.readSet && ec.log == old(ec.log) + p.log
      ensures !ec.expired && ec.wake == old(ec.wake)
    {
      if ec.expired {
        ec.ResetExpiration();
      }
      ec.ResetEvaluation();

      var error := "";
      var primary := PolicyCall(Primary, m, Invocation(ec.expired, inputs, error, result, args));
      var o := policy(m, primary.inv);
      ec.RecordPolicyRun(primary, o.consulted);
      status, error, result' := o.status, o.error, o.result;

      if status == Failed {
        error := "";
        var fallback := PolicyCall(Default, m, Invocation(ec.expired, inputs, error, result', args));
        var d := defaultPolicy(m, fallback.inv);
        ec.RecordPolicyRun(fallback, d.consulted);
        status, error, result' := d.status, d.error, d.result;
        if status == AskMeAgainLater {
          // The default policy must not defer: force a failure.
          status := Failed;
        }
      }
    }

    /**
     * One step of an asynchronous request: evaluate, then either deliver a
     * definitive status, or arm a reevaluation of the same step, or, when no
     * reevaluation can be armed, deliver the deferral.
     */
    method OnPolicyReadyToEvaluate(ec: EvaluationContext<S, R, A>, callback: Callback<R>, m: MethodName, args: A,
                                   inputs: S, schedulable: bool)
      modifies ec, callback
      ensures var p := EvaluatePass(policy, defaultPolicy, m, old(ec.expired), inputs, initialResult, args);
        && ec.readSet == p.readSet && ec.log == old(ec.log) + p.log && !ec.expired
        && if p.status != AskMeAgainLater then
             callback.runs == old(callback.runs) + [(p.status, p.result)] && ec.wake == old(ec.wake)
           else if schedulable && old(ec.wake) == None then
             callback.runs == old(callback.runs) && ec.wake == Some(ReadyToEvaluate(ec, callback, m, args))
           else
             callback.runs == old(callback.runs) + [(AskMeAgainLater, p.result)] && ec.wake == old(ec.wake)
    {
      var status, result := EvaluatePolicy(ec, m, inputs, initialResult, args);
      if status != AskMeAgainLater {
        callback.Run(status, result);
        return;
      }
      var reevaluation := ReadyToEvaluate(ec, callback, m, args);
      var scheduled := ec.RunOnValueChangeOrTimeout(reevaluation, schedulable);
      if scheduled {
        return;
      }
      callback.Run(status, result);
    }

    /**
     * A synchronous request: a single pass on a fresh context without an
     * expiration timeout. A deferral is a misuse by the caller, but it is
     * returned as it is. `log` is what the request's context recorded.
     */
    method PolicyRequest(m: MethodName, inputs: S, result: R, args: A)
      returns (status: EvalStatus, result': R, ghost log: seq<ContextEvent<S, R, A>>)
      ensures var p := EvaluatePass(policy, defaultPolicy, m, false, inputs, result, args);
        status == p.status && result' == p.result
      // The context records exactly one pass and nothing else.
      ensures log == EvaluatePass(policy, defaultPolicy, m, false, inputs, result, args).log
      ensures status == AskMeAgainLater <==> policy(m, PrimaryCall(m, inputs, result, args).inv).status == AskMeAgainLater
    {
      var ec := new EvaluationContext(false);
      status, result' := EvaluatePolicy(ec, m, inputs, result, args);
      log := ec.log;
    }

    /**
     * An asynchronous request: creates a context with an expiration timeout
     * and posts the first step to the main loop, without evaluating anything.
     */
    method AsyncPolicyRequest(loop: MainLoop<S, R, A>, callback: Callback<R>, m: MethodName, args: A)
      modifies loop
      ensures |loop.pending| == |old(loop.pending)| + 1
      ensures loop.pending[..|old(loop.pending)|] == old(loop.pending)
      ensures var task := loop.pending[|loop.pending| - 1];
        && fresh(task.ec) && task.callback == callback && task.policyMethod == m && task.args == args
        && task.ec.hasExpiration && !task.ec.expired && task.ec.readSet == {} && task.ec.wake == None
        && task.ec.log == []
    {
      var ec := new EvaluationContext(true);
      loop.RunFromMainLoop(ReadyToEvaluate(ec, callback, m, args));
    }
  }
}
