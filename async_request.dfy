/**
 * A whole asynchronous policy request, from AsyncPolicyRequest to the
 * continuation: the steps the main loop runs, each one evaluation pass,
 * until a pass ends the request. The environment is a sequence of rounds;
 * in each the expiration timeout may pass, the inputs take some values,
 * and arming a reevaluation may or may not be possible.
 */
module AsyncRequest {
  import opened Wrappers
  import opened Policy
  import opened Context
  import opened UpdateManager

  /** What the environment does around one step of the request. */
  datatype Round<S> = Round(expire: bool, inputs: S, schedulable: bool)

  /** The fixed parts of one asynchronous request. */
  datatype Request<!S, !R, !A> = Request(policy: Policy<S, R, A>, defaultPolicy: Policy<S, R, A>, initialResult: R,
                                      policyMethod: MethodName, args: A)

  /** How far a request got: the passes made and the delivery to the continuation, if any. */
  datatype Progress<R> = Progress(passes: nat, delivered: Option<(EvalStatus, R)>)

  /** The pass a step of the request makes in `round`, on a fresh result slot. */
  function RoundPass<S, R, A>(rq: Request<S, R, A>, round: Round<S>): Pass<S, R, A>
  {
    EvaluatePass(rq.policy, rq.defaultPolicy, rq.policyMethod, round.expire, round.inputs, rq.initialResult, rq.args)
  }

  /** The step of `round` calls the continuation instead of arming a reevaluation. */
  predicate Concludes<S, R, A>(rq: Request<S, R, A>, round: Round<S>)
  {
    RoundPass(rq, round).status != AskMeAgainLater || !round.schedulable
  }

  /** What the continuation receives from the step of `round`. */
  function Delivery<S, R, A>(rq: Request<S, R, A>, round: Round<S>): (EvalStatus, R)
  {
    var p := RoundPass(rq, round);
    (p.status, p.result)
  }

  /** The progress of request `rq` over the rounds `rounds`. */
  function AsyncRun<S, R, A>(rq: Request<S, R, A>, rounds: seq<Round<S>>): (r: Progress<R>)
    ensures r.passes <= |rounds|
    // Every pass before the last one deferred and armed a reevaluation.
    ensures forall k | 0 <= k < r.passes - 1 :: !Concludes(rq, rounds[k])
    // Without a delivery, every pass rescheduled and the rounds ran out.
    ensures r.delivered == None ==> r.passes == |rounds| && forall k | 0 <= k < |rounds| :: !Concludes(rq, rounds[k])
    // A delivery is what the first concluding pass produced.
    ensures r.delivered.Some? ==>
      1 <= r.passes && Concludes(rq, rounds[r.passes - 1]) && r.delivered.value == Delivery(rq, rounds[r.passes - 1])
    // A deferral reaches the continuation only when the primary policy deferred and no reevaluation could be armed.
    ensures r.delivered.Some? && r.delivered.value.0 == AskMeAgainLater ==>
      var round := rounds[r.passes - 1];
      && !round.schedulable
      && rq.policy(rq.policyMethod, PrimaryCall(rq.policyMethod, round.inputs, rq.initialResult, rq.args).inv).status == AskMeAgainLater
    decreases |rounds|
  {
    if rounds == [] then
      Progress(0, None)
    else if Concludes(rq, rounds[0]) then
      Progress(1, Some(Delivery(rq, rounds[0])))
    else
      var rest := AsyncRun(rq, rounds[1..]);
      Progress(rest.passes + 1, rest.delivered)
  }

  /**
   * A request whose first `k` steps defer and reschedule and whose next step
   * concludes makes exactly k + 1 passes and delivers what that step produced.
   */
  lemma {:induction false} DeferredKTimes<S, R, A>(rq: Request<S, R, A>, rounds: seq<Round<S>>, k: nat)
    requires k < |rounds|
    requires forall j | 0 <= j < k :: !Concludes(rq, rounds[j])
    requires Concludes(rq, rounds[k])
    ensures AsyncRun(rq, rounds) == Progress(k + 1, Some(Delivery(rq, rounds[k])))
  {
    if k > 0 {
      assert rounds[1..][k - 1] == rounds[k];
      DeferredKTimes(rq, rounds[1..], k - 1);
    }
  }

  /** Once the continuation has been called, later rounds change nothing. */
  lemma {:induction false} DeliveryIsFinal<S, R, A>(rq: Request<S, R, A>, rounds: seq<Round<S>>, more: seq<Round<S>>)
    requires AsyncRun(rq, rounds).delivered.Some?
    ensures AsyncRun(rq, rounds + more) == AsyncRun(rq, rounds)
  {
    assert (rounds + more)[0] == rounds[0];
    if !Concludes(rq, rounds[0]) {
      assert (rounds + more)[1..] == rounds[1..] + more;
      DeliveryIsFinal(rq, rounds[1..], more);
    }
  }

  /** A request still waiting after `rounds` goes on in `more` as a request started afresh would. */
  lemma {:induction false} PendingResumes<S, R, A>(rq: Request<S, R, A>, rounds: seq<Round<S>>, more: seq<Round<S>>)
    requires AsyncRun(rq, rounds).delivered == None
    ensures AsyncRun(rq, rounds + more) == Progress(|rounds| + AsyncRun(rq, more).passes, AsyncRun(rq, more).delivered)
  {
    if rounds == [] {
      assert rounds + more == more;
    } else {
      assert (rounds + more)[0] == rounds[0];
      assert (rounds + more)[1..] == rounds[1..] + more;
      PendingResumes(rq, rounds[1..], more);
    }
  }

  /** Unfolds AsyncRun once on the rounds from `i` on. */
  lemma AsyncRunStep<S, R, A>(rq: Request<S, R, A>, rounds: seq<Round<S>>, i: nat)
    requires i < |rounds|
    ensures AsyncRun(rq, rounds[i..]) ==
      if Concludes(rq, rounds[i]) then Progress(1, Some(Delivery(rq, rounds[i])))
      else Progress(AsyncRun(rq, rounds[i + 1..]).passes + 1, AsyncRun(rq, rounds[i + 1..]).delivered)
  {
    assert rounds[i..][0] == rounds[i];
    assert rounds[i..][1..] == rounds[i + 1..];
  }

  /** The events that the passes of `rounds`, one per round, leave on the context, in order. */
  ghost function PassLogs<S, R, A>(rq: Request<S, R, A>, rounds: seq<Round<S>>): seq<ContextEvent<S, R, A>>
    decreases |rounds|
  {
    if rounds == [] then []
    else PassLogs(rq, rounds[..|rounds| - 1]) + RoundPass(rq, rounds[|rounds| - 1]).log
  }

  /** Unfolds PassLogs once at the round with index `i`. */
  lemma PassLogsStep<S, R, A>(rq: Request<S, R, A>, rounds: seq<Round<S>>, i: nat)
    requires i < |rounds|
    ensures PassLogs(rq, rounds[..i + 1]) == PassLogs(rq, rounds[..i]) + RoundPass(rq, rounds[i]).log
  {
    assert rounds[..i + 1][..i] == rounds[..i];
  }

  /** The number of bookkeeping resets in `log`, that is, of evaluation passes begun. */
  ghost function CountResets<S, R, A>(log: seq<ContextEvent<S, R, A>>): nat
  {
    if log == [] then 0
    else (if log[0].EvaluationReset? then 1 else 0) + CountResets(log[1..])
  }

  lemma {:induction false} CountResetsAppend<S, R, A>(a: seq<ContextEvent<S, R, A>>, b: seq<ContextEvent<S, R, A>>)
    ensures CountResets(a + b) == CountResets(a) + CountResets(b)
  {
    if a == [] {
      assert a + b == b;
    } else {
      assert (a + b)[0] == a[0];
      assert (a + b)[1..] == a[1..] + b;
      CountResetsAppend(a[1..], b);
    }
  }

  /** A log with no bookkeeping reset counts none. */
  lemma {:induction false} NoResets<S, R, A>(log: seq<ContextEvent<S, R, A>>)
    requires forall j | 0 <= j < |log| :: !log[j].EvaluationReset?
    ensures CountResets(log) == 0
  {
    if log != [] {
      NoResets(log[1..]);
    }
  }

  /** Every evaluation pass holds exactly one bookkeeping reset, whether or not it began by resetting the expiration. */
  lemma OneResetPerPass<S, R, A>(rq: Request<S, R, A>, round: Round<S>)
    ensures CountResets(RoundPass(rq, round).log) == 1
  {
    var log := RoundPass(rq, round).log;
    var k := if round.expire then 1 else 0;
    var calls := log[k + 1..];
    assert log == log[..k] + [EvaluationReset] + calls;
    NoResets(log[..k]);
    NoResets(calls);
    CountResetsAppend(log[..k] + [EvaluationReset], calls);
    CountResetsAppend(log[..k], [EvaluationReset]);
  }

  /** The passes of `rounds` leave exactly one bookkeeping reset per round on the context. */
  lemma {:induction false} PassLogsResets<S, R, A>(rq: Request<S, R, A>, rounds: seq<Round<S>>)
    ensures CountResets(PassLogs(rq, rounds)) == |rounds|
    decreases |rounds|
  {
    if rounds != [] {
      var last := rounds[|rounds| - 1];
      PassLogsResets(rq, rounds[..|rounds| - 1]);
      CountResetsAppend(PassLogs(rq, rounds[..|rounds| - 1]), RoundPass(rq, last).log);
      OneResetPerPass(rq, last);
    }
  }

  /** The request `um` makes for method `m` with arguments `args`. */
  function RequestOf<S, R, A>(um: UpdateManager<S, R, A>, m: MethodName, args: A): Request<S, R, A>
  {
    Request(um.policy, um.defaultPolicy, um.initialResult, m, args)
  }

  /**
   * One round of the main loop while the request's step is pending: the
   * expiration timeout may pass, the step runs, and an armed reevaluation
   * fires and is posted back to the loop.
   */
  method RunRound<S, R, A>(um: UpdateManager<S, R, A>, loop: MainLoop<S, R, A>, ec: EvaluationContext<S, R, A>,
                           callback: Callback<R>, m: MethodName, args: A, round: Round<S>)
    requires loop.pending == [ReadyToEvaluate(ec, callback, m, args)]
    requires ec.hasExpiration && !ec.expired && ec.wake == None
    modifies loop, ec, callback
    ensures !ec.expired && ec.wake == None
    // Exactly one evaluation pass is made on the context.
    ensures var p := RoundPass(RequestOf(um, m, args), round);
      ec.log == old(ec.log) + p.log && ec.readSet == p.readSet
    ensures var rq := RequestOf(um, m, args);
      if Concludes(rq, round) then
        loop.pending == [] && callback.runs == old(callback.runs) + [Delivery(rq, round)]
      else
        loop.pending == old(loop.pending) && callback.runs == old(callback.runs)
  {
    var task := loop.TakeNext();
    if round.expire {
      task.ec.Expire();
    }
    um.OnPolicyReadyToEvaluate(task.ec, task.callback, task.policyMethod, task.args, round.inputs, round.schedulable);
    var fired := task.ec.OnValueChangedOrTimeout();
    if fired.Some? {
      loop.RunFromMainLoop(fired.value);
    }
  }

  /**
   * What holds between rounds of an asynchronous request after `passes`
   * rounds: the context has recorded those passes, the step is still pending
   * and the remaining rounds decide the outcome, or the continuation has run
   * once with the request's delivery.
   */
  ghost predicate Driving<S, R, A>(rq: Request<S, R, A>, rounds: seq<Round<S>>, total: Progress<R>, passes: nat,
                                  loop: MainLoop<S, R, A>, ec: EvaluationContext<S, R, A>, callback: Callback<R>)
    reads loop, ec, callback
  {
    && passes <= |rounds|
    && ec.hasExpiration && !ec.expired && ec.wake == None
    && ec.log == PassLogs(rq, rounds[..passes])
    && (loop.pending == [] || loop.pending == [ReadyToEvaluate(ec, callback, rq.policyMethod, rq.args)])
    && (loop.pending != [] ==>
          && callback.runs == []
          && total == Progress(passes + AsyncRun(rq, rounds[passes..]).passes, AsyncRun(rq, rounds[passes..]).delivered))
    && (loop.pending == [] ==>
          total.passes == passes && total.delivered.Some? && callback.runs == [total.delivered.value])
  }

  /** One round of the driver below, while the step is still pending. */
  method DriveRound<S, R, A>(um: UpdateManager<S, R, A>, m: MethodName, args: A, rounds: seq<Round<S>>,
                             ghost total: Progress<R>, passes: nat,
                             loop: MainLoop<S, R, A>, ec: EvaluationContext<S, R, A>, callback: Callback<R>)
    requires Driving(RequestOf(um, m, args), rounds, total, passes, loop, ec, callback)
    requires passes < |rounds| && loop.pending != []
    modifies loop, ec, callback
    ensures Driving(RequestOf(um, m, args), rounds, total, passes + 1, loop, ec, callback)
  {
    ghost var rq := RequestOf(um, m, args);
    RunRound(um, loop, ec, callback, m, args, rounds[passes]);
    AsyncRunStep(rq, rounds, passes);
    PassLogsStep(rq, rounds, passes);
  }

  /**
   * Runs an asynchronous request for method `m` through the main loop over
   * `rounds`: each round runs the pending step, if any, and then lets an armed
   * reevaluation fire. Returns the calls the continuation received, the
   * number of passes made, and `log`, the events recorded by the context that
   * `AsyncPolicyRequest` created for the request.
   */
  method RunAsyncRequest<S, R, A>(um: UpdateManager<S, R, A>, m: MethodName, args: A, rounds: seq<Round<S>>)
    returns (runs: seq<(EvalStatus, R)>, passes: nat, ghost log: seq<ContextEvent<S, R, A>>)
    ensures var progress := AsyncRun(RequestOf(um, m, args), rounds);
      && passes == progress.passes
      && runs == if progress.delivered.Some? then [progress.delivered.value] else []
    ensures |runs| <= 1
    // The request's context records one evaluation pass per round run, and nothing else.
    ensures log == PassLogs(RequestOf(um, m, args), rounds[..passes])
    ensures CountResets(log) == passes
  {
    ghost var rq := RequestOf(um, m, args);
    ghost var total := AsyncRun(rq, rounds);
    var loop := new MainLoop<S, R, A>();
    var callback := new Callback<R>();
    um.AsyncPolicyRequest(loop, callback, m, args);
    var ec := loop.pending[0].ec;
    passes := 0;
    assert rounds[passes..] == rounds;
    assert rounds[..passes] == [];
    while passes < |rounds| && loop.pending != []
      invariant Driving(rq, rounds, total, passes, loop, ec, callback)
      decreases |rounds| - passes
    {
      DriveRound(um, m, args, rounds, total, passes, loop, ec, callback);
      passes := passes + 1;
    }
    assert loop.pending != [] ==> rounds[passes..] == [];
    runs, log := callback.runs, ec.log;
    PassLogsResets(rq, rounds[..passes]);
  }
}
