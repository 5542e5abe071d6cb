/**
 * The objects one policy request works with: the evaluation context, the
 * caller's continuation, and the main loop that runs scheduled steps.
 * Only what the update manager observes of them is modelled.
 */
module Context {
  import opened Wrappers
  import opened Policy

  /** One call of a policy method, as recorded on the context it was given. */
  datatype PolicyCall<S, R, A> = PolicyCall(role: Role, policyMethod: MethodName, inv: Invocation<S, R, A>)

  /** What happens to an evaluation context during a pass, in order. */
  datatype ContextEvent<S, R, A> =
    | ExpirationReset
    | EvaluationReset
    | PolicyRun(call: PolicyCall<S, R, A>)

  /**
   * A step of an asynchronous request waiting to run: re-enter
   * UpdateManager.OnPolicyReadyToEvaluate with this context, continuation,
   * policy method and arguments.
   */
  datatype Task<S, R, A> = ReadyToEvaluate(ec: EvaluationContext<S, R, A>, callback: Callback<R>, policyMethod: MethodName, args: A)

  /**
   * The evaluation context of one logical request. `expired` is the one-shot
   * expiration flag (only a context created with an expiration timeout can
   * expire), `readSet` the variables read during the current pass, and `wake`
   * the reevaluation armed to run when one of them changes or a timeout passes.
   * `log` records the context's resets and the policy calls made on it.
   */
  class EvaluationContext<S, R, A> {
    const hasExpiration: bool
    var expired: bool
    var readSet: set<VariableName>
    var wake: Option<Task<S, R, A>>
    ghost var log: seq<ContextEvent<S, R, A>>

    constructor (withExpiration: bool)
      ensures hasExpiration == withExpiration
      ensures !expired && readSet == {} && wake == None && log == []
    {
      hasExpiration := withExpiration;
      expired := false;
      readSet := {};
      wake := None;
      log := [];
    }

    /** The expiration timeout passes (an event of the environment). */
    method Expire()
      requires hasExpiration
      modifies this
      ensures expired
      ensures readSet == old(readSet) && wake == old(wake) && log == old(log)
    {
      expired := true;
    }

    /** Consumes the expiration: the flag is cleared so that it fires once per period. */
    method ResetExpiration()
      modifies this
      ensures !expired
      ensures log == old(log) + [ExpirationReset]
      ensures readSet == old(readSet) && wake == old(wake)
    {
      expired := false;
      log := log + [ExpirationReset];
    }

    /** Starts a new pass: forgets the variables read during the previous one. */
    method ResetEvaluation()
      modifies this
      ensures readSet == {}
      ensures log == old(log) + [EvaluationReset]
      ensures expired == old(expired) && wake == old(wake)
    {
      readSet := {};
      log := log + [EvaluationReset];
    }

    /** A policy method ran on this context and read the variables `consulted` through it. */
    method RecordPolicyRun(call: PolicyCall<S, R, A>, consulted: set<VariableName>)
      modifies this
      ensures readSet == old(readSet) + consulted
      ensures log == old(log) + [PolicyRun(call)]
      ensures expired == old(expired) && wake == old(wake)
    {
      readSet := readSet + consulted;
      log := log + [PolicyRun(call)];
    }

    /**
     * Arms `callback` to run on the next change of a variable read in this
     * pass or when the reevaluation timeout passes. Whether such an event can
     * happen is decided by the context's internals and is given here as
     * `schedulable`; a context holds at most one armed callback.
     */
    method RunOnValueChangeOrTimeout(callback: Task<S, R, A>, schedulable: bool) returns (ok: bool)
      modifies this
      ensures ok <==> schedulable && old(wake) == None
      ensures wake == if ok then Some(callback) else old(wake)
      ensures expired == old(expired) && readSet == old(readSet) && log == old(log)
    {
      ok := schedulable && wake == None;
      if ok {
        wake := Some(callback);
      }
    }

    /** A watched variable changed or the timeout passed: the armed callback, if any, is released. */
    method OnValueChangedOrTimeout() returns (fired: Option<Task<S, R, A>>)
      modifies this
      ensures fired == old(wake) && wake == None
      ensures expired == old(expired) && readSet == old(readSet) && log == old(log)
    {
      fired := wake;
      wake := None;
    }
  }

  /** The caller's continuation; `runs` lists every call it received, in order. */
  class Callback<R> {
    var runs: seq<(EvalStatus, R)>

    constructor ()
      ensures runs == []
    {
      runs := [];
    }

    method Run(status: EvalStatus, result: R)
      modifies this
      ensures runs == old(runs) + [(status, result)]
    {
      runs := runs + [(status, result)];
    }
  }

  /** The single-threaded main loop: the steps posted to it, in the order they will run. */
  class MainLoop<S, R, A> {
    var pending: seq<Task<S, R, A>>

    constructor ()
      ensures pending == []
    {
      pending := [];
    }

    method RunFromMainLoop(task: Task<S, R, A>)
      modifies this
      ensures pending == old(pending) + [task]
    {
      pending := pending + [task];
    }

    /** Takes the next step to run off the queue. */
    method TakeNext() returns (task: Task<S, R, A>)
      requires pending != []
      modifies this
      ensures task == old(pending)[0] && pending == old(pending)[1..]
    {
      task := pending[0];
      pending := pending[1..];
    }
  }
}
