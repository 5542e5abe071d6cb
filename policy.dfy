/**
 * The interface between the update manager and the policies it evaluates:
 * the three-valued outcome of a policy method, what one call of a policy
 * method receives and produces, and the rule that combines the primary
 * policy's status with the default policy's.
 */
module Policy {

  /** Outcome of evaluating a policy method once. */
  datatype EvalStatus = Failed | Succeeded | AskMeAgainLater

  /** Identifies a policy method; the same method is looked up on either policy object. */
  type MethodName = string

  /** Names an input variable that a policy can read through the evaluation context. */
  type VariableName = string

  /** Which of the manager's two policy objects a method is called on. */
  datatype Role = Primary | Default

  /**
   * Everything one call of a policy method receives: whether the evaluation
   * context reports expiration at that moment, the values of the inputs the
   * context exposes during the pass, the error string and result slot as they
   * are handed in, and the method's own arguments.
   */
  datatype Invocation<S, R, A> = Invocation(expired: bool, inputs: S, error: string, result: R, args: A)

  /**
   * Everything one call of a policy method produces: its status, the error
   * string and result slot as it leaves them, and the variables it consulted
   * through the evaluation context.
   */
  datatype Outcome<R> = Outcome(status: EvalStatus, error: string, result: R, consulted: set<VariableName>)

  /** A policy object: each of its methods as a function of one call's inputs. */
  type Policy<!S, !R, !A> = (MethodName, Invocation<S, R, A>) -> Outcome<R>

  /**
   * The status kept from the default policy. The default policy must never
   * defer; if it does, the deferral is forced to a failure.
   */
  function FallbackStatus(s: EvalStatus): (r: EvalStatus)
    ensures r != AskMeAgainLater
    ensures s != AskMeAgainLater ==> r == s
    ensures s == AskMeAgainLater ==> r == Failed
  {
    if s == AskMeAgainLater then Failed else s
  }

  /**
   * The final status of one evaluation pass, given the primary policy's
   * status and the status the default policy would return. The default
   * policy only matters when the primary one failed.
   */
  function FinalStatus(primary: EvalStatus, fallback: EvalStatus): (r: EvalStatus)
    ensures primary != Failed ==> r == primary
    ensures r == AskMeAgainLater <==> primary == AskMeAgainLater
    ensures r == Succeeded <==> primary == Succeeded || (primary == Failed && fallback == Succeeded)
    ensures r == Failed <==> primary == Failed && fallback != Succeeded
  {
    if primary == Failed then FallbackStatus(fallback) else primary
  }
}
