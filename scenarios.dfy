/**
 * Two concrete requests worked through the model: an asynchronous request
 * whose policy waits for an input to reach a threshold, and a synchronous
 * request whose primary policy fails and whose default policy decides.
 */
module Scenarios {
  import opened Wrappers
  import opened Policy
  import opened Context
  import opened UpdateManager
  import opened AsyncRequest

  /** Waits until the input `V` reaches 10, then succeeds with its value. */
  function Threshold(m: MethodName, inv: Invocation<int, int, ()>): Outcome<int>
  {
    if inv.inputs < 10 then Outcome(AskMeAgainLater, "", inv.result, {"V"})
    else Outcome(Succeeded, "", inv.inputs, {"V"})
  }

  /** Never has data. */
  function NoData(m: MethodName, inv: Invocation<int, int, ()>): Outcome<int>
  {
    Outcome(Failed, "no data", inv.result, {})
  }

  /** Always decides, with the given value. */
  function Constant(value: int, m: MethodName, inv: Invocation<int, int, ()>): Outcome<int>
  {
    Outcome(Succeeded, "", value, {})
  }

  /**
   * The first pass reads V, sees V = 5, defers and arms a wake-up on V; V becomes 12;
   * the second pass succeeds with 12, which is delivered; the default policy
   * is never called.
   */
  lemma ThresholdReachedAfterOneDeferral()
    ensures var rq := Request(Threshold, (m, inv) => Constant(0, m, inv), 0, "UpdateCheckAllowed", ());
      var rounds := [Round(false, 5, true), Round(false, 12, true)];
      && AsyncRun(rq, rounds) == Progress(2, Some((Succeeded, 12)))
      && RoundPass(rq, rounds[0]).readSet == {"V"}
      && RoundPass(rq, rounds[0]).log == [EvaluationReset, PolicyRun(PrimaryCall("UpdateCheckAllowed", 5, 0, ()))]
      && RoundPass(rq, rounds[1]).log == [EvaluationReset, PolicyRun(PrimaryCall("UpdateCheckAllowed", 12, 0, ()))]
  {
  }

  /** The same request run through the update manager and its main loop. */
  method AsyncRequestWaitsForThreshold() returns (runs: seq<(EvalStatus, int)>, passes: nat)
    ensures runs == [(Succeeded, 12)] && passes == 2
  {
    var um := new UpdateManager(Threshold, (m, inv) => Constant(0, m, inv), 0);
    ThresholdReachedAfterOneDeferral();
    ghost var log;
    runs, passes, log := RunAsyncRequest(um, "UpdateCheckAllowed", (), [Round(false, 5, true), Round(false, 12, true)]);
  }

  /**
   * A synchronous request whose primary policy fails with "no data" is
   * decided by the default policy, which succeeds with 42.
   */
  method SyncRequestFallsBack() returns (status: EvalStatus, result: int)
    ensures status == Succeeded && result == 42
  {
    var um := new UpdateManager(NoData, (m, inv) => Constant(42, m, inv), 0);
    ghost var log;
    status, result, log := um.PolicyRequest("UpdateCheckAllowed", 0, 0, ());
  }
}
