/**
 * What the task body of `BaseAgent.runStream` does once its preconditions have
 * passed: the same step loop as `run`, with one send after each step, as a
 * function of the starting step counter, the budget, the outcomes of the
 * `step()` calls and the outcomes of the successive sends.
 */
module Streaming {
  import opened Text
  import opened AgentTypes
  import opened StepLoop
  import opened Completion
  import Blocking

  /**
   * The end of the task body: final state and step counter, steps called,
   * memory appended by steps, events it tried to send (in order), and the
   * terminating calls it made on the completion guard (in order).
   */
  datatype StreamExecution = StreamExecution(
    state: AgentState, currentStep: int, calls: nat, added: seq<Msg>,
    events: seq<string>, requests: seq<GuardEvent>)

  /** In streaming mode the loop also stops after a step whose send failed. */
  function Halts(step: nat -> StepOutcome, sends: nat -> SendOutcome): nat -> bool {
    (j: nat) => !step(j).Return? || !sends(j).Sent?
  }

  /**
   * The terminating calls the task body makes after k steps: error completion
   * first if the k-th step returned but its send hit a broken transport, then
   * normal completion.
   */
  function EndRequests(step: nat -> StepOutcome, sends: nat -> SendOutcome, k: nat): (r: seq<GuardEvent>)
    ensures |r| >= 1 && r[|r| - 1] == GuardEvent.SafeComplete && !r[0].MarkCompleted?
  {
    if k > 0 && !step(k - 1).Throw? && sends(k - 1).IOErr? then
      [SafeCompleteWithError(sends(k - 1).message), GuardEvent.SafeComplete]
    else
      [GuardEvent.SafeComplete]
  }

  /**
   * The loop has stopped after k steps: none when the budget is not positive;
   * otherwise at least one and at most the budget, every step before the k-th
   * returned and had its record delivered, and unless the budget is spent the
   * k-th step finished, threw, or had its send fail.
   * This is `Executes` for this mode's `Halts`, written without the function
   * value so that the loop's proof stays cheap; `StoppedExecutes` connects
   * the two.
   */
  predicate Stopped(step: nat -> StepOutcome, sends: nat -> SendOutcome, maxSteps: int, k: nat) {
    if maxSteps <= 0 then k == 0
    else
      && 1 <= k <= maxSteps
      && (forall j :: 0 <= j < k - 1 ==> step(j).Return? && sends(j).Sent?)
      && (k < maxSteps ==> !step(k - 1).Return? || !sends(k - 1).Sent?)
  }

  /** A loop stopped that way has called exactly the steps `StepsRun` counts. */
  lemma StoppedExecutes(step: nat -> StepOutcome, sends: nat -> SendOutcome, maxSteps: int, k: nat)
    requires Stopped(step, sends, maxSteps, k)
    ensures Executes(Halts(step, sends), maxSteps, k)
  {
    if maxSteps > 0 {
      forall j | 0 <= j < k - 1 ensures !Halts(step, sends)(j) { }
      assert k < maxSteps ==> Halts(step, sends)(k - 1);
    }
  }

  /**
   * How the task body ends after its loop called k steps: if step k threw, the
   * state is ERROR and the failure event follows the records of the earlier
   * steps. Otherwise, if the step counter reached the budget, the state is
   * forced to FINISHED and the truncation event follows the records.
   */
  function StreamEnding(currentStep0: int, maxSteps: int, step: nat -> StepOutcome, sends: nat -> SendOutcome, k: nat): StreamExecution
    requires Executes(Halts(step, sends), maxSteps, k)
  {
    assert forall j :: 0 <= j < k - 1 ==> !step(j).Throw? by {
      forall j | 0 <= j < k - 1 ensures !step(j).Throw? {
        assert !Halts(step, sends)(j);
      }
    }
    if k > 0 && step(k - 1).Throw? then
      StreamExecution(Error, k, k, Added(step, k),
        StepLines(step, k - 1) + [FailureEvent(step(k - 1).message)], EndRequests(step, sends, k))
    else
      var cs := if k > 0 then k else currentStep0;
      var lines := StepLines(step, k);
      if cs >= maxSteps then
        StreamExecution(Finished, cs, k, Added(step, k),
          lines + [StreamTruncation(maxSteps)], EndRequests(step, sends, k))
      else
        StreamExecution(if k > 0 && step(k - 1).Finish? then Finished else Running, cs, k, Added(step, k),
          lines, EndRequests(step, sends, k))
  }

  /**
   * The task body: the loop calls steps, sending step j's record as send j,
   * until a step finishes or throws, a send fails, or the budget is spent; it
   * ends as `StreamEnding` says. A broken transport requests error completion;
   * normal completion is always requested last.
   */
  function StreamRun(currentStep0: int, maxSteps: int, step: nat -> StepOutcome, sends: nat -> SendOutcome): (e: StreamExecution)
    ensures Executes(Halts(step, sends), maxSteps, e.calls)
    ensures e.added == Added(step, e.calls)
    ensures e.calls > 0 ==> e.currentStep == e.calls <= maxSteps
    ensures e.calls == 0 ==> e.currentStep == currentStep0
    ensures e.state == Error <==> e.calls > 0 && step(e.calls - 1).Throw?
    ensures e.requests == EndRequests(step, sends, e.calls)
    ensures e.calls <= |e.events| <= e.calls + 1
  {
    StreamEnding(currentStep0, maxSteps, step, sends, StepsRun(Halts(step, sends), maxSteps))
  }

  /** A task body whose loop calls k steps ends as `StreamEnding` says for k. */
  lemma StreamEndsAt(currentStep0: int, maxSteps: int, step: nat -> StepOutcome, sends: nat -> SendOutcome, k: nat)
    requires Executes(Halts(step, sends), maxSteps, k)
    ensures StreamRun(currentStep0, maxSteps, step, sends) == StreamEnding(currentStep0, maxSteps, step, sends, k)
  {
    ExecutesUnique(Halts(step, sends), maxSteps, k, StepsRun(Halts(step, sends), maxSteps));
  }

  /**
   * The guard after the terminating calls of a task body that called k steps:
   * error completion is claimed first if step k returned but its send hit a
   * broken transport, then normal completion.
   */
  lemma EndGuard(g: Guard, step: nat -> StepOutcome, sends: nat -> SendOutcome, k: nat)
    ensures Replay(g, EndRequests(step, sends, k)) ==
      Claim(if k > 0 && !step(k - 1).Throw? && sends(k - 1).IOErr?
            then Claim(g, SafeCompleteWithError(sends(k - 1).message)) else g,
            GuardEvent.SafeComplete)
  {
    var r := EndRequests(step, sends, k);
    if k > 0 && !step(k - 1).Throw? && sends(k - 1).IOErr? {
      var g1 := Claim(g, SafeCompleteWithError(sends(k - 1).message));
      assert r[1..] == [GuardEvent.SafeComplete] && r[1..][1..] == [];
      assert Replay(g, r) == Replay(g1, r[1..]);
      assert Replay(g1, r[1..]) == Replay(Claim(g1, GuardEvent.SafeComplete), []);
    } else {
      assert r[1..] == [];
    }
  }

  /** Every one of the first `n` steps returns without finishing and its record is delivered. */
  ghost predicate AllDelivered(step: nat -> StepOutcome, sends: nat -> SendOutcome, n: int) {
    forall j :: 0 <= j < n ==> step(j).Return? && sends(j).Sent?
  }

  /** With every send delivered and no step finishing or throwing, the whole budget is streamed. */
  lemma StreamsWholeBudget(currentStep0: int, maxSteps: int, step: nat -> StepOutcome, sends: nat -> SendOutcome)
    requires 0 < maxSteps && AllDelivered(step, sends, maxSteps)
    ensures var e := StreamRun(currentStep0, maxSteps, step, sends);
      && e.calls == maxSteps && e.state == Finished
      && e.events == StepLines(step, maxSteps) + [StreamTruncation(maxSteps)]
      && e.requests == [GuardEvent.SafeComplete]
  {
    var e := StreamRun(currentStep0, maxSteps, step, sends);
    assert Executes(Halts(step, sends), maxSteps, maxSteps);
    ExecutesUnique(Halts(step, sends), maxSteps, e.calls, maxSteps);
  }

  /**
   * A broken transport on the send of step k: no later step is called, error
   * completion claims the guard, and the normal completion requested after the
   * loop signals nothing.
   */
  lemma TransportFailureStops(currentStep0: int, maxSteps: int, step: nat -> StepOutcome, sends: nat -> SendOutcome, k: nat)
    requires 1 <= k <= maxSteps && AllDelivered(step, sends, k - 1)
    requires !step(k - 1).Throw? && sends(k - 1).IOErr?
    ensures var e := StreamRun(currentStep0, maxSteps, step, sends);
      && e.calls == k
      && e.requests == [SafeCompleteWithError(sends(k - 1).message), GuardEvent.SafeComplete]
      && Replay(Fresh, e.requests) == Guard(true, [CompleteWithError(sends(k - 1).message)])
  {
    var e := StreamRun(currentStep0, maxSteps, step, sends);
    assert Executes(Halts(step, sends), maxSteps, k);
    ExecutesUnique(Halts(step, sends), maxSteps, e.calls, k);
    FirstClaimWins(Fresh, e.requests);
  }

  /**
   * The emitter already completed when step k's record is sent: no later step
   * is called, no error completion is requested, and normal completion is
   * still attempted.
   */
  lemma ClosedChannelStops(currentStep0: int, maxSteps: int, step: nat -> StepOutcome, sends: nat -> SendOutcome, k: nat)
    requires 1 <= k <= maxSteps && AllDelivered(step, sends, k - 1)
    requires !step(k - 1).Throw? && sends(k - 1).IllegalState?
    ensures var e := StreamRun(currentStep0, maxSteps, step, sends);
      && e.calls == k
      && e.requests == [GuardEvent.SafeComplete]
      && Replay(Fresh, e.requests) == Guard(true, [Complete])
  {
    var e := StreamRun(currentStep0, maxSteps, step, sends);
    assert Executes(Halts(step, sends), maxSteps, k);
    ExecutesUnique(Halts(step, sends), maxSteps, e.calls, k);
  }

  /**
   * Step k throws: the state is ERROR, the records of steps 1 .. k-1 and then
   * the failure event are sent, and the stream ends with normal completion,
   * never with an error signal.
   */
  lemma StepFailureCompletesNormally(currentStep0: int, maxSteps: int, step: nat -> StepOutcome, sends: nat -> SendOutcome, k: nat)
    requires 1 <= k <= maxSteps && AllDelivered(step, sends, k - 1) && step(k - 1).Throw?
    ensures var e := StreamRun(currentStep0, maxSteps, step, sends);
      && e.calls == k && e.state == Error
      && e.events == StepLines(step, k - 1) + ["执行错误：" + ExceptionText(step(k - 1).message)]
      && Replay(Fresh, e.requests) == Guard(true, [Complete])
  {
    var e := StreamRun(currentStep0, maxSteps, step, sends);
    assert Executes(Halts(step, sends), maxSteps, k);
    ExecutesUnique(Halts(step, sends), maxSteps, e.calls, k);
  }

  /** Whatever the steps and sends do, the task body gives the emitter at most one terminal signal. */
  lemma StreamSignalsAtMostOnce(g: Guard, currentStep0: int, maxSteps: int, step: nat -> StepOutcome, sends: nat -> SendOutcome)
    requires Valid(g)
    ensures var e := StreamRun(currentStep0, maxSteps, step, sends);
      && Valid(Replay(g, e.requests))
      && (!g.completed ==> |Replay(g, e.requests).signals| == 1)
  {
    var e := StreamRun(currentStep0, maxSteps, step, sends);
    AtMostOneSignal(g, e.requests);
    if !g.completed {
      FirstClaimWins(g, e.requests);
    }
  }

  /**
   * When every send is delivered, streaming runs the same steps as the blocking
   * mode and ends in the same state with the same step counter and memory.
   */
  lemma AgreesWithBlocking(currentStep0: int, maxSteps: int, step: nat -> StepOutcome, sends: nat -> SendOutcome)
    requires forall j :: 0 <= j < maxSteps ==> sends(j).Sent?
    ensures var s := StreamRun(currentStep0, maxSteps, step, sends);
      var b := Blocking.BlockingRun(currentStep0, maxSteps, step);
      && s.calls == b.calls && s.state == b.state
      && s.currentStep == b.currentStep && s.added == b.added
  {
    var s := StreamRun(currentStep0, maxSteps, step, sends);
    var b := Blocking.BlockingRun(currentStep0, maxSteps, step);
    forall j | 0 <= j < maxSteps ensures Halts(step, sends)(j) == Blocking.Halts(step)(j) { }
    assert Executes(Blocking.Halts(step), maxSteps, s.calls);
    ExecutesUnique(Blocking.Halts(step), maxSteps, s.calls, b.calls);
  }

  /**
   * A consumer that closes the stream makes the emitter run the completion
   * callback, which claims the guard and turns RUNNING into FINISHED. The loop
   * sees that state change exactly as it sees a step that set FINISHED, so a
   * close is modelled by making the step during or after which the callback
   * runs a finishing one, with the callback's `MarkCompleted` ahead of the task
   * body's own claims. Every send after the close fails with an
   * `IllegalStateException`.
   */
  function ClosedAfterFirst(): nat -> SendOutcome {
    (j: nat) => if j == 0 then Sent else IllegalState(None)
  }

  /** Step 1 returns "a"; the consumer closes after its event, before the loop checks its condition again. */
  function ClosedBeforeSecond(): nat -> StepOutcome {
    (j: nat) => if j == 0 then Finish("a", []) else Return("b", [])
  }

  /** Steps 1 and 2 return "a" and "b"; the consumer closes while step 2 runs. */
  function ClosedDuringSecond(): nat -> StepOutcome {
    (j: nat) => if j == 0 then Return("a", []) else Finish("b", [])
  }

  /**
   * The consumer closes after the first event and the callback runs before the
   * loop checks its condition again: the loop stops after step 1, the agent
   * ends FINISHED, and no terminal signal is ever sent.
   */
  lemma ConsumerCloseBeforeStepTwo()
    ensures var e := StreamRun(0, 5, ClosedBeforeSecond(), ClosedAfterFirst());
      && e.calls == 1 && e.state == Finished
      && e.events == [StepLine(1, "a")]
      && Replay(Claim(Fresh, MarkCompleted), e.requests).signals == []
  {
    var step, sends := ClosedBeforeSecond(), ClosedAfterFirst();
    var e := StreamRun(0, 5, step, sends);
    assert Executes(Halts(step, sends), 5, 1);
    ExecutesUnique(Halts(step, sends), 5, e.calls, 1);
    CompletedIsFinal(Claim(Fresh, MarkCompleted), e.requests);
  }

  /**
   * The consumer closes after the first event and the callback runs while
   * step 2 is running: step 2's record is sent to a completed emitter, that
   * send fails, the loop stops after step 2, the agent ends FINISHED, and no
   * terminal signal is ever sent.
   */
  lemma ConsumerCloseDuringStepTwo()
    ensures var e := StreamRun(0, 5, ClosedDuringSecond(), ClosedAfterFirst());
      && e.calls == 2 && e.state == Finished
      && e.events == [StepLine(1, "a"), StepLine(2, "b")]
      && Replay(Claim(Fresh, MarkCompleted), e.requests).signals == []
  {
    var step, sends := ClosedDuringSecond(), ClosedAfterFirst();
    var e := StreamRun(0, 5, step, sends);
    ClosedChannelStops(0, 5, step, sends, 2);
    CompletedIsFinal(Claim(Fresh, MarkCompleted), e.requests);
  }
}
