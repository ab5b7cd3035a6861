/**
 * `BaseAgent`: the agent whose fields `state`, `currentStep`, `maxSteps` and
 * `messageList` its methods update in place, with the blocking `run`, the task
 * body of `runStream`, and the two emitter callbacks `runStream` registers.
 *
 * The abstract `step()` is an oracle: `step(i)` is the outcome of the (i+1)-th
 * call within one run. The emitter's `send` is an oracle too: `outcomes(n)` is
 * the outcome of its (n+1)-th send. `cleanup()` does nothing here; the ghost
 * counters `stepCalls` and `cleanups` record how often each hook ran.
 */
module Agent {
  import opened Text
  import opened AgentTypes
  import opened StepLoop
  import opened Completion
  import Blocking
  import Streaming

  /** What `run` gives its caller: the returned text, or the message of the exception it throws. */
  datatype RunResult = Returned(text: string) | Threw(message: string)

  /** The emitter callbacks that can fire on their own: timeout and completion. */
  datatype Callback = Timeout | Completed

  /** The claim each callback makes on the guard: timeout completes, completion only marks. */
  function CallbackEvent(c: Callback): GuardEvent {
    if c == Timeout then GuardEvent.SafeComplete else MarkCompleted
  }

  /** The claims a sequence of callbacks makes, in firing order. */
  function CallbackEvents(cs: seq<Callback>): (es: seq<GuardEvent>)
    ensures |es| == |cs| && (cs != [] ==> es[0] == CallbackEvent(cs[0]))
    decreases |cs|
  {
    if cs == [] then [] else [CallbackEvent(cs[0])] + CallbackEvents(cs[1..])
  }

  /** The state a callback leaves: timeout forces ERROR, completion turns only RUNNING into FINISHED. */
  function CallbackState(s: AgentState, c: Callback): AgentState {
    if c == Timeout then Error else if s == Running then Finished else s
  }

  /**
   * The state after the callbacks `cs` fire, in order, from `s`: ERROR once a
   * timeout has fired; otherwise FINISHED if the agent was RUNNING and a
   * completion fired; otherwise unchanged. No callback leaves the agent RUNNING.
   */
  function CallbacksState(s: AgentState, cs: seq<Callback>): (r: AgentState)
    ensures Timeout in cs ==> r == Error
    ensures Timeout !in cs ==> r == if s == Running && cs != [] then Finished else s
    ensures cs != [] ==> r != Running
    decreases |cs|
  {
    if cs == [] then s else CallbackState(CallbacksState(s, cs[..|cs| - 1]), cs[|cs| - 1])
  }

  /** The sending side of an `SseEmitter`: the events it was asked to send, in order. */
  class Emitter {
    const outcomes: nat -> SendOutcome
    var attempts: seq<string>

    constructor (outcomes: nat -> SendOutcome)
      ensures this.outcomes == outcomes && attempts == []
    {
      this.outcomes := outcomes;
      attempts := [];
    }

    /** `send(event)`: the outcome is the oracle's answer for this send. */
    method Send(event: string) returns (o: SendOutcome)
      modifies this
      ensures o == outcomes(|old(attempts)|)
      ensures attempts == old(attempts) + [event]
    {
      o := outcomes(|attempts|);
      attempts := attempts + [event];
    }
  }

  class BaseAgent {
    var state: AgentState
    var currentStep: int
    var maxSteps: int
    var messageList: seq<Msg>
    ghost var stepCalls: nat
    ghost var cleanups: nat

    /** A new agent: IDLE, no step taken, a budget of 10 steps, empty memory. */
    constructor ()
      ensures state == Idle && currentStep == 0 && maxSteps == 10 && messageList == []
      ensures stepCalls == 0 && cleanups == 0
    {
      state := Idle;
      currentStep := 0;
      maxSteps := 10;
      messageList := [];
      stepCalls := 0;
      cleanups := 0;
    }

    /** `setMaxSteps`, as subclasses configure their budget. */
    method SetMaxSteps(n: int)
      modifies this`maxSteps
      ensures maxSteps == n
    {
      maxSteps := n;
    }

    /**
     * One call of the abstract `step()` whose outcome is `o`: the step appends
     * its turns to memory and, if it finishes, sets the state to FINISHED.
     */
    method Step(o: StepOutcome)
      modifies this
      ensures currentStep == old(currentStep) && maxSteps == old(maxSteps) && cleanups == old(cleanups)
      ensures messageList == old(messageList) + o.added
      ensures state == if o.Finish? then Finished else old(state)
      ensures stepCalls == old(stepCalls) + 1
    {
      messageList := messageList + o.added;
      if o.Finish? {
        state := Finished;
      }
      stepCalls := stepCalls + 1;
    }

    /** The `cleanup()` hook (a no-op unless a subclass overrides it). */
    method Cleanup()
      modifies this`cleanups
      ensures cleanups == old(cleanups) + 1
    {
      cleanups := cleanups + 1;
    }

    /**
     * `run(userPrompt)`. It refuses to start unless the state is IDLE, then
     * unless the prompt is non-blank, changing nothing and skipping cleanup.
     * Otherwise it records the prompt as one user turn and ends exactly as
     * `Blocking.BlockingRun` describes, with cleanup run exactly once.
     */
    method Run(prompt: string, step: nat -> StepOutcome) returns (r: RunResult)
      modifies this
      ensures maxSteps == old(maxSteps)
      ensures old(state) != Idle ==> r == Threw(NotIdleMessage(old(state))) && unchanged(this)
      ensures old(state) == Idle && IsBlank(prompt) ==> r == Threw(BlankPromptMessage) && unchanged(this)
      ensures old(state) == Idle && !IsBlank(prompt) ==>
        var e := Blocking.BlockingRun(old(currentStep), maxSteps, step);
        && r == Returned(e.text)
        && state == e.state && currentStep == e.currentStep
        && messageList == old(messageList) + [Msg(User, prompt)] + e.added
        && stepCalls == old(stepCalls) + e.calls
        && cleanups == old(cleanups) + 1
    {
      if state != Idle {
        return Threw(NotIdleMessage(state));
      }
      if IsBlank(prompt) {
        return Threw(BlankPromptMessage);
      }
      state := Running;
      messageList := messageList + [Msg(User, prompt)];
      var text := Execute(step);
      r := Returned(text);
    }

    /**
     * The `for` loop of `run`: steps are called until one sets FINISHED, one
     * throws (the exception leaves the loop) or the budget is spent. Gives the
     * number of steps called, the message of the exception if the last one
     * threw, and otherwise the records of the steps.
     */
    method RunLoop(step: nat -> StepOutcome) returns (k: nat, thrown: Option<Option<string>>, results: seq<string>)
      requires state == Running
      modifies this
      ensures maxSteps == old(maxSteps) && cleanups == old(cleanups)
      ensures Blocking.Stopped(step, maxSteps, k)
      ensures thrown.Some? <==> k > 0 && step(k - 1).Throw?
      ensures thrown.Some? ==> thrown.value == step(k - 1).message
      ensures thrown.None? ==> (forall j :: 0 <= j < k ==> !step(j).Throw?) && results == StepLines(step, k)
      ensures thrown.None? ==> state == if k > 0 && step(k - 1).Finish? then Finished else Running
      ensures currentStep == if k == 0 then old(currentStep) else k
      ensures messageList == old(messageList) + Added(step, k)
      ensures stepCalls == old(stepCalls) + k
    {
      k, thrown, results := 0, None, [];
      ghost var memory, cs0, calls0, budget, cleanups0 := messageList, currentStep, stepCalls, maxSteps, cleanups;
      while k < maxSteps && state != Finished
        invariant 0 <= k && (k <= maxSteps || k == 0)
        invariant maxSteps == budget && cleanups == cleanups0
        invariant forall j :: 0 <= j < k - 1 ==> step(j).Return?
        invariant forall j :: 0 <= j < k ==> !step(j).Throw?
        invariant state == if k > 0 && step(k - 1).Finish? then Finished else Running
        invariant currentStep == if k == 0 then cs0 else k
        invariant results == StepLines(step, k)
        invariant messageList == memory + Added(step, k)
        invariant stepCalls == calls0 + k
        invariant thrown.None?
      {
        currentStep := k + 1;
        var o := step(k);
        Step(o);
        AddedNext(memory, step, k);
        if o.Throw? {
          k, thrown := k + 1, Some(o.message);
          break;
        }
        StepLinesNext(step, k);
        results := results + [StepLine(k + 1, o.text)];
        k := k + 1;
      }
    }

    /**
     * The `try` block of `run` and its `catch` and `finally`: the step loop,
     * the budget check, the joined records or the failure text, and cleanup.
     */
    method Execute(step: nat -> StepOutcome) returns (text: string)
      requires state == Running
      modifies this
      ensures maxSteps == old(maxSteps)
      ensures var e := Blocking.BlockingRun(old(currentStep), maxSteps, step);
        && text == e.text
        && state == e.state && currentStep == e.currentStep
        && messageList == old(messageList) + e.added
        && stepCalls == old(stepCalls) + e.calls
        && cleanups == old(cleanups) + 1
    {
      ghost var cs0 := currentStep;
      var k, thrown, results := RunLoop(step);
      Blocking.StoppedExecutes(step, maxSteps, k);
      Blocking.RunEndsAt(cs0, maxSteps, step, k);
      if thrown.Some? {
        state := Error;
        text := FailureReturn(thrown.value);
      } else {
        if currentStep >= maxSteps {
          state := Finished;
          results := results + [Truncation(maxSteps)];
        }
        text := Join(results, '\n');
      }
      Cleanup();
    }

    /**
     * One pass of the `for` loop of the task body of `runStream`, the (k+1)-th,
     * after k steps whose records were all delivered: the step counter becomes
     * k + 1 and the step is called; if it throws, the exception leaves the
     * loop. Otherwise its record is sent; a broken transport requests error
     * completion and, like a completed emitter, ends the loop.
     */
    method StreamIteration(step: nat -> StepOutcome, k: nat, emitter: Emitter, guard: CompletionGuard,
                           ghost memory: seq<Msg>, ghost calls0: nat)
      returns (halt: bool, thrown: Option<Option<string>>)
      requires forall j :: 0 <= j < k ==> !step(j).Throw?
      requires emitter.attempts == StepLines(step, k)
      requires messageList == memory + Added(step, k) && stepCalls == calls0 + k
      modifies this, emitter, guard
      ensures currentStep == k + 1 && maxSteps == old(maxSteps) && cleanups == old(cleanups)
      ensures messageList == memory + Added(step, k + 1) && stepCalls == calls0 + k + 1
      ensures state == if step(k).Finish? then Finished else old(state)
      ensures thrown.Some? <==> step(k).Throw?
      ensures thrown.Some? ==> thrown.value == step(k).message && emitter.attempts == StepLines(step, k)
      ensures thrown.None? ==> emitter.attempts == StepLines(step, k + 1)
      ensures halt <==> step(k).Throw? || !emitter.outcomes(k).Sent?
      // The guard is written out field by field rather than as `guard.View()`;
      // the loop's proof stays cheaper that way.
      ensures Guard(guard.completed, guard.signals) ==
        if !step(k).Throw? && emitter.outcomes(k).IOErr?
        then Claim(old(Guard(guard.completed, guard.signals)), SafeCompleteWithError(emitter.outcomes(k).message))
        else old(Guard(guard.completed, guard.signals))
    {
      currentStep := k + 1;
      var o := step(k);
      Step(o);
      AddedNext(memory, step, k);
      halt, thrown := false, None;
      if o.Throw? {
        return true, Some(o.message);
      }
      StepLinesNext(step, k);
      var outcome := emitter.Send(StepLine(k + 1, o.text));
      if outcome.IOErr? {
        guard.SafeCompleteWithError(outcome.message);
        halt := true;
      } else if outcome.IllegalState? {
        halt := true;
      }
    }

    /**
     * The `for` loop of the task body of `runStream`: each step's record is
     * sent as soon as the step returns. The loop stops when a step sets
     * FINISHED, a step throws (the exception leaves the loop), a send fails,
     * or the budget is spent. Gives the number of steps called and, if the
     * last one threw, the message of its exception.
     */
    method StreamLoop(step: nat -> StepOutcome, emitter: Emitter, guard: CompletionGuard)
      returns (k: nat, thrown: Option<Option<string>>)
      requires state == Running && emitter.attempts == []
      modifies this, emitter, guard
      ensures maxSteps == old(maxSteps) && cleanups == old(cleanups)
      ensures Streaming.Stopped(step, emitter.outcomes, maxSteps, k)
      ensures thrown.Some? <==> k > 0 && step(k - 1).Throw?
      ensures thrown.Some? ==> thrown.value == step(k - 1).message
      ensures thrown.Some? ==> emitter.attempts == StepLines(step, k - 1)
      ensures thrown.None? ==> emitter.attempts == StepLines(step, k)
      ensures thrown.None? ==> state == if k > 0 && step(k - 1).Finish? then Finished else Running
      // The guard is written out field by field rather than as `guard.View()`,
      // as in `StreamIteration`.
      ensures Guard(guard.completed, guard.signals) ==
        if thrown.None? && k > 0 && emitter.outcomes(k - 1).IOErr?
        then Claim(old(Guard(guard.completed, guard.signals)), SafeCompleteWithError(emitter.outcomes(k - 1).message))
        else old(Guard(guard.completed, guard.signals))
      ensures currentStep == if k == 0 then old(currentStep) else k
      ensures messageList == old(messageList) + Added(step, k)
      ensures stepCalls == old(stepCalls) + k
    {
      k, thrown := 0, None;
      ghost var sends, memory, g0, cs0, calls0 := emitter.outcomes, messageList, Guard(guard.completed, guard.signals), currentStep, stepCalls;
      ghost var budget, cleanups0 := maxSteps, cleanups;
      while k < maxSteps && state != Finished
        invariant 0 <= k && (k <= maxSteps || k == 0)
        invariant maxSteps == budget && cleanups == cleanups0
        invariant forall j :: 0 <= j < k - 1 ==> step(j).Return? && sends(j).Sent?
        invariant forall j :: 0 <= j < k ==> !step(j).Throw?
        invariant k > 0 ==> sends(k - 1).Sent?
        invariant state == if k > 0 && step(k - 1).Finish? then Finished else Running
        invariant currentStep == if k == 0 then cs0 else k
        invariant messageList == memory + Added(step, k)
        invariant stepCalls == calls0 + k
        invariant emitter.attempts == StepLines(step, k)
        invariant Guard(guard.completed, guard.signals) == g0 && thrown.None?
      {
        assert forall j :: 0 <= j < k ==> step(j).Return? && sends(j).Sent?;
        var halt;
        halt, thrown := StreamIteration(step, k, emitter, guard, memory, calls0);
        assert !halt ==> sends(k).Sent?;
        k := k + 1;
        if halt {
          break;
        }
      }
    }

    /**
     * The `try` block of the task body of `runStream` and its `catch` and
     * `finally`: the step loop, the ERROR state and failure event when a step
     * threw, otherwise the budget check with its truncation event, normal
     * completion through the guard, and cleanup.
     */
    method StreamExecute(step: nat -> StepOutcome, emitter: Emitter, guard: CompletionGuard)
      requires state == Running && emitter.attempts == []
      modifies this, emitter, guard
      ensures maxSteps == old(maxSteps)
      ensures var e := Streaming.StreamRun(old(currentStep), maxSteps, step, emitter.outcomes);
        && state == e.state && currentStep == e.currentStep
        && messageList == old(messageList) + e.added
        && stepCalls == old(stepCalls) + e.calls
        && cleanups == old(cleanups) + 1
        && emitter.attempts == e.events
        && guard.View() == Replay(old(guard.View()), e.requests)
    {
      ghost var cs0, g0 := currentStep, guard.View();
      var k, thrown := StreamLoop(step, emitter, guard);
      Streaming.StoppedExecutes(step, emitter.outcomes, maxSteps, k);
      Streaming.StreamEndsAt(cs0, maxSteps, step, emitter.outcomes, k);
      Streaming.EndGuard(g0, step, emitter.outcomes, k);
      if thrown.Some? {
        state := Error;
        var _ := emitter.Send(FailureEvent(thrown.value));
      } else if currentStep >= maxSteps {
        state := Finished;
        var _ := emitter.Send(StreamTruncation(maxSteps));
      }
      guard.SafeComplete();
      Cleanup();
    }

    /**
     * The task body of `runStream(userPrompt)`, on the emitter `runStream` has
     * just created. A refused start sends one explanatory event, requests
     * normal completion and changes nothing else (cleanup is not run).
     * Otherwise it records the prompt as one user turn and ends exactly as
     * `Streaming.StreamRun` describes for this emitter's sends, with cleanup
     * run exactly once.
     */
    method StreamBody(prompt: string, step: nat -> StepOutcome, emitter: Emitter, guard: CompletionGuard)
      requires emitter.attempts == []
      modifies this, emitter, guard
      ensures maxSteps == old(maxSteps)
      ensures old(state) != Idle ==>
        && state == old(state) && currentStep == old(currentStep) && messageList == old(messageList)
        && stepCalls == old(stepCalls) && cleanups == old(cleanups)
        && emitter.attempts == [NotIdleEvent(old(state))]
        && guard.View() == Claim(old(guard.View()), GuardEvent.SafeComplete)
      ensures old(state) == Idle && IsBlank(prompt) ==>
        && state == old(state) && currentStep == old(currentStep) && messageList == old(messageList)
        && stepCalls == old(stepCalls) && cleanups == old(cleanups)
        && emitter.attempts == [BlankPromptEvent]
        && guard.View() == Claim(old(guard.View()), GuardEvent.SafeComplete)
      ensures old(state) == Idle && !IsBlank(prompt) ==>
        var e := Streaming.StreamRun(old(currentStep), maxSteps, step, emitter.outcomes);
        && state == e.state && currentStep == e.currentStep
        && messageList == old(messageList) + [Msg(User, prompt)] + e.added
        && stepCalls == old(stepCalls) + e.calls
        && cleanups == old(cleanups) + 1
        && emitter.attempts == e.events
        && guard.View() == Replay(old(guard.View()), e.requests)
    {
      if state != Idle {
        var _ := emitter.Send(NotIdleEvent(state));
        guard.SafeComplete();
        return;
      }
      if IsBlank(prompt) {
        var _ := emitter.Send(BlankPromptEvent);
        guard.SafeComplete();
        return;
      }
      state := Running;
      messageList := messageList + [Msg(User, prompt)];
      StreamExecute(step, emitter, guard);
    }

    /** The timeout callback: ERROR, cleanup, then normal completion through the guard. */
    method OnTimeout(guard: CompletionGuard)
      modifies this`state, this`cleanups, guard
      ensures state == Error && cleanups == old(cleanups) + 1
      ensures guard.View() == Claim(old(guard.View()), GuardEvent.SafeComplete)
    {
      state := Error;
      Cleanup();
      guard.SafeComplete();
    }

    /**
     * The completion callback: only a RUNNING agent becomes FINISHED; cleanup
     * runs; the guard is claimed without a signal.
     */
    method OnCompletion(guard: CompletionGuard)
      modifies this`state, this`cleanups, guard
      ensures state == if old(state) == Running then Finished else old(state)
      ensures cleanups == old(cleanups) + 1
      ensures guard.View() == Claim(old(guard.View()), MarkCompleted)
    {
      if state == Running {
        state := Finished;
      }
      Cleanup();
      guard.MarkCompleted();
    }

    /** Fires one emitter callback. */
    method Fire(c: Callback, guard: CompletionGuard)
      modifies this`state, this`cleanups, guard
      ensures state == CallbackState(old(state), c)
      ensures cleanups == old(cleanups) + 1
      ensures guard.View() == Claim(old(guard.View()), CallbackEvent(c))
    {
      if c == Timeout {
        OnTimeout(guard);
      } else {
        OnCompletion(guard);
      }
    }

    /** Fires the callbacks `cs`, in order; each runs cleanup once. */
    method FireAll(cs: seq<Callback>, guard: CompletionGuard)
      modifies this`state, this`cleanups, guard
      ensures state == CallbacksState(old(state), cs)
      ensures cleanups == old(cleanups) + |cs|
      ensures guard.View() == Replay(old(guard.View()), CallbackEvents(cs))
    {
      var n := 0;
      while n < |cs|
        invariant 0 <= n <= |cs|
        invariant state == CallbacksState(old(state), cs[..n])
        invariant cleanups == old(cleanups) + n
        invariant Replay(guard.View(), CallbackEvents(cs[n..])) == Replay(old(guard.View()), CallbackEvents(cs))
      {
        assert cs[n..][1..] == cs[n + 1..];
        assert cs[..n + 1][..n] == cs[..n];
        Fire(cs[n], guard);
        n := n + 1;
      }
      assert cs[..n] == cs;
    }

    /**
     * `runStream(userPrompt)` with its callbacks, threads left out: a fresh
     * emitter and guard; the callbacks in `before` fire, then the task body
     * runs from the state they leave, then the callbacks in `after` fire. The
     * emitter receives the events of that task body, and whatever the order,
     * at most one terminal signal, and exactly one unless the completion
     * callback claimed the guard first. The agent ends where the task body
     * and the later callbacks leave it, with one cleanup per callback and one
     * for a task body that got past its checks.
     */
    method RunStream(prompt: string, step: nat -> StepOutcome, outcomes: nat -> SendOutcome,
                     before: seq<Callback>, after: seq<Callback>)
      returns (emitter: Emitter, guard: CompletionGuard)
      modifies this
      ensures fresh(emitter) && fresh(guard)
      ensures Valid(guard.View())
      ensures (before == [] || before[0] == Timeout) ==> |guard.signals| == 1
      ensures maxSteps == old(maxSteps)
      ensures var s1 := CallbacksState(old(state), before);
        var runs := s1 == Idle && !IsBlank(prompt);
        var e := Streaming.StreamRun(old(currentStep), old(maxSteps), step, outcomes);
        && emitter.attempts == (if s1 != Idle then [NotIdleEvent(s1)] else if !runs then [BlankPromptEvent] else e.events)
        && state == CallbacksState(if runs then e.state else s1, after)
        && currentStep == (if runs then e.currentStep else old(currentStep))
        && messageList == (if runs then old(messageList) + [Msg(User, prompt)] + e.added else old(messageList))
        && stepCalls == old(stepCalls) + (if runs then e.calls else 0)
        && cleanups == old(cleanups) + |before| + (if runs then 1 else 0) + |after|
        && guard.View() == Replay(Replay(Replay(Fresh, CallbackEvents(before)),
                                         if runs then e.requests else [GuardEvent.SafeComplete]),
                                  CallbackEvents(after))
      ensures emitter.outcomes == outcomes
    {
      emitter := new Emitter(outcomes);
      guard := new CompletionGuard();
      FireAll(before, guard);
      ghost var g1, s1, cs1 := guard.View(), state, currentStep;
      StreamBody(prompt, step, emitter, guard);
      ghost var requests := [GuardEvent.SafeComplete];
      if s1 == Idle && !IsBlank(prompt) {
        requests := Streaming.StreamRun(cs1, maxSteps, step, outcomes).requests;
      } else {
        assert Replay(g1, requests) == Replay(Claim(g1, GuardEvent.SafeComplete), []);
      }
      assert guard.View() == Replay(g1, requests);
      ghost var events := CallbackEvents(before);
      FireAll(after, guard);
      OneTerminalSignal(events, requests, CallbackEvents(after));
    }
  }
}
