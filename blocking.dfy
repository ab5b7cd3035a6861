/**
 * What `BaseAgent.run` computes once its preconditions have passed, as a
 * function of the step counter it starts with, the step budget and the
 * outcomes of the successive `step()` calls; and the properties of that run.
 */
module Blocking {
  import opened Text
  import opened AgentTypes
  import opened StepLoop

  /** The end of a run: returned text, final state and step counter, steps called, memory appended by steps. */
  datatype Execution = Execution(text: string, state: AgentState, currentStep: int, calls: nat, added: seq<Msg>)

  /** In blocking mode the loop stops after a step that set FINISHED or threw. */
  function Halts(step: nat -> StepOutcome): nat -> bool {
    (j: nat) => !step(j).Return?
  }

  /**
   * How a run that called k steps ends: if the k-th threw, the state is ERROR
   * and the text is the failure text alone; otherwise the step records,
   * followed by the truncation line when the step counter reached the budget
   * (which also forces FINISHED), joined by newlines.
   */
  function Ending(currentStep0: int, maxSteps: int, step: nat -> StepOutcome, k: nat): Execution
    requires Executes(Halts(step), maxSteps, k)
  {
    if k > 0 && step(k - 1).Throw? then
      Execution(FailureReturn(step(k - 1).message), Error, k, k, Added(step, k))
    else
      assert forall j :: 0 <= j < k ==> !step(j).Throw? by {
        forall j | 0 <= j < k ensures !step(j).Throw? {
          if j < k - 1 { assert !Halts(step)(j); }
        }
      }
      var cs := if k > 0 then k else currentStep0;
      var lines := StepLines(step, k);
      if cs >= maxSteps then
        Execution(Join(lines + [Truncation(maxSteps)], '\n'), Finished, cs, k, Added(step, k))
      else
        Execution(Join(lines, '\n'), if k > 0 && step(k - 1).Finish? then Finished else Running, cs, k, Added(step, k))
  }

  /** The run: as many steps as the loop calls, ending as `Ending` says. */
  function BlockingRun(currentStep0: int, maxSteps: int, step: nat -> StepOutcome): (e: Execution)
    ensures Executes(Halts(step), maxSteps, e.calls)
    ensures e.added == Added(step, e.calls)
    ensures e.calls > 0 ==> e.currentStep == e.calls <= maxSteps
    ensures e.calls == 0 ==> e.currentStep == currentStep0
    ensures e.state != Idle
    ensures e.state == Running <==> e.calls == 0 && currentStep0 < maxSteps
    ensures e.state == Error <==> e.calls > 0 && step(e.calls - 1).Throw?
  {
    Ending(currentStep0, maxSteps, step, StepsRun(Halts(step), maxSteps))
  }

  /**
   * The loop has stopped after k steps: none when the budget is not positive;
   * otherwise at least one and at most the budget, every step before the k-th
   * returned without finishing, and unless the budget is spent the k-th step
   * finished or threw.
   * This is `Executes` for this mode's `Halts`, written without the function
   * value so that the loop's proof stays cheap; `StoppedExecutes` connects
   * the two.
   */
  predicate Stopped(step: nat -> StepOutcome, maxSteps: int, k: nat) {
    if maxSteps <= 0 then k == 0
    else
      && 1 <= k <= maxSteps
      && (forall j :: 0 <= j < k - 1 ==> step(j).Return?)
      && (k < maxSteps ==> !step(k - 1).Return?)
  }

  /** A loop stopped that way has called exactly the steps `StepsRun` counts. */
  lemma StoppedExecutes(step: nat -> StepOutcome, maxSteps: int, k: nat)
    requires Stopped(step, maxSteps, k)
    ensures Executes(Halts(step), maxSteps, k)
  {
    if maxSteps > 0 {
      forall j | 0 <= j < k - 1 ensures !Halts(step)(j) { }
      assert k < maxSteps ==> Halts(step)(k - 1);
    }
  }

  /** A run whose loop calls k steps ends as `Ending` says for k. */
  lemma RunEndsAt(currentStep0: int, maxSteps: int, step: nat -> StepOutcome, k: nat)
    requires Executes(Halts(step), maxSteps, k)
    ensures BlockingRun(currentStep0, maxSteps, step) == Ending(currentStep0, maxSteps, step, k)
  {
    ExecutesUnique(Halts(step), maxSteps, k, StepsRun(Halts(step), maxSteps));
  }

  /** Every one of the first `n` steps returns normally without setting FINISHED. */
  ghost predicate AllReturn(step: nat -> StepOutcome, n: int) {
    forall j :: 0 <= j < n ==> step(j).Return?
  }

  /**
   * A step that never finishes and never throws is called exactly `maxSteps`
   * times; the result is every step record followed by the truncation line,
   * and the run ends FINISHED.
   */
  lemma RunsWholeBudget(currentStep0: int, maxSteps: int, step: nat -> StepOutcome)
    requires 0 < maxSteps && AllReturn(step, maxSteps)
    ensures var e := BlockingRun(currentStep0, maxSteps, step);
      && e.calls == maxSteps && e.currentStep == maxSteps && e.state == Finished
      && e.text == Join(StepLines(step, maxSteps) + [Truncation(maxSteps)], '\n')
  {
    var e := BlockingRun(currentStep0, maxSteps, step);
    assert Executes(Halts(step), maxSteps, maxSteps);
    ExecutesUnique(Halts(step), maxSteps, e.calls, maxSteps);
  }

  /** With a budget of zero no step is called and only the truncation line is returned. */
  lemma ZeroBudget(currentStep0: int, step: nat -> StepOutcome)
    requires currentStep0 >= 0
    ensures var e := BlockingRun(currentStep0, 0, step);
      && e.calls == 0 && e.state == Finished && e.added == []
      && e.text == "Terminated: Reached max steps (0)"
  {
    var e := BlockingRun(currentStep0, 0, step);
    assert StepLines(step, 0) == [];
    assert NatToString(0) == "0";
    assert [Truncation(0)] + [] == [Truncation(0)];
  }

  /** Step `k` sets FINISHED before the budget: the loop stops there and no truncation line is added. */
  lemma FinishesEarly(currentStep0: int, maxSteps: int, step: nat -> StepOutcome, k: nat)
    requires 1 <= k < maxSteps && AllReturn(step, k - 1) && step(k - 1).Finish?
    ensures var e := BlockingRun(currentStep0, maxSteps, step);
      && e.calls == k && e.currentStep == k && e.state == Finished
      && e.text == Join(StepLines(step, k), '\n')
  {
    var e := BlockingRun(currentStep0, maxSteps, step);
    assert Executes(Halts(step), maxSteps, k);
    ExecutesUnique(Halts(step), maxSteps, e.calls, k);
  }

  /** Step `maxSteps` sets FINISHED: the truncation line is appended all the same. */
  lemma FinishesAtBudget(currentStep0: int, maxSteps: int, step: nat -> StepOutcome)
    requires 1 <= maxSteps && AllReturn(step, maxSteps - 1) && step(maxSteps - 1).Finish?
    ensures var e := BlockingRun(currentStep0, maxSteps, step);
      && e.calls == maxSteps && e.state == Finished
      && e.text == Join(StepLines(step, maxSteps) + [Truncation(maxSteps)], '\n')
  {
    var e := BlockingRun(currentStep0, maxSteps, step);
    assert Executes(Halts(step), maxSteps, maxSteps);
    ExecutesUnique(Halts(step), maxSteps, e.calls, maxSteps);
  }

  /**
   * Step `k` throws: no later step is called, the run ends in ERROR and returns
   * the failure text alone, discarding the records of steps 1 .. k-1.
   */
  lemma ThrowDiscardsResults(currentStep0: int, maxSteps: int, step: nat -> StepOutcome, k: nat)
    requires 1 <= k <= maxSteps && AllReturn(step, k - 1) && step(k - 1).Throw?
    ensures var e := BlockingRun(currentStep0, maxSteps, step);
      && e.calls == k && e.currentStep == k && e.state == Error
      && e.text == "执行错误" + ExceptionText(step(k - 1).message)
  {
    var e := BlockingRun(currentStep0, maxSteps, step);
    assert Executes(Halts(step), maxSteps, k);
    ExecutesUnique(Halts(step), maxSteps, e.calls, k);
  }

  /** A step record or the truncation line has no line break unless the step's text has one. */
  lemma LinesFree(step: nat -> StepOutcome, k: nat, maxSteps: int)
    requires forall j :: 0 <= j < k ==> !step(j).Throw? && Free(step(j).text, '\n')
    ensures forall i :: 0 <= i < k ==> Free(StepLines(step, k)[i], '\n')
    ensures Free(Truncation(maxSteps), '\n')
  {
    var recs := StepLines(step, k);
    StepLinesAt(step, k);
    forall i | 0 <= i < k ensures Free(recs[i], '\n') {
      var num := IntToString(i + 1);
      assert Free(num, '\n');
      assert recs[i] == "Step " + num + ": " + step(i).text;
    }
    var num := IntToString(maxSteps);
    assert Free(num, '\n');
    assert Truncation(maxSteps) == "Terminated: Reached max steps (" + num + ")";
  }

  /** No step before the last one of a run threw; if the run did not end in ERROR, none did. */
  lemma NoEarlierThrow(currentStep0: int, maxSteps: int, step: nat -> StepOutcome)
    ensures var e := BlockingRun(currentStep0, maxSteps, step);
      forall j :: 0 <= j < e.calls && (j < e.calls - 1 || e.state != Error) ==> !step(j).Throw?
  {
    var e := BlockingRun(currentStep0, maxSteps, step);
    forall j | 0 <= j < e.calls && (j < e.calls - 1 || e.state != Error) ensures !step(j).Throw? {
      if j < e.calls - 1 { assert !Halts(step)(j); }
    }
  }

  /**
   * Splitting the joined records of `k` steps (and the truncation line, if
   * `truncated`) gives back those lines, when no step text has a line break.
   */
  lemma SplitRecords(step: nat -> StepOutcome, k: nat, maxSteps: int, truncated: bool)
    requires forall j :: 0 <= j < k ==> !step(j).Throw? && Free(step(j).text, '\n')
    requires k > 0 || truncated
    ensures var lines := Split(Join(StepLines(step, k) + (if truncated then [Truncation(maxSteps)] else []), '\n'), '\n');
      && |lines| == k + (if truncated then 1 else 0)
      && (forall i :: 0 <= i < k ==> lines[i] == StepLine(i + 1, step(i).text))
      && (truncated ==> lines[k] == Truncation(maxSteps))
  {
    LinesFree(step, k, maxSteps);
    StepLinesAt(step, k);
    var all := StepLines(step, k) + (if truncated then [Truncation(maxSteps)] else []);
    assert forall i :: 0 <= i < |all| ==> Free(all[i], '\n');
    SplitJoin(all, '\n');
  }

  /**
   * When no step text contains a line break, the lines of a result that did not
   * come from a thrown step are exactly the records of steps 1 .. calls, in
   * order and numbered without gaps, possibly followed by the truncation line.
   */
  lemma TranscriptLines(currentStep0: int, maxSteps: int, step: nat -> StepOutcome)
    requires forall j :: 0 <= j < maxSteps && !step(j).Throw? ==> Free(step(j).text, '\n')
    ensures var e := BlockingRun(currentStep0, maxSteps, step);
      e.state != Error && e.text != "" ==>
        var lines := Split(e.text, '\n');
        && |lines| == e.calls + (if e.currentStep >= maxSteps then 1 else 0)
        && (forall i :: 0 <= i < e.calls ==> !step(i).Throw? && lines[i] == StepLine(i + 1, step(i).text))
        && (e.currentStep >= maxSteps ==> lines[e.calls] == Truncation(maxSteps))
  {
    var e := BlockingRun(currentStep0, maxSteps, step);
    if e.state != Error && e.text != "" {
      var k := e.calls;
      var truncated := e.currentStep >= maxSteps;
      NoEarlierThrow(currentStep0, maxSteps, step);
      RunEndsAt(currentStep0, maxSteps, step, k);
      var recs := StepLines(step, k);
      if !truncated {
        assert recs + [] == recs;
      }
      assert e.text == Join(recs + (if truncated then [Truncation(maxSteps)] else []), '\n');
      SplitRecords(step, k, maxSteps, truncated);
    }
  }

  /** Three steps that return "ok-1", "ok-2", "ok-3" and never finish. */
  function ThreeOks(): nat -> StepOutcome {
    (j: nat) => if j == 0 then Return("ok-1", []) else if j == 1 then Return("ok-2", []) else Return("ok-3", [])
  }

  lemma JoinFour(a: string, b: string, c: string, d: string)
    ensures Join([a, b, c, d], '\n') == a + "\n" + b + "\n" + c + "\n" + d
  {
    var all := [a, b, c, d];
    assert all[1..] == [b, c, d] && all[1..][1..] == [c, d] && all[1..][1..][1..] == [d];
    assert Join([c, d], '\n') == c + "\n" + d;
    assert Join([b, c, d], '\n') == b + "\n" + (c + "\n" + d);
    assert Join(all, '\n') == a + "\n" + (b + "\n" + (c + "\n" + d));
  }

  /** A budget of three with steps that never finish gives three records and the truncation line. */
  lemma ThreeStepTranscript()
    ensures var e := BlockingRun(0, 3, ThreeOks());
      && e.state == Finished && e.calls == 3
      && e.text == "Step 1: ok-1" + "\n" + "Step 2: ok-2" + "\n" + "Step 3: ok-3" + "\n" + "Terminated: Reached max steps (3)"
  {
    var step := ThreeOks();
    RunsWholeBudget(0, 3, step);
    var lines := StepLines(step, 3);
    assert IntToString(1) == "1" && IntToString(2) == "2" && IntToString(3) == "3";
    assert lines[0] == "Step 1: ok-1" && lines[1] == "Step 2: ok-2" && lines[2] == "Step 3: ok-3";
    assert Truncation(3) == "Terminated: Reached max steps (3)";
    assert lines + [Truncation(3)] == ["Step 1: ok-1", "Step 2: ok-2", "Step 3: ok-3", "Terminated: Reached max steps (3)"];
    JoinFour("Step 1: ok-1", "Step 2: ok-2", "Step 3: ok-3", "Terminated: Reached max steps (3)");
  }

  /** Step 1 returns, step 2 throws "model unavailable". */
  function FailsAtTwo(): nat -> StepOutcome {
    (j: nat) => if j == 0 then Return("ok-1", []) else Throw(Some("model unavailable"), [])
  }

  /** With a budget of five, a failure at step 2 ends the run in ERROR with the failure text only. */
  lemma FailureAtStepTwo()
    ensures var e := BlockingRun(0, 5, FailsAtTwo());
      && e.state == Error && e.calls == 2
      && e.text == "执行错误model unavailable"
  {
    ThrowDiscardsResults(0, 5, FailsAtTwo(), 2);
  }
}
