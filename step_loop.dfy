/**
 * The bounded step loop shared by `run` and `runStream`:
 * `for (i = 0; i < maxSteps && <not stopped>; i++) { … }`.
 * `halts(j)` says that the loop stops right after its (j+1)-th step, whether
 * because the step set FINISHED, threw, or (streaming) its send failed.
 */
module StepLoop {
  import opened AgentTypes

  /**
   * `k` steps run: none when the budget is not positive; otherwise at least one
   * and at most `maxSteps`, no step before the k-th halts the loop, and the loop
   * stops before the budget only because the k-th step halted it.
   */
  ghost predicate Executes(halts: nat -> bool, maxSteps: int, k: nat) {
    if maxSteps <= 0 then k == 0
    else
      && 1 <= k <= maxSteps
      && (forall j :: 0 <= j < k - 1 ==> !halts(j))
      && (k < maxSteps ==> halts(k - 1))
  }

  /** The number of steps the loop runs, scanning from step index `i`. */
  function ScanFrom(halts: nat -> bool, maxSteps: int, i: nat): (k: nat)
    requires i < maxSteps
    ensures i < k <= maxSteps
    ensures forall j :: i <= j < k - 1 ==> !halts(j)
    ensures k < maxSteps ==> halts(k - 1)
    decreases maxSteps - i
  {
    if halts(i) || i + 1 == maxSteps then i + 1 else ScanFrom(halts, maxSteps, i + 1)
  }

  /** The number of times the loop calls `step()`. */
  function StepsRun(halts: nat -> bool, maxSteps: int): (k: nat)
    ensures Executes(halts, maxSteps, k)
  {
    if maxSteps <= 0 then 0 else ScanFrom(halts, maxSteps, 0)
  }

  /** The loop's step count is determined by `halts` and the budget. */
  lemma ExecutesUnique(halts: nat -> bool, maxSteps: int, k: nat, k': nat)
    requires Executes(halts, maxSteps, k) && Executes(halts, maxSteps, k')
    ensures k == k'
  {
  }

  /** The records of the first `k` steps, numbered from 1, none of which threw. */
  function StepLines(step: nat -> StepOutcome, k: nat): (lines: seq<string>)
    requires forall j :: 0 <= j < k ==> !step(j).Throw?
    ensures |lines| == k
    decreases k
  {
    if k == 0 then [] else StepLines(step, k - 1) + [StepLine(k, step(k - 1).text)]
  }

  /** Record `j` of the first `k` is the record of step `j + 1`, numbered `j + 1`. */
  lemma {:induction false} StepLinesAt(step: nat -> StepOutcome, k: nat)
    requires forall j :: 0 <= j < k ==> !step(j).Throw?
    ensures forall j :: 0 <= j < k ==> StepLines(step, k)[j] == StepLine(j + 1, step(j).text)
    decreases k
  {
    if k > 0 {
      StepLinesAt(step, k - 1);
    }
  }

  /** The memory turns the first `k` steps append, in call order. */
  function Added(step: nat -> StepOutcome, k: nat): (msgs: seq<Msg>)
    decreases k
  {
    if k == 0 then [] else Added(step, k - 1) + step(k - 1).added
  }

  /** The records of `k + 1` steps are those of `k` steps followed by the record of step `k + 1`. */
  lemma StepLinesNext(step: nat -> StepOutcome, k: nat)
    requires forall j :: 0 <= j <= k ==> !step(j).Throw?
    ensures StepLines(step, k + 1) == StepLines(step, k) + [StepLine(k + 1, step(k).text)]
  {
  }

  /** Memory after `k + 1` steps is the memory after `k` steps with the turns of step `k + 1` appended. */
  lemma AddedNext(memory: seq<Msg>, step: nat -> StepOutcome, k: nat)
    ensures memory + Added(step, k) + step(k).added == memory + Added(step, k + 1)
  {
  }

  /** Memory only grows: the turns of the first `k` steps start the turns of the first `k + n`. */
  lemma {:induction false} AddedGrows(step: nat -> StepOutcome, k: nat, n: nat)
    ensures Added(step, k) <= Added(step, k + n)
    decreases n
  {
    if n > 0 {
      AddedGrows(step, k, n - 1);
      assert Added(step, k + n) == Added(step, k + n - 1) + step(k + n - 1).added;
    }
  }
}
