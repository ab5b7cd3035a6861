/**
 * The values the agent engine works with: its run state, the conversation
 * memory, what one call of the abstract `step()` hook can do, what one send on
 * the server-sent-event channel can do, and the exact texts the engine produces.
 */
module AgentTypes {
  import opened Text

  datatype Option<T> = None | Some(value: T)

  /** `AgentState`: a run starts only from Idle; Finished and Error end a run. */
  datatype AgentState = Idle | Running | Finished | Error

  /** The enum constant's name, which is what Java prints for it. */
  function StateName(s: AgentState): string {
    match s
    case Idle => "IDLE"
    case Running => "RUNNING"
    case Finished => "FINISHED"
    case Error => "ERROR"
  }

  /** A conversation turn in the agent's memory: who speaks and what is said. */
  datatype Role = User | Assistant | Tool
  datatype Msg = Msg(role: Role, text: string)

  /**
   * One call of `step()`, as seen by the engine. The step may first append turns
   * to the memory (`added`); then it returns a text, or sets the state to
   * FINISHED and returns a text, or throws an exception whose message may be null.
   */
  datatype StepOutcome =
    | Return(text: string, added: seq<Msg>)
    | Finish(text: string, added: seq<Msg>)
    | Throw(message: Option<string>, added: seq<Msg>)

  /** Java string concatenation renders a null message as "null". */
  function ExceptionText(message: Option<string>): string {
    match message
    case None => "null"
    case Some(m) => m
  }

  /** One `SseEmitter.send`: delivered, broken transport, or emitter already completed. */
  datatype SendOutcome =
    | Sent
    | IOErr(message: Option<string>)
    | IllegalState(message: Option<string>)

  /** A terminal signal on the emitter: `complete()` or `completeWithError(ex)`. */
  datatype Signal = Complete | CompleteWithError(cause: Option<string>)

  /** The record of step `n` with the step's returned text. */
  function StepLine(n: int, text: string): string {
    "Step " + IntToString(n) + ": " + text
  }

  /** The last line of a blocking run that used up its step budget. */
  function Truncation(maxSteps: int): string {
    "Terminated: Reached max steps (" + IntToString(maxSteps) + ")"
  }

  /** The event a streaming run sends when it uses up its step budget. */
  function StreamTruncation(maxSteps: int): string {
    "执行结束：达到最大步骤（" + IntToString(maxSteps) + "）"
  }

  /** What a blocking run returns when a step throws. */
  function FailureReturn(message: Option<string>): string {
    "执行错误" + ExceptionText(message)
  }

  /** The event a streaming run sends when a step throws. */
  function FailureEvent(message: Option<string>): string {
    "执行错误：" + ExceptionText(message)
  }

  /** Messages of the exceptions a blocking run throws when it refuses to start. */
  function NotIdleMessage(s: AgentState): string {
    "Cannot run agent from state: " + StateName(s)
  }

  const BlankPromptMessage: string := "Cannot run agent with empty user prompt"

  /** The events a streaming run sends when it refuses to start. */
  function NotIdleEvent(s: AgentState): string {
    "错误：无法从状态运行代理：" + StateName(s)
  }

  const BlankPromptEvent: string := "错误：不能使用空提示词运行代理"
}
