/**
 * What the engine thread shares with its clients and its step rule, in both
 * src/core/engine and cpuv/src/core/engine: commands and their payloads,
 * log lines, the counters, and the results of a step.
 */
module EngineProtocol {
  import opened RustStd
  import opened Lang

  // ---------------------------------------------------------------------
  // Commands and logs

  /** What a missing payload is replaced with before it is parsed. */
  const PayloadMissing: string := "ERROR: Payload must not be none!"

  /** `PayloadImpl::extract`: the payload, or the fixed error text when there is none. */
  function Extract(payload: Option<string>): (r: string)
    ensures payload.Some? ==> r == payload.value
    ensures payload.None? ==> r == PayloadMissing
  {
    match payload
    case Some(text) => text
    case None => PayloadMissing
  }

  datatype RunningState = Stopped | Running | Paused

  datatype CommandType =
    | Start | Stop | Pause
    | ParseFile | ParseWithoutUpdate
    | TranslateToIR | TranslateToIRWithoutUpdate

  /** A command from a client, with its optional text. */
  datatype ClientCommand = ClientCommand(commandType: CommandType, payload: Option<string>)

  datatype LogLevel = INFO | WARN | ERROR | UserPrint

  /** A log line; the time stamp the engine prefixes is not modelled. */
  datatype LogMessage = LogMessage(level: LogLevel, message: string)

  const InitMessage: LogMessage := LogMessage(INFO, "Initalizing Engine...")
  const ExitMessage: LogMessage := LogMessage(INFO, "Program Exited With Success!")

  // ---------------------------------------------------------------------
  // Counters and steps

  /** The counters and the running state; `usize` counters are unbounded here. */
  datatype EngineState = EngineState(tick: nat, instructionPtr: nat, runningState: RunningState)

  /** `InstructionExecutionSeccess`; `Ok` is named `Executed` here. */
  datatype ExecutionSuccess = Executed | WaitingForNextTick

  /** `InstructionExecutionError`: running past the last instruction is the only error. */
  datatype ExecutionError = EndOfLabel

  type StepResult = Result<ExecutionSuccess, ExecutionError>

  /** The instructions of the current label, when there is a label and it has instructions. */
  function Instructions(current: Option<Label>): Option<seq<Instruction>> {
    if current.Some? then current.value.instructions else None
  }

  /** Whether `tick % ipt` is zero, i.e. whether this tick executes; Rust panics on `ipt == 0`. */
  predicate OnInstructionTick(tick: nat, ipt: nat)
    requires ipt > 0
  {
    tick % ipt == 0
  }

  /** The log line for a failed step. */
  function FailureLog(e: ExecutionError): LogMessage {
    if e == EndOfLabel then ExitMessage else LogMessage(ERROR, "Instruction Failed! EndOfLabel")
  }

  /** The only step error ends the program successfully: it is never logged as an error. */
  lemma FailureLogIsExit(e: ExecutionError)
    ensures FailureLog(e) == ExitMessage && FailureLog(e).level != ERROR
  {
  }
}
