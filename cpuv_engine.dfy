/**
 * The later engine of cpuv/src/core/engine/engine.rs and its step rule in
 * cpuv/src/core/engine/runner.rs.
 *
 * It handles commands exactly as the engine of src/core/engine does, with
 * two differences: a snapshot carries the program itself rather than its
 * `{:#?}` rendering, and a step that reaches an instruction ends in
 * `todo!()`. Its options come from the `engine` table of the configuration
 * file. The lemmas at the end prove that it agrees with the `Engine` model
 * everywhere else.
 */
module CpuvEngine {
  import opened RustStd
  import opened Lang
  import IRParser
  import opened EngineProtocol
  import Src = Engine

  // ---------------------------------------------------------------------
  // Configuration and snapshots

  /** `EngineConfig` (cpuv/src/config.rs); the heap simulation and the log level are not used by the engine. */
  datatype EngineConfig = EngineConfig(tps: nat, ipt: nat, heapMemorySize: nat)

  /** The configuration used when the file does not set the engine table. */
  function DefaultEngineConfig(): EngineConfig {
    EngineConfig(5, 1, 2048)
  }

  /** With the default configuration every tick is an instruction tick and the pacing never divides by zero. */
  lemma DefaultConfigRunsEveryTick(tick: nat)
    ensures DefaultEngineConfig().tps > 0 && DefaultEngineConfig().ipt == 1
    ensures OnInstructionTick(tick, DefaultEngineConfig().ipt)
  {
  }

  /** `EngineData`: a snapshot holding a copy of the program. */
  datatype EngineData = EngineData(
    tick: nat,
    runningState: RunningState,
    program: Option<Program>,
    irRepresentation: string,
    respondingTo: Option<CommandType>,
    registers: Registers
  )

  // ---------------------------------------------------------------------
  // The step rule (runner.rs)

  /**
   * `run_instruction`: gated as in the earlier engine, but the instruction
   * under the pointer meets `todo!()`, so the pointer never moves.
   */
  function InstructionStep(state: EngineState, current: Option<Label>, ipt: nat): (r: Outcome<(StepResult, EngineState)>)
    ensures r.Done? ==> r.value.1 == state && r.value.0 != Ok(Executed)
    ensures r == Panicked(NotYetImplemented) <==>
              ipt > 0 && OnInstructionTick(state.tick, ipt) && Instructions(current).Some? &&
              state.instructionPtr < |Instructions(current).value|
  {
    if ipt == 0 then Panicked(RemainderByZero)
    else if !OnInstructionTick(state.tick, ipt) then Done((Ok(WaitingForNextTick), state))
    else
      match Instructions(current)
      case None => Panicked(UnwrapNone)
      case Some(instructions) =>
        if |instructions| <= state.instructionPtr then Done((Err(EndOfLabel), state))
        else Panicked(NotYetImplemented)
  }

  // ---------------------------------------------------------------------
  // The engine as a value

  /** Every field of the engine, and the panic that ended its thread, if any. */
  datatype Machine = Machine(
    program: Option<Program>,
    registers: Registers,
    state: EngineState,
    currentLabel: Option<Label>,
    snapshots: seq<EngineData>,
    logs: seq<LogMessage>,
    fault: Option<Panic>
  )

  /** `Engine::new`: stopped, zero counters, no program, no label, nothing sent. */
  function NewMachine(): (m: Machine)
    ensures m.state == EngineState(0, 0, Stopped)
    ensures m.program == None && m.currentLabel == None
    ensures m.snapshots == [] && m.logs == [] && m.fault == None
  {
    Machine(None, DefaultRegisters(), EngineState(0, 0, Stopped), None, [], [], None)
  }

  /** `get_current_state`: the snapshot of the engine, answering `respondingTo`. */
  function CurrentState(m: Machine, respondingTo: Option<CommandType>): (d: EngineData)
    ensures d.tick == m.state.tick && d.runningState == m.state.runningState
    ensures d.program == m.program && d.registers == m.registers
    ensures d.respondingTo == respondingTo && d.irRepresentation == "TODO"
  {
    EngineData(m.state.tick, m.state.runningState, m.program, "TODO", respondingTo, m.registers)
  }

  /** `m` with the snapshot answering `command` sent. */
  function Answer(m: Machine, command: CommandType): Machine {
    m.(snapshots := m.snapshots + [CurrentState(m, Some(command))])
  }

  /** `Start` on a stopped engine once the counters are reset: parse, pick the start label, answer. */
  function StartProgram(m: Machine, payload: Option<string>): Machine
    requires m.fault.None?
  {
    match payload
    case None => m.(fault := Some(UnwrapNone))
    case Some(text) =>
      match IRParser.Parse(text)
      case Panicked(e) => m.(fault := Some(e))
      case Done(program) =>
        match StartLabel(program)
        case Panicked(e) => m.(fault := Some(e))
        case Done(found) => Answer(m.(currentLabel := found.ToOption(), program := Some(program)), Start)
  }

  /** `run_client_commands`: the engine after handling one command. */
  function RunClientCommand(m: Machine, command: ClientCommand): (r: Machine)
    requires m.fault.None?
  {
    match command.commandType
    case Start =>
      if m.state.runningState == Stopped then StartProgram(m.(state := EngineState(0, 0, Running)), command.payload)
      else m.(state := m.state.(runningState := Running))
    case Pause => Answer(m.(state := m.state.(runningState := Paused)), Pause)
    case Stop => Answer(m.(state := m.state.(runningState := Stopped)), Stop)
    case ParseFile =>
      (match IRParser.Parse(Extract(command.payload))
       case Panicked(e) => m.(fault := Some(e))
       case Done(program) => Answer(m.(program := Some(program)), ParseFile))
    case ParseWithoutUpdate =>
      (match IRParser.Parse(Extract(command.payload))
       case Panicked(e) => m.(fault := Some(e))
       case Done(program) =>
         var data := CurrentState(m, Some(ParseWithoutUpdate)).(program := Some(program));
         m.(snapshots := m.snapshots + [data]))
    case TranslateToIR => m.(fault := Some(NotYetImplemented))
    case TranslateToIRWithoutUpdate => m.(fault := Some(NotYetImplemented))
  }

  /**
   * A running engine's step: the snapshot tagged `None`, then the step rule;
   * a failed step stops the engine with a log line, the tick advances, and
   * the pause divides 1000 by `tps`.
   */
  function RunningStep(m: Machine, config: EngineConfig): (r: Machine)
    requires m.fault.None?
  {
    var sent := m.(snapshots := m.snapshots + [CurrentState(m, None)]);
    match InstructionStep(m.state, m.currentLabel, config.ipt)
    case Panicked(e) => sent.(fault := Some(e))
    case Done((result, state)) =>
      var stepped :=
        if result.Err? then sent.(state := state.(runningState := Stopped), logs := sent.logs + [FailureLog(result.error)])
        else sent.(state := state);
      var ticked := stepped.(state := stepped.state.(tick := stepped.state.tick + 1));
      if config.tps == 0 then ticked.(fault := Some(DivideByZero)) else ticked
  }

  /** One iteration of the `run` loop: at most one command, then a step if the engine is running. */
  function Iteration(m: Machine, config: EngineConfig, command: Option<ClientCommand>): (r: Machine)
    requires m.fault.None?
  {
    var handled := if command.Some? then RunClientCommand(m, command.value) else m;
    if handled.fault.Some? || handled.state.runningState != Running then handled
    else RunningStep(handled, config)
  }

  // ---------------------------------------------------------------------
  // The engine object

  class Engine {
    var program: Option<Program>
    var registers: Registers
    const config: EngineConfig
    var state: EngineState
    var currentLabel: Option<Label>
    /** What was sent on the engine data channel, oldest first. */
    var snapshots: seq<EngineData>
    /** What was sent on the log channel, oldest first. */
    var logs: seq<LogMessage>
    /** The panic that ended the engine thread, if any. */
    var fault: Option<Panic>

    /** The fields as one value. */
    function View(): Machine
      reads this
    {
      Machine(program, registers, state, currentLabel, snapshots, logs, fault)
    }

    /** `Engine::new`: the channels are not modelled. */
    constructor(config: EngineConfig)
      ensures View() == NewMachine() && this.config == config
    {
      this.config := config;
      program := None;
      currentLabel := None;
      registers := DefaultRegisters();
      state := EngineState(0, 0, Stopped);
      snapshots := [];
      logs := [];
      fault := None;
    }

    /** The log line `run` sends before its loop. */
    method Initialize()
      requires fault.None?
      modifies this
      ensures View() == old(View()).(logs := old(logs) + [InitMessage])
    {
      logs := logs + [InitMessage];
    }

    /** `engine_data_sender.send(self.get_current_state(respondingTo))`. */
    method SendState(respondingTo: Option<CommandType>)
      modifies this
      ensures View() == old(View()).(snapshots := old(snapshots) + [CurrentState(old(View()), respondingTo)])
    {
      snapshots := snapshots + [CurrentState(View(), respondingTo)];
    }

    /** `irv::parse` of a payload; a panic of the parser ends the thread. */
    method ParsePayload(text: string) returns (r: Option<Program>)
      requires fault.None?
      modifies this
      ensures IRParser.Parse(text).Done? ==> r == Some(IRParser.Parse(text).value) && View() == old(View())
      ensures IRParser.Parse(text).Panicked? ==> r == None && View() == old(View()).(fault := Some(IRParser.Parse(text).panic))
    {
      var parsed := IRParser.ParseInput(text);
      if parsed.Panicked? {
        fault := Some(parsed.panic);
        return None;
      }
      return Some(parsed.value);
    }

    /** The part of `Start` on a stopped engine that follows the reset of the counters. */
    method LoadProgram(payload: Option<string>)
      requires fault.None?
      modifies this
      ensures View() == StartProgram(old(View()), payload)
    {
      if payload.None? {
        fault := Some(UnwrapNone);
        return;
      }
      var parsed := ParsePayload(payload.value);
      if parsed.None? {
        return;
      }
      var found := GetStartLabel(parsed.value);
      if found.Panicked? {
        fault := Some(found.panic);
        return;
      }
      currentLabel := found.value.ToOption();
      program := parsed;
      SendState(Some(Start));
    }

    /** `run_client_commands`. */
    method RunClientCommands(command: ClientCommand)
      requires fault.None?
      modifies this
      ensures View() == RunClientCommand(old(View()), command)
    {
      match command.commandType {
        case Start =>
          if state.runningState == Stopped {
            state := EngineState(0, 0, Running);
            LoadProgram(command.payload);
          } else {
            state := state.(runningState := Running);
          }
        case Pause =>
          state := state.(runningState := Paused);
          SendState(Some(Pause));
        case Stop =>
          state := state.(runningState := Stopped);
          SendState(Some(Stop));
        case ParseFile =>
          var parsed := ParsePayload(Extract(command.payload));
          if parsed.Some? {
            program := parsed;
            SendState(Some(ParseFile));
          }
        case ParseWithoutUpdate =>
          var parsed := ParsePayload(Extract(command.payload));
          if parsed.Some? {
            var data := CurrentState(View(), Some(ParseWithoutUpdate));
            data := data.(program := parsed);
            snapshots := snapshots + [data];
          }
        case TranslateToIR =>
          fault := Some(NotYetImplemented);
        case TranslateToIRWithoutUpdate =>
          fault := Some(NotYetImplemented);
      }
    }

    /** `run_instruction`: the gated step, which panics on every instruction it reaches. */
    method RunInstruction() returns (r: Outcome<StepResult>)
      modifies this
      ensures r.Panicked? ==> InstructionStep(old(state), currentLabel, config.ipt) == Panicked(r.panic)
      ensures r.Done? ==> InstructionStep(old(state), currentLabel, config.ipt) == Done((r.value, state))
      ensures View() == old(View())
    {
      if config.ipt == 0 {
        return Panicked(RemainderByZero);
      }
      if state.tick % config.ipt != 0 {
        return Done(Ok(WaitingForNextTick));
      }
      if currentLabel.None? || currentLabel.value.instructions.None? {
        return Panicked(UnwrapNone);
      }
      var instructions := currentLabel.value.instructions.value;
      if |instructions| <= state.instructionPtr {
        return Done(Err(EndOfLabel));
      }
      return Panicked(NotYetImplemented);
    }

    /** The part of an iteration a running engine performs: snapshot, step, tick, pause. */
    method RunStep()
      requires fault.None?
      modifies this
      ensures View() == RunningStep(old(View()), config)
    {
      SendState(None);
      var result := RunInstruction();
      if result.Panicked? {
        fault := Some(result.panic);
        return;
      }
      if result.value.Err? {
        state := state.(runningState := Stopped);
        logs := logs + [FailureLog(result.value.error)];
      }
      state := state.(tick := state.tick + 1);
      if config.tps == 0 {
        fault := Some(DivideByZero);
      }
    }

    /** One iteration of the `run` loop; `command` is what `try_recv` returned, if anything. */
    method RunIteration(command: Option<ClientCommand>)
      requires fault.None?
      modifies this
      ensures View() == Iteration(old(View()), config, command)
    {
      if command.Some? {
        RunClientCommands(command.value);
      }
      if fault.None? && state.runningState == Running {
        RunStep();
      }
    }
  }

  // ---------------------------------------------------------------------
  // Agreement with the earlier engine

  /** The snapshot as the earlier engine sends it: the program rendered by `{:#?}`. */
  function Rendered(d: EngineData): Src.EngineData {
    Src.EngineData(d.tick, d.runningState, Src.DebugOfOption(d.program), d.irRepresentation, d.respondingTo, d.registers)
  }

  /** Every snapshot rendered. */
  function RenderedAll(ds: seq<EngineData>): (r: seq<Src.EngineData>)
    ensures |r| == |ds| && forall i :: 0 <= i < |ds| ==> r[i] == Rendered(ds[i])
  {
    seq(|ds|, i requires 0 <= i < |ds| => Rendered(ds[i]))
  }

  /** Rendering commutes with sending one more snapshot. */
  lemma RenderedAppend(ds: seq<EngineData>, d: EngineData)
    ensures RenderedAll(ds + [d]) == RenderedAll(ds) + [Rendered(d)]
  {
    assert RenderedAll(ds + [d])[..|ds|] == RenderedAll(ds);
  }

  /** The engine as the earlier engine would hold it. */
  function Project(m: Machine): Src.Machine {
    Src.Machine(m.program, m.registers, m.state, m.currentLabel, RenderedAll(m.snapshots), m.logs, m.fault)
  }

  /** The configuration as options of the earlier engine. */
  function Options(config: EngineConfig): Src.EngineOptions {
    Src.EngineOptions(config.heapMemorySize, config.tps, config.ipt)
  }

  /** A snapshot of the engine renders as the earlier engine's snapshot of it. */
  lemma CurrentStateAgrees(m: Machine, respondingTo: Option<CommandType>)
    ensures Rendered(CurrentState(m, respondingTo)) == Src.CurrentState(Project(m), respondingTo)
  {
  }

  /** Sending an answer agrees with the earlier engine. */
  lemma AnswerAgrees(m: Machine, command: CommandType)
    ensures Project(Answer(m, command)) == Src.Answer(Project(m), command)
  {
    RenderedAppend(m.snapshots, CurrentState(m, Some(command)));
  }

  /**
   * The step rule differs from the earlier one in one case only: where the
   * earlier engine executes the instruction under the pointer, this one
   * panics with `todo!()`.
   */
  lemma StepAgrees(state: EngineState, current: Option<Label>, ipt: nat)
    ensures var earlier := Src.InstructionStep(state, current, ipt);
            InstructionStep(state, current, ipt) ==
              if earlier.Done? && earlier.value.0 == Ok(Executed) then Panicked(NotYetImplemented) else earlier
  {
  }

  /** Every command except `ParseWithoutUpdate` is handled as by the earlier engine. */
  lemma CommandAgrees(m: Machine, command: ClientCommand)
    requires m.fault.None? && command.commandType != ParseWithoutUpdate
    ensures Project(RunClientCommand(m, command)) == Src.RunClientCommand(Project(m), command)
  {
    match command.commandType
    case Start =>
      if m.state.runningState == Stopped && command.payload.Some? {
        var reset := m.(state := EngineState(0, 0, Running));
        var parsed := IRParser.Parse(command.payload.value);
        if parsed.Done? && StartLabel(parsed.value).Done? {
          AnswerAgrees(reset.(currentLabel := StartLabel(parsed.value).value.ToOption(), program := Some(parsed.value)), Start);
        }
      }
    case Pause => AnswerAgrees(m.(state := m.state.(runningState := Paused)), Pause);
    case Stop => AnswerAgrees(m.(state := m.state.(runningState := Stopped)), Stop);
    case ParseFile =>
      var parsed := IRParser.Parse(Extract(command.payload));
      if parsed.Done? {
        AnswerAgrees(m.(program := Some(parsed.value)), ParseFile);
      }
    case TranslateToIR =>
    case TranslateToIRWithoutUpdate =>
  }

  /**
   * `ParseWithoutUpdate` agrees with the earlier engine except in the one
   * snapshot it sends, whose program renders as `Some(program)` here where
   * the earlier engine rendered the bare program.
   */
  lemma ParseWithoutUpdateAgrees(m: Machine, payload: Option<string>)
    requires m.fault.None?
    ensures var r := RunClientCommand(m, ClientCommand(ParseWithoutUpdate, payload));
            var earlier := Src.RunClientCommand(Project(m), ClientCommand(ParseWithoutUpdate, payload));
            var parsed := IRParser.Parse(Extract(payload));
            (parsed.Panicked? ==> Project(r) == earlier) &&
            (parsed.Done? ==>
               |earlier.snapshots| == |m.snapshots| + 1 &&
               earlier.snapshots[|m.snapshots|].program == Src.DebugOfProgram(parsed.value) &&
               Project(r) == earlier.(snapshots := earlier.snapshots[..|m.snapshots|] +
                                        [earlier.snapshots[|m.snapshots|].(program := Src.DebugOfOption(Some(parsed.value)))]))
  {
    var command := ClientCommand(ParseWithoutUpdate, payload);
    var parsed := IRParser.Parse(Extract(payload));
    if parsed.Done? {
      var data := CurrentState(m, Some(ParseWithoutUpdate)).(program := Some(parsed.value));
      var earlierData := Src.CurrentState(Project(m), Some(ParseWithoutUpdate)).(program := Src.DebugOfProgram(parsed.value));
      var earlier := Src.RunClientCommand(Project(m), command);
      assert RunClientCommand(m, command) == m.(snapshots := m.snapshots + [data]);
      assert earlier == Project(m).(snapshots := Project(m).snapshots + [earlierData]);
      RenderedAppend(m.snapshots, data);
      CurrentStateAgrees(m, Some(ParseWithoutUpdate));
      assert Rendered(data) == earlierData.(program := Src.DebugOfOption(Some(parsed.value)));
      assert earlier.snapshots[..|m.snapshots|] == RenderedAll(m.snapshots);
    }
  }

  /** Whether the earlier engine would execute an instruction in this step. */
  predicate Executes(m: Src.Machine, ipt: nat) {
    var earlier := Src.InstructionStep(m.state, m.currentLabel, ipt);
    earlier.Done? && earlier.value.0 == Ok(Executed)
  }

  /**
   * A running step agrees with the earlier engine's unless that one would
   * execute an instruction; then this one has sent the same snapshot and
   * ends in `todo!()` with its counters untouched.
   */
  lemma RunningStepAgrees(m: Machine, config: EngineConfig)
    requires m.fault.None?
    ensures !Executes(Project(m), config.ipt) ==>
              Project(RunningStep(m, config)) == Src.RunningStep(Project(m), Options(config))
    ensures Executes(Project(m), config.ipt) ==>
              Project(RunningStep(m, config)) ==
                Project(m).(snapshots := Project(m).snapshots + [Src.CurrentState(Project(m), None)],
                            fault := Some(NotYetImplemented))
  {
    StepAgrees(m.state, m.currentLabel, config.ipt);
    RenderedAppend(m.snapshots, CurrentState(m, None));
  }

  /**
   * An iteration without `ParseWithoutUpdate` agrees with the earlier
   * engine's, except that a step the earlier engine would execute ends
   * this engine's thread in `todo!()`.
   */
  lemma IterationAgrees(m: Machine, config: EngineConfig, command: Option<ClientCommand>)
    requires m.fault.None? && (command.Some? ==> command.value.commandType != ParseWithoutUpdate)
    ensures var earlier := Src.Iteration(Project(m), Options(config), command);
            var handled := if command.Some? then Src.RunClientCommand(Project(m), command.value) else Project(m);
            var diverges := handled.fault.None? && handled.state.runningState == Running && Executes(handled, config.ipt);
            (!diverges ==> Project(Iteration(m, config, command)) == earlier) &&
            (diverges ==> Iteration(m, config, command).fault == Some(NotYetImplemented) &&
                          Project(Iteration(m, config, command)).state == handled.state)
  {
    var handled := if command.Some? then RunClientCommand(m, command.value) else m;
    if command.Some? {
      CommandAgrees(m, command.value);
    }
    if handled.fault.None? && handled.state.runningState == Running {
      RunningStepAgrees(handled, config);
    }
  }

  /** A running engine reaching an instruction on an instruction tick ends in `todo!()`. */
  lemma ReachedInstructionPanics(m: Machine, config: EngineConfig)
    requires m.fault.None? && m.state.runningState == Running
    requires config.ipt > 0 && OnInstructionTick(m.state.tick, config.ipt)
    requires Instructions(m.currentLabel).Some? && m.state.instructionPtr < |Instructions(m.currentLabel).value|
    ensures Iteration(m, config, None).fault == Some(NotYetImplemented)
    ensures Iteration(m, config, None).state == m.state
  {
  }

  /**
   * So only a label whose instructions are all behind the pointer (an empty
   * label, right after `Start`) runs to its end: under the default
   * configuration its first step stops the engine with the exit message.
   */
  lemma EmptyLabelExits(m: Machine)
    requires m.fault.None? && m.state.runningState == Running
    requires Instructions(m.currentLabel).Some? && |Instructions(m.currentLabel).value| <= m.state.instructionPtr
    ensures var r := Iteration(m, DefaultEngineConfig(), None);
            r.fault.None? && r.state.runningState == Stopped && r.state.tick == m.state.tick + 1 &&
            r.logs == m.logs + [ExitMessage] && r.snapshots == m.snapshots + [CurrentState(m, None)]
  {
    DefaultConfigRunsEveryTick(m.state.tick);
  }
}
