/**
 * The execution engine of src/core/engine/engine.rs and its step rule in
 * src/core/engine/runner.rs.
 *
 * The engine thread owns the program, the register file, the tick and
 * instruction counters and the current label. Clients talk to it through
 * three channels; here the two outbound ones (engine data and log lines) are
 * append-only sequences, and the inbound one is the optional command an
 * iteration of the `run` loop takes. A Rust panic ends the engine thread; it
 * is recorded in `fault`, after which nothing runs.
 *
 * `RunClientCommand`, `InstructionStep` and `Iteration` are the reference
 * meaning over `Machine`, a value holding every field of the engine; the
 * methods of the class `Engine` update the fields in place and are proved
 * equal to them.
 */
module Engine {
  import opened RustStd
  import opened Lang
  import IRParser
  import opened EngineProtocol

  // ---------------------------------------------------------------------
  // Options and snapshots

  datatype EngineOptions = EngineOptions(memorySize: nat, ticksPerSecond: nat, instructionsPerTick: nat)

  /**
   * The `{:#?}` rendering the engine sends as "Parsing Result": of the
   * engine's `Option<Program>`, or of a freshly parsed `Program`. The text
   * itself is not modelled; the rendered value is kept.
   */
  datatype ProgramText = DebugOfOption(optionalProgram: Option<Program>) | DebugOfProgram(parsed: Program)

  /** `EngineData`: one snapshot on the engine data channel. */
  datatype EngineData = EngineData(
    tick: nat,
    runningState: RunningState,
    program: ProgramText,
    irRepresentation: string,
    respondingTo: Option<CommandType>,
    registers: Registers
  )

  // ---------------------------------------------------------------------
  // The step rule (runner.rs)

  /**
   * `run_instruction`: only on ticks that are a multiple of
   * `instructions_per_tick`, the instruction under the pointer is fetched and
   * the pointer moves past it. The result is paired with the new counters.
   * A zero `instructions_per_tick` panics in the remainder.
   */
  function InstructionStep(state: EngineState, current: Option<Label>, ipt: nat): (r: Outcome<(StepResult, EngineState)>)
    ensures ipt == 0 <==> r == Panicked(RemainderByZero)
    ensures ipt > 0 && !OnInstructionTick(state.tick, ipt) ==> r == Done((Ok(WaitingForNextTick), state))
    ensures r == Panicked(UnwrapNone) <==> ipt > 0 && OnInstructionTick(state.tick, ipt) && Instructions(current).None?
    ensures r.Done? && r.value.0.Err? <==>
              ipt > 0 && OnInstructionTick(state.tick, ipt) && Instructions(current).Some? &&
              |Instructions(current).value| <= state.instructionPtr
    ensures r.Done? && r.value.0 == Ok(Executed) ==>
              r.value.1 == state.(instructionPtr := state.instructionPtr + 1) &&
              state.instructionPtr < |Instructions(current).value|
    ensures ipt > 0 && OnInstructionTick(state.tick, ipt) && Instructions(current).Some? &&
            state.instructionPtr < |Instructions(current).value| ==>
              r == Done((Ok(Executed), state.(instructionPtr := state.instructionPtr + 1)))
    ensures r.Done? && r.value.0 != Ok(Executed) ==> r.value.1 == state
  {
    if ipt == 0 then Panicked(RemainderByZero)
    else if !OnInstructionTick(state.tick, ipt) then Done((Ok(WaitingForNextTick), state))
    else
      match Instructions(current)
      case None => Panicked(UnwrapNone)
      case Some(instructions) =>
        if |instructions| <= state.instructionPtr then Done((Err(EndOfLabel), state))
        else Done((Ok(Executed), state.(instructionPtr := state.instructionPtr + 1)))
  }

  // ---------------------------------------------------------------------
  // The engine as a value

  /** Every field of the engine, and the panic that ended its thread, if any. */
  datatype Machine = Machine(
    program: Option<Program>,
    registers: Registers,
    state: EngineState,
    currentLabel: Option<Label>,
    snapshots: seq<EngineData>,
    logs: seq<LogMessage>,
    fault: Option<Panic>
  )

  /** `Engine::new`: stopped, zero counters, no program, no label, nothing sent. */
  function NewMachine(): (m: Machine)
    ensures m.state == EngineState(0, 0, Stopped)
    ensures m.program == None && m.currentLabel == None
    ensures m.snapshots == [] && m.logs == [] && m.fault == None
  {
    Machine(None, DefaultRegisters(), EngineState(0, 0, Stopped), None, [], [], None)
  }

  /** `get_current_state`: the snapshot of the engine, answering `respondingTo`. */
  function CurrentState(m: Machine, respondingTo: Option<CommandType>): (d: EngineData)
    ensures d.tick == m.state.tick && d.runningState == m.state.runningState
    ensures d.program == DebugOfOption(m.program) && d.registers == m.registers
    ensures d.respondingTo == respondingTo && d.irRepresentation == "TODO"
  {
    EngineData(m.state.tick, m.state.runningState, DebugOfOption(m.program), "TODO", respondingTo, m.registers)
  }

  /** `m` with the snapshot answering `command` sent. */
  function Answer(m: Machine, command: CommandType): Machine {
    m.(snapshots := m.snapshots + [CurrentState(m, Some(command))])
  }

  /** `Start` on a stopped engine once the counters are reset: parse, pick the start label, answer. */
  function StartProgram(m: Machine, payload: Option<string>): Machine
    requires m.fault.None?
  {
    match payload
    case None => m.(fault := Some(UnwrapNone))
    case Some(text) =>
      match IRParser.Parse(text)
      case Panicked(e) => m.(fault := Some(e))
      case Done(program) =>
        match StartLabel(program)
        case Panicked(e) => m.(fault := Some(e))
        case Done(found) => Answer(m.(currentLabel := found.ToOption(), program := Some(program)), Start)
  }

  /** `run_client_commands`: the engine after handling one command. */
  function RunClientCommand(m: Machine, command: ClientCommand): (r: Machine)
    requires m.fault.None?
  {
    match command.commandType
    case Start =>
      if m.state.runningState == Stopped then StartProgram(m.(state := EngineState(0, 0, Running)), command.payload)
      else m.(state := m.state.(runningState := Running))
    case Pause => Answer(m.(state := m.state.(runningState := Paused)), Pause)
    case Stop => Answer(m.(state := m.state.(runningState := Stopped)), Stop)
    case ParseFile =>
      (match IRParser.Parse(Extract(command.payload))
       case Panicked(e) => m.(fault := Some(e))
       case Done(program) => Answer(m.(program := Some(program)), ParseFile))
    case ParseWithoutUpdate =>
      (match IRParser.Parse(Extract(command.payload))
       case Panicked(e) => m.(fault := Some(e))
       case Done(program) =>
         var data := CurrentState(m, Some(ParseWithoutUpdate)).(program := DebugOfProgram(program));
         m.(snapshots := m.snapshots + [data]))
    case TranslateToIR => m.(fault := Some(NotYetImplemented))
    case TranslateToIRWithoutUpdate => m.(fault := Some(NotYetImplemented))
  }

  /**
   * A running engine's step: the snapshot tagged `None`, then the step rule;
   * a failed step stops the engine with a log line, and the tick advances.
   * The pause that follows divides 1000 by `ticks_per_second`, which panics
   * when that is zero; the length of the pause is not modelled.
   */
  function RunningStep(m: Machine, options: EngineOptions): (r: Machine)
    requires m.fault.None?
  {
    var sent := m.(snapshots := m.snapshots + [CurrentState(m, None)]);
    match InstructionStep(m.state, m.currentLabel, options.instructionsPerTick)
    case Panicked(e) => sent.(fault := Some(e))
    case Done((result, state)) =>
      var stepped :=
        if result.Err? then sent.(state := state.(runningState := Stopped), logs := sent.logs + [FailureLog(result.error)])
        else sent.(state := state);
      var ticked := stepped.(state := stepped.state.(tick := stepped.state.tick + 1));
      if options.ticksPerSecond == 0 then ticked.(fault := Some(DivideByZero)) else ticked
  }

  /** One iteration of the `run` loop: at most one command, then a step if the engine is running. */
  function Iteration(m: Machine, options: EngineOptions, command: Option<ClientCommand>): (r: Machine)
    requires m.fault.None?
  {
    var handled := if command.Some? then RunClientCommand(m, command.value) else m;
    if handled.fault.Some? || handled.state.runningState != Running then handled
    else RunningStep(handled, options)
  }

  // ---------------------------------------------------------------------
  // The engine object

  class Engine {
    var program: Option<Program>
    var registers: Registers
    const options: EngineOptions
    var state: EngineState
    var currentLabel: Option<Label>
    /** What was sent on the engine data channel, oldest first. */
    var snapshots: seq<EngineData>
    /** What was sent on the log channel, oldest first. */
    var logs: seq<LogMessage>
    /** The panic that ended the engine thread, if any. */
    var fault: Option<Panic>

    /** The fields as one value. */
    function View(): Machine
      reads this
    {
      Machine(program, registers, state, currentLabel, snapshots, logs, fault)
    }

    /** `Engine::new`: the heap's capacity and the channels are not modelled. */
    constructor(options: EngineOptions)
      ensures View() == NewMachine() && this.options == options
    {
      this.options := options;
      program := None;
      currentLabel := None;
      registers := DefaultRegisters();
      state := EngineState(0, 0, Stopped);
      snapshots := [];
      logs := [];
      fault := None;
    }

    /** The log line `run` sends before its loop. */
    method Initialize()
      requires fault.None?
      modifies this
      ensures View() == old(View()).(logs := old(logs) + [InitMessage])
    {
      logs := logs + [InitMessage];
    }

    /** `engine_data_sender.send(self.get_current_state(respondingTo))`. */
    method SendState(respondingTo: Option<CommandType>)
      modifies this
      ensures View() == old(View()).(snapshots := old(snapshots) + [CurrentState(old(View()), respondingTo)])
    {
      snapshots := snapshots + [CurrentState(View(), respondingTo)];
    }

    /** Parses a payload; a panic of the parser ends the thread. */
    method ParsePayload(text: string) returns (r: Option<Program>)
      requires fault.None?
      modifies this
      ensures IRParser.Parse(text).Done? ==> r == Some(IRParser.Parse(text).value) && View() == old(View())
      ensures IRParser.Parse(text).Panicked? ==> r == None && View() == old(View()).(fault := Some(IRParser.Parse(text).panic))
    {
      var parsed := IRParser.ParseInput(text);
      if parsed.Panicked? {
        fault := Some(parsed.panic);
        return None;
      }
      return Some(parsed.value);
    }

    /** The part of `Start` on a stopped engine that follows the reset of the counters. */
    method LoadProgram(payload: Option<string>)
      requires fault.None?
      modifies this
      ensures View() == StartProgram(old(View()), payload)
    {
      if payload.None? {
        fault := Some(UnwrapNone);
        return;
      }
      var parsed := ParsePayload(payload.value);
      if parsed.None? {
        return;
      }
      var found := GetStartLabel(parsed.value);
      if found.Panicked? {
        fault := Some(found.panic);
        return;
      }
      currentLabel := found.value.ToOption();
      program := parsed;
      SendState(Some(Start));
    }

    /** `run_client_commands`. */
    method RunClientCommands(command: ClientCommand)
      requires fault.None?
      modifies this
      ensures View() == RunClientCommand(old(View()), command)
    {
      match command.commandType {
        case Start =>
          if state.runningState == Stopped {
            state := EngineState(0, 0, Running);
            LoadProgram(command.payload);
          } else {
            state := state.(runningState := Running);
          }
        case Pause =>
          state := state.(runningState := Paused);
          SendState(Some(Pause));
        case Stop =>
          state := state.(runningState := Stopped);
          SendState(Some(Stop));
        case ParseFile =>
          var parsed := ParsePayload(Extract(command.payload));
          if parsed.Some? {
            program := parsed;
            SendState(Some(ParseFile));
          }
        case ParseWithoutUpdate =>
          var parsed := ParsePayload(Extract(command.payload));
          if parsed.Some? {
            var data := CurrentState(View(), Some(ParseWithoutUpdate));
            data := data.(program := DebugOfProgram(parsed.value));
            snapshots := snapshots + [data];
          }
        case TranslateToIR =>
          fault := Some(NotYetImplemented);
        case TranslateToIRWithoutUpdate =>
          fault := Some(NotYetImplemented);
      }
    }

    /** `run_instruction`: the gated step on the counters. */
    method RunInstruction() returns (r: Outcome<StepResult>)
      modifies this
      ensures r.Panicked? ==> InstructionStep(old(state), currentLabel, options.instructionsPerTick) == Panicked(r.panic) && state == old(state)
      ensures r.Done? ==> InstructionStep(old(state), currentLabel, options.instructionsPerTick) == Done((r.value, state))
      ensures View() == old(View()).(state := state)
    {
      if options.instructionsPerTick == 0 {
        return Panicked(RemainderByZero);
      }
      if state.tick % options.instructionsPerTick != 0 {
        return Done(Ok(WaitingForNextTick));
      }
      if currentLabel.None? || currentLabel.value.instructions.None? {
        return Panicked(UnwrapNone);
      }
      var instructions := currentLabel.value.instructions.value;
      if |instructions| <= state.instructionPtr {
        return Done(Err(EndOfLabel));
      }
      state := state.(instructionPtr := state.instructionPtr + 1);
      return Done(Ok(Executed));
    }

    /** The part of an iteration a running engine performs: snapshot, step, tick, pause. */
    method RunStep()
      requires fault.None?
      modifies this
      ensures View() == RunningStep(old(View()), options)
    {
      SendState(None);
      var result := RunInstruction();
      if result.Panicked? {
        fault := Some(result.panic);
        return;
      }
      if result.value.Err? {
        state := state.(runningState := Stopped);
        logs := logs + [FailureLog(result.value.error)];
      }
      state := state.(tick := state.tick + 1);
      if options.ticksPerSecond == 0 {
        fault := Some(DivideByZero);
      }
    }

    /** One iteration of the `run` loop; `command` is what `try_recv` returned, if anything. */
    method RunIteration(command: Option<ClientCommand>)
      requires fault.None?
      modifies this
      ensures View() == Iteration(old(View()), options, command)
    {
      if command.Some? {
        RunClientCommands(command.value);
      }
      if fault.None? && state.runningState == Running {
        RunStep();
      }
    }
  }

  // ---------------------------------------------------------------------
  // Properties of commands

  /** No command writes a log line or touches the registers. */
  lemma CommandsKeepLogsAndRegisters(m: Machine, command: ClientCommand)
    requires m.fault.None?
    ensures RunClientCommand(m, command).logs == m.logs
    ensures RunClientCommand(m, command).registers == m.registers
  {
  }

  /**
   * `Start` on a stopped engine fails exactly when there is no payload, the
   * payload does not parse, or the parsed program has no label list.
   */
  lemma StartFromStoppedFails(m: Machine, payload: Option<string>)
    requires m.fault.None? && m.state.runningState == Stopped
    ensures var r := RunClientCommand(m, ClientCommand(Start, payload));
            r.fault.Some? <==>
              payload.None? || IRParser.Parse(payload.value).Panicked? ||
              IRParser.Parse(payload.value).value.labels.None?
    ensures payload.None? ==> RunClientCommand(m, ClientCommand(Start, payload)).fault == Some(UnwrapNone)
  {
  }

  /**
   * A successful `Start` on a stopped engine resets both counters, installs
   * the parsed program and its first `start` label, and sends one snapshot
   * that already shows all of that.
   */
  lemma StartFromStopped(m: Machine, text: string)
    requires m.fault.None? && m.state.runningState == Stopped
    requires IRParser.Parse(text).Done? && IRParser.Parse(text).value.labels.Some?
    ensures var r := RunClientCommand(m, ClientCommand(Start, Some(text)));
            var program := IRParser.Parse(text).value;
            r.fault.None? && r.state == EngineState(0, 0, Running) &&
            r.program == Some(program) &&
            r.currentLabel == StartLabel(program).value.ToOption() &&
            r.snapshots == m.snapshots + [CurrentState(r, Some(Start))]
  {
  }

  /** `Start` on a running or paused engine only resumes it: no parse, no snapshot, counters kept. */
  lemma StartResumes(m: Machine, payload: Option<string>)
    requires m.fault.None? && m.state.runningState != Stopped
    ensures var r := RunClientCommand(m, ClientCommand(Start, payload));
            r.fault.None? && r.state.runningState == Running &&
            r.state.tick == m.state.tick && r.state.instructionPtr == m.state.instructionPtr &&
            r.program == m.program && r.currentLabel == m.currentLabel && r.snapshots == m.snapshots
  {
  }

  /** `Pause` and `Stop` set the running state, keep the counters and the program, and answer once. */
  lemma PauseAndStop(m: Machine, command: ClientCommand)
    requires m.fault.None? && (command.commandType == Pause || command.commandType == Stop)
    ensures var r := RunClientCommand(m, command);
            r.fault.None? &&
            r.state.runningState == (if command.commandType == Pause then Paused else Stopped) &&
            r.state.tick == m.state.tick && r.state.instructionPtr == m.state.instructionPtr &&
            r.program == m.program && r.currentLabel == m.currentLabel &&
            r.snapshots == m.snapshots + [CurrentState(r, Some(command.commandType))]
  {
  }

  /**
   * `ParseFile` replaces the program and answers with a snapshot showing it;
   * the counters, the running state and the current label stay as they were.
   */
  lemma ParseFileReplacesProgram(m: Machine, payload: Option<string>)
    requires m.fault.None?
    ensures var r := RunClientCommand(m, ClientCommand(ParseFile, payload));
            var parsed := IRParser.Parse(Extract(payload));
            (r.fault.None? <==> parsed.Done?) &&
            (parsed.Done? ==>
               r.program == Some(parsed.value) && r.state == m.state && r.currentLabel == m.currentLabel &&
               r.snapshots == m.snapshots + [CurrentState(r, Some(ParseFile))])
  {
  }

  /**
   * `ParseWithoutUpdate` leaves the engine as it was and sends one snapshot
   * whose program is the freshly parsed one.
   */
  lemma ParseWithoutUpdateKeepsEngine(m: Machine, payload: Option<string>)
    requires m.fault.None?
    ensures var r := RunClientCommand(m, ClientCommand(ParseWithoutUpdate, payload));
            var parsed := IRParser.Parse(Extract(payload));
            (r.fault.None? <==> parsed.Done?) &&
            (parsed.Done? ==>
               r.program == m.program && r.state == m.state && r.currentLabel == m.currentLabel &&
               |r.snapshots| == |m.snapshots| + 1 && r.snapshots[..|m.snapshots|] == m.snapshots &&
               r.snapshots[|m.snapshots|].program == DebugOfProgram(parsed.value) &&
               r.snapshots[|m.snapshots|].respondingTo == Some(ParseWithoutUpdate) &&
               r.snapshots[|m.snapshots|].tick == m.state.tick)
  {
  }

  /** A pattern whose first character does not occur in `s` is not contained in `s`. */
  lemma FirstCharMissing(s: string, w: string)
    requires w != [] && w[0] !in s
    ensures !Contains(s, w)
  {
    ContainsAt(s, w);
  }

  /** A single line with no `.` and no `@` opens neither a section nor a label: it parses to the empty program. */
  lemma PlainLineParsesEmpty(text: string)
    requires '\n' !in text && '.' !in text && '@' !in text
    ensures IRParser.Parse(text) == Done(NewProgram())
  {
    var f := Split(text, '\n');
    assert f == [text];
    FirstCharMissing(text, IRParser.SectionWord);
    FirstCharMissing(text, IRParser.LabelSign);
    IRParser.IgnoredLine(f, 0, NewProgram());
  }

  /** The text a missing payload is replaced with has none of the characters `c`. */
  lemma PayloadMissingLacks(text: string, c: char)
    requires text == PayloadMissing && (c == '\n' || c == '.' || c == '@')
    ensures c !in text
  {
  }

  /** The text a missing payload is replaced with is such a line. */
  lemma MissingPayloadParsesEmpty()
    ensures IRParser.Parse(Extract(None)) == Done(NewProgram())
  {
    var text := Extract(None);
    PayloadMissingLacks(text, '\n');
    PayloadMissingLacks(text, '.');
    PayloadMissingLacks(text, '@');
    PlainLineParsesEmpty(text);
  }

  /**
   * So `ParseFile` without a payload installs the empty program, and a
   * `Start` of that program would panic on its missing label list.
   */
  lemma ParseFileWithoutPayload(m: Machine)
    requires m.fault.None?
    ensures RunClientCommand(m, ClientCommand(ParseFile, None)).program == Some(NewProgram())
    ensures m.state.runningState == Stopped ==>
              RunClientCommand(m, ClientCommand(Start, Some(Extract(None)))).fault == Some(UnwrapNone)
  {
    MissingPayloadParsesEmpty();
  }

  /** Both translation commands are unfinished and end the engine thread. */
  lemma TranslationPanics(m: Machine, command: ClientCommand)
    requires m.fault.None?
    requires command.commandType == TranslateToIR || command.commandType == TranslateToIRWithoutUpdate
    ensures RunClientCommand(m, command) == m.(fault := Some(NotYetImplemented))
  {
  }

  // ---------------------------------------------------------------------
  // Properties of iterations

  /** Without a command, an engine that is not running does nothing at all. */
  lemma IdleIteration(m: Machine, options: EngineOptions)
    requires m.fault.None? && m.state.runningState != Running
    ensures Iteration(m, options, None) == m
  {
  }

  /**
   * Without a command, a running engine with instructions sends exactly one
   * untagged snapshot of its state before the step, advances the tick by
   * one and the pointer by at most one, and stops with the exit message
   * exactly when an instruction tick finds the pointer at the end.
   */
  lemma RunningIteration(m: Machine, options: EngineOptions)
    requires m.fault.None? && m.state.runningState == Running
    requires options.instructionsPerTick > 0 && options.ticksPerSecond > 0
    requires Instructions(m.currentLabel).Some?
    ensures var r := Iteration(m, options, None);
            var ended := OnInstructionTick(m.state.tick, options.instructionsPerTick) &&
                         |Instructions(m.currentLabel).value| <= m.state.instructionPtr;
            r.fault.None? && r.state.tick == m.state.tick + 1 &&
            r.snapshots == m.snapshots + [CurrentState(m, None)] &&
            r.program == m.program && r.currentLabel == m.currentLabel && r.registers == m.registers &&
            (ended ==> r.state.runningState == Stopped && r.logs == m.logs + [ExitMessage] &&
                       r.state.instructionPtr == m.state.instructionPtr) &&
            (!ended ==> r.state.runningState == Running && r.logs == m.logs &&
                        r.state.instructionPtr ==
                          m.state.instructionPtr + (if OnInstructionTick(m.state.tick, options.instructionsPerTick) then 1 else 0))
  {
  }

  /** A running engine without a current label's instructions panics on its next instruction tick. */
  lemma RunningWithoutInstructions(m: Machine, options: EngineOptions)
    requires m.fault.None? && m.state.runningState == Running && Instructions(m.currentLabel).None?
    requires options.instructionsPerTick > 0 && OnInstructionTick(m.state.tick, options.instructionsPerTick)
    ensures Iteration(m, options, None).fault == Some(UnwrapNone)
  {
  }

  /**
   * `Pause` and then `Start` on a new engine resume an engine that never
   * loaded a program: the first step panics on the missing label.
   */
  lemma PauseThenStartPanics(options: EngineOptions, payload: Option<string>)
    requires options.instructionsPerTick > 0
    ensures var paused := Iteration(NewMachine(), options, Some(ClientCommand(Pause, None)));
            paused.fault.None? &&
            Iteration(paused, options, Some(ClientCommand(Start, payload))).fault == Some(UnwrapNone)
  {
    var paused := Iteration(NewMachine(), options, Some(ClientCommand(Pause, None)));
    assert paused.state == EngineState(0, 0, Paused) && paused.currentLabel == None;
  }

  /** The instruction pointer never passes the end of the current label's instructions. */
  predicate PointerInRange(m: Machine) {
    Instructions(m.currentLabel).Some? ==> m.state.instructionPtr <= |Instructions(m.currentLabel).value|
  }

  /** A command either keeps the label and the pointer or resets the pointer to zero. */
  lemma CommandKeepsPointerInRange(m: Machine, command: ClientCommand)
    requires m.fault.None? && PointerInRange(m)
    ensures PointerInRange(RunClientCommand(m, command))
  {
    var r := RunClientCommand(m, command);
    if command.commandType == Start && m.state.runningState == Stopped {
      assert r.state.instructionPtr == 0;
    } else {
      assert r.currentLabel == m.currentLabel && r.state.instructionPtr == m.state.instructionPtr;
    }
  }

  /** A step moves the pointer only past an instruction that is there. */
  lemma StepKeepsPointerInRange(m: Machine, options: EngineOptions)
    requires m.fault.None? && PointerInRange(m)
    ensures PointerInRange(RunningStep(m, options))
  {
  }

  /** An iteration, whatever command it takes, keeps the pointer in range. */
  lemma IterationKeepsPointerInRange(m: Machine, options: EngineOptions, command: Option<ClientCommand>)
    requires m.fault.None? && PointerInRange(m)
    ensures PointerInRange(Iteration(m, options, command))
  {
    var handled := if command.Some? then RunClientCommand(m, command.value) else m;
    if command.Some? {
      CommandKeepsPointerInRange(m, command.value);
    }
    if handled.fault.None? && handled.state.runningState == Running {
      StepKeepsPointerInRange(handled, options);
    }
  }

  /** `k` iterations of the `run` loop with no commands; the thread ends at the first panic. */
  function Run(m: Machine, options: EngineOptions, k: nat): (r: Machine)
    ensures m.fault.Some? ==> r == m
    decreases k
  {
    if k == 0 || m.fault.Some? then m else Run(Iteration(m, options, None), options, k - 1)
  }

  /**
   * With one instruction per tick, a running engine `k` instructions before
   * the end of its label executes them all and stops one tick later: `k + 1`
   * iterations, one snapshot each, ending stopped at the end with the single
   * exit message.
   */
  lemma {:induction false} RunToEnd(m: Machine, options: EngineOptions, k: nat)
    requires m.fault.None? && m.state.runningState == Running
    requires options.instructionsPerTick == 1 && options.ticksPerSecond > 0
    requires Instructions(m.currentLabel).Some?
    requires m.state.instructionPtr + k == |Instructions(m.currentLabel).value|
    ensures var r := Run(m, options, k + 1);
            r.fault.None? &&
            r.state == EngineState(m.state.tick + k + 1, |Instructions(m.currentLabel).value|, Stopped) &&
            r.logs == m.logs + [ExitMessage] &&
            |r.snapshots| == |m.snapshots| + k + 1 && r.snapshots[..|m.snapshots|] == m.snapshots &&
            r.program == m.program && r.currentLabel == m.currentLabel
    decreases k
  {
    RunningIteration(m, options);
    var next := Iteration(m, options, None);
    if k == 0 {
      assert Run(next, options, 0) == next;
    } else {
      RunToEnd(next, options, k - 1);
      var r := Run(next, options, k);
      assert r.snapshots[..|m.snapshots|] == r.snapshots[..|next.snapshots|][..|m.snapshots|];
    }
  }
}
