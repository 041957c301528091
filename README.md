# CPU-V execution core, modelled in Dafny

CPU-V is a virtual CPU. Programs are written in a small assembly-like
language and handed to an engine thread. The engine parses them, selects the
start label, and steps through its instructions one tick at a time. It reports
a snapshot of its state and its log lines to its clients over channels.

This project models the core of that system:

- **Language tables** (`lang_types.dfy`, `old_types.dfy`). These cover the
  data types and the instruction mnemonics of the current language
  (`src/core/lang/types.rs`) and of the earlier 6502-flavoured one
  (`src/core/types.rs`), including the flags each earlier instruction
  affects. They also cover how a single line becomes an `Instruction`.
- **Line-oriented parsers** (`blocks.dfy`, `ir_parser.dfy`, `old_parser.dfy`).
  `parse_input` (`src/core/IR/parser.rs`) and the earlier `parse_file`
  (`src/core/parser.rs`) split a file into lines. They walk those lines with a
  skip counter, open sections, and collect labelled blocks of instructions.
  The block readers (`parse_extern`, `parse_label`, `parse_variables`) share
  one shape: they skip empty lines, stop at the first line that ends the
  block, and otherwise collect one item per line. `Blocks.Scan` is that shape
  once, parametrised by the end test, the item reader and what the reader
  returns when it runs out of lines. Each parser's loop is a `method` proved
  equal to a recursive reference function. Panics (`unwrap` on `None` or
  `Err`, `panic!`, a `usize` subtraction below zero in a debug build) are values of
  `RustStd.Panic` inside an `Outcome`.
- **Engine** (`engine_protocol.dfy`, `engine.dfy`, `cpuv_engine.dfy`). The
  engine state machine of `src/core/engine` and of the later
  `cpuv/src/core/engine`. Each is a `class Engine` whose methods update the
  fields in place. Each method is proved equal to a function over `Machine`,
  a value holding every field. A panic of the engine thread is recorded in the
  field `fault`, after which nothing runs. The outbound channels are
  append-only sequences. One iteration of the `run` loop takes the optional
  command that `try_recv` returned. The lemmas prove:
  - what each command does;
  - that an iteration keeps the instruction pointer within the label;
  - that a running program with one instruction per tick ends in
    `Stopped` after exactly its length plus one iterations;
  - that the later engine agrees with the earlier one except where it reaches
    `todo!()`.

The model keeps these behaviours of the code, some of them surprising:

- A label's name is the whole trimmed header line, `@start` included. The
  start label is the first label whose name contains `start`.
- A malformed line panics (`unwrap`), which ends the engine thread. It is not
  a recoverable parse error.
- In `cpuv/src/core/engine/runner.rs`, reaching any instruction ends in
  `todo!()`. The step does not dispatch on the instruction type.
- `Start` on a stopped engine unwraps its payload, so a missing payload
  panics.
- `ParseFile` and `ParseWithoutUpdate` replace a missing payload with the
  text `ERROR: Payload must not be none!`. That text parses to the empty
  program.
- The earlier type table has no mnemonic for `JEQ`, `JNE`, `CAL` and `MOV`,
  although they are instruction types with flags.
- `parse_extern` and `parse_label` return "length − 1" when they run out of
  lines. The main loop therefore examines the last line of the file again.
  A label header on the very last line panics on the subtraction in a debug
  build (a release build wraps instead; see "Left out").

## Model

| member | source | states |
|---|---|---|
| RustStd.TrimStart | src/core/lang/types.rs:211 | the result is a suffix of the input; every character dropped is whitespace; the result does not start with whitespace |
| RustStd.TrimEnd | src/core/lang/types.rs:211 | the result is a prefix of the input; every character dropped is whitespace; the result does not end with whitespace |
| RustStd.Trim | src/core/lang/types.rs:211 | `str::trim`: the result occurs in the input and neither starts nor ends with whitespace |
| RustStd.TrimRemovesOnlyEnds | src/core/lang/types.rs:211 | `str::trim` removes only the surrounding whitespace: everything before and after the result's position in the input is whitespace |
| RustStd.TrimmedAlready | src/core/lang/types.rs:211 | trimming a string without surrounding whitespace changes nothing |
| RustStd.TrimKeeps | src/core/IR/parser.rs:50-51 | trimming keeps every non-whitespace character, so a header still contains `@` after `trim` |
| RustStd.ContainsAt | src/core/IR/parser.rs:17 | `str::contains` holds exactly when the pattern occurs at some index |
| RustStd.ContainsChar | src/core/IR/parser.rs:50 | a one-character pattern is contained exactly when the character occurs |
| RustStd.ContainsInSlice | src/core/IR/parser.rs:17 | a pattern contained in a slice is contained in the whole string |
| RustStd.TrimContains | src/core/IR/parser.rs:50-51 | a pattern contained in the trimmed string is contained in the original |
| RustStd.SplitOnce | src/core/lang/types.rs:211 | `split_once`: `None` exactly when the separator is absent; otherwise the parts rebuild the input around the first separator |
| RustStd.SplitOnceAt | src/core/IR/parser.rs:18 | `split_once` splits at the first occurrence of the separator |
| RustStd.Split | src/core/IR/parser.rs:7 | `split` gives at least one piece, and no piece contains the separator |
| RustStd.SplitJoin | src/core/IR/parser.rs:7 | joining the pieces of `split` with the separator gives the input back |
| RustStd.SplitN | src/core/IR/parser.rs:127 | `splitn(n)` gives between 1 and n pieces; only the last may contain the separator, and only when there are n pieces |
| RustStd.SplitNJoin | src/core/IR/parser.rs:127 | joining the pieces of `splitn` with the separator gives the input back |
| RustStd.ToLower | src/core/lang/types.rs:183 | `to_lowercase`, characterwise and length-preserving |
| RustStd.LowerIgnoresCase | src/core/lang/types.rs:183 | lower-casing is idempotent and ignores a prior upper-casing |
| Blocks.FirstEnd | src/core/IR/parser.rs:82-89 | the index of the first line ending the block, with no earlier line ending it; `None` exactly when no line ends it |
| Blocks.NonEmpty | src/core/IR/parser.rs:83-85 | the lines a block reader does not skip: never longer than the block, none empty |
| Blocks.Scan | src/core/IR/parser.rs:79-95 | the skip a block reader returns never passes the block, and equals its length only for a reader that returns `len()` |
| Blocks.CollectInOrder | src/core/IR/parser.rs:82-92 | collected items correspond one-to-one and in order to the non-empty lines; a panic is that of the first line whose item panics |
| Blocks.ScanInOrder | src/core/IR/parser.rs:79-117 | a block stops at its first end line, or returns `len()` or `len() - 1` when none; its items are those of the non-empty lines before the stop, in order |
| Blocks.ScanPanics | src/core/IR/parser.rs:94 | a block reader panics only on an empty block with `len() - 1`, or with the panic of some line's item before any end line |
| Blocks.ScanStopsAtFirst | src/core/IR/parser.rs:87-89 | the skip is the index of the first end line |
| Blocks.ScanRunsOut | src/core/IR/parser.rs:139 | with no end line, the skip is `len()` or `len() - 1` as the reader returns |
| Blocks.NonEmptyFrom | src/core/IR/parser.rs:83-85 | every line kept is a line of the block |
| Lang.NewProgram | src/core/lang/types.rs:14-21 | no externs, no data, no labels; asking it for a start label panics |
| Lang.FirstStart | src/core/lang/types.rs:23-31 | the index of the first label whose name contains `start`; `None` exactly when none does |
| Lang.StartLabel | src/core/lang/types.rs:23-31 | panics exactly when there are no labels; otherwise the first label containing `start`, or `Err` when no label contains it |
| Lang.GetStartLabel | src/core/lang/types.rs:23-31 | the early-return loop finds the same label as `StartLabel` |
| Lang.Lookup | src/core/lang/types.rs:183-200 | a `match` over string arms: a found value is paired with the key in the table; `None` exactly when no arm has the key |
| Lang.LookupAt | src/core/lang/types.rs:183-200 | the first arm with the key wins |
| Lang.DataTypeNamesAgree | src/core/lang/types.rs:90-114 | each arm of `DataType::from_str` spells the name of the type it yields |
| Lang.DataTypeFromStr | src/core/lang/types.rs:90-114 | a parsed type's name is the lower-cased input; otherwise the error text names the input |
| Lang.DataTypeNameFound | src/core/lang/types.rs:90-114 | every data type has an arm |
| Lang.DataTypeNameRoundTrip | src/core/lang/types.rs:90-114 | a type's name, in lower or upper case, parses back to that type |
| Lang.DataTypeNameShape | src/core/lang/types.rs:90-114 | every type name is one non-empty word |
| Lang.DataTypeFromStrExact | src/core/lang/types.rs:90-114 | parsing succeeds exactly when the lower-cased input names a type, and distinct types have distinct names |
| Lang.MnemonicsAgree | src/core/lang/types.rs:179-202 | each arm of `InstructionType::from_str` spells the mnemonic of the type it yields |
| Lang.InstructionTypeFromStr | src/core/lang/types.rs:179-202 | a parsed type's mnemonic is the lower-cased input; otherwise the error is `Unknown instruction: ` followed by the input |
| Lang.MnemonicFound | src/core/lang/types.rs:179-202 | every instruction type has an arm |
| Lang.MnemonicRoundTrip | src/core/lang/types.rs:179-202 | a mnemonic, in lower or upper case, parses back to its type |
| Lang.InstructionTypeFromStrExact | src/core/lang/types.rs:179-202 | parsing succeeds exactly when the lower-cased input is a mnemonic, and mnemonics are distinct |
| Lang.InstructionFromStr | src/core/lang/types.rs:204-244 | a parsed line's type is its lower-cased first word; a bare word is valueless with an empty operand; an unknown first word gives that word's error |
| Lang.BareMnemonic | src/core/lang/types.rs:214-223 | a line of one word is accepted exactly when it is `NOP`, and then with an empty operand |
| Lang.OperandIsRest | src/core/lang/types.rs:211-242 | with a space, the operand is everything after the first space, split as `OperandOf` says |
| Lang.OperandOfSplits | src/core/lang/types.rs:227-241 | only a `JMP` operand containing a comma is split, at its first comma; every other operand is kept whole |
| Lang.NopKeepsOperand | src/core/lang/types.rs:211-224 | `NOP` followed by a space and any operand not ending in whitespace is accepted with that whole operand; the valueless check applies only to one-word lines |
| Lang.DefaultRegisters | src/core/lang/types.rs:246-335 | the default register file holds zero in every one of its 72 registers |
| Lang.AllZeroIsDefault | src/core/lang/types.rs:246-335 | the default register file is the only all-zero one |
| Lang.InstructionType.HasMultipleValues | src/core/lang/types.rs:164-169 | only the type whose mnemonic is `jmp` takes a pair of operands |
| Lang.InstructionType.IsValueless | src/core/lang/types.rs:171-176 | only the type whose mnemonic is `nop` may be written bare, and it never takes a pair of operands |
| OldLang.Zeros | src/core/types.rs:94 | the zero-filled buffer a fresh value of a type holds |
| OldLang.Spaces | src/core/types.rs:97-102 | the blank string buffer a fresh string type holds |
| OldLang.DataTypeArmsAgree | src/core/types.rs:82-106 | each arm of `DataType::from_str` spells the name of the type it yields |
| OldLang.BlankIsInitial | src/core/types.rs:87-103 | a freshly created value keeps its type's name, has the buffer size of that type, and is unchanged by blanking again |
| OldLang.DataTypeFromStr | src/core/types.rs:82-106 | a parsed type's name is the lower-cased input and it holds a fresh buffer of the right size; otherwise the error names the input |
| OldLang.TypeNameFound | src/core/types.rs:87-103 | every data type has an arm, yielding a fresh value of that type |
| OldLang.DataTypeRoundTrip | src/core/types.rs:82-106 | a type's name, in lower or upper case, parses back to a fresh value of that type |
| OldLang.DataTypeFromStrExact | src/core/types.rs:82-106 | parsing succeeds exactly when the lower-cased input names a type |
| OldLang.MnemonicTypesListed | src/core/types.rs:357-421 | the instruction types with a mnemonic arm are exactly those with one: every type except `JEQ`, `JNE`, `CAL` and `MOV` |
| OldLang.MnemonicsAgree | src/core/types.rs:357-421 | each arm spells the name of the type it yields |
| OldLang.InstructionTypeFromStr | src/core/types.rs:357-421 | a parsed type's name is the lower-cased input and it has an arm; otherwise the error is `Unknown instruction: ` followed by the input |
| OldLang.NameInjective | src/core/types.rs:133-218 | distinct instruction types have distinct names |
| OldLang.NameDecodes | src/core/types.rs:133-218 | every name is three lower-case letters that identify its type |
| OldLang.MnemonicFound | src/core/types.rs:357-421 | every type with an arm is found by its name |
| OldLang.NameRoundTrip | src/core/types.rs:357-421 | a name, in lower or upper case, parses back to its type |
| OldLang.NameShape | src/core/types.rs:133-218 | every name is three lower-case letters |
| OldLang.InstructionTypeFromStrExact | src/core/types.rs:357-421 | parsing succeeds exactly when the lower-cased input is the name of a type with an arm, and never yields `JEQ`, `JNE`, `CAL` or `MOV` |
| OldLang.NewProgram | src/core/types.rs:12-20 | `Program::new`: no data, no labels, no environment |
| OldLang.InstructionType.HasMultipleValues | src/core/types.rs:333-338 | only the type named `jmp` takes a pair of operands; it has a mnemonic and affects no flag |
| OldLang.InstructionType.IsValueless | src/core/types.rs:340-354 | the valueless types are exactly the register transfers and stack operations (names starting with `t` or `p`); each has a mnemonic and none takes a pair of operands |
| OldLang.FlagsDistinct | src/core/types.rs:234-331 | no instruction lists a flag twice |
| OldLang.NegativeWithZero | src/core/types.rs:234-331 | an instruction affects Negative exactly when it affects Zero |
| OldLang.AllFlagsOnlyRestores | src/core/types.rs:254-330 | only `PLP` and `RTI` affect every flag, and they list all seven |
| OldLang.CarryOnly | src/core/types.rs:308 | exactly `CLC` and `SEC` affect only Carry |
| OldLang.DecimalOnly | src/core/types.rs:309 | exactly `CLD` and `SED` affect only Decimal |
| OldLang.InterruptOnly | src/core/types.rs:310-315 | exactly `CLI`, `SEI`, `CAL` and `MOV` affect only Interrupt |
| OldLang.SingleFlag | src/core/types.rs:308-319 | the instructions affecting exactly one flag are the seven flag set and clear instructions, `CAL`, `MOV` and `BRK` |
| OldLang.OverflowOrBreakOnly | src/core/types.rs:316-319 | only `CLV` affects only Overflow, and only `BRK` affects only Break |
| OldLang.OverflowSetters | src/core/types.rs:234-331 | Overflow is affected by exactly `BIT`, `ADC`, `SBC`, `CLV`, `PLP` and `RTI` |
| OldLang.CarrySetters | src/core/types.rs:234-331 | Carry is affected by exactly the arithmetic, compare, shift and carry instructions and `PLP` and `RTI` |
| OldLang.NoFlags | src/core/types.rs:234-331 | the instructions affecting no flag are the stores, `PHP`, the jumps and branches, and `NOP` |
| OldLang.Arms | src/core/types.rs:357-421 | one arm per listed type, spelling its name |
| OldLang.OperandOf | src/core/types.rs:445-461 | only a `JMP` operand containing a comma is split, at its first comma; every other operand is kept whole |
| OldLang.InstructionFromStr | src/core/types.rs:423-464 | a parsed line's type is its lower-cased first word and it carries that type's flags; a bare word is valueless with an empty operand; an unknown first word gives that word's error |
| OldLang.BareMnemonic | src/core/types.rs:433-443 | a one-word line is accepted exactly for a valueless type; any other known type gives the `not valueless` error naming the word and the type |
| OldLang.OperandIsRest | src/core/types.rs:430-462 | with a space, the operand is everything after the first space, split as `OperandOf` says |
| OldLang.ValuelessRoundTrip | src/core/types.rs:340-354 | the bare name of a valueless type parses to that type with an empty operand |
| OldLang.WrittenRoundTrip | src/core/types.rs:423-464 | a name followed by a space and an operand parses to that type, that operand and that type's flags |
| IRParser.HasJumpMnemonics | src/core/IR/parser.rs:72-77 | `has_jump` holds exactly when the line contains the upper-case mnemonic of a jump type |
| IRParser.VariableWords | src/core/IR/parser.rs:127 | a variable line splits into one to three words that rebuild the trimmed line |
| IRParser.VariableItem | src/core/IR/parser.rs:127-136 | a variable line is read exactly when its first word names a type and it has three words |
| IRParser.VariableLineShape | src/core/IR/parser.rs:127-136 | a read variable line is its type word, its name and its value separated by spaces |
| IRParser.VariableRoundTrip | src/core/IR/parser.rs:119-136 | writing a type, a name and a value on one line reads them back |
| IRParser.ParseExtern | src/core/IR/parser.rs:79-95 | the loop collects the trimmed non-empty lines up to the next section line, or returns `len() - 1` |
| IRParser.ParseLabel | src/core/IR/parser.rs:97-117 | the loop reads one instruction per non-empty line up to the next label header or section line, or returns `len() - 1` |
| IRParser.ParseVariables | src/core/IR/parser.rs:119-140 | the loop reads one variable per non-empty line up to the next section line, or returns `len()` |
| IRParser.OpenSection | src/core/IR/parser.rs:17-48 | a section's skip never passes the end of the file; what a section adds to the program is stated by `DataResumes` and `ExternResumes` |
| IRParser.OpenLabel | src/core/IR/parser.rs:50-66 | a label's skip never passes the end of the file; the label it appends is stated by `LabelResumes` |
| IRParser.Examine | src/core/IR/parser.rs:17-66 | after a line and its skip, the next line examined is within the file |
| IRParser.ParseFromStep | src/core/IR/parser.rs:11-16 | the loop goes on from the line after the skip, with the updated program |
| IRParser.ParseResumes | src/core/IR/parser.rs:11-16 | a panic while examining a line ends the parse; otherwise the parse resumes after the skip |
| IRParser.SectionLine | src/core/IR/parser.rs:17-48 | the section dispatch of one line agrees with `OpenSection` |
| IRParser.LabelLine | src/core/IR/parser.rs:50-66 | opening a label agrees with `OpenLabel` |
| IRParser.ExamineLine | src/core/IR/parser.rs:17-66 | the handling of one line agrees with `Examine` |
| IRParser.ResumeAfter | src/core/IR/parser.rs:11-66 | the line handling either ends the parse with its panic, or leaves a state from which the parse gives the same program |
| IRParser.ParseInput | src/core/IR/parser.rs:5-70 | the skip-counter loop over the lines computes `Parse` |
| IRParser.ExamineLabels | src/core/IR/parser.rs:50-66 | one line adds at most one label, named after that line, and only when the line is a header |
| IRParser.LabelsGrowStep | src/core/IR/parser.rs:50-66 | labels added by one line and then by later lines are all in file order |
| IRParser.LabelsFromHeaders | src/core/IR/parser.rs:11-66 | the parse only appends labels; those it adds come from header lines, in file order |
| IRParser.LabelsGrowFromNone | src/core/IR/parser.rs:5-66 | starting from the empty program, every label comes from a header line in file order, and a file without headers has no labels |
| IRParser.ParsedLabels | src/core/IR/parser.rs:5-70 | a parsed file's labels come from its header lines in file order, and a file without headers has no labels; the converse, that each examined header appends its label, is `LabelResumes` |
| IRParser.SectionDispatch | src/core/IR/parser.rs:17-45 | a section line without a space panics on `unwrap`; `.program:` is passed over; an unknown name panics with the `Invalid Section Name` message |
| IRParser.IgnoredLine | src/core/IR/parser.rs:17-66 | a line that is neither a section nor a label header is passed over |
| IRParser.ItemsNeverExplicit | src/core/IR/parser.rs:79-140 | no block reader raises an explicit `panic!` |
| IRParser.LabelItemNeverExplicit | src/core/IR/parser.rs:113 | reading an instruction only panics on `unwrap` |
| IRParser.VariableItemNeverExplicit | src/core/IR/parser.rs:132-136 | reading a variable only panics on `unwrap` or indexing |
| IRParser.OpenSectionExplicit | src/core/IR/parser.rs:20-45 | an explicit panic while opening a section means an unknown section name, with that name's message |
| IRParser.OpenLabelNeverExplicit | src/core/IR/parser.rs:50-66 | opening a label never raises an explicit `panic!` |
| IRParser.ExamineExplicit | src/core/IR/parser.rs:17-66 | an explicit panic on a line means that line is a section line with an unknown name |
| IRParser.ExplicitPanicIsBadSection | src/core/IR/parser.rs:11-66 | an explicit panic of the parse comes from a bad section line at or after the start |
| IRParser.HeaderOnLastLine | src/core/IR/parser.rs:116 | a label header on the last line panics on the subtraction `len() - 1`, as a debug build does |
| IRParser.ExternCollectDone | src/core/IR/parser.rs:91 | reading an extern line never fails |
| IRParser.ExternScanToEnd | src/core/IR/parser.rs:79-94 | an extern block without a following section returns `len() - 1` |
| IRParser.ExternLastLineAgain | src/core/IR/parser.rs:28-32 | an extern section running to the end of the file makes the loop examine the last line again |
| IRParser.ExternOpensToEnd | src/core/IR/parser.rs:28-32 | an extern section running to the end records its functions and skips all but the last line |
| IRParser.DataRunsToEnd | src/core/IR/parser.rs:21-25 | a data section running to the end records its variables and ends the parse |
| IRParser.ExamineHeader | src/core/IR/parser.rs:50-52 | a header line that is not a section line is handled by opening a label named after the trimmed line |
| IRParser.LabelResumes | src/core/IR/parser.rs:11-66 | after a header, the parse ends in the label block's panic, or resumes past the block's skip with `Label(trimmed line, Some(instructions))` appended |
| IRParser.LabelEndsAt | src/core/IR/parser.rs:97-111 | a label ends at the next header or section line, where the parse resumes with that label appended |
| IRParser.DataResumes | src/core/IR/parser.rs:11-25 | after a `.data:` line, the parse ends in the block's panic, or resumes past the block's skip with the variables read as the data |
| IRParser.ExternResumes | src/core/IR/parser.rs:11-32 | after an `.extern` line, the parse ends in the block's panic, or resumes past the block's skip with the functions read recorded |
| IRParser.DataEndsAt | src/core/IR/parser.rs:119-130 | a data section ends at the next section line, where the parse resumes with its variables as the data |
| IRParser.ExternEndsAt | src/core/IR/parser.rs:79-94 | an extern section before another section line never panics, and the parse resumes at that line with its functions recorded |
| IRParser.BlockEndsAt | src/core/IR/parser.rs:100-111 | a block whose first end line is `j` skips exactly the lines up to `j` |
| IRParser.SectionResumes | src/core/IR/parser.rs:17-48 | after a section line the parse resumes past the section's skip, or ends with its panic |
| IRParser.ExamineSection | src/core/IR/parser.rs:17-48 | a section line is handled by the section dispatch |
| OldParser.ParseLabel | src/core/parser.rs:66-82 | the loop reads one instruction per non-empty line up to the next label header, or returns `len() - 1` |
| OldParser.NoThreeLetterWord | src/core/parser.rs:78 | a line whose first word is not three letters panics with `Unknown instruction` |
| OldParser.SectionLineInLabel | src/core/parser.rs:69-78 | the label reader does not stop at a `.section` line; it panics on it as an unknown instruction |
| OldParser.SectionLinePanics | src/core/parser.rs:78 | reading a `.section` line as an instruction panics with `Unknown instruction: .section` |
| OldParser.SectionLineNoHeader | src/core/parser.rs:74 | a `.section` line without `_` is not a label header |
| OldParser.OpenLabel | src/core/parser.rs:42-57 | a label's skip never passes the end of the file |
| OldParser.Examine | src/core/parser.rs:19-58 | after a line and its skip, the next line examined is within the file |
| OldParser.ParseFromStep | src/core/parser.rs:13-17 | the loop goes on from the line after the skip, with the updated program |
| OldParser.ParseResumes | src/core/parser.rs:13-17 | a panic while examining a line ends the parse; otherwise the parse resumes after the skip |
| OldParser.LabelLine | src/core/parser.rs:42-57 | opening a label agrees with `OpenLabel` |
| OldParser.ExamineLine | src/core/parser.rs:19-58 | the handling of one line agrees with `Examine` |
| OldParser.ResumeAfter | src/core/parser.rs:13-58 | the line handling either ends the parse with its panic, or leaves a state from which the parse gives the same program |
| OldParser.ParseFile | src/core/parser.rs:7-64 | the skip-counter loop over the lines computes `Parse` |
| OldParser.ExamineLabels | src/core/parser.rs:42-57 | one line adds at most one label, named after that line, and only when the line is a header |
| OldParser.LabelsGrowStep | src/core/parser.rs:42-57 | labels added by one line and then by later lines are all in file order, and data and environment stay |
| OldParser.LabelsFromHeaders | src/core/parser.rs:13-58 | the parse only appends labels; those it adds come from header lines, in file order |
| OldParser.LabelsGrowFromNone | src/core/parser.rs:7-58 | starting from the empty program, every label comes from a header in file order, a file without headers has no labels, and data stays empty |
| OldParser.ParsedLabels | src/core/parser.rs:7-64 | a parsed file's labels come from its header lines in file order; a file without headers has no labels; no data is ever read |
| OldParser.SectionDispatch | src/core/parser.rs:19-40 | a section line without a space panics on `unwrap`; `.data:` and `.program:` are passed over; an unknown name panics with the `Invalid Section Name` message |
| OldParser.IgnoredLine | src/core/parser.rs:19-58 | a line that is neither a section nor a label header is passed over |
| OldParser.LabelItemNeverExplicit | src/core/parser.rs:78 | reading an instruction only panics on `unwrap` |
| OldParser.OpenLabelNeverExplicit | src/core/parser.rs:42-57 | opening a label never raises an explicit `panic!` |
| OldParser.ExamineExplicit | src/core/parser.rs:19-58 | an explicit panic on a line means that line is a section line with an unknown name |
| OldParser.ExplicitPanicIsBadSection | src/core/parser.rs:13-58 | an explicit panic of the parse comes from a bad section line at or after the start |
| OldParser.ParsedExplicitPanic | src/core/parser.rs:7-64 | an explicit panic of `parse_file` names a bad section line of the file |
| OldParser.HeaderOnLastLine | src/core/parser.rs:81 | a label header on the last line panics on the subtraction `len() - 1`, as a debug build does |
| OldParser.ExamineHeader | src/core/parser.rs:42-44 | a header line is handled by opening a label named after the trimmed line |
| OldParser.LabelResumes | src/core/parser.rs:42-57 | after a header the label is appended and the parse resumes past the label's skip |
| OldParser.LabelEndsAtHeader | src/core/parser.rs:74-75 | a label ends at the next header, where the parse resumes |
| OldParser.LabelLastLineAgain | src/core/parser.rs:81 | a label running to the end of the file makes the loop examine the last line again |
| EngineProtocol.Extract | src/core/engine/engine.rs:23-27 | the payload, or the fixed error text when there is none |
| EngineProtocol.FailureLogIsExit | src/core/engine/engine.rs:207-220 | the only step error, the end of the label, is logged as a successful exit and never at ERROR |
| Engine.InstructionStep | src/core/engine/runner.rs:16-58 | `ipt == 0` panics; off-ticks wait; on a tick, no label panics, a pointer past the end is `EndOfLabel`, and otherwise the instruction executes and the pointer advances by exactly one; nothing else changes |
| Engine.NewMachine | src/core/engine/engine.rs:129-162 | a new engine is stopped at tick 0 and pointer 0, has no program, no label, no snapshots and no logs |
| Engine.CurrentState | src/core/engine/engine.rs:164-173 | a snapshot carries the tick, the running state, the rendered program, the registers and the command answered |
| Engine.Engine.constructor | src/core/engine/engine.rs:129-162 | the fields hold the new machine and the given options |
| Engine.Engine.Initialize | src/core/engine/engine.rs:190 | appends the initialisation log line and changes nothing else |
| Engine.Engine.SendState | src/core/engine/engine.rs:164-173 | appends the current snapshot and changes nothing else |
| Engine.Engine.ParsePayload | src/core/engine/engine.rs:240 | returns the parsed program, or records the parser's panic as the engine's fault |
| Engine.Engine.LoadProgram | src/core/engine/engine.rs:240-246 | `Start` from stopped, after `RunClientCommands` has reset the counters: unwrap the payload, parse, select the start label, keep the program, answer |
| Engine.Engine.RunClientCommands | src/core/engine/engine.rs:233-285 | updates the fields exactly as `RunClientCommand` says |
| Engine.Engine.RunInstruction | src/core/engine/runner.rs:16-58 | returns the result and the counters `InstructionStep` gives, touching no other field |
| Engine.Engine.RunStep | src/core/engine/engine.rs:203-229 | one running step updates the fields exactly as `RunningStep` says |
| Engine.Engine.RunIteration | src/core/engine/engine.rs:193-230 | one iteration of the `run` loop updates the fields exactly as `Iteration` says |
| Engine.CommandsKeepLogsAndRegisters | src/core/engine/engine.rs:233-285 | no command writes a log line or a register |
| Engine.StartFromStoppedFails | src/core/engine/engine.rs:236-243 | `Start` from stopped panics exactly when the payload is missing, does not parse, or gives no labels |
| Engine.StartFromStopped | src/core/engine/engine.rs:236-246 | `Start` from stopped with a good program runs it from tick 0 and pointer 0 at its start label and answers once |
| Engine.StartResumes | src/core/engine/engine.rs:247-249 | `Start` on a running or paused engine only sets it running |
| Engine.PauseAndStop | src/core/engine/engine.rs:252-262 | `Pause` and `Stop` set the running state, keep counters and program, and answer once |
| Engine.ParseFileReplacesProgram | src/core/engine/engine.rs:264-270 | `ParseFile` fails exactly when parsing panics; otherwise it replaces the program and answers, keeping counters and label |
| Engine.ParseWithoutUpdateKeepsEngine | src/core/engine/engine.rs:272-280 | `ParseWithoutUpdate` keeps the engine and sends one snapshot showing the freshly parsed program |
| Engine.PlainLineParsesEmpty | src/core/IR/parser.rs:5-70 | a single line without `.` or `@` parses to the empty program |
| Engine.MissingPayloadParsesEmpty | src/core/engine/engine.rs:23-27 | the text standing in for a missing payload parses to the empty program |
| Engine.ParseFileWithoutPayload | src/core/engine/engine.rs:264-267 | `ParseFile` without a payload loads the empty program, from which `Start` panics |
| Engine.TranslationPanics | src/core/engine/engine.rs:282-283 | the two translation commands end the engine in `todo!()` and change nothing else |
| Engine.IdleIteration | src/core/engine/engine.rs:198-200 | without a command, a stopped or paused engine does nothing |
| Engine.RunningIteration | src/core/engine/engine.rs:198-229 | a running iteration sends one snapshot, advances the tick, and either executes, waits, or stops with the exit log at the end of the label |
| Engine.RunningWithoutInstructions | src/core/engine/runner.rs:23-29 | a running engine without a label's instructions panics on its next instruction tick |
| Engine.PauseThenStartPanics | src/core/engine/engine.rs:236-256 | `Pause` then `Start` on a fresh engine panics: it resumes with no label |
| Engine.CommandKeepsPointerInRange | src/core/engine/engine.rs:233-285 | no command moves the pointer past the label's end |
| Engine.StepKeepsPointerInRange | src/core/engine/runner.rs:31-57 | a step never moves the pointer past the label's end |
| Engine.IterationKeepsPointerInRange | src/core/engine/engine.rs:193-230 | an iteration keeps the pointer within the current label |
| Engine.Run | src/core/engine/engine.rs:193-230 | a bounded run of the loop; once the engine has failed nothing changes |
| Engine.RunToEnd | src/core/engine/engine.rs:193-230 | with one instruction per tick, a running program stops with the exit log after exactly its remaining instructions plus one iterations, one snapshot each |
| CpuvEngine.DefaultConfigRunsEveryTick | cpuv/src/config.rs:83-92 | the default configuration executes on every tick at a positive tick rate |
| CpuvEngine.InstructionStep | cpuv/src/core/engine/runner.rs:16-43 | a step never executes an instruction: it reaches `todo!()` exactly where the earlier step would execute |
| CpuvEngine.NewMachine | cpuv/src/core/engine/engine.rs:117-149 | a new engine is stopped at tick 0 and pointer 0, with no program, label, snapshots or logs |
| CpuvEngine.CurrentState | cpuv/src/core/engine/engine.rs:151-160 | a snapshot carries the tick, the running state, the program itself, the registers and the command answered |
| CpuvEngine.Engine.constructor | cpuv/src/core/engine/engine.rs:117-149 | the fields hold the new machine and the given configuration |
| CpuvEngine.Engine.Initialize | cpuv/src/core/engine/engine.rs:178 | appends the initialisation log line and changes nothing else |
| CpuvEngine.Engine.SendState | cpuv/src/core/engine/engine.rs:151-160 | appends the current snapshot and changes nothing else |
| CpuvEngine.Engine.ParsePayload | cpuv/src/core/engine/engine.rs:250-253 | returns the parsed program, or records the parser's panic as the engine's fault |
| CpuvEngine.Engine.LoadProgram | cpuv/src/core/engine/engine.rs:224-230 | `Start` from stopped, after `RunClientCommands` has reset the counters: unwrap the payload, parse, select the start label, keep the program, answer |
| CpuvEngine.Engine.RunClientCommands | cpuv/src/core/engine/engine.rs:217-272 | updates the fields exactly as `RunClientCommand` says |
| CpuvEngine.Engine.RunInstruction | cpuv/src/core/engine/runner.rs:16-43 | returns the result `InstructionStep` gives and changes no field |
| CpuvEngine.Engine.RunStep | cpuv/src/core/engine/engine.rs:186-213 | one running step updates the fields exactly as `RunningStep` says |
| CpuvEngine.Engine.RunIteration | cpuv/src/core/engine/engine.rs:181-213 | one iteration of the `run` loop updates the fields exactly as `Iteration` says |
| CpuvEngine.RenderedAll | cpuv/src/core/engine/engine.rs:151-160 | renders every snapshot, keeping their order |
| CpuvEngine.CurrentStateAgrees | cpuv/src/core/engine/engine.rs:151-160 | a snapshot, rendered, is the earlier engine's snapshot |
| CpuvEngine.AnswerAgrees | cpuv/src/core/engine/engine.rs:151-160 | answering a command sends what the earlier engine sends |
| CpuvEngine.StepAgrees | cpuv/src/core/engine/runner.rs:16-43 | the step is the earlier engine's step, except that executing an instruction becomes `todo!()` |
| CpuvEngine.CommandAgrees | cpuv/src/core/engine/engine.rs:217-272 | every command except `ParseWithoutUpdate` is handled as by the earlier engine |
| CpuvEngine.ParseWithoutUpdateAgrees | cpuv/src/core/engine/engine.rs:259-267 | `ParseWithoutUpdate` differs from the earlier engine only in sending the program instead of its rendering |
| CpuvEngine.RunningStepAgrees | cpuv/src/core/engine/engine.rs:186-213 | a running step is the earlier engine's unless that would execute; then it ends in `todo!()` after the same snapshot |
| CpuvEngine.IterationAgrees | cpuv/src/core/engine/engine.rs:177-215 | an iteration is the earlier engine's unless it would execute an instruction, where it ends in `todo!()` with the same counters |
| CpuvEngine.ReachedInstructionPanics | cpuv/src/core/engine/runner.rs:38-40 | reaching an instruction on an instruction tick ends the engine in `todo!()` with its counters unchanged |
| CpuvEngine.EmptyLabelExits | cpuv/src/core/engine/engine.rs:186-213 | with the default configuration, a running engine past its last instruction stops with the exit log after one snapshot |

## Left out

- The user interface, configuration loading (`cpuv/src/config.rs` beyond the engine defaults), `main.rs`, `core.rs` and the obsolete `src/core/engine.rs` are not part of this model.
- The channels become append-only sequences. Thread spawning, `try_recv` timing, `thread::sleep` and the clock are not modelled. Neither is the time stamp in log lines. A send that fails is ignored, as in the code.
- `println!` (`src/core/parser.rs:61`, `src/core/engine/runner.rs:36`) writes to standard output only and is left out.
- The `{:#?}` text that the earlier engine sends is kept as the rendered value, not as characters.
- `trim` uses the Unicode White_Space set. `to_lowercase` and `to_uppercase` map ASCII letters only; full Unicode case mapping is not modelled.
- The floating-point payloads of the earlier `Real4` and `Real8` data types are modelled by their tags only.
- `usize` counters are unbounded. The tick counter's overflow after 2^64 ticks is not modelled. The one `usize` subtraction that can go below zero (`len() - 1` on an empty block) is modelled as the panic it raises in a debug build. A release build wraps it to `usize::MAX` instead, on any empty block read by `parse_label` or `parse_extern`: a label header on the last line then becomes a label with no instructions, an `.extern` line on the last line records an empty function list (`Some([])`), and the parse succeeds. That release behaviour is not modelled.
- The register file is a record of integer fields with their default zeros. Instructions never write it in either engine. The heap simulation (`heap_memory_size`, access simulation) is not used by the engine and is left out.
- `cpuv/src/core/engine` parses with the `IR` parser of `cpuv`. That source is not part of this model, and it is modelled by `IRParser` with the tables of `src/core/lang/types.rs`.
- The `run` loop itself never returns. The model is one iteration (`Iteration`) plus the bounded `Engine.Run`.
- Engine.Run: the number of iterations is a parameter, since the source loops forever.
- OldParser.ParseFrom and its lemmas take the instruction reader as a parameter. They are stated for every reader, and `OldParser.Parse` uses `LabelItem`.
